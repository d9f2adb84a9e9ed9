/** The store-backed subscription provider (internal/webhooks/store_provider.go). */
module StoreProvider {
  import opened KeyOrder
  import opened KeyFormat
  import opened Storage
  import opened Subscriptions
  import opened FirstWinsUnion
  import opened DeadLetters
  import opened Loading

  const SUBSCRIPTIONS_BUCKET := "webhook_subscriptions"

  function AsSubscription(b: Blob): Option<Subscription> {
    if b.SubscriptionJson? then Some(b.sub) else None
  }

  /** The filter ListSubscriptions applies itself; it ignores the event type. */
  function Concerns(service: string, tenantId: string): Subscription -> bool {
    (s: Subscription) => (service == "" || s.service == service) && (tenantId == "" || s.tenantId == tenantId)
  }

  /** Every subscription sits under its own id. */
  ghost predicate KeyedById(bucket: map<string, Blob>) {
    forall k | k in bucket && bucket[k].SubscriptionJson? :: bucket[k].sub.id == k
  }

  /** A nil field keeps the current value. */
  datatype Patch = Patch(url: Option<string>, enabled: Option<bool>, events: Option<seq<string>>,
                         secret: Option<string>, tenantId: Option<string>)

  class StoreProvider {
    const store: BBoltStore<Blob>

    constructor (store: BBoltStore<Blob>)
      ensures this.store == store
    {
      this.store := store;
    }

    function Bucket(): map<string, Blob>
      reads store
    {
      store.Bucket(SUBSCRIPTIONS_BUCKET)
    }

    ghost predicate Valid()
      reads store
    {
      store.Valid() && KeyedById(Bucket())
    }

    method ListSubscriptions(service: string, tenantId: string, fault: bool, views: Views<Blob>, faults: nat -> bool)
      returns (r: Result<seq<Subscription>>, ghost places: seq<nat>)
      requires Valid()
      ensures r.Ok? ==>
                var all := Loaded(Sorted(Bucket().Keys), views, faults, AsSubscription);
                && all.Ok? && |r.value| == |places|
                && (forall a, b | 0 <= a < b < |places| :: places[a] < places[b])
                && (forall a | 0 <= a < |places| :: places[a] < |all.value| && r.value[a] == all.value[places[a]])
                && (forall i: nat :: i in places <==>
                      i < |all.value| && (service == "" || all.value[i].service == service)
                      && (tenantId == "" || all.value[i].tenantId == tenantId))
      ensures var all := Loaded(Sorted(Bucket().Keys), views, faults, AsSubscription);
              r == if fault then Err(Fault) else if all.Err? then all else Ok(Filter(all.value, Concerns(service, tenantId)))
    {
      var keys := store.List(SUBSCRIPTIONS_BUCKET, fault);
      if keys.Err? {
        return Err(keys.error), [];
      }
      var all := LoadKeys(keys.value, views, faults, AsSubscription);
      if all.Err? {
        return all, [];
      }
      var out: seq<Subscription> := [];
      for i := 0 to |all.value|
        invariant out == Filter(all.value[..i], Concerns(service, tenantId))
      {
        var sub := all.value[i];
        assert all.value[..i + 1] == all.value[..i] + [sub];
        FilterSnoc(all.value[..i], sub, Concerns(service, tenantId));
        if service != "" && sub.service != service {
          continue;
        }
        if tenantId != "" && sub.tenantId != tenantId {
          continue;
        }
        out := out + [sub];
      }
      assert all.value[..|all.value|] == all.value;
      places := FilterPlaces(all.value, Concerns(service, tenantId));
      return Ok(out), places;
    }

    method ListPage(cursor: string, limit: int, fault: bool, views: Views<Blob>, faults: nat -> bool)
      returns (r: Result<(seq<Subscription>, string)>)
      requires Valid()
      ensures var page := Page(Bucket().Keys, cursor, limit);
              var subs := Loaded(page, views, faults, AsSubscription);
              r == if fault then Err(Fault)
                   else if subs.Err? then Err(subs.error) else Ok((subs.value, NextCursor(page, limit)))
    {
      var page := store.ListPage(SUBSCRIPTIONS_BUCKET, cursor, limit, fault);
      if page.Err? {
        return Err(page.error);
      }
      var subs := LoadKeys(page.value.0, views, faults, AsSubscription);
      if subs.Err? {
        return Err(subs.error);
      }
      return Ok((subs.value, page.value.1));
    }

    /** A subscription without an id gets one from the clock; zero times are set to now. */
    method Create(sub: Subscription, keyNs: int, now: int, fault: bool) returns (created: Subscription, ok: bool)
      requires Valid()
      modifies store
      ensures Valid() && (ok <==> !fault)
      ensures created == sub.(id := if sub.id == "" then "sub_" + FormatInt(keyNs) else sub.id,
                              createdAt := if sub.createdAt == 0 then now else sub.createdAt,
                              updatedAt := if sub.updatedAt == 0 then now else sub.updatedAt)
      ensures Bucket() == if fault then old(Bucket()) else old(Bucket())[created.id := SubscriptionJson(created)]
      ensures forall b | b != SUBSCRIPTIONS_BUCKET :: store.Bucket(b) == old(store.Bucket(b))
    {
      created := sub;
      if created.id == "" {
        created := created.(id := "sub_" + FormatInt(keyNs));
      }
      if created.createdAt == 0 {
        created := created.(createdAt := now);
      }
      if created.updatedAt == 0 {
        created := created.(updatedAt := now);
      }
      ok := store.Write(SUBSCRIPTIONS_BUCKET, created.id, SubscriptionJson(created), fault);
    }

    /** Read, patch, write back. Id, service and creation time survive, and the result replaces
        the subscription it was read from, never another. */
    method Update(id: string, patch: Patch, now: int, readFault: bool, fault: bool) returns (r: Result<Subscription>)
      requires Valid()
      modifies store
      ensures Valid()
      ensures forall b | b != SUBSCRIPTIONS_BUCKET :: store.Bucket(b) == old(store.Bucket(b))
      ensures r.Ok? <==> !readFault && !fault && id in old(Bucket()) && old(Bucket())[id].SubscriptionJson?
      ensures r == Err(NotFound) <==> !readFault && id !in old(Bucket())
      ensures r.Err? ==> Bucket() == old(Bucket())
      ensures r.Ok? ==>
                var was := old(Bucket())[id].sub;
                && Bucket() == old(Bucket())[id := SubscriptionJson(r.value)]
                && r.value.id == id && r.value.service == was.service && r.value.createdAt == was.createdAt && r.value.updatedAt == now
                && r.value.url == (match patch.url case Some(x) => x case None => was.url)
                && r.value.enabled == (match patch.enabled case Some(x) => x case None => was.enabled)
                && r.value.events == (match patch.events case Some(x) => x case None => was.events)
                && r.value.secret == (match patch.secret case Some(x) => x case None => was.secret)
                && r.value.tenantId == (match patch.tenantId case Some(x) => x case None => was.tenantId)
    {
      var data := store.Get(SUBSCRIPTIONS_BUCKET, id, readFault);
      if data.Err? {
        return Err(data.error);
      }
      var read := AsSubscription(data.value);
      if read.None? {
        return Err(Undecodable);
      }
      var sub := read.value;
      if patch.url.Some? {
        sub := sub.(url := patch.url.value);
      }
      if patch.enabled.Some? {
        sub := sub.(enabled := patch.enabled.value);
      }
      if patch.events.Some? {
        sub := sub.(events := patch.events.value);
      }
      if patch.secret.Some? {
        sub := sub.(secret := patch.secret.value);
      }
      if patch.tenantId.Some? {
        sub := sub.(tenantId := patch.tenantId.value);
      }
      sub := sub.(updatedAt := now);
      assert sub.id == id;
      var ok := store.Write(SUBSCRIPTIONS_BUCKET, sub.id, SubscriptionJson(sub), fault);
      if !ok {
        return Err(Fault);
      }
      return Ok(sub);
    }
  }
}
