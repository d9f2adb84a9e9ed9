/** Subscriptions (internal/webhooks/types.go) and their
    event filter (matchesEventType in internal/webhooks/worker_dispatcher.go). */
module Subscriptions {

  datatype Subscription = Subscription(
    id: string, service: string, url: string, enabled: bool, events: seq<string>,
    secret: string, tenantId: string, createdAt: int, updatedAt: int)

  /** `data` is the event's opaque payload. */
  datatype Event = Event(id: string, kind: string, createdAt: int, data: string)

  // ---- event type matching ---------------------------------------------------------------

  predicate Matches(sub: Subscription, kind: string) {
    sub.events == [] || "*" in sub.events || kind in sub.events
  }

  method MatchesEventType(sub: Subscription, kind: string) returns (b: bool)
    ensures b <==> Matches(sub, kind)
    ensures b <==> sub.events == [] || "*" in sub.events || kind in sub.events
  {
    if |sub.events| == 0 {
      return true;
    }
    for i := 0 to |sub.events|
      invariant "*" !in sub.events[..i] && kind !in sub.events[..i]
    {
      if sub.events[i] == "*" || sub.events[i] == kind {
        return true;
      }
    }
    return false;
  }

  // ---- the key that tells subscriptions apart --------------------------------------------

  const TENANT_SEPARATOR := "|tenant:"

  function DedupeKey(sub: Subscription): string {
    if sub.id != "" then "id:" + sub.id
    else "url:" + sub.url + TENANT_SEPARATOR + sub.tenantId
  }

  ghost predicate HasSeparator(url: string) {
    exists i :: 0 <= i <= |url| - |TENANT_SEPARATOR| && SeparatorAt(url, i)
  }

  ghost predicate SeparatorAt(s: string, i: int) {
    0 <= i <= |s| - |TENANT_SEPARATOR| && s[i..i + |TENANT_SEPARATOR|] == TENANT_SEPARATOR
  }

  lemma OnlyOneBar(s: string, i: int, j: int)
    requires SeparatorAt(s, i) && i < j < i + |TENANT_SEPARATOR|
    ensures !SeparatorAt(s, j)
  {
    assert s[j] == s[i..i + |TENANT_SEPARATOR|][j - i];
    if j <= |s| - |TENANT_SEPARATOR| { assert s[j..j + |TENANT_SEPARATOR|][0] == s[j]; }
  }

  /** The separator cannot overlap itself, so it splits a text whose left part lacks it in
      only one place. */
  lemma SeparatorSplits(x: string, t: string, x': string, t': string)
    requires x + TENANT_SEPARATOR + t == x' + TENANT_SEPARATOR + t'
    requires !HasSeparator(x') && |x| <= |x'|
    ensures x == x' && t == t'
  {
    var s, n := x + TENANT_SEPARATOR + t, |TENANT_SEPARATOR|;
    assert forall i | 0 <= i < |x'| :: s[i] == x'[i];
    assert SeparatorAt(s, |x|) && SeparatorAt(s, |x'|);
    assert |x| == |x'| by {
      if |x| < |x'| {
        if |x'| < |x| + n {
          OnlyOneBar(s, |x|, |x'|);
          assert false;
        } else {
          assert x'[|x|..|x| + n] == s[|x|..|x| + n] == TENANT_SEPARATOR;
          assert SeparatorAt(x', |x|);
          assert false;
        }
      }
    }
    assert s[..|x|] == x && s[..|x'|] == x' && s[|x| + n..] == t && s[|x'| + n..] == t';
  }

  /** IDs decide where there are IDs, an ID never collides with a URL, and URLs free of the
      separator decide together with the tenant where there are none. */
  lemma DedupeKeySeparates(a: Subscription, b: Subscription)
    ensures a.id != "" && b.id != "" ==> (DedupeKey(a) == DedupeKey(b) <==> a.id == b.id)
    ensures (a.id == "") != (b.id == "") ==> DedupeKey(a) != DedupeKey(b)
    ensures a.id == "" && b.id == "" && !HasSeparator(a.url) && !HasSeparator(b.url) ==>
              (DedupeKey(a) == DedupeKey(b) <==> a.url == b.url && a.tenantId == b.tenantId)
  {
    var ka, kb := DedupeKey(a), DedupeKey(b);
    assert ka[0] == if a.id != "" then 'i' else 'u';
    assert kb[0] == if b.id != "" then 'i' else 'u';
    if a.id != "" && b.id != "" {
      assert ka[3..] == a.id && kb[3..] == b.id;
    }
    if a.id == "" && b.id == "" {
      assert ka[4..] == a.url + TENANT_SEPARATOR + a.tenantId;
      assert kb[4..] == b.url + TENANT_SEPARATOR + b.tenantId;
      if ka == kb && !HasSeparator(a.url) && !HasSeparator(b.url) {
        if |a.url| <= |b.url| {
          SeparatorSplits(a.url, a.tenantId, b.url, b.tenantId);
        } else {
          SeparatorSplits(b.url, b.tenantId, a.url, a.tenantId);
        }
      }
    }
  }

  /** A URL that contains the separator can be taken for another URL and tenant. */
  lemma SeparatorInUrlCollides(a: Subscription, b: Subscription, u: string, t: string)
    requires a.id == "" && b.id == ""
    requires a.url == u + TENANT_SEPARATOR + t && a.tenantId == ""
    requires b.url == u && b.tenantId == t + TENANT_SEPARATOR
    ensures DedupeKey(a) == DedupeKey(b) && a.url != b.url
  {
    assert "url:" + a.url + TENANT_SEPARATOR + "" == "url:" + b.url + TENANT_SEPARATOR + b.tenantId;
  }

  // ---- who receives an event -------------------------------------------------------------

  predicate Accepts(sub: Subscription, kind: string) {
    sub.enabled && Matches(sub, kind)
  }

  /** The filter process applies to what was listed. */
  function Receiver(kind: string): Subscription -> bool {
    sub => Accepts(sub, kind)
  }
}
