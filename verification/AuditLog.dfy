/** The audit trail (internal/audit/audit.go): keys from a clock reading and an atomic counter. */
module AuditLog {
  import opened KeyFormat
  import opened Storage
  import FilteredList

  const AUDIT_BUCKET := "audit"
  const UINT64_COUNT := 0x1_0000_0000_0000_0000

  datatype Entry = Entry(requestId: string, siteId: string, verb: string, path: string, status: int, timestamp: string)

  /** Write number q of the current process, or one of an earlier process, made the key at clock
      reading ns. The counter starts over with each process; `booted` is when this one began. */
  ghost predicate IssuedAs(key: string, count: nat, booted: int, ns: int, q: nat) {
    key == AuditKey(ns, q) && (q <= count || ns < booted)
  }

  ghost predicate WasIssued(key: string, count: nat, booted: int) {
    exists ns: int, q: nat :: IssuedAs(key, count, booted, ns, q)
  }

  ghost predicate Issued(keys: set<string>, count: nat, booted: int) {
    forall k | k in keys :: WasIssued(k, count, booted)
  }

  lemma IssuedByMore(keys: set<string>, count: nat, booted: int)
    requires Issued(keys, count, booted)
    ensures Issued(keys, count + 1, booted)
  {
    forall k | k in keys ensures WasIssued(k, count + 1, booted) {
      var ns, q: nat :| IssuedAs(k, count, booted, ns, q);
      assert IssuedAs(k, count + 1, booted, ns, q);
    }
  }

  /** Within a process the counter alone keeps keys apart: repeated or backward clock readings
      cannot make the next write land on an entry that is already there, as long as they do not
      go back before the process began. */
  lemma NextAuditKeyIsNew(keys: set<string>, count: nat, booted: int, ns: int)
    requires Issued(keys, count, booted) && ns >= booted
    ensures AuditKey(ns, count + 1) !in keys
    ensures Issued(keys + {AuditKey(ns, count + 1)}, count + 1, booted)
  {
    var key := AuditKey(ns, count + 1);
    if key in keys {
      var ns', q: nat :| IssuedAs(key, count, booted, ns', q);
      AuditKeyInjective(ns, count + 1, ns', q);
    }
    IssuedByMore(keys, count, booted);
    assert IssuedAs(key, count + 1, booted, ns, count + 1);
  }

  /** So every successful write adds an entry and overwrites none. */
  lemma AuditEntryIsAdded(entries: map<string, Entry>, count: nat, booted: int, ns: int, e: Entry)
    requires Issued(entries.Keys, count, booted) && ns >= booted
    ensures Appended(entries, entries[AuditKey(ns, count + 1) := e], count + 1, booted, 1)
  {
    var key := AuditKey(ns, count + 1);
    NextAuditKeyIsNew(entries.Keys, count, booted, ns);
    assert entries[key := e].Keys == entries.Keys + {key};
  }

  /** `now` holds `n` entries more than `was`, all entries of `was` among them. */
  ghost predicate Grew(was: map<string, Entry>, now: map<string, Entry>, n: nat) {
    |now| == |was| + n && forall k | k in was :: k in now && now[k] == was[k]
  }

  ghost predicate Appended(was: map<string, Entry>, now: map<string, Entry>, count: nat, booted: int, n: nat) {
    Issued(now.Keys, count, booted) && Grew(was, now, n)
  }

  /** From a trail issued so far, the write appended its entry if it succeeded, and nothing else. */
  ghost predicate Appends(was: map<string, Entry>, now: map<string, Entry>, count: nat, booted: int, ns: int, n: nat) {
    count + 1 < UINT64_COUNT && ns >= booted && Issued(was.Keys, count, booted) ==>
      Appended(was, now, count + 1, booted, n)
  }

  lemma WriteAppends(was: map<string, Entry>, count: nat, booted: int, ns: int, e: Entry)
    ensures Appends(was, was, count, booted, ns, 0)
    ensures Appends(was, was[AuditKey(ns, count + 1) := e], count, booted, ns, 1)
  {
    if ns >= booted && Issued(was.Keys, count, booted) {
      AuditEntryIsAdded(was, count, booted, ns, e);
      IssuedByMore(was.Keys, count, booted);
    }
  }

  /** A since/until filter on the audit list matches nothing, whatever was written. */
  lemma BoundedAuditListsAreEmpty(keys: set<string>, count: nat, booted: int, f: ListFilter, cursor: string, limit: int)
    requires Issued(keys, count, booted) && f.HasBounds()
    ensures var m := FilteredList.Matching(keys, f);
            m == {} && Page(m, cursor, limit) == [] && FilteredList.FilteredNext(m, cursor, limit) == ""
  {
    forall k | k in keys ensures !KeyMatchesFilter(k, f) {
      var ns, q: nat :| IssuedAs(k, count, booted, ns, q);
      AuditKeyHasNoNS(ns, q);
    }
    assert FilteredList.Matching(keys, f) == {};
    assert After({}, cursor) == {};
  }

  // ---- concurrent writers ----------------------------------------------------------------

  /** A write that has its number and has not reached the store yet. */
  datatype Underway = Underway(ns: int, q: nat, entry: Entry)

  /** Writers take their numbers one after the other and reach the store in any order; `landed`
      lists the writes the store took. */
  datatype Trail = Trail(count: nat, underway: map<nat, Underway>, entries: map<string, Entry>, landed: seq<Underway>)

  datatype Action =
    | TakeNumber(writer: nat, ns: int, entry: Entry)
    | Land(writer: nat, fault: bool)

  ghost predicate Enabled(t: Trail, booted: int, a: Action) {
    match a
    case TakeNumber(w, ns, _) => w !in t.underway && ns >= booted && t.count + 1 < UINT64_COUNT
    case Land(w, _) => w in t.underway
  }

  function KeyOf(u: Underway): string {
    AuditKey(u.ns, u.q)
  }

  ghost function Apply(t: Trail, booted: int, a: Action): Trail
    requires Enabled(t, booted, a)
  {
    match a
    case TakeNumber(w, ns, e) => t.(count := t.count + 1, underway := t.underway[w := Underway(ns, t.count + 1, e)])
    case Land(w, fault) =>
      var u := t.underway[w];
      var rest := t.(underway := t.underway - {w});
      if fault then rest else rest.(entries := t.entries[KeyOf(u) := u.entry], landed := t.landed + [u])
  }

  ghost predicate Runs(t: Trail, booted: int, acts: seq<Action>)
    decreases |acts|
  {
    acts == [] || (Enabled(t, booted, acts[0]) && Runs(Apply(t, booted, acts[0]), booted, acts[1..]))
  }

  ghost function Exec(t: Trail, booted: int, acts: seq<Action>): Trail
    requires Runs(t, booted, acts)
    decreases |acts|
  {
    if acts == [] then t else Exec(Apply(t, booted, acts[0]), booted, acts[1..])
  }

  /** Numbers under way are taken, differ, and belong to keys nobody has written yet. */
  ghost predicate UnderwayOk(t: Trail, booted: int) {
    && (forall w | w in t.underway ::
          t.underway[w].q <= t.count && t.underway[w].ns >= booted && KeyOf(t.underway[w]) !in t.entries)
    && (forall w, v | w in t.underway && v in t.underway && t.underway[w].q == t.underway[v].q :: w == v)
  }

  ghost predicate TrailOk(was: map<string, Entry>, t: Trail, booted: int) {
    Appended(was, t.entries, t.count, booted, |t.landed|) && UnderwayOk(t, booted)
  }

  lemma TakeKeepsUnderway(t: Trail, booted: int, a: Action)
    requires UnderwayOk(t, booted) && Enabled(t, booted, a) && a.TakeNumber?
    requires AuditKey(a.ns, t.count + 1) !in t.entries
    ensures var n := Apply(t, booted, a);
            UnderwayOk(n, booted)
  {
  }

  lemma LandKeepsUnderway(t: Trail, booted: int, a: Action)
    requires UnderwayOk(t, booted) && Enabled(t, booted, a) && a.Land?
    ensures UnderwayOk(Apply(t, booted, a), booted)
  {
    var u := t.underway[a.writer];
    forall w | w in t.underway && KeyOf(t.underway[w]) == KeyOf(u) ensures w == a.writer {
      AuditKeyInjective(t.underway[w].ns, t.underway[w].q, u.ns, u.q);
    }
  }

  lemma LandAppends(was: map<string, Entry>, t: Trail, booted: int, a: Action)
    requires TrailOk(was, t, booted) && Enabled(t, booted, a) && a.Land? && !a.fault
    ensures var n := Apply(t, booted, a); Appended(was, n.entries, n.count, booted, |n.landed|)
  {
    var u := t.underway[a.writer];
    var n := t.entries[KeyOf(u) := u.entry];
    assert n.Keys == t.entries.Keys + {KeyOf(u)};
    forall k | k in n.Keys ensures WasIssued(k, t.count, booted) {
      if k == KeyOf(u) { assert IssuedAs(k, t.count, booted, u.ns, u.q); }
    }
  }

  lemma StepKeepsUnderway(t: Trail, booted: int, a: Action)
    requires Issued(t.entries.Keys, t.count, booted) && UnderwayOk(t, booted) && Enabled(t, booted, a)
    ensures UnderwayOk(Apply(t, booted, a), booted)
  {
    if a.TakeNumber? {
      NextAuditKeyIsNew(t.entries.Keys, t.count, booted, a.ns);
      TakeKeepsUnderway(t, booted, a);
    } else {
      LandKeepsUnderway(t, booted, a);
    }
  }

  lemma TakeKeepsIssued(t: Trail, booted: int, a: Action)
    requires Issued(t.entries.Keys, t.count, booted) && Enabled(t, booted, a) && a.TakeNumber?
    ensures var n := Apply(t, booted, a); Issued(n.entries.Keys, n.count, booted)
  {
    IssuedByMore(t.entries.Keys, t.count, booted);
  }

  lemma StepKeepsIssued(was: map<string, Entry>, t: Trail, booted: int, a: Action)
    requires TrailOk(was, t, booted) && Enabled(t, booted, a)
    ensures var n := Apply(t, booted, a); Issued(n.entries.Keys, n.count, booted)
  {
    if a.TakeNumber? {
      TakeKeepsIssued(t, booted, a);
    } else if !a.fault {
      LandAppends(was, t, booted, a);
    }
  }

  lemma StepGrows(was: map<string, Entry>, t: Trail, booted: int, a: Action)
    requires TrailOk(was, t, booted) && Enabled(t, booted, a)
    ensures var n := Apply(t, booted, a); Grew(was, n.entries, |n.landed|)
  {
    if a.Land? && !a.fault { LandAppends(was, t, booted, a); }
  }

  /** Every write that landed is in the trail, with its content. */
  ghost predicate LandedOk(t: Trail) {
    forall u | u in t.landed :: KeyOf(u) in t.entries && t.entries[KeyOf(u)] == u.entry
  }

  lemma StepKeepsLanded(t: Trail, booted: int, a: Action)
    requires UnderwayOk(t, booted) && LandedOk(t) && Enabled(t, booted, a)
    ensures LandedOk(Apply(t, booted, a))
  {
    if a.Land? && !a.fault { assert KeyOf(t.underway[a.writer]) !in t.entries; }
  }

  lemma {:induction false} RunKeepsTrail(was: map<string, Entry>, t: Trail, booted: int, acts: seq<Action>)
    requires TrailOk(was, t, booted) && LandedOk(t) && Runs(t, booted, acts)
    ensures TrailOk(was, Exec(t, booted, acts), booted) && LandedOk(Exec(t, booted, acts))
    decreases |acts|
  {
    if acts != [] {
      StepKeepsUnderway(t, booted, acts[0]);
      StepKeepsLanded(t, booted, acts[0]);
      StepKeepsIssued(was, t, booted, acts[0]);
      StepGrows(was, t, booted, acts[0]);
      RunKeepsTrail(was, Apply(t, booted, acts[0]), booted, acts[1..]);
    }
  }

  /** Concurrent writers in any interleaving, with clock readings that may repeat or go back, but
      not before the process began, whichever writes fail, and until the counter wraps: each write
      the store took is in the trail as it was made, the trail grows by exactly those, and every
      entry it had stays. */
  lemma ConcurrentWritesOnlyAppend(entries: map<string, Entry>, count: nat, booted: int, acts: seq<Action>)
    requires Issued(entries.Keys, count, booted) && Runs(Trail(count, map[], entries, []), booted, acts)
    ensures var t := Exec(Trail(count, map[], entries, []), booted, acts);
            && (forall u | u in t.landed :: KeyOf(u) in t.entries && t.entries[KeyOf(u)] == u.entry)
            && |t.entries| == |entries| + |t.landed|
            && forall k | k in entries :: k in t.entries && t.entries[k] == entries[k]
  {
    RunKeepsTrail(entries, Trail(count, map[], entries, []), booted, acts);
  }

  /** An atomic add on a 64-bit counter. */
  function NextSeq(n: nat): nat {
    if n + 1 >= UINT64_COUNT then 0 else n + 1
  }

  class AuditLog {
    var auditSeq: nat
    const store: BBoltStore<Entry>

    constructor (store: BBoltStore<Entry>)
      ensures this.store == store && auditSeq == 0
    {
      this.store := store;
      auditSeq := 0;
    }

    ghost predicate Valid()
      reads this, store
    {
      store.Valid() && auditSeq < UINT64_COUNT
    }

    /** One audit write. `encoded` and `fault` are the outcomes of encoding and of the database.
        Up to the counter's wrap-around it only ever appends. */
    method Write(e: Entry, ns: int, encoded: bool, fault: bool, ghost booted: int) returns (ok: bool)
      requires Valid()
      modifies this, store
      ensures Valid()
      ensures ok <==> encoded && !fault
      ensures forall b | b != AUDIT_BUCKET :: store.Bucket(b) == old(store.Bucket(b))
      ensures auditSeq == if encoded then (old(auditSeq) + 1) % 0x1_0000_0000_0000_0000 else old(auditSeq)
      ensures store.Bucket(AUDIT_BUCKET) ==
              if ok then old(store.Bucket(AUDIT_BUCKET))[AuditKey(ns, auditSeq) := e]
              else old(store.Bucket(AUDIT_BUCKET))
      ensures Appends(old(store.Bucket(AUDIT_BUCKET)), store.Bucket(AUDIT_BUCKET), old(auditSeq), booted, ns, if ok then 1 else 0)
    {
      WriteAppends(store.Bucket(AUDIT_BUCKET), auditSeq, booted, ns, e);
      ghost var was, count := store.Bucket(AUDIT_BUCKET), auditSeq;
      if !encoded {
        return false;
      }
      auditSeq := NextSeq(auditSeq);
      var key := AuditKey(ns, auditSeq);
      ok := store.Write(AUDIT_BUCKET, key, e, fault);
      assert ok && count + 1 < UINT64_COUNT ==> store.Bucket(AUDIT_BUCKET) == was[AuditKey(ns, count + 1) := e];
    }
  }
}
