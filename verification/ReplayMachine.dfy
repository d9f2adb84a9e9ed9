/** All actors on the dead-letter bucket, step by step and in any order: workers storing new
    letters, scheduler and operator replays (each a snapshot, a POST and a commit), and operator
    deletes. Nothing locks a letter between the steps of a replay. A listing that fails half-way
    drops the snapshots it has taken. */
module ReplayMachine {
  import opened KeyOrder
  import opened DeadLetters

  /** A replay under way: the snapshot it works on and, once the POST returned, its outcome. */
  datatype Flight = Flight(who: Replayer, rec: Record, post: Option<Post>)

  /** `letters` is the bucket. The history counts what happened to each id ever stored;
      `storedTotal`, `replaySuccessTotal` and `replayFailureTotal` are the three metrics. */
  datatype State = State(
    letters: Letters,
    flights: map<nat, Flight>,
    origins: map<string, Origin>,
    failures: map<string, nat>,
    successes: map<string, nat>,
    cancelled: set<string>,
    storedTotal: nat, replaySuccessTotal: nat, replayFailureTotal: nat)

  const EMPTY := State(map[], map[], map[], map[], map[], {}, 0, 0, 0)

  /** Letters as an earlier run of the program may have left them. */
  ghost predicate WellFormed(letters: Letters) {
    forall id | id in letters :: id != "" && letters[id].id == id && letters[id].attempts >= 0
  }

  /** The program starts on a bucket: nothing is in flight, and each letter's count of failures
      starts from what the letter says. */
  ghost function Boot(letters: Letters): State {
    State(letters, map[], map id | id in letters :: OriginOf(letters[id]),
          map id | id in letters :: if letters[id].attempts >= 0 then letters[id].attempts else 0,
          map id | id in letters :: 0, {}, 0, 0, 0)
  }

  datatype Action =
    | Store(id: string, rec: Record, fault: bool)
    | Snapshot(token: nat, who: Replayer, id: string)
    | PostReturns(token: nat, post: Post)
    | Commit(token: nat, now: int, fault: bool)
    | Cancel(id: string, fault: bool)
    | Drop(tokens: set<nat>)

  /** A new letter gets an id no letter ever had: the clock reading it is made from is new. */
  ghost predicate Enabled(s: State, a: Action) {
    match a
    case Store(id, rec, fault) => id != "" && rec.id == id && rec.attempts == 0 && (fault || id !in s.origins)
    case Snapshot(token, _, id) => token !in s.flights && id in s.letters
    case PostReturns(token, _) => token in s.flights && s.flights[token].post.None?
    case Commit(token, _, _) => token in s.flights && s.flights[token].post.Some?
    case Cancel(_, _) => true
    case Drop(tokens) => forall k | k in tokens :: k in s.flights && s.flights[k].post.None?
  }

  ghost function CountUp(m: map<string, nat>, id: string): map<string, nat> {
    m[id := if id in m then m[id] + 1 else 1]
  }

  ghost function Apply(s: State, a: Action): State
    requires Enabled(s, a)
  {
    match a
    case Store(id, rec, fault) =>
      if fault then s
      else s.(letters := s.letters[id := rec], origins := s.origins[id := OriginOf(rec)],
              failures := s.failures[id := 0], successes := s.successes[id := 0],
              storedTotal := s.storedTotal + 1)
    case Snapshot(token, who, id) =>
      s.(flights := s.flights[token := Flight(who, s.letters[id], None)])
    case PostReturns(token, post) =>
      var f := s.flights[token];
      var metered := if f.who.Scheduler? then 1 else 0;
      var s1 := s.(flights := s.flights[token := f.(post := Some(post))]);
      (match post
       case Delivered =>
         s1.(successes := CountUp(s.successes, f.rec.id), replaySuccessTotal := s.replaySuccessTotal + metered)
       case Failed(_) =>
         s1.(failures := CountUp(s.failures, f.rec.id), replayFailureTotal := s.replayFailureTotal + metered))
    case Commit(token, now, fault) =>
      var f := s.flights[token];
      s.(letters := Settle(s.letters, f.rec, f.who, f.post.value, now, fault), flights := s.flights - {token})
    case Cancel(id, fault) =>
      if fault || id !in s.letters then s
      else s.(letters := s.letters - {id}, cancelled := s.cancelled + {id})
    case Drop(tokens) => s.(flights := s.flights - tokens)
  }

  ghost predicate Runs(s: State, acts: seq<Action>)
    decreases |acts|
  {
    acts == [] || (Enabled(s, acts[0]) && Runs(Apply(s, acts[0]), acts[1..]))
  }

  ghost function Exec(s: State, acts: seq<Action>): State
    requires Runs(s, acts)
    decreases |acts|
  {
    if acts == [] then s else Exec(Apply(s, acts[0]), acts[1..])
  }

  // ---- every interleaving ----------------------------------------------------------------

  ghost predicate LetterOk(s: State, id: string)
    requires id in s.letters
  {
    && id != "" && id in s.origins && id in s.failures
    && s.letters[id].id == id && OriginOf(s.letters[id]) == s.origins[id]
    && 0 <= s.letters[id].attempts <= s.failures[id]
  }

  ghost predicate FlightOk(s: State, token: nat)
    requires token in s.flights
  {
    var f := s.flights[token];
    && f.rec.id != "" && f.rec.id in s.origins && f.rec.id in s.failures && f.rec.id in s.successes
    && OriginOf(f.rec) == s.origins[f.rec.id]
    && (f.post == Some(Delivered) ==> s.successes[f.rec.id] > 0)
    && 0 <= f.rec.attempts
    && f.rec.attempts + (if f.post.Some? && f.post.value.Failed? then 1 else 0) <= s.failures[f.rec.id]
  }

  ghost predicate Accounted(s: State, id: string)
    requires id in s.origins
  {
    id in s.letters || (id in s.successes && s.successes[id] > 0) || id in s.cancelled
  }

  ghost predicate Inv(s: State) {
    && s.failures.Keys == s.origins.Keys && s.successes.Keys == s.origins.Keys
    && (forall id | id in s.letters :: LetterOk(s, id))
    && (forall token | token in s.flights :: FlightOk(s, token))
    && (forall id | id in s.origins :: Accounted(s, id))
  }

  lemma StepKeepsInv(s: State, a: Action)
    requires Inv(s) && Enabled(s, a)
    ensures Inv(Apply(s, a))
  {
    match a
    case Store(_, _, _) => StoreKeepsInv(s, a);
    case Snapshot(_, _, _) => SnapshotKeepsInv(s, a);
    case PostReturns(_, _) => PostKeepsInv(s, a);
    case Commit(_, _, _) => CommitKeepsInv(s, a);
    case Cancel(_, _) => CancelKeepsInv(s, a);
    case Drop(_) => DropKeepsInv(s, a);
  }

  lemma StoreKeepsInv(s: State, a: Action)
    requires a.Store? && Inv(s) && Enabled(s, a)
    ensures Inv(Apply(s, a))
  {
    var t := Apply(s, a);
    forall i | i in t.letters ensures LetterOk(t, i) { if i != a.id { assert LetterOk(s, i); } }
    forall k | k in t.flights ensures FlightOk(t, k) { assert FlightOk(s, k); }
    forall i | i in t.origins ensures Accounted(t, i) { if i != a.id { assert Accounted(s, i); } }
  }

  lemma SnapshotKeepsInv(s: State, a: Action)
    requires a.Snapshot? && Inv(s) && Enabled(s, a)
    ensures Inv(Apply(s, a))
  {
    var t := Apply(s, a);
    assert LetterOk(s, a.id);
    forall i | i in t.letters ensures LetterOk(t, i) { assert LetterOk(s, i); }
    forall k | k in t.flights ensures FlightOk(t, k) { if k != a.token { assert FlightOk(s, k); } }
    forall i | i in t.origins ensures Accounted(t, i) { assert Accounted(s, i); }
  }

  lemma PostKeepsInv(s: State, a: Action)
    requires a.PostReturns? && Inv(s) && Enabled(s, a)
    ensures Inv(Apply(s, a))
  {
    var t := Apply(s, a);
    assert FlightOk(s, a.token);
    forall i | i in t.letters ensures LetterOk(t, i) { assert LetterOk(s, i); }
    forall k | k in t.flights ensures FlightOk(t, k) { assert FlightOk(s, k); PostKeepsFlightOk(s, a, k); }
    forall i | i in t.origins ensures Accounted(t, i) { assert Accounted(s, i); }
  }

  lemma PostKeepsFlightOk(s: State, a: Action, k: nat)
    requires a.PostReturns? && Enabled(s, a) && FlightOk(s, a.token) && k in s.flights && FlightOk(s, k)
    ensures FlightOk(Apply(s, a), k)
  {
  }

  lemma CommitKeepsInv(s: State, a: Action)
    requires a.Commit? && Inv(s) && Enabled(s, a)
    ensures Inv(Apply(s, a))
  {
    var t := Apply(s, a);
    assert FlightOk(s, a.token);
    var id := s.flights[a.token].rec.id;
    forall i | i in t.letters ensures LetterOk(t, i) { if i in s.letters { assert LetterOk(s, i); } }
    forall k | k in t.flights ensures FlightOk(t, k) { assert FlightOk(s, k); }
    forall i | i in t.origins ensures Accounted(t, i) { assert Accounted(s, i); }
  }

  lemma CancelKeepsInv(s: State, a: Action)
    requires a.Cancel? && Inv(s) && Enabled(s, a)
    ensures Inv(Apply(s, a))
  {
    var t := Apply(s, a);
    forall i | i in t.letters ensures LetterOk(t, i) { assert LetterOk(s, i); }
    forall k | k in t.flights ensures FlightOk(t, k) { assert FlightOk(s, k); }
    forall i | i in t.origins ensures Accounted(t, i) { assert Accounted(s, i); }
  }

  lemma DropKeepsInv(s: State, a: Action)
    requires a.Drop? && Inv(s) && Enabled(s, a)
    ensures Inv(Apply(s, a))
  {
    var t := Apply(s, a);
    forall i | i in t.letters ensures LetterOk(t, i) { assert LetterOk(s, i); }
    forall k | k in t.flights ensures FlightOk(t, k) { assert FlightOk(s, k); }
    forall i | i in t.origins ensures Accounted(t, i) { assert Accounted(s, i); }
  }

  lemma {:induction false} RunKeepsInv(s: State, acts: seq<Action>)
    requires Inv(s) && Runs(s, acts)
    ensures Inv(Exec(s, acts))
    decreases |acts|
  {
    if acts != [] {
      StepKeepsInv(s, acts[0]);
      RunKeepsInv(Apply(s, acts[0]), acts[1..]);
    }
  }

  lemma BootInv(letters: Letters)
    requires WellFormed(letters)
    ensures Inv(Boot(letters)) && forall id :: ExactAt(Boot(letters), id)
  {
    var s := Boot(letters);
    forall id | id in s.letters ensures LetterOk(s, id) {}
    forall id | id in s.origins ensures Accounted(s, id) {}
  }

  /** No dead letter is lost: whatever the interleaving and whichever store writes fail, every
      id ever stored is still in the bucket, was delivered by a replay, or was deleted by an
      operator; and every copy, stored or in flight, carries the original event and target. */
  lemma NoDeadLetterLost(start: Letters, acts: seq<Action>)
    requires WellFormed(start) && Runs(Boot(start), acts)
    ensures var s := Exec(Boot(start), acts);
            && (forall id | id in s.origins ::
                  id in s.letters || (id in s.successes && s.successes[id] > 0) || id in s.cancelled)
            && (forall id | id in s.letters ::
                  id in s.origins && s.letters[id].id == id && OriginOf(s.letters[id]) == s.origins[id])
            && (forall k | k in s.flights ::
                  var r := s.flights[k].rec; r.id in s.origins && OriginOf(r) == s.origins[r.id])
  {
    BootInv(start);
    RunKeepsInv(Boot(start), acts);
    var s := Exec(Boot(start), acts);
    assert forall id | id in s.origins :: Accounted(s, id);
    assert forall id | id in s.letters :: LetterOk(s, id);
    assert forall k | k in s.flights :: FlightOk(s, k);
  }

  /** Attempts never over-counts the failed replays of its id. */
  lemma AttemptsNeverOvercount(start: Letters, acts: seq<Action>, id: string)
    requires WellFormed(start) && Runs(Boot(start), acts) && id in Exec(Boot(start), acts).letters
    ensures var s := Exec(Boot(start), acts); id in s.failures && 0 <= s.letters[id].attempts <= s.failures[id]
  {
    BootInv(start);
    RunKeepsInv(Boot(start), acts);
    assert LetterOk(Exec(Boot(start), acts), id);
  }

  lemma StepKeepsOrigin(s: State, a: Action, id: string)
    requires Enabled(s, a) && id in s.origins
    ensures id in Apply(s, a).origins && Apply(s, a).origins[id] == s.origins[id]
  {
  }

  // ---- when a letter that is gone stays gone ---------------------------------------------

  /** A replay of the letter is under way that has not been delivered. */
  ghost predicate Undelivered(s: State, token: nat, id: string) {
    token in s.flights && s.flights[token].rec.id == id && s.flights[token].post != Some(Delivered)
  }

  ghost predicate Threatened(s: State, id: string) {
    exists token :: Undelivered(s, token, id)
  }

  /** One step brings a letter that is gone back exactly when it commits such a replay. */
  lemma RevivedExactlyByLateFailure(s: State, a: Action, id: string)
    requires Inv(s) && Enabled(s, a) && id in s.origins && id !in s.letters
    ensures id in Apply(s, a).letters <==>
              a.Commit? && !a.fault && s.flights[a.token].rec.id == id && s.flights[a.token].post.value.Failed?
  {
  }

  lemma StepKeepsGone(s: State, a: Action, id: string)
    requires Inv(s) && Enabled(s, a) && id in s.origins && id !in s.letters && !Threatened(s, id)
    ensures var t := Apply(s, a); id in t.origins && id !in t.letters && !Threatened(t, id)
  {
    var t := Apply(s, a);
    RevivedExactlyByLateFailure(s, a, id);
    if a.Commit? { assert !Undelivered(s, a.token, id); }
    if a.Snapshot? { assert LetterOk(s, a.id); }
    forall k ensures !Undelivered(t, k, id) { assert !Undelivered(s, k, id); }
  }

  lemma {:induction false} RunKeepsGone(s: State, acts: seq<Action>, id: string)
    requires Inv(s) && Runs(s, acts) && id in s.origins && id !in s.letters && !Threatened(s, id)
    ensures id !in Exec(s, acts).letters
    decreases |acts|
  {
    if acts != [] {
      StepKeepsInv(s, acts[0]);
      StepKeepsGone(s, acts[0], id);
      RunKeepsGone(Apply(s, acts[0]), acts[1..], id);
    }
  }

  lemma LateFailureRevives(s: State, token: nat, id: string) returns (acts: seq<Action>)
    requires Undelivered(s, token, id)
    ensures Runs(s, acts) && id in Exec(s, acts).letters
  {
    if s.flights[token].post.None? {
      var post, commit := PostReturns(token, Failed("down")), Commit(token, 0, false);
      acts := [post, commit];
      Exec1(Apply(s, post), commit);
      ExecCons(s, post, [commit]);
      assert [post] + [commit] == acts;
    } else {
      acts := [Commit(token, 0, false)];
      Exec1(s, acts[0]);
    }
  }

  /** A letter that is gone stays gone, whatever anybody does from then on, exactly when no replay
      of it is under way that is still waiting for its POST or has failed: committed later, such
      a replay brings it back, because Save is an upsert. Whether there is one can be seen at the
      moment of the delete. */
  lemma GoneForGoodExactlyWhen(s: State, id: string)
    requires Inv(s) && id in s.origins && id !in s.letters
    ensures (forall acts | Runs(s, acts) :: id !in Exec(s, acts).letters) <==> !Threatened(s, id)
  {
    if Threatened(s, id) {
      var token :| Undelivered(s, token, id);
      var acts := LateFailureRevives(s, token, id);
      assert Runs(s, acts);
    } else {
      forall acts | Runs(s, acts) ensures id !in Exec(s, acts).letters { RunKeepsGone(s, acts, id); }
    }
  }

  // ---- when Attempts is exact ------------------------------------------------------------

  ghost predicate FailsFor(s: State, a: Action, id: string) {
    a.PostReturns? && a.post.Failed? && a.token in s.flights && s.flights[a.token].rec.id == id
  }

  /** Replays of the letter that fail along a run. */
  ghost function FailuresAlong(s: State, acts: seq<Action>, id: string): nat
    requires Runs(s, acts)
    decreases |acts|
  {
    if acts == [] then 0
    else (if FailsFor(s, acts[0], id) then 1 else 0) + FailuresAlong(Apply(s, acts[0]), acts[1..], id)
  }

  ghost predicate Holds(acts: seq<Action>, token: nat) {
    forall a | a in acts :: !(a.Commit? && a.token == token) && !(a.Drop? && token in a.tokens)
  }

  ghost predicate HasFailed(s: State, token: nat)
    requires token in s.flights
  {
    s.flights[token].post.Some? && s.flights[token].post.value.Failed?
  }

  lemma StepKeepsSnapshot(s: State, a: Action, token: nat)
    requires Enabled(s, a) && token in s.flights && FlightOk(s, token) && Holds([a], token)
    ensures var id, t := s.flights[token].rec.id, Apply(s, a);
            && token in t.flights && t.flights[token].rec == s.flights[token].rec
            && id in t.failures && t.failures[id] == s.failures[id] + (if FailsFor(s, a, id) then 1 else 0)
            && (s.flights[token].post.Some? ==> t.flights[token].post == s.flights[token].post)
            && (s.flights[token].post.None? && HasFailed(t, token) ==> FailsFor(s, a, id))
  {
    assert a in [a];
  }

  /** A replay keeps its snapshot until it commits; and if it has failed by then, that is one of
      the failures along the way. */
  lemma {:induction false} SnapshotKept(s: State, acts: seq<Action>, token: nat)
    requires Inv(s) && Runs(s, acts) && token in s.flights && Holds(acts, token)
    ensures var id, t := s.flights[token].rec.id, Exec(s, acts);
            && token in t.flights && t.flights[token].rec == s.flights[token].rec
            && id in s.failures && id in t.failures && t.failures[id] == s.failures[id] + FailuresAlong(s, acts, id)
            && (s.flights[token].post.Some? ==> t.flights[token].post == s.flights[token].post)
            && (s.flights[token].post.None? && HasFailed(t, token) ==> FailuresAlong(s, acts, id) >= 1)
    decreases |acts|
  {
    assert FlightOk(s, token);
    if acts != [] {
      StepKeepsSnapshot(s, acts[0], token);
      StepKeepsInv(s, acts[0]);
      SnapshotKept(Apply(s, acts[0]), acts[1..], token);
    }
  }

  lemma CommitStores(s: State, token: nat, now: int)
    requires Enabled(s, Commit(token, now, false)) && s.flights[token].post.value.Failed?
    ensures var r, t := s.flights[token].rec, Apply(s, Commit(token, now, false));
            r.id in t.letters && t.letters[r.id].attempts == r.attempts + 1 && t.failures == s.failures
  {
  }

  /** One replay: when its failure commits, Attempts is exact if and only if it was at the snapshot
      and no other replay of the letter failed in between. ExactAttempts gives the law of whole
      runs, refused commits included. */
  lemma CommitExactExactlyWhen(s: State, token: nat, who: Replayer, id: string, acts: seq<Action>, now: int)
    requires Inv(s) && Enabled(s, Snapshot(token, who, id)) && id in s.failures
    requires Runs(Apply(s, Snapshot(token, who, id)), acts) && Holds(acts, token)
    requires var t := Exec(Apply(s, Snapshot(token, who, id)), acts);
             token in t.flights && t.flights[token].post.Some? && t.flights[token].post.value.Failed?
    ensures var s1 := Apply(s, Snapshot(token, who, id));
            var u := Apply(Exec(s1, acts), Commit(token, now, false));
            && id in u.letters && id in u.failures
            && (u.letters[id].attempts == u.failures[id] <==>
                  s.letters[id].attempts == s.failures[id] && FailuresAlong(s1, acts, id) == 1)
  {
    var s1 := Apply(s, Snapshot(token, who, id));
    assert LetterOk(s, id);
    assert s1.flights[token].rec == s.letters[id] && s1.failures == s.failures;
    StepKeepsInv(s, Snapshot(token, who, id));
    SnapshotKept(s1, acts, token);
    CommitStores(Exec(s1, acts), token, now);
  }

  // ---- runs in which the replays and deletes of one letter do not overlap ----------------

  ghost predicate Busy(s: State, id: string) {
    exists token :: token in s.flights && s.flights[token].rec.id == id
  }

  /** The discipline for one letter: it is not picked up or deleted while a replay of it is under
      way, and its commits reach the store. What happens to other letters does not matter. */
  ghost predicate ExclusiveFor(s: State, a: Action, id: string) {
    match a
    case Snapshot(_, _, i) => i == id ==> !Busy(s, id)
    case Cancel(i, _) => i == id ==> !Busy(s, id)
    case Commit(token, _, fault) => fault ==> token in s.flights && s.flights[token].rec.id != id
    case _ => true
  }

  ghost predicate ExclusiveRunFor(s: State, acts: seq<Action>, id: string)
    requires Runs(s, acts)
    decreases |acts|
  {
    acts == [] || (ExclusiveFor(s, acts[0], id) && ExclusiveRunFor(Apply(s, acts[0]), acts[1..], id))
  }

  ghost function Pending(s: State, token: nat): int
    requires token in s.flights
  {
    if s.flights[token].post.Some? && s.flights[token].post.value.Failed? then 1 else 0
  }

  ghost predicate ExactFlight(s: State, token: nat)
    requires token in s.flights
  {
    var r := s.flights[token].rec;
    && r.id in s.letters && s.letters[r.id] == r
    && r.id in s.failures && s.failures[r.id] == r.attempts + Pending(s, token)
    && r.id in s.successes && s.successes[r.id] == (if s.flights[token].post == Some(Delivered) then 1 else 0)
  }

  ghost predicate OneFlight(s: State, id: string) {
    forall k, l | k in s.flights && l in s.flights && s.flights[k].rec.id == id && s.flights[l].rec.id == id :: k == l
  }

  ghost predicate ExactIdle(s: State, id: string)
    requires id in s.letters
  {
    id in s.failures && s.letters[id].attempts == s.failures[id] && id in s.successes && s.successes[id] == 0
  }

  ghost predicate ExactAt(s: State, id: string) {
    && OneFlight(s, id)
    && (forall k | k in s.flights && s.flights[k].rec.id == id :: ExactFlight(s, k))
    && (id in s.letters && !Busy(s, id) ==> ExactIdle(s, id))
    && (id in s.successes ==> s.successes[id] <= 1)
  }

  /** The step works on this letter. */
  ghost predicate Touches(s: State, a: Action, id: string)
    requires Enabled(s, a)
  {
    match a
    case Store(i, _, fault) => i == id && !fault
    case Snapshot(_, _, i) => i == id
    case PostReturns(token, _) => s.flights[token].rec.id == id
    case Commit(token, _, _) => s.flights[token].rec.id == id
    case Cancel(i, _) => i == id
    case Drop(tokens) => exists k :: k in tokens && s.flights[k].rec.id == id
  }

  /** Nothing about the letter differs between the two states. */
  ghost predicate SameLetter(s: State, t: State, id: string) {
    && (id in t.letters <==> id in s.letters) && (id in s.letters ==> t.letters[id] == s.letters[id])
    && (id in t.failures <==> id in s.failures) && (id in s.failures ==> t.failures[id] == s.failures[id])
    && (id in t.successes <==> id in s.successes) && (id in s.successes ==> t.successes[id] == s.successes[id])
  }

  ghost predicate SameFlights(s: State, t: State, id: string) {
    && (forall k | k in t.flights && t.flights[k].rec.id == id :: k in s.flights && s.flights[k] == t.flights[k])
    && (forall k | k in s.flights && s.flights[k].rec.id == id :: k in t.flights && s.flights[k] == t.flights[k])
  }

  lemma UntouchedIsSame(s: State, a: Action, id: string)
    requires Enabled(s, a) && !Touches(s, a, id)
    ensures SameLetter(s, Apply(s, a), id)
    ensures (a.Snapshot? ==> s.letters[a.id].id == a.id) ==> SameFlights(s, Apply(s, a), id)
  {
    UntouchedLetter(s, a, id);
  }

  lemma UntouchedLetter(s: State, a: Action, id: string)
    requires Enabled(s, a) && !Touches(s, a, id)
    ensures SameLetter(s, Apply(s, a), id)
  {
  }

  lemma SameIsExact(s: State, t: State, id: string)
    requires ExactAt(s, id) && SameLetter(s, t, id) && SameFlights(s, t, id)
    ensures ExactAt(t, id)
  {
    forall k | k in t.flights && t.flights[k].rec.id == id ensures ExactFlight(t, k) { assert ExactFlight(s, k); }
    if k :| k in s.flights && s.flights[k].rec.id == id { assert t.flights[k].rec.id == id; }
  }

  lemma SnapshotKeepsExact(s: State, a: Action, id: string)
    requires ExactAt(s, id) && Enabled(s, a) && a.Snapshot? && a.id == id && !Busy(s, id) && s.letters[id].id == id
    ensures ExactAt(Apply(s, a), id)
  {
    assert Apply(s, a).flights[a.token].rec.id == id;
    assert forall k | k in s.flights :: s.flights[k].rec.id != id;
  }

  lemma PostKeepsExact(s: State, a: Action, id: string)
    requires ExactAt(s, id) && Enabled(s, a) && a.PostReturns? && s.flights[a.token].rec.id == id
    ensures ExactAt(Apply(s, a), id)
  {
    var t := Apply(s, a);
    assert ExactFlight(s, a.token);
    assert t.flights[a.token].rec.id == id;
    assert forall k | k in t.flights && t.flights[k].rec.id == id :: k in s.flights && s.flights[k].rec.id == id;
    assert forall k | k in t.flights && t.flights[k].rec.id == id :: k == a.token;
  }

  lemma CommitKeepsExact(s: State, a: Action, id: string)
    requires ExactAt(s, id) && Enabled(s, a) && a.Commit? && !a.fault && s.flights[a.token].rec.id == id
    ensures ExactAt(Apply(s, a), id)
  {
    assert ExactFlight(s, a.token);
    assert !Busy(Apply(s, a), id);
  }

  lemma DropKeepsExact(s: State, a: Action, id: string)
    requires ExactAt(s, id) && Enabled(s, a) && a.Drop?
    ensures ExactAt(Apply(s, a), id)
  {
    var t := Apply(s, a);
    forall k | k in t.flights && t.flights[k].rec.id == id ensures ExactFlight(t, k) { assert ExactFlight(s, k); }
    if k :| k in s.flights && s.flights[k].rec.id == id {
      assert ExactFlight(s, k);
      if k in t.flights { assert t.flights[k].rec.id == id; }
    }
  }

  lemma StepKeepsExact(s: State, a: Action, id: string)
    requires Inv(s) && ExactAt(s, id) && Enabled(s, a) && ExclusiveFor(s, a, id)
    ensures ExactAt(Apply(s, a), id)
  {
    if a.Snapshot? { assert LetterOk(s, a.id); }
    if !Touches(s, a, id) {
      UntouchedIsSame(s, a, id);
      SameIsExact(s, Apply(s, a), id);
    } else {
      match a
      case Store(_, _, _) => assert forall k | k in s.flights :: FlightOk(s, k);
      case Snapshot(_, _, _) => SnapshotKeepsExact(s, a, id);
      case PostReturns(_, _) => PostKeepsExact(s, a, id);
      case Commit(_, _, _) => CommitKeepsExact(s, a, id);
      case Cancel(_, _) =>
      case Drop(_) => DropKeepsExact(s, a, id);
    }
  }

  /** A letter whose replays do not overlap is not brought back: a replay under way finds it. */
  lemma ExactIsNotThreatened(s: State, id: string)
    requires ExactAt(s, id) && id !in s.letters
    ensures !Busy(s, id) && !Threatened(s, id)
  {
  }

  lemma {:induction false} RunKeepsExact(s: State, acts: seq<Action>, id: string)
    requires Inv(s) && ExactAt(s, id) && Runs(s, acts) && ExclusiveRunFor(s, acts, id)
    ensures Inv(Exec(s, acts)) && ExactAt(Exec(s, acts), id)
    decreases |acts|
  {
    if acts != [] {
      StepKeepsInv(s, acts[0]);
      StepKeepsExact(s, acts[0], id);
      RunKeepsExact(Apply(s, acts[0]), acts[1..], id);
    }
  }

  /** Over whole runs: as long as the replays and deletes of one letter do not overlap, its
      Attempts equals its failed replays, but for one whose commit is still under way, and it is
      delivered at most once, whatever happens to the other letters. */
  lemma AttemptsExactWithoutOverlap(start: Letters, acts: seq<Action>, id: string)
    requires WellFormed(start) && Runs(Boot(start), acts) && ExclusiveRunFor(Boot(start), acts, id)
    ensures var s := Exec(Boot(start), acts);
            && (id in s.letters && !Busy(s, id) ==> id in s.failures && s.letters[id].attempts == s.failures[id])
            && (forall k | k in s.flights && s.flights[k].rec.id == id ::
                  var r := s.flights[k].rec;
                  id in s.letters && s.letters[id] == r && id in s.failures && s.failures[id] == r.attempts + Pending(s, k))
            && (id in s.successes ==> s.successes[id] <= 1)
  {
    BootInv(start);
    RunKeepsExact(Boot(start), acts, id);
    var s := Exec(Boot(start), acts);
    assert forall k | k in s.flights && s.flights[k].rec.id == id :: ExactFlight(s, k);
  }

  /** And once gone it stays gone, even if the discipline ends there: at that moment no replay of
      it is under way. */
  lemma GoneStaysGoneWithoutOverlap(start: Letters, before: seq<Action>, after: seq<Action>, id: string)
    requires WellFormed(start) && Runs(Boot(start), before) && ExclusiveRunFor(Boot(start), before, id)
    requires var s := Exec(Boot(start), before); Runs(s, after) && id in s.origins && id !in s.letters
    ensures id !in Exec(Exec(Boot(start), before), after).letters
  {
    BootInv(start);
    RunKeepsExact(Boot(start), before, id);
    ExactIsNotThreatened(Exec(Boot(start), before), id);
    GoneForGoodExactlyWhen(Exec(Boot(start), before), id);
  }

  // ---- what overlap can do ---------------------------------------------------------------

  lemma Exec1(s: State, a: Action)
    requires Enabled(s, a)
    ensures Runs(s, [a]) && Exec(s, [a]) == Apply(s, a)
  {
    assert [a][1..] == [];
  }

  lemma ExecCons(s: State, a: Action, rest: seq<Action>)
    requires Enabled(s, a) && Runs(Apply(s, a), rest)
    ensures Runs(s, [a] + rest) && Exec(s, [a] + rest) == Exec(Apply(s, a), rest)
  {
    assert ([a] + rest)[1..] == rest;
  }

  lemma Exec3(s: State, a: Action, b: Action, c: Action)
    requires Enabled(s, a) && Enabled(Apply(s, a), b) && Enabled(Apply(Apply(s, a), b), c)
    ensures Runs(s, [a, b, c]) && Exec(s, [a, b, c]) == Apply(Apply(Apply(s, a), b), c)
  {
    Exec1(Apply(Apply(s, a), b), c);
    ExecCons(Apply(s, a), b, [c]);
    ExecCons(s, a, [b, c]);
    assert [a] + [b, c] == [a, b, c] && [b] + [c] == [b, c];
  }

  lemma Exec5(s: State, a: Action, b: Action, c: Action, d: Action, e: Action)
    requires Enabled(s, a)
    requires var s1 := Apply(s, a);
             && Enabled(s1, b)
             && var s2 := Apply(s1, b);
                Enabled(s2, c) && Enabled(Apply(s2, c), d) && Enabled(Apply(Apply(s2, c), d), e)
    ensures Runs(s, [a, b, c, d, e])
    ensures Exec(s, [a, b, c, d, e]) == Apply(Apply(Apply(Apply(Apply(s, a), b), c), d), e)
  {
    var s1 := Apply(s, a);
    Exec3(Apply(s1, b), c, d, e);
    ExecCons(s1, b, [c, d, e]);
    ExecCons(s, a, [b, c, d, e]);
    assert [b] + [c, d, e] == [b, c, d, e] && [a] + [b, c, d, e] == [a, b, c, d, e];
  }

  /** A letter deleted by an operator while its replay fails is back afterwards. */
  lemma DeletedLetterCanComeBack(r: Record, now: int)
    requires r.id != "" && r.attempts == 0
    ensures var acts := [Store(r.id, r, false), Snapshot(0, Operator, r.id), PostReturns(0, Failed("down")),
                         Cancel(r.id, false), Commit(0, now, false)];
            Runs(EMPTY, acts) && r.id in Exec(EMPTY, acts).cancelled && r.id in Exec(EMPTY, acts).letters
  {
    Exec5(EMPTY, Store(r.id, r, false), Snapshot(0, Operator, r.id), PostReturns(0, Failed("down")),
          Cancel(r.id, false), Commit(0, now, false));
  }

  /** Two overlapping failed replays of one letter are counted once. */
  lemma OverlappingFailuresCountOnce(s: State, k: nat, l: nat, m: int, n: int, e: string)
    requires k in s.flights && s.flights[k].post.None? && l !in s.flights && ExactFlight(s, k)
    ensures var id := s.flights[k].rec.id;
            var acts := [Snapshot(l, Operator, id), PostReturns(k, Failed(e)), PostReturns(l, Failed(e)),
                         Commit(k, m, false), Commit(l, n, false)];
            && Runs(s, acts) && id in Exec(s, acts).letters && id in Exec(s, acts).failures
            && Exec(s, acts).letters[id].attempts + 1 == Exec(s, acts).failures[id]
  {
    var id := s.flights[k].rec.id;
    Exec5(s, Snapshot(l, Operator, id), PostReturns(k, Failed(e)), PostReturns(l, Failed(e)),
          Commit(k, m, false), Commit(l, n, false));
  }

  // ---- one actor alone -------------------------------------------------------------------

  /** Three undisturbed steps settle the letter: what the replay methods do in one piece. */
  lemma UndisturbedReplay(s: State, token: nat, who: Replayer, id: string, post: Post, now: int, fault: bool)
    requires token !in s.flights && id in s.letters
    ensures var acts := [Snapshot(token, who, id), PostReturns(token, post), Commit(token, now, fault)];
            && Runs(s, acts)
            && Exec(s, acts).letters == Settle(s.letters, s.letters[id], who, post, now, fault)
            && Exec(s, acts).flights == s.flights
  {
    Exec3(s, Snapshot(token, who, id), PostReturns(token, post), Commit(token, now, fault));
  }
}
