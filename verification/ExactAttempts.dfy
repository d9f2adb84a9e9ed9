/** Over whole runs of ReplayMachine, when is Attempts the number of failed replays? */
module ExactAttempts {
  import opened DeadLetters
  import opened ReplayMachine

  /** What an observer of one letter notes along a run, without looking at Attempts: how many of
      its failed replays have committed, how many had when each replay took its snapshot, and
      whether none was lost so far. A failed replay is lost if the store refuses its commit, or
      if another one committed since its snapshot. */
  datatype Notes = Notes(settled: nat, seen: map<nat, nat>, lossless: bool)

  ghost predicate FailedOf(s: State, token: nat, id: string) {
    && token in s.flights && s.flights[token].rec.id == id
    && s.flights[token].post.Some? && s.flights[token].post.value.Failed?
  }

  ghost function Note(n: Notes, s: State, a: Action, id: string): Notes {
    match a
    case Snapshot(token, _, i) => if i == id then n.(seen := n.seen[token := n.settled]) else n
    case Commit(token, _, fault) =>
      if !FailedOf(s, token, id) then n
      else Notes(n.settled + 1, n.seen, n.lossless && !fault && token in n.seen && n.seen[token] == n.settled)
    case _ => n
  }

  ghost function NotesAlong(n: Notes, s: State, acts: seq<Action>, id: string): Notes
    requires Runs(s, acts)
    decreases |acts|
  {
    if acts == [] then n else NotesAlong(Note(n, s, acts[0], id), Apply(s, acts[0]), acts[1..], id)
  }

  /** A letter found at start-up counts as exact. */
  ghost function FirstNotes(start: Letters, id: string): Notes {
    Notes(if id in start && start[id].attempts >= 0 then start[id].attempts else 0, map[], true)
  }

  // ---- invariant -------------------------------------------------------------------------

  /** Failed replays that have not committed yet. */
  ghost function Pendings(s: State, id: string): set<nat> {
    set k | k in s.flights && FailedOf(s, k, id)
  }

  ghost predicate FlightNoted(s: State, n: Notes, k: nat)
    requires k in s.flights
  {
    var a := s.flights[k].rec.attempts;
    k in n.seen && n.seen[k] <= n.settled && (if n.lossless then a == n.seen[k] else a < n.settled)
  }

  ghost predicate LetterNoted(s: State, n: Notes, id: string)
    requires id in s.letters
  {
    if n.lossless then s.letters[id].attempts == n.settled else s.letters[id].attempts < n.settled
  }

  ghost predicate CopiesNoted(s: State, n: Notes, id: string) {
    && (id in s.letters ==> LetterNoted(s, n, id))
    && (forall k | k in s.flights && s.flights[k].rec.id == id :: FlightNoted(s, n, k))
  }

  ghost predicate CountNoted(s: State, n: Notes, id: string) {
    && (id in s.failures ==> s.failures[id] == n.settled + |Pendings(s, id)|)
    && (id !in s.origins ==> n.settled == 0 && n.lossless)
  }

  lemma StepKeepsFlight(s: State, n: Notes, a: Action, id: string, k: nat)
    requires Enabled(s, a) && CopiesNoted(s, n, id) && (a.Snapshot? ==> s.letters[a.id].id == a.id)
    requires k in Apply(s, a).flights && Apply(s, a).flights[k].rec.id == id
    ensures FlightNoted(Apply(s, a), Note(n, s, a, id), k)
  {
    if k in s.flights { assert s.flights[k].rec.id == id && FlightNoted(s, n, k); }
  }

  lemma StepKeepsLetter(s: State, n: Notes, a: Action, id: string)
    requires Enabled(s, a) && CopiesNoted(s, n, id) && CountNoted(s, n, id)
    requires id in Apply(s, a).letters
    ensures LetterNoted(Apply(s, a), Note(n, s, a, id), id)
  {
    if a.Commit? && s.flights[a.token].rec.id == id { assert FlightNoted(s, n, a.token); }
  }

  lemma StepKeepsCopies(s: State, n: Notes, a: Action, id: string)
    requires Inv(s) && Enabled(s, a) && CopiesNoted(s, n, id) && CountNoted(s, n, id)
    ensures CopiesNoted(Apply(s, a), Note(n, s, a, id), id)
  {
    var t := Apply(s, a);
    if a.Snapshot? { assert LetterOk(s, a.id); }
    if id in t.letters { StepKeepsLetter(s, n, a, id); }
    forall k | k in t.flights && t.flights[k].rec.id == id ensures FlightNoted(t, Note(n, s, a, id), k) {
      StepKeepsFlight(s, n, a, id, k);
    }
  }

  lemma SamePendings(s: State, t: State, id: string)
    requires forall k :: FailedOf(s, k, id) <==> FailedOf(t, k, id)
    ensures Pendings(s, id) == Pendings(t, id)
  {
  }

  lemma PostAddsPending(s: State, a: Action, id: string)
    requires Enabled(s, a) && a.PostReturns? && FailsFor(s, a, id)
    ensures |Pendings(Apply(s, a), id)| == |Pendings(s, id)| + 1
  {
    assert Pendings(Apply(s, a), id) == Pendings(s, id) + {a.token};
  }

  lemma CommitTakesPending(s: State, a: Action, id: string)
    requires Enabled(s, a) && a.Commit? && FailedOf(s, a.token, id)
    ensures |Pendings(Apply(s, a), id)| == |Pendings(s, id)| - 1
  {
    var before, after := Pendings(s, id), Pendings(Apply(s, a), id);
    forall k ensures k in after <==> k in before && k != a.token {}
    assert after == before - {a.token} && a.token in before;
  }

  /** No failure of the letter comes or goes in this step. */
  lemma ElsePendings(s: State, a: Action, id: string)
    requires Enabled(s, a) && !FailsFor(s, a, id) && !(a.Commit? && FailedOf(s, a.token, id))
    requires a.Snapshot? ==> a.token !in s.flights
    ensures Pendings(s, id) == Pendings(Apply(s, a), id)
  {
    SamePendings(s, Apply(s, a), id);
  }

  lemma NotStoredNotPending(s: State, id: string)
    requires Inv(s) && id !in s.origins
    ensures Pendings(s, id) == {}
  {
    assert forall k | k in s.flights :: FlightOk(s, k);
  }

  lemma StepKeepsCount(s: State, n: Notes, a: Action, id: string)
    requires Inv(s) && Enabled(s, a) && CountNoted(s, n, id)
    ensures CountNoted(Apply(s, a), Note(n, s, a, id), id)
  {
    if FailsFor(s, a, id) {
      assert FlightOk(s, a.token);
      PostAddsPending(s, a, id);
    } else if a.Commit? && FailedOf(s, a.token, id) {
      assert FlightOk(s, a.token);
      CommitTakesPending(s, a, id);
    } else {
      ElsePendings(s, a, id);
      if id !in s.origins { NotStoredNotPending(s, id); }
    }
  }

  lemma {:induction false} RunKeepsNotes(s: State, n: Notes, acts: seq<Action>, id: string)
    requires Inv(s) && Runs(s, acts) && CopiesNoted(s, n, id) && CountNoted(s, n, id)
    ensures var t, m := Exec(s, acts), NotesAlong(n, s, acts, id); CopiesNoted(t, m, id) && CountNoted(t, m, id)
    ensures Inv(Exec(s, acts))
    decreases |acts|
  {
    if acts != [] {
      StepKeepsCopies(s, n, acts[0], id);
      StepKeepsCount(s, n, acts[0], id);
      StepKeepsInv(s, acts[0]);
      RunKeepsNotes(Apply(s, acts[0]), Note(n, s, acts[0], id), acts[1..], id);
    }
  }

  /** In every run from any bucket, a stored letter's Attempts and its failed replays still to
      commit add up to all its failed replays if and only if none was lost: each commit of a
      failed replay reached the store, and no other one had committed since its snapshot. Once
      one is lost the count stays short. Overlaps that lose nothing do no harm. */
  lemma AttemptsExactExactlyWhen(start: Letters, acts: seq<Action>, id: string)
    requires WellFormed(start) && Runs(Boot(start), acts) && id in Exec(Boot(start), acts).letters
    ensures var s := Exec(Boot(start), acts);
            var lossless := NotesAlong(FirstNotes(start, id), Boot(start), acts, id).lossless;
            && id in s.failures
            && (s.letters[id].attempts + |Pendings(s, id)| == s.failures[id] <==> lossless)
            && (!Busy(s, id) ==> (s.letters[id].attempts == s.failures[id] <==> lossless))
  {
    BootInv(start);
    RunKeepsNotes(Boot(start), FirstNotes(start, id), acts, id);
    var s := Exec(Boot(start), acts);
    assert LetterOk(s, id);
    if !Busy(s, id) { assert Pendings(s, id) == {}; }
  }
}
