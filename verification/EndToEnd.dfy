/** What the parts give together: from the providers' answers to the dead-letter queue for one
    event, and from the listed queue to what one pass leaves of it. */
module EndToEnd {
  import opened KeyOrder
  import opened Storage
  import opened Subscriptions
  import opened FirstWinsUnion
  import opened MultiProvider
  import opened DeadLetters
  import opened Delivery
  import opened Loading
  import ParallelPass
  import M = ReplayMachine
  import SchedulerRuns
  import LetterStories
  import SchedulerTotals

  /** What MultiProvider hands to the dispatcher; it never fails. */
  function Listing(answers: seq<Result<seq<Subscription>>>): Result<seq<Subscription>> {
    Ok(FirstWins(Union(answers), DedupeKey))
  }

  /** The key was made for a receiver whose delivery was abandoned and whose letter was saved. */
  ghost predicate MadeFor(job: Job, id: string) {
    exists i: nat :: i < |job.reports| && job.reports[i].Abandoned? && !job.world.faults(i) && NewKey(job.world, i) == id
  }

  lemma DiesExactlyWhen(job: Job, maxAttempts: nat, i: nat)
    requires JobOk(job, maxAttempts, true) && i < |job.reports|
    ensures Dies(job.world, i, maxAttempts) <==> job.reports[i].Abandoned? && !job.world.faults(i)
    ensures job.reports[i].Accepted? ==> 1 <= job.reports[i].attempts <= maxAttempts
  {
    assert ReportOk(job.reports[i], job.world.posts(i), maxAttempts, true);
  }

  /** A processed event reaches every subscription that some provider lists first under its key
      and that accepts the event; no key is served twice; each served subscription has either
      received the event within the allowed attempts or is found in the queue, under its own id,
      with the event and the address to replay it to; and the queue holds those letters, the old
      ones unchanged, and nothing else. */
  lemma ServedOrQueued(answers: seq<Result<seq<Subscription>>>, job: Job, letters: Letters,
                       maxAttempts: nat, coolingOff: int)
    requires job.listing == Listing(answers) && job.encoded
    requires JobOk(job, maxAttempts, true) && FreshKeys(letters, job.world, maxAttempts, |job.reports|)
    ensures var receivers := Receivers(job.evt, job.listing, true);
            var after := LettersAfter(letters, receivers, job.evt, job.world, maxAttempts, coolingOff, |receivers|);
            && Distinct(receivers, DedupeKey)
            && (forall k :: k in Keys(receivers, DedupeKey)
                  <==> FirstAccepted(Union(answers), DedupeKey, Receiver(job.evt.kind), k))
            && |job.reports| == |receivers|
            && (forall i: nat | i < |receivers| && job.reports[i].Accepted? :: 1 <= job.reports[i].attempts <= maxAttempts)
            && (forall i: nat | i < |receivers| && job.reports[i].Abandoned? && !job.world.faults(i) ::
                  && NewKey(job.world, i) in after
                  && OriginOf(after[NewKey(job.world, i)])
                     == Origin(receivers[i].id, receivers[i].url, receivers[i].secret, job.evt))
            && (forall id | id in letters :: id in after && after[id] == letters[id])
            && (forall id :: id in after <==> id in letters || MadeFor(job, id))
  {
    var receivers, w := Receivers(job.evt, job.listing, true), job.world;
    var n := |receivers|;
    var after := LettersAfter(letters, receivers, job.evt, w, maxAttempts, coolingOff, n);
    EachKeyTargetedOnce(answers, job.evt.kind);
    forall k ensures k in Keys(receivers, DedupeKey)
               <==> FirstAccepted(Union(answers), DedupeKey, Receiver(job.evt.kind), k)
    {
      KeysOfFilteredFirsts(Union(answers), DedupeKey, Receiver(job.evt.kind), k);
    }
    forall i: nat | i < n
      ensures job.reports[i].Accepted? ==> 1 <= job.reports[i].attempts <= maxAttempts
      ensures job.reports[i].Abandoned? && !w.faults(i) ==>
                NewKey(w, i) in after
                && OriginOf(after[NewKey(w, i)]) == Origin(receivers[i].id, receivers[i].url, receivers[i].secret, job.evt)
    {
      DiesExactlyWhen(job, maxAttempts, i);
      if Dies(w, i, maxAttempts) { EveryDeathIsStored(letters, receivers, job.evt, w, maxAttempts, coolingOff, n, i); }
    }
    forall id | id in letters ensures id in after && after[id] == letters[id] {
      FreshKeysKeepLetters(letters, receivers, job.evt, w, maxAttempts, coolingOff, n, id);
    }
    forall id ensures id in after <==> id in letters || MadeFor(job, id) {
      LettersAfterKeys(letters, receivers, job.evt, w, maxAttempts, coolingOff, n, id);
      MadeForReceivers(job, maxAttempts, id);
    }
  }

  lemma MadeForReceivers(job: Job, maxAttempts: nat, id: string)
    requires JobOk(job, maxAttempts, true)
    ensures MadeFor(job, id) <==> MadeHere(job.world, maxAttempts, |job.reports|, id)
  {
    if i: nat :| i < |job.reports| && Dies(job.world, i, maxAttempts) && NewKey(job.world, i) == id {
      DiesExactlyWhen(job, maxAttempts, i);
    }
    if i: nat :| i < |job.reports| && job.reports[i].Abandoned? && !job.world.faults(i) && NewKey(job.world, i) == id {
      DiesExactlyWhen(job, maxAttempts, i);
    }
  }

  /** The delivery behind the i-th report of a job. */
  function AttemptAt(job: Job, i: nat): SchedulerRuns.Attempt
    requires i < |Receivers(job.evt, job.listing, job.encoded)|
  {
    SchedulerRuns.Attempt(Receivers(job.evt, job.listing, job.encoded)[i], job.evt, job.world.posts(i),
                          job.world.nows(i), job.world.keyNs(i), job.world.faults(i))
  }

  /** All POSTs of one event to one receiver over a whole run, those the job reports and those the
      scheduler makes of the dead letter that very delivery left, stay within the two configured
      maxima, plus one per commit the store refused; a delivery that left no letter stays within
      the first. Its letter is its own, and carries the event and the receiver's address. */
  lemma TotalPostsBounded(job: Job, i: nat, p: SchedulerRuns.Params, letters: Letters, clock: int,
                          acts: seq<SchedulerRuns.Action>, j: nat)
    requires JobOk(job, p.deliveryAttempts, true) && i < |job.reports|
    requires p.maxAttempts >= 1 && M.WellFormed(letters)
    requires SchedulerRuns.Runs(p, SchedulerRuns.Start(p, letters, clock), acts)
    requires var s := LetterStories.After(p, letters, clock, acts);
             && j < |s.deliveries| && s.deliveries[j] == AttemptAt(job, i)
             && LetterStories.NoManualReplay(acts, NewKey(job.world, i))
    ensures var s := LetterStories.After(p, letters, clock, acts);
            var sub, id := AttemptAt(job, i).sub, NewKey(job.world, i);
            var dies := job.reports[i].Abandoned? && !job.world.faults(i);
            && SchedulerTotals.LetterOfDelivery(p, s, j)
            && job.reports[i].attempts + SchedulerTotals.ReplaysOf(p, s, j)
               <= p.deliveryAttempts + (if dies then p.maxAttempts + SchedulerTotals.LostOf(p, s, j) else 0)
            && (dies ==> id in s.stories && SchedulerTotals.ReplaysOf(p, s, j) == |s.stories[id].starts|
                         && id in s.m.origins && s.m.origins[id] == Origin(sub.id, sub.url, sub.secret, job.evt))
  {
    var d := AttemptAt(job, i);
    assert ReportOk(job.reports[i], job.world.posts(i), p.deliveryAttempts, true);
    ReportIsDetermined(job.reports[i], SchedulerRuns.ReportOf(p, d), d.post, p.deliveryAttempts, true);
    SchedulerTotals.DeliveryPostsBounded(p, letters, clock, acts, j);
  }

  // ---- one whole pass --------------------------------------------------------------------

  /** The queue as a pass finds it when nobody else is at work: every value decodes, sits under
      its own id, and is still the same when it is read. */
  ghost predicate Undisturbed(bucket: map<string, Blob>, views: Views<Blob>, faults: nat -> bool) {
    && Keyed(bucket) && (forall k | k in bucket :: bucket[k].RecordJson?)
    && forall i: nat :: views(i) == bucket && !faults(i)
  }

  /** A pass over the listed letters that `pick` selects ended with these letters. */
  ghost predicate PassResult(letters: Letters, pick: Record -> bool, j: ParallelPass.Job, after: Letters) {
    forall id ::
      && (id in after <==> id in letters && !(pick(letters[id]) && j.post(id).Delivered?))
      && (id in after ==>
            after[id] == if pick(letters[id])
                         then AfterFailure(letters[id], j.who, (if j.post(id).Failed? then j.post(id).error else ""), j.clock(id))
                         else letters[id])
  }

  lemma ListedOnce(bucket: map<string, Blob>, views: Views<Blob>, faults: nat -> bool, pick: Record -> bool)
    requires Undisturbed(bucket, views, faults)
    ensures var listing := Loaded(Sorted(bucket.Keys), views, faults, AsRecord);
            && listing.Ok? && |listing.value| == |bucket|
            && ParallelPass.DistinctIds(Filter(listing.value, pick))
            && forall r :: r in Filter(listing.value, pick) <==>
                 r.id in LettersIn(bucket) && LettersIn(bucket)[r.id] == r && pick(r)
  {
    UndisturbedList(bucket, views, faults);
    SortedSpec(bucket.Keys);
    var keys, records := Sorted(bucket.Keys), Loaded(Sorted(bucket.Keys), views, faults, AsRecord).value;
    assert Distinct(records, IdOf) by {
      forall a, b | 0 <= a < b < |records| ensures records[a].id != records[b].id { LessAsym(keys[a], keys[b]); }
    }
    var picked := Filter(records, pick);
    FilterKeepsDistinct(records, IdOf, pick);
    assert ParallelPass.DistinctIds(picked) by {
      forall a, b | 0 <= a < b < |picked| ensures picked[a].id != picked[b].id {
        assert IdOf(picked[a]) != IdOf(picked[b]);
      }
    }
    FilterMembers(records, pick);
    forall r ensures r in picked <==> r.id in LettersIn(bucket) && LettersIn(bucket)[r.id] == r && pick(r) {
      if r in picked {
        var a :| 0 <= a < |records| && records[a] == r;
      }
      if r.id in LettersIn(bucket) && LettersIn(bucket)[r.id] == r && pick(r) {
        assert r.id in keys;
        var a :| 0 <= a < |keys| && keys[a] == r.id;
        assert records[a] == r;
      }
    }
  }

  /** List, select, replay in parallel: in every interleaving the selected letters are POSTed once
      each, the delivered ones are gone, the others carry one more attempt, and nothing else has
      changed. The scheduler selects what SchedulerRuns.Eligible accepts. */
  lemma PassAppliesToTheSelected(bucket: map<string, Blob>, views: Views<Blob>, faults: nat -> bool, pick: Record -> bool,
                                 j: ParallelPass.Job, acts: seq<ParallelPass.Action>)
    requires Undisturbed(bucket, views, faults)
    requires var listing := Loaded(Sorted(bucket.Keys), views, faults, AsRecord);
             listing.Ok? && j.records == Filter(listing.value, pick)
    requires forall r | r in j.records :: !j.fault(r.id)
    requires var start := ParallelPass.Start(LettersIn(bucket));
             ParallelPass.Runs(j, start, acts) && ParallelPass.Complete(j, ParallelPass.Exec(j, start, acts))
    ensures var s := ParallelPass.Exec(j, ParallelPass.Start(LettersIn(bucket)), acts);
            PassResult(LettersIn(bucket), pick, j, s.letters) && s.successes + s.failures == |s.results| == |j.records|
    ensures forall i: nat | i < |j.records| :: ParallelPass.PostsOf(acts, i) == 1
  {
    var letters := LettersIn(bucket);
    ListedOnce(bucket, views, faults, pick);
    ParallelPass.PassIsScheduleIndependent(j, letters, acts);
    ParallelPass.SummaryAddsUp(j, letters, acts);
    forall id ensures
      var after := ParallelPass.Exec(j, ParallelPass.Start(letters), acts).letters;
      && (id in after <==> id in letters && !(pick(letters[id]) && j.post(id).Delivered?))
      && (id in after ==>
            after[id] == if pick(letters[id])
                         then AfterFailure(letters[id], j.who, (if j.post(id).Failed? then j.post(id).error else ""), j.clock(id))
                         else letters[id])
    {
      ParallelPass.SurvivorsAreTheFailures(j, letters, id);
      if id in letters { assert letters[id].id == id; }
    }
  }

  /** Replay-all selects everything: afterwards the queue holds exactly the letters whose replay
      failed, and the summary accounts for every letter there was. */
  lemma ReplayAllLeavesTheFailures(bucket: map<string, Blob>, views: Views<Blob>, faults: nat -> bool,
                                   j: ParallelPass.Job, acts: seq<ParallelPass.Action>)
    requires Undisturbed(bucket, views, faults)
    requires Loaded(Sorted(bucket.Keys), views, faults, AsRecord) == Ok(j.records) && forall k :: !j.fault(k)
    requires var start := ParallelPass.Start(LettersIn(bucket));
             ParallelPass.Runs(j, start, acts) && ParallelPass.Complete(j, ParallelPass.Exec(j, start, acts))
    ensures var s := ParallelPass.Exec(j, ParallelPass.Start(LettersIn(bucket)), acts);
            && (forall id :: id in s.letters <==> id in LettersIn(bucket) && j.post(id).Failed?)
            && s.successes + s.failures == |s.results| == |bucket|
  {
    var all := (r: Record) => true;
    FilterAll(j.records, all);
    ListedOnce(bucket, views, faults, all);
    PassAppliesToTheSelected(bucket, views, faults, all, j, acts);
  }
}
