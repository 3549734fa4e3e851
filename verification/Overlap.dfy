/** What the atomic granularity leaves out: attempts of one scan that overlap. At the split granularity
    a scan owns every result its attempts obtained; exactly one is kept just when no attempt ends on a
    scan that is COMPLETED already, as in all runs in which no two attempts of one scan overlap. */
module Overlap {
  import opened Tables
  import opened Protocol
  import opened Evolution
  import opened Safety
  import opened Atomic
  import opened Rows
  import opened Outcomes

  // ---------- every result is stored ----------

  // Whole resolver results that the finished attempts of one scan stored, in order.
  function StoredResults(s: State, run: seq<Step>, id: ScanId): seq<seq<Record>> {
    if run == [] then [] else StoredResults(s, Front(run), id) + NewlyStored(Final(s, Front(run)), Last(run), id)
  }

  function NewlyStored(s: State, step: Step, id: ScanId): seq<seq<Record>> {
    if step.Worker? && step.w.Finish? && step.w.m.scan == id && id in s.db.scans && step.w.outcome.Resolved?
    then [step.w.outcome.records] else []
  }

  function Flat(results: seq<seq<Record>>): seq<Record> {
    if results == [] then [] else Flat(results[..|results| - 1]) + results[|results| - 1]
  }

  lemma FlatAppend(results: seq<seq<Record>>, r: seq<Record>)
    ensures Flat(results + [r]) == Flat(results) + r
  {
  }

  ghost predicate OwnsAll(s: State, results: seq<seq<Record>>, id: ScanId) {
    && (id !in s.issued ==> results == [])
    && (id in s.db.scans ==> OwnedBy(s.db.assets, id) == Flat(results))
  }

  lemma FinishStores(s: State, m: Message, outcome: Outcome, next: Option<ScanId>, now: int, id: ScanId, results: seq<seq<Record>>)
    requires OwnsAll(s, results, id) && AllIssued(s)
    ensures
      var step := Worker(Finish(m, outcome, next, now));
      OwnsAll(Do(s, step), results + NewlyStored(s, step, id), id)
  {
    hide OwnedBy, Flat, Enqueued;
    SettleActsOnRow(s.db, m.scan, outcome, now);
    if m.scan in s.db.scans {
      SettleOwned(s.db, m.scan, outcome, now, id);
    }
    hide Settle;
    if m.scan == id && id in s.db.scans && outcome.Resolved? {
      FlatAppend(results, outcome.records);
    } else {
      assert results + [] == results;
      assert OwnedBy(s.db.assets, id) + [] == OwnedBy(s.db.assets, id);
    }
  }

  lemma SettleActsOnRow(db: Database, id: ScanId, outcome: Outcome, now: int)
    ensures Settle(db, id, outcome, now).scans.Keys == db.scans.Keys
    ensures id !in db.scans ==> Settle(db, id, outcome, now) == db
  {
  }

  lemma ApiStoresNothing(s: State, a: ApiStep, id: ScanId, results: seq<seq<Record>>)
    requires OwnsAll(s, results, id) && ForeignKeys(s.db) && AllIssued(s) && ApiEnabled(s, a)
    ensures OwnsAll(DoApi(s, a), results, id)
  {
    hide OwnedBy, CallsAfter;
    if id in ApiDatabase(s.db, a).scans {
      ApiKeepsOwned(s.db, a, id);
    }
    if id in ApiDatabase(s.db, a).scans && id !in s.db.scans {
      ApiStatus(s.db, a, id);
      assert id !in s.issued;
    }
    hide ApiDatabase;
  }

  lemma StepStores(s: State, step: Step, id: ScanId, results: seq<seq<Record>>)
    requires OwnsAll(s, results, id) && Safe(s) && Enabled(s, step)
    ensures OwnsAll(Do(s, step), results + NewlyStored(s, step, id), id)
  {
    hide OwnedBy, ApiDatabase, CallsAfter, Settle, OldestPending;
    assert results + [] == results;
    match step
    case Api(a) => ApiStoresNothing(s, a, id, results);
    case Worker(Claim(m, now)) =>
    case Worker(Finish(m, outcome, next, now)) => FinishStores(s, m, outcome, next, now, id, results);
    case Broken(f) =>
  }

  // Overlaps or not: a scan owns the results of all its finished attempts, whole and in order.
  lemma {:induction false} OwnsEveryResult(maxRetries: nat, run: seq<Step>, id: ScanId)
    requires Valid(Init(maxRetries), run)
    ensures OwnsAll(Final(Init(maxRetries), run), StoredResults(Init(maxRetries), run, id), id)
    decreases |run|
  {
    hide Do, Enabled, NewlyStored;
    if run != [] {
      hide OwnsAll;
      OwnsEveryResult(maxRetries, Front(run), id);
      RunKeepsSafe(Init(maxRetries), Front(run));
      StepStores(Final(Init(maxRetries), Front(run)), Last(run), id, StoredResults(Init(maxRetries), Front(run), id));
    }
  }

  // ---------- exactly one result, and exactly when ----------

  ghost predicate OneResult(s: State, results: seq<seq<Record>>, id: ScanId) {
    && (id !in s.issued ==> results == [])
    && (id in s.db.scans ==> |results| == if s.db.scans[id].status == Completed then 1 else 0)
  }

  // More results than the status accounts for.
  ghost predicate Excess(s: State, results: seq<seq<Record>>, id: ScanId) {
    id in s.db.scans && |results| > if s.db.scans[id].status == Completed then 1 else 0
  }

  // An attempt ends, with a result or a final error, on a scan that is COMPLETED already.
  predicate SettlesCompleted(s: State, step: Step, id: ScanId) {
    && step.Worker? && step.w.Finish? && step.w.m.scan == id && !Retries(s, step.w.m, step.w.outcome)
    && id in s.db.scans && s.db.scans[id].status == Completed
  }

  predicate SettledAgain(s: State, run: seq<Step>, id: ScanId) {
    run != [] && (SettledAgain(s, Front(run), id) || SettlesCompleted(Final(s, Front(run)), Last(run), id))
  }

  lemma ApiKeepsCount(s: State, a: ApiStep, id: ScanId, results: seq<seq<Record>>)
    requires AllIssued(s) && ApiEnabled(s, a)
    ensures OneResult(s, results, id) ==> OneResult(DoApi(s, a), results, id)
    ensures Excess(s, results, id) && id in DoApi(s, a).db.scans ==> Excess(DoApi(s, a), results, id)
  {
    if id in ApiDatabase(s.db, a).scans {
      ApiStatus(s.db, a, id);
    }
    hide ApiDatabase, CallsAfter;
  }

  lemma FinishCounts(s: State, step: Step, id: ScanId, results: seq<seq<Record>>)
    requires step.Worker? && step.w.Finish? && AllIssued(s)
    ensures OneResult(s, results, id) ==>
      (OneResult(Do(s, step), results + NewlyStored(s, step, id), id) <==> !SettlesCompleted(s, step, id))
    ensures Excess(s, results, id) || (OneResult(s, results, id) && SettlesCompleted(s, step, id)) ==>
      Excess(Do(s, step), results + NewlyStored(s, step, id), id)
  {
    hide Enqueued;
  }

  // A step keeps the count right exactly when it settles no COMPLETED scan; a wrong count is never mended.
  lemma StepCountsResults(s: State, step: Step, id: ScanId, results: seq<seq<Record>>)
    requires Safe(s) && Enabled(s, step)
    ensures OneResult(s, results, id) ==>
      (OneResult(Do(s, step), results + NewlyStored(s, step, id), id) <==> !SettlesCompleted(s, step, id))
    ensures Excess(s, results, id) || (OneResult(s, results, id) && SettlesCompleted(s, step, id)) ==>
      (id in Do(s, step).db.scans ==> Excess(Do(s, step), results + NewlyStored(s, step, id), id))
  {
    SafeIssued(s);
    hide ApiDatabase, CallsAfter, OldestPending, Safe, DoFinish, AllIssued;
    assert results + [] == results;
    match step
    case Api(a) =>
      hide DoApi;
      ApiKeepsCount(s, a, id, results);
    case Worker(Claim(m, now)) =>
    case Worker(Finish(m, outcome, next, now)) => FinishCounts(s, step, id, results);
    case Broken(f) =>
  }

  lemma {:induction false} RunCountsResults(maxRetries: nat, run: seq<Step>, id: ScanId)
    requires Valid(Init(maxRetries), run)
    ensures
      var s, results := Final(Init(maxRetries), run), StoredResults(Init(maxRetries), run, id);
      && (!SettledAgain(Init(maxRetries), run, id) ==> OneResult(s, results, id))
      && (SettledAgain(Init(maxRetries), run, id) ==>
            id in s.issued && (id in s.db.scans ==> Excess(s, results, id)))
    decreases |run|
  {
    hide Do, Enabled, NewlyStored, SettlesCompleted;
    if run != [] {
      hide OneResult, Excess;
      RunCountsResults(maxRetries, Front(run), id);
      RunKeepsSafe(Init(maxRetries), Front(run));
      var s := Final(Init(maxRetries), Front(run));
      StepKeepsSafe(s, Last(run));
      StepCountsResults(s, Last(run), id, StoredResults(Init(maxRetries), Front(run), id));
      if id in s.issued {
        DeletedOrFinished(s, Last(run), id);
      }
      SettlesIssued(s, Last(run), id);
      ExcessHasRow(s, StoredResults(Init(maxRetries), Front(run), id), id);
    }
  }

  lemma SettlesIssued(s: State, step: Step, id: ScanId)
    requires Safe(s)
    ensures SettlesCompleted(s, step, id) ==> id in s.issued
  {
  }

  lemma ExcessHasRow(s: State, results: seq<seq<Record>>, id: ScanId)
    ensures Excess(s, results, id) ==> id in s.db.scans
  {
  }

  // In every reachable state, an existing scan owns exactly the one result its attempts obtained if it is
  // COMPLETED, and nothing otherwise, if and only if no attempt has ended on it while it was COMPLETED.
  lemma {:induction false} ExactlyOnceIff(maxRetries: nat, run: seq<Step>, id: ScanId)
    requires Valid(Init(maxRetries), run)
    ensures
      var s := Final(Init(maxRetries), run);
      id in s.db.scans ==>
        (OwnsItsResult(s, StoredResults(Init(maxRetries), run, id), id) <==> !SettledAgain(Init(maxRetries), run, id))
  {
    RunCountsResults(maxRetries, run, id);
    OwnsEveryResult(maxRetries, run, id);
    hide Final, Valid, StoredResults, OwnsAll, OneResult, Excess, OwnsItsResult, SettledAgain;
    CountDecides(Final(Init(maxRetries), run), StoredResults(Init(maxRetries), run, id), id);
  }

  lemma CountDecides(s: State, results: seq<seq<Record>>, id: ScanId)
    requires OwnsAll(s, results, id)
    ensures OneResult(s, results, id) ==>
      && OwnsItsResult(s, results, id)
      && (id in s.db.scans && s.db.scans[id].status != Completed ==> OwnedBy(s.db.assets, id) == [])
    ensures Excess(s, results, id) ==> !OwnsItsResult(s, results, id)
  {
    hide OwnedBy;
    if |results| == 1 {
      assert results[..0] == [];
      assert Flat(results) == results[0];
      assert results == [results[0]];
    }
  }

  // ---------- runs in which attempts do not overlap ----------

  // A claim that starts a second attempt of a scan beside one in flight.
  ghost predicate Overlaps(s: State, step: Step) {
    step.Worker? && step.w.Claim? && Starts(s.db, step.w.m.scan)
    && exists w | w in s.attempts :: w.scan == step.w.m.scan
  }

  ghost predicate Separate(s: State, run: seq<Step>) {
    run == [] || (Separate(s, Front(run)) && !Overlaps(Final(s, Front(run)), Last(run)))
  }

  // Every attempt in flight is the only one of its scan, and its scan is unfinished or deleted.
  ghost predicate Alone(s: State) {
    && (forall m | m in s.attempts :: s.attempts[m] == 1 && (m.scan in s.db.scans ==> IsActive(s.db, m.scan)))
    && (forall m, w | m in s.attempts && w in s.attempts && m.scan == w.scan :: m == w)
  }

  lemma ApiKeepsAlone(s: State, a: ApiStep)
    requires Alone(s) && AllIssued(s) && ApiEnabled(s, a)
    ensures Alone(DoApi(s, a))
  {
  }

  lemma ClaimKeepsAlone(s: State, m: Message, now: int)
    requires Alone(s) && ForeignKeys(s.db) && !Overlaps(s, Worker(Claim(m, now)))
    ensures Alone(DoClaim(s, m, now))
  {
  }

  lemma FinishKeepsAlone(s: State, m: Message, outcome: Outcome, next: Option<ScanId>, now: int)
    requires Alone(s) && m in s.attempts
    ensures Alone(DoFinish(s, m, outcome, next, now))
  {
  }

  lemma StepKeepsAlone(s: State, step: Step)
    requires Alone(s) && Safe(s) && Enabled(s, step) && !Overlaps(s, step)
    ensures Alone(Do(s, step))
  {
    hide Alone, DoApi, DoClaim, DoFinish, DoFault, OldestPending, Overlaps;
    match step
    case Api(a) => ApiKeepsAlone(s, a);
    case Worker(Claim(m, now)) => ClaimKeepsAlone(s, m, now);
    case Worker(Finish(m, outcome, next, now)) => FinishKeepsAlone(s, m, outcome, next, now);
    case Broken(f) => FaultKeepsAlone(s, f);
  }

  lemma FaultKeepsAlone(s: State, f: Fault)
    requires Alone(s)
    ensures Alone(DoFault(s, f))
  {
  }

  lemma AloneSettlesOnce(s: State, step: Step, id: ScanId)
    requires Alone(s) && Enabled(s, step)
    ensures !SettlesCompleted(s, step, id)
  {
  }

  lemma {:induction false} SeparateSettlesOnce(maxRetries: nat, run: seq<Step>, id: ScanId)
    requires Valid(Init(maxRetries), run) && Separate(Init(maxRetries), run)
    ensures Alone(Final(Init(maxRetries), run)) && !SettledAgain(Init(maxRetries), run, id)
    decreases |run|
  {
    hide Do, Enabled, Overlaps, SettlesCompleted;
    if run != [] {
      hide Alone;
      SeparateSettlesOnce(maxRetries, Front(run), id);
      RunKeepsSafe(Init(maxRetries), Front(run));
      StepKeepsAlone(Final(Init(maxRetries), Front(run)), Last(run));
      AloneSettlesOnce(Final(Init(maxRetries), Front(run)), Last(run), id);
    }
  }

  // With no two attempts of one scan in flight together: a scan is COMPLETED when its attempts obtained
  // exactly one result, and it owns precisely that; otherwise it owns nothing.
  lemma {:induction false} ExactlyOnceUnlessOverlapping(maxRetries: nat, run: seq<Step>, id: ScanId)
    requires Valid(Init(maxRetries), run) && Separate(Init(maxRetries), run)
    ensures OwnsItsResult(Final(Init(maxRetries), run), StoredResults(Init(maxRetries), run, id), id)
    ensures
      var db := Final(Init(maxRetries), run).db;
      id in db.scans && db.scans[id].status != Completed ==> OwnedBy(db.assets, id) == []
  {
    SeparateSettlesOnce(maxRetries, run, id);
    RunCountsResults(maxRetries, run, id);
    OwnsEveryResult(maxRetries, run, id);
    hide Final, Valid, StoredResults, OwnedBy, OwnsAll, OneResult, OwnsItsResult, SettledAgain;
    CountDecides(Final(Init(maxRetries), run), StoredResults(Init(maxRetries), run, id), id);
  }

  // ---------- what an overlap does ----------

  // Two attempts of one scan in flight can always both finish, and then both results are kept.
  lemma OverlapKeepsBoth(s: State, m: Message, w: Message, r1: seq<Record>, r2: seq<Record>) returns (run: seq<Step>)
    requires m in s.attempts && w in s.attempts - multiset{m} && m.scan == w.scan && m.scan in s.db.scans
    ensures Valid(s, run) && WorkersOnly(run) && m.scan in Final(s, run).db.scans
    ensures Final(s, run).db.scans[m.scan].status == Completed
    ensures OwnedBy(Final(s, run).db.assets, m.scan) == OwnedBy(s.db.assets, m.scan) + r1 + r2
  {
    var first := FinishNow(s, m, r1);
    var t := Do(s, first);
    var second := FinishNow(t, w, r2);
    run := [first, second];
    TwoSteps(s, first, second);
  }

  lemma FinishNow(s: State, m: Message, r: seq<Record>) returns (step: Step)
    requires m in s.attempts && m.scan in s.db.scans
    ensures step.Worker? && Enabled(s, step) && Do(s, step).attempts == s.attempts - multiset{m}
    ensures m.scan in Do(s, step).db.scans && Do(s, step).db.scans[m.scan].status == Completed
    ensures OwnedBy(Do(s, step).db.assets, m.scan) == OwnedBy(s.db.assets, m.scan) + r
  {
    var outcome := Resolved(r);
    var d := s.db.scans[m.scan].domain;
    hide OwnedBy;
    OldestPendingExists(Settle(s.db, m.scan, outcome, s.clock), d);
    SettleOwned(s.db, m.scan, outcome, s.clock, m.scan);
    var next :| OldestPending(Settle(s.db, m.scan, outcome, s.clock), d, next);
    hide OldestPending;
    step := Worker(Finish(m, outcome, next, s.clock));
  }
}
