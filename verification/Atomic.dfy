/** The atomic granularity: a whole delivery is one step, and so is the insertion of an initial scan
    together with the domain status that shows it. Everything else is as in the split protocol. */
module Atomic {
  import opened Tables
  import opened Protocol

  datatype AtomicStep =
    | Deliver(m: Message, outcome: Outcome, next: Option<ScanId>, started: int, ended: int)
    | CreateInitial(c: CallId, d: DomainId, id: ScanId, createdAt: int)
    | Plain(step: Step)

  // A worker that runs no attempt looks no further than the claim.
  function Expand(s: State, a: AtomicStep): seq<Step> {
    match a
    case Deliver(m, outcome, next, started, ended) =>
      [Worker(Claim(m, started))] +
      if Starts(s.db, m.scan) then [Worker(Finish(m, outcome, next, ended))] else []
    case CreateInitial(c, d, id, createdAt) =>
      [Api(InsertInitial(c, d, id, createdAt))] +
      if d in s.db.domains then [Api(ShowInitial(c, d, id))] else []
    case Plain(step) => [step]
  }

  predicate SplitOnly(step: Step) {
    step.Worker? || (step.Api? && (step.a.InsertInitial? || step.a.ShowInitial?))
  }

  predicate AtomicEnabled(s: State, a: AtomicStep) {
    Valid(s, Expand(s, a)) && (a.Plain? ==> !SplitOnly(a.step))
  }

  function AtomicDo(s: State, a: AtomicStep): State {
    Final(s, Expand(s, a))
  }

  function AtomicFinal(s: State, run: seq<AtomicStep>): State {
    if run == [] then s else AtomicDo(AtomicFinal(s, Front(run)), Last(run))
  }

  predicate AtomicValid(s: State, run: seq<AtomicStep>) {
    run == [] || (AtomicValid(s, Front(run)) && AtomicEnabled(AtomicFinal(s, Front(run)), Last(run)))
  }

  // ---------- the atomic system is part of the split one ----------

  function Flatten(s: State, run: seq<AtomicStep>): seq<Step> {
    if run == [] then [] else Flatten(s, Front(run)) + Expand(AtomicFinal(s, Front(run)), Last(run))
  }

  predicate AtomicCrashFree(run: seq<AtomicStep>) {
    forall i | 0 <= i < |run| && run[i].Plain? :: !IsLoss(run[i].step)
  }

  lemma {:induction false} FlattenedIsRun(s: State, run: seq<AtomicStep>)
    requires AtomicValid(s, run)
    ensures Valid(s, Flatten(s, run)) && Final(s, Flatten(s, run)) == AtomicFinal(s, run)
    decreases |run|
  {
    hide Do, Enabled, Expand;
    if run != [] {
      FlattenedIsRun(s, Front(run));
      RunConcat(s, Flatten(s, Front(run)), Expand(AtomicFinal(s, Front(run)), Last(run)));
      hide Valid, Final;
    }
  }

  lemma ExpandedCrashFree(s: State, a: AtomicStep)
    requires a.Plain? ==> !IsLoss(a.step)
    ensures CrashFree(Expand(s, a))
  {
    hide Starts;
  }

  lemma CrashFreeAppend(a: seq<Step>, b: seq<Step>)
    requires CrashFree(a) && CrashFree(b)
    ensures CrashFree(a + b)
  {
  }

  lemma {:induction false} FlattenedCrashFree(s: State, run: seq<AtomicStep>)
    requires AtomicCrashFree(run)
    ensures CrashFree(Flatten(s, run))
    decreases |run|
  {
    hide AtomicFinal, Expand, CrashFree, IsLoss;
    if run == [] {
      EmptyCrashFree();
    } else {
      assert AtomicCrashFree(Front(run)) && Last(run) == run[|run| - 1];
      FlattenedCrashFree(s, Front(run));
      ExpandedCrashFree(AtomicFinal(s, Front(run)), Last(run));
      CrashFreeAppend(Flatten(s, Front(run)), Expand(AtomicFinal(s, Front(run)), Last(run)));
    }
  }

  lemma EmptyCrashFree()
    ensures CrashFree([])
  {
  }

  // Every atomic run is a split run that ends in the same state.
  lemma AtomicIsSplit(s: State, run: seq<AtomicStep>)
    requires AtomicValid(s, run)
    ensures Valid(s, Flatten(s, run)) && Final(s, Flatten(s, run)) == AtomicFinal(s, run)
    ensures AtomicCrashFree(run) ==> CrashFree(Flatten(s, run))
  {
    hide Valid, Final, AtomicValid, AtomicFinal, Flatten, CrashFree;
    FlattenedIsRun(s, run);
    if AtomicCrashFree(run) {
      FlattenedCrashFree(s, run);
    }
  }

  // ---------- what an atomic step does ----------

  lemma OneStep(s: State, x: Step)
    ensures Final(s, [x]) == Do(s, x)
    ensures Valid(s, [x]) <==> Enabled(s, x)
  {
  }

  lemma TwoSteps(s: State, x: Step, y: Step)
    ensures Final(s, [x, y]) == Do(Do(s, x), y)
    ensures Valid(s, [x, y]) <==> Enabled(s, x) && Enabled(Do(s, x), y)
  {
    OneStep(s, x);
    hide Do, Enabled;
    assert Front([x, y]) == [x] && Last([x, y]) == y;
  }

  // The tables after a delivery.
  function DeliverDatabase(s: State, m: Message, outcome: Outcome, started: int, ended: int): Database {
    var claimed := ClaimDatabase(s.db, m.scan, started);
    if Starts(s.db, m.scan) && !Retries(s, m, outcome) then Settle(claimed, m.scan, outcome, ended) else claimed
  }

  // The delivery of a message settles its scan: the attempt ran and asked for no retry.
  predicate Settles(s: State, a: AtomicStep) {
    a.Deliver? && Starts(s.db, a.m.scan) && !Retries(s, a.m, a.outcome)
  }

  lemma DeliverEffect(s: State, a: AtomicStep)
    requires AtomicEnabled(s, a) && a.Deliver?
    ensures
      var s' := AtomicDo(s, a);
      && s'.db == DeliverDatabase(s, a.m, a.outcome, a.started, a.ended)
      && s'.attempts == s.attempts && s'.calls == s.calls && s'.issued == s.issued
      && s'.maxRetries == s.maxRetries
      && s'.clock == if Starts(s.db, a.m.scan) then a.ended else a.started
    ensures
      AtomicDo(s, a).queue ==
        s.queue - multiset{a.m} + if Starts(s.db, a.m.scan) then FollowUp(s, a.m, a.outcome, a.next) else multiset{}
    ensures a.m in s.queue
  {
    var claim := Worker(Claim(a.m, a.started));
    hide ClaimDatabase, Settle, Starts, OldestPending;
    if Starts(s.db, a.m.scan) {
      var finish := Worker(Finish(a.m, a.outcome, a.next, a.ended));
      assert Expand(s, a) == [claim, finish];
      TwoSteps(s, claim, finish);
      ClaimKeepsFollowUp(s, a.m, a.outcome, a.next, a.started);
      assert AtomicDo(s, a).attempts == s.attempts + multiset{a.m} - multiset{a.m};
      hide Final, Valid;
      assert a.m.scan !in Do(s, claim).db.scans ==> Settle(Do(s, claim).db, a.m.scan, a.outcome, a.ended) == Do(s, claim).db by {
        SettleAbsent(Do(s, claim).db, a.m.scan, a.outcome, a.ended);
      }
    } else {
      assert Expand(s, a) == [claim];
      OneStep(s, claim);
      assert s.queue - multiset{a.m} + multiset{} == s.queue - multiset{a.m};
    }
  }

  lemma ClaimKeepsFollowUp(s: State, m: Message, outcome: Outcome, next: Option<ScanId>, now: int)
    ensures FollowUp(DoClaim(s, m, now), m, outcome, next) == FollowUp(s, m, outcome, next)
  {
  }

  lemma SettleAbsent(db: Database, id: ScanId, outcome: Outcome, now: int)
    ensures id !in db.scans ==> Settle(db, id, outcome, now) == db
  {
  }

  lemma CreateInitialEffect(s: State, a: AtomicStep)
    requires AtomicEnabled(s, a) && a.CreateInitial?
    ensures At(s, a.c, Creating(a.d)) && a.id !in s.issued
    ensures
      var s' := AtomicDo(s, a);
      && s'.db == (if a.d in s.db.domains then ShowQueued(CreateScan(s.db, a.id, a.d, Initial, a.createdAt), a.d) else s.db)
      && (a.d !in s.db.domains ==> s'.calls == s.calls - {a.c})
      && (a.d in s.db.domains ==>
            && s'.calls == s.calls[a.c := Publishing([a.id])] && s'.db.assets == s.db.assets
            && s'.db.scans == s.db.scans[a.id := Scan(a.d, Initial, Pending, a.createdAt, None, None, None)]
            && s'.db.domains == s.db.domains[a.d := s.db.domains[a.d].(
                 status := if s.db.domains[a.d].status == Running then Running else Pending)])
      && s'.attempts == s.attempts && s'.clock == s.clock && s'.queue == s.queue && s'.maxRetries == s.maxRetries
      && s'.issued == s.issued + {a.id}
  {
    var insert := Api(InsertInitial(a.c, a.d, a.id, a.createdAt));
    if a.d in s.db.domains {
      var show := Api(ShowInitial(a.c, a.d, a.id));
      assert Expand(s, a) == [insert, show];
      TwoSteps(s, insert, show);
    } else {
      assert Expand(s, a) == [insert];
      OneStep(s, insert);
    }
  }

  lemma PlainEffect(s: State, a: AtomicStep)
    requires AtomicEnabled(s, a) && a.Plain?
    ensures Enabled(s, a.step) && AtomicDo(s, a) == Do(s, a.step) && !SplitOnly(a.step)
  {
  }

  // The tables after a plain step: an API step's, or unchanged.
  lemma PlainDatabase(s: State, a: AtomicStep)
    requires AtomicEnabled(s, a) && a.Plain?
    ensures AtomicDo(s, a).db == if a.step.Api? then ApiDatabase(s.db, a.step.a) else s.db
    ensures a.step.Api? ==> ApiEnabled(s, a.step.a) && !a.step.a.InsertInitial? && !a.step.a.ShowInitial?
  {
    PlainEffect(s, a);
    hide AtomicEnabled, AtomicDo, CallsAfter, ApiDatabase, ApiEnabled;
  }
}
