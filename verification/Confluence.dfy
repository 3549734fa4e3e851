/** With one resolver outcome per domain, the order of deliveries and duplicated messages do not matter. */
module Confluence {
  import opened Tables
  import opened Protocol
  import opened Safety
  import opened Coverage
  import opened Draining
  import opened Atomic
  import opened Rows

  // What resolving each domain name comes to, whenever it is tried.
  type Oracle = string -> Outcome

  predicate Consults(s: State, a: AtomicStep, oracle: Oracle) {
    && a.Deliver?
    && (a.m.scan in s.db.scans && s.db.scans[a.m.scan].domain in s.db.domains ==>
          a.outcome == oracle(s.db.domains[s.db.scans[a.m.scan].domain].name))
  }

  // A run of deliveries alone, in any order, each resolved as the oracle says.
  predicate Drains(s: State, run: seq<AtomicStep>, oracle: Oracle) {
    run == [] ||
    (Drains(s, Front(run), oracle) && AtomicEnabled(AtomicFinal(s, Front(run)), Last(run))
     && Consults(AtomicFinal(s, Front(run)), Last(run), oracle))
  }

  // ---------- what every drain must lead to ----------

  function ErrorOf(outcome: Outcome): Option<Text> {
    match outcome
    case Resolved(_) => None
    case Retryable(e) => Some(Describe(e))
    case Fatal(e) => Some(Describe(e))
  }

  function Foretold(db: Database, d: DomainId, oracle: Oracle): Outcome
    requires d in db.domains
  {
    oracle(db.domains[d].name)
  }

  // A scan that was finished stays put; one that was not ends as foretold, if it has ended.
  predicate RowOnCourse(before: Scan, now: Scan, owned0: seq<Record>, owned: seq<Record>, outcome: Outcome) {
    && now.domain == before.domain
    && if !Unfinished(before.status) then now == before && owned == owned0
       else if Unfinished(now.status) then owned == owned0
       else now.status == Verdict(outcome) && now.error == ErrorOf(outcome) && owned == owned0 + Stored(outcome)
  }

  ghost predicate ScanOnCourse(db0: Database, db: Database, oracle: Oracle, id: ScanId)
    requires ForeignKeys(db0) && id in db0.scans && id in db.scans
  {
    RowOnCourse(db0.scans[id], db.scans[id], OwnedBy(db0.assets, id), OwnedBy(db.assets, id),
                Foretold(db0, db0.scans[id].domain, oracle))
  }

  ghost predicate NoneEnded(db0: Database, db: Database, d: DomainId) {
    forall id | id in db0.scans && IsActive(db0, id) && db0.scans[id].domain == d :: IsActive(db, id)
  }

  ghost predicate DomainOnCourse(db0: Database, db: Database, oracle: Oracle, d: DomainId)
    requires d in db0.domains && d in db.domains
  {
    var before, now := db0.domains[d], db.domains[d];
    && now.name == before.name
    && (!HasActive(db0, d) ==> now == before)
    && (NoneEnded(db0, db, d) || now.status == Running || now.status == Verdict(Foretold(db0, d, oracle)))
  }

  ghost predicate OnCourse(db0: Database, db: Database, oracle: Oracle) {
    && ForeignKeys(db0)
    && db.scans.Keys == db0.scans.Keys && db.domains.Keys == db0.domains.Keys
    && (forall id | id in db0.scans :: ScanOnCourse(db0, db, oracle, id))
    && (forall d | d in db0.domains :: DomainOnCourse(db0, db, oracle, d))
  }

  // The outcome that the oracle gives an attempt that starts is the one foretold at the outset.
  lemma ConsultedAsForetold(db0: Database, s: State, a: AtomicStep, oracle: Oracle)
    requires ForeignKeys(s.db) && OnCourse(db0, s.db, oracle) && Consults(s, a, oracle) && Starts(s.db, a.m.scan)
    ensures a.m.scan in db0.scans && IsActive(db0, a.m.scan)
    ensures db0.scans[a.m.scan].domain == s.db.scans[a.m.scan].domain
    ensures a.outcome == Foretold(db0, db0.scans[a.m.scan].domain, oracle)
  {
  }

  lemma AttemptOnCourse(
      before: Scan, now: Scan, owned0: seq<Record>, owned: seq<Record>, outcome: Outcome, started: int, ended: int)
    requires RowOnCourse(before, now, owned0, owned, outcome) && Unfinished(now.status)
    ensures RowOnCourse(before, RunningRow(now, started), owned0, owned, outcome)
    ensures RowOnCourse(before, SettledRow(RunningRow(now, started), outcome, ended), owned0, owned + Stored(outcome), outcome)
  {
  }

  lemma DeliverKeepsScanOnCourse(db0: Database, s: State, a: AtomicStep, oracle: Oracle, id: ScanId)
    requires ForeignKeys(s.db) && OnCourse(db0, s.db, oracle) && Consults(s, a, oracle) && id in db0.scans
    ensures
      var db' := DeliverDatabase(s, a.m, a.outcome, a.started, a.ended);
      id in db'.scans && ScanOnCourse(db0, db', oracle, id)
  {
    assert id in s.db.scans && ScanOnCourse(db0, s.db, oracle, id);
    if Starts(s.db, a.m.scan) {
      ConsultedAsForetold(db0, s, a, oracle);
    }
    if id == a.m.scan && Starts(s.db, id) {
      AttemptOnCourse(db0.scans[id], s.db.scans[id], OwnedBy(db0.assets, id), OwnedBy(s.db.assets, id),
                      a.outcome, a.started, a.ended);
    }
    hide ForeignKeys, OnCourse, OwnedBy, DeliverDatabase, Starts, Consults, RowOnCourse, RunningRow, SettledRow;
    DeliverScan(s, a.m, a.outcome, a.started, a.ended, id);
  }

  lemma DeliverKeepsDomainOnCourse(db0: Database, s: State, a: AtomicStep, oracle: Oracle, d: DomainId)
    requires ForeignKeys(s.db) && OnCourse(db0, s.db, oracle) && Consults(s, a, oracle) && d in db0.domains
    ensures
      var db' := DeliverDatabase(s, a.m, a.outcome, a.started, a.ended);
      d in db'.domains && DomainOnCourse(db0, db', oracle, d)
  {
    var db' := DeliverDatabase(s, a.m, a.outcome, a.started, a.ended);
    assert d in s.db.domains && DomainOnCourse(db0, s.db, oracle, d);
    DeliverDomain(s, a.m, a.outcome, a.started, a.ended, d);
    if Starts(s.db, a.m.scan) {
      ConsultedAsForetold(db0, s, a, oracle);
    }
    if Starts(s.db, a.m.scan) && s.db.scans[a.m.scan].domain == d {
      hide ForeignKeys, OnCourse, OwnedBy, DeliverDatabase, Starts, Consults, NoneEnded;
      assert HasActive(db0, d);
    } else {
      DeliverEndsNoOther(db0, s, a, oracle, d);
      hide ForeignKeys, OnCourse, OwnedBy, DeliverDatabase, Starts, Consults, NoneEnded;
    }
  }

  lemma DeliverEndsNoOther(db0: Database, s: State, a: AtomicStep, oracle: Oracle, d: DomainId)
    requires ForeignKeys(s.db) && OnCourse(db0, s.db, oracle) && Consults(s, a, oracle)
    requires !(Starts(s.db, a.m.scan) && s.db.scans[a.m.scan].domain == d)
    ensures NoneEnded(db0, s.db, d) ==> NoneEnded(db0, DeliverDatabase(s, a.m, a.outcome, a.started, a.ended), d)
  {
    if NoneEnded(db0, s.db, d) {
      forall id | id in db0.scans && IsActive(db0, id) && db0.scans[id].domain == d
        ensures IsActive(DeliverDatabase(s, a.m, a.outcome, a.started, a.ended), id)
      {
        assert ScanOnCourse(db0, s.db, oracle, id);
        DeliverScan(s, a.m, a.outcome, a.started, a.ended, id);
      }
    }
  }

  lemma DeliverKeepsOnCourse(db0: Database, s: State, a: AtomicStep, oracle: Oracle)
    requires ForeignKeys(s.db) && OnCourse(db0, s.db, oracle) && Consults(s, a, oracle)
    ensures OnCourse(db0, DeliverDatabase(s, a.m, a.outcome, a.started, a.ended), oracle)
  {
    DeliverKeys(s, a.m, a.outcome, a.started, a.ended);
    hide DeliverDatabase, ScanOnCourse, DomainOnCourse;
    forall id | id in db0.scans
      ensures ScanOnCourse(db0, DeliverDatabase(s, a.m, a.outcome, a.started, a.ended), oracle, id)
    {
      DeliverKeepsScanOnCourse(db0, s, a, oracle, id);
    }
    forall d | d in db0.domains
      ensures DomainOnCourse(db0, DeliverDatabase(s, a.m, a.outcome, a.started, a.ended), oracle, d)
    {
      DeliverKeepsDomainOnCourse(db0, s, a, oracle, d);
    }
  }

  lemma DeliverKeepsNoOrphans(s: State, a: AtomicStep)
    requires Tidy(s) && NoOrphans(s) && AtomicEnabled(s, a) && a.Deliver?
    ensures NoOrphans(AtomicDo(s, a)) && AtomicDo(s, a).calls == s.calls
  {
    DeliverEffect(s, a);
    TidyTables(s);
    SafeIssued(s);
    DeliveryIsRun(s, a);
    hide Tidy, NoOrphans, ForeignKeys, AllIssued, AtomicEnabled, AtomicDo, Valid, Final, CrashFree, Expand;
    RunKeepsNoOrphans(s, Expand(s, a));
  }

  lemma DeliveryIsRun(s: State, a: AtomicStep)
    requires AtomicEnabled(s, a) && a.Deliver?
    ensures Valid(s, Expand(s, a)) && CrashFree(Expand(s, a)) && AtomicDo(s, a) == Final(s, Expand(s, a))
  {
  }

  lemma {:induction false} DrainStaysOnCourse(s: State, run: seq<AtomicStep>, oracle: Oracle)
    requires Tidy(s) && NoOrphans(s) && Drains(s, run, oracle)
    ensures
      var t := AtomicFinal(s, run);
      Tidy(t) && NoOrphans(t) && t.calls == s.calls && OnCourse(s.db, t.db, oracle)
    decreases |run|
  {
    hide Tidy, NoOrphans, OnCourse, AtomicEnabled, AtomicDo;
    TidyTables(s);
    if run == [] {
      StartsOnCourse(s.db, oracle);
    } else {
      DrainStaysOnCourse(s, Front(run), oracle);
      var t, a := AtomicFinal(s, Front(run)), Last(run);
      TidyTables(t);
      StepKeepsTidy(t, a);
      DeliverKeepsNoOrphans(t, a);
      DeliverEffect(t, a);
      DeliverKeepsOnCourse(s.db, t, a, oracle);
    }
  }

  lemma StartsOnCourse(db: Database, oracle: Oracle)
    requires ForeignKeys(db)
    ensures OnCourse(db, db, oracle)
  {
  }

  // ---------- complete drains ----------

  // The same rows up to timestamps.
  ghost predicate SameOutcome(db1: Database, db2: Database) {
    && db1.domains == db2.domains
    && db1.scans.Keys == db2.scans.Keys
    && forall id | id in db1.scans ::
         && db1.scans[id].domain == db2.scans[id].domain
         && db1.scans[id].status == db2.scans[id].status
         && db1.scans[id].error == db2.scans[id].error
         && OwnedBy(db1.assets, id) == OwnedBy(db2.assets, id)
  }

  ghost predicate AllFinished(db: Database) {
    forall id :: !IsActive(db, id)
  }

  lemma EmptyMeansFinished(t: State)
    requires Tidy(t) && NoOrphans(t) && t.calls == map[] && t.queue == multiset{}
    ensures AllFinished(t.db)
  {
  }

  lemma FinishedScansAgree(db0: Database, db1: Database, db2: Database, oracle: Oracle, id: ScanId)
    requires OnCourse(db0, db1, oracle) && OnCourse(db0, db2, oracle) && AllFinished(db1) && AllFinished(db2)
    requires id in db0.scans
    ensures
      && db1.scans[id].domain == db2.scans[id].domain
      && db1.scans[id].status == db2.scans[id].status
      && (IsActive(db0, id) || db1.scans[id] == db2.scans[id])
      && db1.scans[id].error == db2.scans[id].error
      && OwnedBy(db1.assets, id) == OwnedBy(db2.assets, id)
  {
    hide OwnedBy;
    assert ScanOnCourse(db0, db1, oracle, id) && ScanOnCourse(db0, db2, oracle, id);
    assert !IsActive(db1, id) && !IsActive(db2, id);
  }

  lemma FinishedDomain(db0: Database, db: Database, oracle: Oracle, d: DomainId)
    requires OnCourse(db0, db, oracle) && AllFinished(db) && Mirrors(db) && d in db0.domains
    ensures d in db.domains
    ensures db.domains[d] ==
      if HasActive(db0, d) then Domain(db0.domains[d].name, Verdict(Foretold(db0, d, oracle))) else db0.domains[d]
  {
  }

  lemma FinishedDrainsAgree(db0: Database, db1: Database, db2: Database, oracle: Oracle)
    requires OnCourse(db0, db1, oracle) && AllFinished(db1) && Mirrors(db1)
    requires OnCourse(db0, db2, oracle) && AllFinished(db2) && Mirrors(db2)
    ensures SameOutcome(db1, db2)
  {
    hide OwnedBy, Mirrors, AllFinished, ScanOnCourse, DomainOnCourse;
    forall d | d in db0.domains
      ensures db1.domains[d] == db2.domains[d]
    {
      FinishedDomain(db0, db1, oracle, d);
      FinishedDomain(db0, db2, oracle, d);
    }
    forall id | id in db0.scans
      ensures
        && db1.scans[id].domain == db2.scans[id].domain
        && db1.scans[id].status == db2.scans[id].status
        && db1.scans[id].error == db2.scans[id].error
        && OwnedBy(db1.assets, id) == OwnedBy(db2.assets, id)
    {
      FinishedScansAgree(db0, db1, db2, oracle, id);
    }
  }

  lemma MoreMessagesNoOrphans(s: State, extra: multiset<Message>)
    requires Tidy(s) && NoOrphans(s)
    ensures Tidy(s.(queue := s.queue + extra)) && NoOrphans(s.(queue := s.queue + extra))
  {
    var t := s.(queue := s.queue + extra);
    hide OwnedBy;
    assert forall m | m in s.queue :: m in t.queue;
    assert forall id | OnTheWay(s.queue, s.attempts, id) :: OnTheWay(t.queue, t.attempts, id);
    assert forall id | Covered(s, id) :: Covered(t, id);
    assert forall d | DomainCovered(s, d) :: DomainCovered(t, d);
  }

  lemma {:induction false} AtomicNoOrphans(maxRetries: nat, run: seq<AtomicStep>)
    requires AtomicValid(Init(maxRetries), run) && AtomicCrashFree(run)
    ensures NoOrphans(AtomicFinal(Init(maxRetries), run))
  {
    hide NoOrphans;
    AtomicIsSplit(Init(maxRetries), run);
    NoOrphanedWork(maxRetries, Flatten(Init(maxRetries), run));
  }

  // From any reachable state with no API call half done, and whatever extra messages the broker
  // holds, any two drains that empty the queue end in the same tables up to timestamps.
  lemma {:induction false} OutcomeIndependent(
      maxRetries: nat, before: seq<AtomicStep>, oracle: Oracle,
      extra1: multiset<Message>, drain1: seq<AtomicStep>, extra2: multiset<Message>, drain2: seq<AtomicStep>)
    requires AtomicValid(Init(maxRetries), before) && AtomicCrashFree(before)
    requires AtomicFinal(Init(maxRetries), before).calls == map[]
    requires
      var s := AtomicFinal(Init(maxRetries), before);
      var s1, s2 := s.(queue := s.queue + extra1), s.(queue := s.queue + extra2);
      && Drains(s1, drain1, oracle) && AtomicFinal(s1, drain1).queue == multiset{}
      && Drains(s2, drain2, oracle) && AtomicFinal(s2, drain2).queue == multiset{}
    ensures
      var s := AtomicFinal(Init(maxRetries), before);
      var t1 := AtomicFinal(s.(queue := s.queue + extra1), drain1);
      var t2 := AtomicFinal(s.(queue := s.queue + extra2), drain2);
      SameOutcome(t1.db, t2.db) && AllFinished(t1.db) && AllFinished(t2.db)
  {
    var s := AtomicFinal(Init(maxRetries), before);
    InitTidy(maxRetries);
    RunKeepsTidy(Init(maxRetries), before);
    AtomicNoOrphans(maxRetries, before);
    hide AtomicFinal, AtomicValid, Init, Tidy, NoOrphans, Drains, OnCourse, SameOutcome, AllFinished, Mirrors;
    DrainAsForetold(s, extra1, drain1, oracle);
    DrainAsForetold(s, extra2, drain2, oracle);
    var t1 := AtomicFinal(s.(queue := s.queue + extra1), drain1);
    var t2 := AtomicFinal(s.(queue := s.queue + extra2), drain2);
    FinishedDrainsAgree(s.db, t1.db, t2.db, oracle);
  }

  // A complete drain ends every scan as foretold.
  lemma {:induction false} DrainAsForetold(s: State, extra: multiset<Message>, drain: seq<AtomicStep>, oracle: Oracle)
    requires Tidy(s) && NoOrphans(s) && s.calls == map[]
    requires Drains(s.(queue := s.queue + extra), drain, oracle)
    requires AtomicFinal(s.(queue := s.queue + extra), drain).queue == multiset{}
    ensures
      var t := AtomicFinal(s.(queue := s.queue + extra), drain);
      OnCourse(s.db, t.db, oracle) && AllFinished(t.db) && Mirrors(t.db)
  {
    MoreMessagesNoOrphans(s, extra);
    hide AtomicFinal, Drains, NoOrphans, OnCourse, AllFinished;
    DrainStaysOnCourse(s.(queue := s.queue + extra), drain, oracle);
    EmptyMeansFinished(AtomicFinal(s.(queue := s.queue + extra), drain));
  }

  // ---------- complete drains exist ----------

  lemma ClaimKeepsRow(db: Database, id: ScanId, now: int)
    requires Starts(db, id)
    ensures id in db.scans && db.scans[id].domain in db.domains
    ensures id in ClaimDatabase(db, id, now).scans && ClaimDatabase(db, id, now).scans[id].domain == db.scans[id].domain
  {
  }

  lemma NextAttempt(s: State, m: Message, outcome: Outcome) returns (a: AtomicStep)
    requires m in s.queue && Starts(s.db, m.scan)
    ensures a.Deliver? && a.m == m && a.outcome == outcome
    ensures AtomicEnabled(s, a) && Potential(AtomicDo(s, a)) < Potential(s)
  {
    var claim := Worker(Claim(m, s.clock));
    var t := Do(s, claim);
    ClaimKeepsRow(s.db, m.scan, s.clock);
    hide Potential, Settle, OldestPending, Starts, FollowUp, ClaimDatabase;
    OldestPendingExists(Settle(t.db, m.scan, outcome, s.clock), s.db.scans[m.scan].domain);
    var next :| OldestPending(Settle(t.db, m.scan, outcome, s.clock), s.db.scans[m.scan].domain, next);
    var finish := Worker(Finish(m, outcome, next, s.clock));
    a := Deliver(m, outcome, next, s.clock, s.clock);
    assert Expand(s, a) == [claim, finish];
    TwoSteps(s, claim, finish);
    hide Final, Valid;
    assert Enabled(t, finish);
    hide Do, DoWorker, DoFinish, DoClaim;
    WorkerLowersPotential(s, claim.w);
    WorkerLowersPotential(t, finish.w);
    assert Do(s, claim) == DoWorker(s, claim.w) && Do(t, finish) == DoWorker(t, finish.w);
  }

  // Handling any queued message as the oracle says lowers the potential.
  lemma NextDelivery(s: State, m: Message, oracle: Oracle) returns (a: AtomicStep)
    requires Tidy(s) && m in s.queue
    ensures AtomicEnabled(s, a) && Consults(s, a, oracle) && a.m == m
    ensures Potential(AtomicDo(s, a)) < Potential(s)
  {
    TidyTables(s);
    var outcome := if m.scan in s.db.scans then oracle(s.db.domains[s.db.scans[m.scan].domain].name) else Resolved([]);
    hide Potential, Tidy, Starts;
    if Starts(s.db, m.scan) {
      hide AtomicEnabled, AtomicDo;
      a := NextAttempt(s, m, outcome);
    } else {
      var claim := Worker(Claim(m, s.clock));
      a := Deliver(m, outcome, None, s.clock, s.clock);
      assert Expand(s, a) == [claim];
      OneStep(s, claim);
      WorkerLowersPotential(s, claim.w);
    }
  }

  lemma {:induction false} DrainOn(s: State, run: seq<AtomicStep>, oracle: Oracle) returns (drain: seq<AtomicStep>)
    requires Tidy(s) && NoOrphans(s) && Drains(s, run, oracle)
    ensures Drains(s, drain, oracle) && AtomicFinal(s, drain).queue == multiset{}
    decreases Potential(AtomicFinal(s, run))
  {
    hide Tidy, NoOrphans, OnCourse, AtomicEnabled, AtomicDo, Potential, Consults;
    DrainStaysOnCourse(s, run, oracle);
    var t := AtomicFinal(s, run);
    if t.queue == multiset{} {
      drain := run;
    } else {
      var a := NextDelivery(t, Pick(t.queue), oracle);
      assert Front(run + [a]) == run && Last(run + [a]) == a;
      drain := DrainOn(s, run + [a], oracle);
    }
  }

  // Whatever the oracle says, the queue of a reachable state can be drained.
  lemma {:induction false} DrainExists(maxRetries: nat, before: seq<AtomicStep>, extra: multiset<Message>, oracle: Oracle)
    requires AtomicValid(Init(maxRetries), before) && AtomicCrashFree(before)
    ensures
      var s := AtomicFinal(Init(maxRetries), before);
      exists drain :: Drains(s.(queue := s.queue + extra), drain, oracle)
                   && AtomicFinal(s.(queue := s.queue + extra), drain).queue == multiset{}
  {
    var s := AtomicFinal(Init(maxRetries), before);
    InitTidy(maxRetries);
    RunKeepsTidy(Init(maxRetries), before);
    AtomicNoOrphans(maxRetries, before);
    hide AtomicFinal, AtomicValid, Init, Tidy, NoOrphans;
    MoreMessagesNoOrphans(s, extra);
    var drain := DrainOn(s.(queue := s.queue + extra), [], oracle);
  }
}
