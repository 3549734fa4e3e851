/** The rows at the split granularity, where an attempt may end after its scan has been reset, or beside
    another RUNNING scan, and an initial scan may be shown late: what still holds, and exactly when. */
module SplitRows {
  import opened Tables
  import opened Protocol
  import opened Safety
  import opened Rows
  import opened Outcomes

  // The attempt ends here: its scan is settled.
  predicate SettlesScan(s: State, step: Step) {
    step.Worker? && step.w.Finish? && !Retries(s, step.w.m, step.w.outcome) && step.w.m.scan in s.db.scans
  }

  // ---------- the domain status mirrors the scans, exactly when ----------

  // An initial scan is shown on its domain when no scan of the domain is unfinished any more.
  predicate ShowsLate(s: State, step: Step) {
    && step.Api? && step.a.ShowInitial? && step.a.d in s.db.domains
    && !HasActive(s.db, step.a.d)
    && exists id | id in s.db.scans :: s.db.scans[id].domain == step.a.d
  }

  // A scan is settled while another scan of its domain is RUNNING.
  predicate SettlesBesideRunning(s: State, step: Step) {
    && SettlesScan(s, step)
    && exists id | id in s.db.scans ::
         id != step.w.m.scan && IsRunning(s.db, id) && s.db.scans[id].domain == s.db.scans[step.w.m.scan].domain
  }

  predicate BreaksMirror(s: State, step: Step) {
    ShowsLate(s, step) || SettlesBesideRunning(s, step)
  }

  lemma InsertInitialKeepsMirror(s: State, a: ApiStep)
    requires ForeignKeys(s.db) && AllIssued(s) && Mirrors(s.db) && ApiEnabled(s, a) && a.InsertInitial?
    ensures Mirrors(ApiDatabase(s.db, a))
  {
    var db, db' := s.db, ApiDatabase(s.db, a);
    forall x | x in db'.scans && db'.scans[x].domain in db'.domains && Unfinished(db'.domains[db'.scans[x].domain].status)
      ensures HasActive(db', db'.scans[x].domain)
    {
      if db'.scans[x].domain == a.d {
        assert IsActive(db', a.id) && db'.scans[a.id].domain == a.d;
      } else {
        var y :| y in db.scans && db.scans[y].domain == db.scans[x].domain && IsActive(db, y);
        assert IsActive(db', y) && db'.scans[y].domain == db'.scans[x].domain;
      }
    }
  }

  lemma ShowMirrorsIff(db: Database, d: DomainId)
    requires ForeignKeys(db) && Mirrors(db)
    ensures Mirrors(ShowQueued(db, d)) <==>
      !(d in db.domains && !HasActive(db, d) && exists id | id in db.scans :: db.scans[id].domain == d)
  {
  }

  lemma SettleMirrorsIff(db: Database, id: ScanId, outcome: Outcome, now: int)
    requires ForeignKeys(db) && Mirrors(db) && id in db.scans
    ensures Mirrors(Settle(db, id, outcome, now)) <==>
      !exists x | x in db.scans :: x != id && IsRunning(db, x) && db.scans[x].domain == db.scans[id].domain
  {
    var db' := Settle(db, id, outcome, now);
    if x :| x in db.scans && x != id && IsRunning(db, x) && db.scans[x].domain == db.scans[id].domain {
      assert IsRunning(db', x);
    } else {
      forall x | x in db'.scans && Unfinished(db'.domains[db'.scans[x].domain].status)
        ensures HasActive(db', db'.scans[x].domain)
      {
        var y :| y in db.scans && db.scans[y].domain == db.scans[x].domain && IsActive(db, y);
        assert IsActive(db', y) && db'.scans[y].domain == db'.scans[x].domain;
      }
    }
  }

  lemma ApiMirrorsIff(s: State, a: ApiStep)
    requires ForeignKeys(s.db) && AllIssued(s) && Mirrors(s.db) && ApiEnabled(s, a)
    ensures Mirrors(ApiDatabase(s.db, a)) <==> !BreaksMirror(s, Api(a))
  {
    hide Mirrors, ForeignKeys, AllIssued, ApiEnabled, HasActive, ShowQueued;
    if a.InsertInitial? {
      InsertInitialKeepsMirror(s, a);
    } else if a.ShowInitial? {
      ShowMirrorsIff(s.db, a.d);
    } else {
      ApiKeepsMirror(s, a);
    }
  }

  // A step keeps the mirror unless it shows a scan late or settles one beside a RUNNING scan.
  lemma StepMirrorsIff(s: State, step: Step)
    requires Safe(s) && Mirrors(s.db) && Enabled(s, step)
    ensures Mirrors(Do(s, step).db) <==> !BreaksMirror(s, step)
  {
    SafeTables(s);
    SafeIssued(s);
    hide Safe, Mirrors, ForeignKeys, UniqueRunning, AllIssued, OldestPending, ClaimDatabase, Settle, CallsAfter;
    hide ApiDatabase, ApiEnabled, ShowQueued, HasActive;
    match step
    case Api(a) => ApiMirrorsIff(s, a);
    case Worker(Claim(m, now)) => ClaimKeepsMirror(s.db, m.scan, now);
    case Worker(Finish(m, outcome, next, now)) =>
      if m.scan in s.db.scans {
        SettleMirrorsIff(s.db, m.scan, outcome, now);
      } else {
        SettleNothing(s.db, m.scan, outcome, now);
      }
    case Broken(f) =>
  }

  lemma SettleNothing(db: Database, id: ScanId, outcome: Outcome, now: int)
    requires id !in db.scans
    ensures Settle(db, id, outcome, now) == db
  {
  }

  // In every state of the run, its last one included.
  ghost predicate MirrorsThroughout(s: State, run: seq<Step>) {
    Mirrors(Final(s, run).db) && (run == [] || MirrorsThroughout(s, Front(run)))
  }

  predicate MirrorBroken(s: State, run: seq<Step>) {
    run != [] && (MirrorBroken(s, Front(run)) || BreaksMirror(Final(s, Front(run)), Last(run)))
  }

  lemma NothingToMirror(maxRetries: nat)
    ensures Mirrors(Init(maxRetries).db)
  {
  }

  // The status of every domain mirrors its scans in every state of a run if and only if no step of the run
  // shows a scan late or settles one beside a RUNNING scan.
  lemma {:induction false} MirrorsIff(maxRetries: nat, run: seq<Step>)
    requires Valid(Init(maxRetries), run)
    ensures MirrorsThroughout(Init(maxRetries), run) <==> !MirrorBroken(Init(maxRetries), run)
    decreases |run|
  {
    hide Do, Enabled, Mirrors, BreaksMirror, Init;
    if run == [] {
      NothingToMirror(maxRetries);
    } else {
      MirrorsIff(maxRetries, Front(run));
      if MirrorsThroughout(Init(maxRetries), Front(run)) {
        hide Safe;
        InitSafe(maxRetries);
        RunKeepsSafe(Init(maxRetries), Front(run));
        StepMirrorsIff(Final(Init(maxRetries), Front(run)), Last(run));
      }
    }
  }

  lemma InitSafe(maxRetries: nat)
    ensures Safe(Init(maxRetries))
  {
  }

  // ---------- a finished status is that of the last settled scan, always ----------

  function LastSettledIn(s: State, run: seq<Step>, d: DomainId): Option<ScanId> {
    if run == [] then None
    else SettledBy(Final(s, Front(run)), Last(run), d, LastSettledIn(s, Front(run), d))
  }

  function SettledBy(s: State, step: Step, d: DomainId, last: Option<ScanId>): Option<ScanId> {
    if SettlesScan(s, step) && s.db.scans[step.w.m.scan].domain == d then Some(step.w.m.scan) else last
  }

  lemma ClaimShowsLast(db: Database, id: ScanId, now: int, d: DomainId, last: Option<ScanId>)
    requires ForeignKeys(db) && ShowsLast(db, d, last)
    ensures ShowsLast(ClaimDatabase(db, id, now), d, last)
  {
  }

  lemma SettleShowsLast(db: Database, id: ScanId, outcome: Outcome, now: int, d: DomainId, last: Option<ScanId>)
    requires ForeignKeys(db) && ShowsLast(db, d, last) && id in db.scans
    ensures ShowsLast(Settle(db, id, outcome, now), d, if db.scans[id].domain == d then Some(id) else last)
  {
  }

  lemma StepShowsLast(s: State, step: Step, d: DomainId, last: Option<ScanId>)
    requires Safe(s) && Enabled(s, step) && ShowsLast(s.db, d, last)
    ensures ShowsLast(Do(s, step).db, d, SettledBy(s, step, d, last))
  {
    SafeTables(s);
    SafeIssued(s);
    hide Safe, ShowsLast, ForeignKeys, UniqueRunning, AllIssued, OldestPending, ClaimDatabase, Settle, CallsAfter, ApiDatabase;
    match step
    case Api(a) => ApiShowsLast(s, a, d, last);
    case Worker(Claim(m, now)) => ClaimShowsLast(s.db, m.scan, now, d, last);
    case Worker(Finish(m, outcome, next, now)) =>
      if m.scan in s.db.scans {
        SettleShowsLast(s.db, m.scan, outcome, now, d, last);
      } else {
        SettleNothing(s.db, m.scan, outcome, now);
      }
    case Broken(f) =>
  }

  // In every reachable state, a COMPLETED or FAILED domain shows the outcome of its scan settled last.
  lemma {:induction false} FinishedShowsLast(maxRetries: nat, run: seq<Step>, d: DomainId)
    requires Valid(Init(maxRetries), run)
    ensures ShowsLast(Final(Init(maxRetries), run).db, d, LastSettledIn(Init(maxRetries), run, d))
    decreases |run|
  {
    hide Do, Enabled, SettledBy, Safe;
    InitSafe(maxRetries);
    if run != [] {
      hide ShowsLast, Init;
      FinishedShowsLast(maxRetries, Front(run), d);
      RunKeepsSafe(Init(maxRetries), Front(run));
      StepShowsLast(Final(Init(maxRetries), Front(run)), Last(run), d, LastSettledIn(Init(maxRetries), Front(run), d));
    }
  }

  // ---------- the fields of a row agree with its status, exactly when ----------

  // A scan is settled that has no start: it was reset while the attempt was in flight.
  predicate SettlesUnstarted(s: State, step: Step, id: ScanId) {
    SettlesScan(s, step) && step.w.m.scan == id && s.db.scans[id].startedAt == None
  }

  predicate SettledUnstarted(s: State, run: seq<Step>, id: ScanId) {
    run != [] && (SettledUnstarted(s, Front(run), id) || SettlesUnstarted(Final(s, Front(run)), Last(run), id))
  }

  predicate FinishedUnstarted(scan: Scan) {
    !Unfinished(scan.status) && scan.startedAt == None
  }

  lemma ApiKeepsFields(db: Database, a: ApiStep, id: ScanId)
    requires a.InsertInitial? || a.InsertManual? ==> a.id !in db.scans
    requires id in ApiDatabase(db, a).scans
    ensures id !in db.scans || FieldsAgree(db.scans[id]) ==> FieldsAgree(ApiDatabase(db, a).scans[id])
    ensures id in db.scans && FinishedUnstarted(db.scans[id]) ==> FinishedUnstarted(ApiDatabase(db, a).scans[id])
  {
  }

  lemma ClaimKeepsFields(db: Database, id: ScanId, now: int, x: ScanId)
    requires ForeignKeys(db) && x in db.scans
    ensures x in ClaimDatabase(db, id, now).scans
    ensures FieldsAgree(db.scans[x]) ==> FieldsAgree(ClaimDatabase(db, id, now).scans[x])
    ensures FinishedUnstarted(db.scans[x]) ==> FinishedUnstarted(ClaimDatabase(db, id, now).scans[x])
  {
  }

  lemma SettleFieldsIff(db: Database, id: ScanId, outcome: Outcome, now: int, x: ScanId)
    requires x in db.scans
    ensures x in Settle(db, id, outcome, now).scans
    ensures FieldsAgree(db.scans[x]) ==>
      (FieldsAgree(Settle(db, id, outcome, now).scans[x]) <==> !(x == id && db.scans[x].startedAt == None))
    ensures FinishedUnstarted(db.scans[x]) || (x == id && db.scans[x].startedAt == None) ==>
      FinishedUnstarted(Settle(db, id, outcome, now).scans[x])
  {
  }

  // A step keeps the fields of a row consistent exactly when it does not settle the row without a start;
  // a row finished without a start stays so.
  lemma StepFieldsIff(s: State, step: Step, id: ScanId)
    requires Safe(s) && Enabled(s, step) && id in Do(s, step).db.scans
    ensures id !in s.db.scans || FieldsAgree(s.db.scans[id]) ==>
      (FieldsAgree(Do(s, step).db.scans[id]) <==> !SettlesUnstarted(s, step, id))
    ensures (id in s.db.scans && FinishedUnstarted(s.db.scans[id])) || SettlesUnstarted(s, step, id) ==>
      FinishedUnstarted(Do(s, step).db.scans[id])
  {
    WorkerKeepsScans(s, step, id);
    hide Safe, FieldsAgree, FinishedUnstarted, OldestPending, ClaimDatabase, Settle, CallsAfter, ApiDatabase;
    match step
    case Api(a) =>
      SafeIssued(s);
      ApiKeepsFields(s.db, a, id);
    case Worker(Claim(m, now)) =>
      SafeTables(s);
      hide UniqueRunning, ForeignKeys;
      ClaimKeepsFields(s.db, m.scan, now, id);
    case Worker(Finish(m, outcome, next, now)) =>
      hide Enabled, Do;
      FinishFieldsIff(s, m, outcome, next, now, id);
    case Broken(f) =>
  }

  lemma FinishFieldsIff(s: State, m: Message, outcome: Outcome, next: Option<ScanId>, now: int, id: ScanId)
    requires id in s.db.scans
    ensures
      var step := Worker(Finish(m, outcome, next, now));
      && id in Do(s, step).db.scans
      && (FieldsAgree(s.db.scans[id]) ==> (FieldsAgree(Do(s, step).db.scans[id]) <==> !SettlesUnstarted(s, step, id)))
      && (FinishedUnstarted(s.db.scans[id]) || SettlesUnstarted(s, step, id) ==> FinishedUnstarted(Do(s, step).db.scans[id]))
  {
    SettleFieldsIff(s.db, m.scan, outcome, now, id);
    hide FieldsAgree, FinishedUnstarted, Settle, FollowUp;
  }

  lemma WorkerKeepsScans(s: State, step: Step, id: ScanId)
    ensures !step.Api? && id in Do(s, step).db.scans ==> id in s.db.scans
  {
  }

  // In every reachable state, the fields of an existing row agree with its status if and only if the scan
  // has never been settled while it had no start.
  lemma {:induction false} FieldsAgreeIff(maxRetries: nat, run: seq<Step>, id: ScanId)
    requires Valid(Init(maxRetries), run)
    ensures
      var db := Final(Init(maxRetries), run).db;
      && (SettledUnstarted(Init(maxRetries), run, id) ==> id in Final(Init(maxRetries), run).issued)
      && (id in db.scans ==>
            && (FieldsAgree(db.scans[id]) <==> !SettledUnstarted(Init(maxRetries), run, id))
            && (FinishedUnstarted(db.scans[id]) <==> SettledUnstarted(Init(maxRetries), run, id)))
    decreases |run|
  {
    hide Do, Enabled, SettlesUnstarted, Safe;
    InitSafe(maxRetries);
    if run != [] {
      hide Init;
      FieldsAgreeIff(maxRetries, Front(run), id);
      RunKeepsSafe(Init(maxRetries), Front(run));
      var s := Final(Init(maxRetries), Front(run));
      StepKeepsSafe(s, Last(run));
      UnstartedIssued(s, Last(run), id);
      if id in s.issued {
        DeletedOrFinished(s, Last(run), id);
      }
      if id in Do(s, Last(run)).db.scans {
        StepFieldsIff(s, Last(run), id);
        AgreeingIsStarted(Do(s, Last(run)).db.scans[id]);
      }
      hide FieldsAgree, FinishedUnstarted;
    }
  }

  lemma AgreeingIsStarted(scan: Scan)
    ensures FinishedUnstarted(scan) ==> !FieldsAgree(scan)
  {
  }

  lemma UnstartedIssued(s: State, step: Step, id: ScanId)
    requires Safe(s)
    ensures SettlesUnstarted(s, step, id) ==> id in s.issued
  {
  }
}
