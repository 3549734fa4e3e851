/** What the rows say, at the atomic granularity: fields agree with status, only COMPLETED scans own
    assets, and a domain's status follows its scans. */
module Rows {
  import opened Tables
  import opened Protocol
  import opened Evolution
  import opened Safety
  import opened Atomic

  // ---------- the invariants ----------

  predicate FieldsAgree(scan: Scan) {
    match scan.status
    case Pending => scan.startedAt == None && scan.completedAt == None && (scan.error == None || scan.error == Some(INTERRUPTED))
    case Running => scan.startedAt.Some? && scan.completedAt == None && scan.error == None
    case Completed => scan.startedAt.Some? && scan.completedAt.Some? && scan.error == None
    case Failed => scan.startedAt.Some? && scan.completedAt.Some? && scan.error.Some? && |scan.error.value| > 0
  }

  ghost predicate RowsAgree(db: Database) {
    forall id | id in db.scans :: FieldsAgree(db.scans[id])
  }

  // No scan started after `clock`, and none completed before it started or after `clock`.
  predicate TimesAgree(scan: Scan, clock: int) {
    && (scan.startedAt.Some? ==> scan.startedAt.value <= clock)
    && (scan.startedAt.Some? && scan.completedAt.Some? ==> scan.startedAt.value <= scan.completedAt.value <= clock)
  }

  ghost predicate AllTimesAgree(db: Database, clock: int) {
    forall id | id in db.scans :: TimesAgree(db.scans[id], clock)
  }

  ghost predicate OnlyCompletedOwn(db: Database) {
    forall id | id in db.scans && db.scans[id].status != Completed :: OwnedBy(db.assets, id) == []
  }

  // A RUNNING scan shows on its domain; a domain that shows no outcome has something unfinished.
  ghost predicate Mirrors(db: Database) {
    && (forall id | IsRunning(db, id) && db.scans[id].domain in db.domains :: db.domains[db.scans[id].domain].status == Running)
    && (forall id | id in db.scans && db.scans[id].domain in db.domains && Unfinished(db.domains[db.scans[id].domain].status) ::
          HasActive(db, db.scans[id].domain))
  }

  ghost predicate Tidy(s: State) {
    && Safe(s) && s.attempts == multiset{}
    && RowsAgree(s.db) && OnlyCompletedOwn(s.db) && Mirrors(s.db)
  }

  // ---------- a delivery ----------

  lemma ClaimKeepsRows(db: Database, id: ScanId, now: int)
    requires ForeignKeys(db) && RowsAgree(db)
    ensures RowsAgree(ClaimDatabase(db, id, now))
  {
  }

  lemma SettleKeepsRows(db: Database, id: ScanId, outcome: Outcome, now: int)
    requires RowsAgree(db) && IsRunning(db, id)
    ensures RowsAgree(Settle(db, id, outcome, now))
  {
  }

  lemma ClaimKeepsOwned(db: Database, id: ScanId, now: int)
    requires ForeignKeys(db) && OnlyCompletedOwn(db)
    ensures OnlyCompletedOwn(ClaimDatabase(db, id, now))
  {
  }

  lemma SettleOwned(db: Database, id: ScanId, outcome: Outcome, now: int, other: ScanId)
    requires id in db.scans
    ensures OwnedBy(Settle(db, id, outcome, now).assets, other)
         == OwnedBy(db.assets, other) + if other == id then Stored(outcome) else []
  {
    hide OwnedBy;
    OwnedAfterStoring(db.assets, id, db.scans[id].domain, Stored(outcome), other);
  }

  lemma SettleKeepsOwned(db: Database, id: ScanId, outcome: Outcome, now: int)
    requires OnlyCompletedOwn(db) && IsRunning(db, id)
    ensures OnlyCompletedOwn(Settle(db, id, outcome, now))
  {
    hide OwnedBy;
    forall other | other in db.scans
      ensures OwnedBy(Settle(db, id, outcome, now).assets, other)
           == OwnedBy(db.assets, other) + if other == id then Stored(outcome) else []
    {
      SettleOwned(db, id, outcome, now, other);
    }
  }

  lemma ClaimKeepsMirror(db: Database, id: ScanId, now: int)
    requires ForeignKeys(db) && Mirrors(db)
    ensures Mirrors(ClaimDatabase(db, id, now))
  {
    var db' := ClaimDatabase(db, id, now);
    forall x | x in db'.scans && Unfinished(db'.domains[db'.scans[x].domain].status)
      ensures HasActive(db', db'.scans[x].domain)
    {
      var d := db.scans[x].domain;
      if Starts(db, id) && db.scans[id].domain == d {
        assert IsActive(db', id) && db'.scans[id].domain == d;
      } else {
        var y :| y in db.scans && db.scans[y].domain == d && IsActive(db, y);
        assert IsActive(db', y) && db'.scans[y].domain == d;
      }
    }
  }

  lemma SettleKeepsMirror(db: Database, id: ScanId, outcome: Outcome, now: int)
    requires ForeignKeys(db) && Mirrors(db) && UniqueRunning(db) && IsRunning(db, id)
    ensures Mirrors(Settle(db, id, outcome, now))
  {
    var db' := Settle(db, id, outcome, now);
    forall x | x in db'.scans && Unfinished(db'.domains[db'.scans[x].domain].status)
      ensures HasActive(db', db'.scans[x].domain)
    {
      var y :| y in db.scans && db.scans[y].domain == db.scans[x].domain && IsActive(db, y);
      assert IsActive(db', y) && db'.scans[y].domain == db'.scans[x].domain;
    }
  }

  lemma ClaimedIsRunning(db: Database, id: ScanId, now: int)
    requires Starts(db, id)
    ensures IsRunning(ClaimDatabase(db, id, now), id)
  {
  }

  // A delivery changes the row and the assets of its own scan, and only when its attempt starts.
  lemma DeliverScan(s: State, m: Message, outcome: Outcome, started: int, ended: int, id: ScanId)
    requires ForeignKeys(s.db) && id in s.db.scans
    ensures
      var db' := DeliverDatabase(s, m, outcome, started, ended);
      && id in db'.scans && db'.scans[id].domain == s.db.scans[id].domain
      && if id == m.scan && Starts(s.db, id) then
           if Retries(s, m, outcome) then
             db'.scans[id] == RunningRow(s.db.scans[id], started) && OwnedBy(db'.assets, id) == OwnedBy(s.db.assets, id)
           else
             && db'.scans[id] == SettledRow(RunningRow(s.db.scans[id], started), outcome, ended)
             && OwnedBy(db'.assets, id) == OwnedBy(s.db.assets, id) + Stored(outcome)
         else
           db'.scans[id] == s.db.scans[id] && OwnedBy(db'.assets, id) == OwnedBy(s.db.assets, id)
  {
    hide OwnedBy;
    var claimed := ClaimDatabase(s.db, m.scan, started);
    assert claimed.assets == s.db.assets && claimed.scans.Keys == s.db.scans.Keys;
    if Starts(s.db, m.scan) {
      SettleOwned(claimed, m.scan, outcome, ended, id);
    }
  }

  // It changes the status of its own domain, and nothing else of any domain.
  lemma DeliverDomain(s: State, m: Message, outcome: Outcome, started: int, ended: int, d: DomainId)
    requires ForeignKeys(s.db) && d in s.db.domains
    ensures
      var db' := DeliverDatabase(s, m, outcome, started, ended);
      && d in db'.domains
      && db'.domains[d] ==
           if Starts(s.db, m.scan) && s.db.scans[m.scan].domain == d
           then s.db.domains[d].(status := if Retries(s, m, outcome) then Running else Verdict(outcome))
           else s.db.domains[d]
  {
  }

  lemma DeliverKeys(s: State, m: Message, outcome: Outcome, started: int, ended: int)
    ensures
      var db' := DeliverDatabase(s, m, outcome, started, ended);
      db'.scans.Keys == s.db.scans.Keys && db'.domains.Keys == s.db.domains.Keys
  {
  }

  lemma DeliverKeepsTidy(s: State, a: AtomicStep)
    requires Tidy(s) && AtomicEnabled(s, a) && a.Deliver?
    ensures Tidy(AtomicDo(s, a))
  {
    DeliverEffect(s, a);
    RunKeepsSafe(s, Expand(s, a));
    hide AtomicEnabled, AtomicDo, Safe, Starts;
    var id := a.m.scan;
    var claimed := ClaimDatabase(s.db, id, a.started);
    SafeTables(s);
    ClaimKeepsRows(s.db, id, a.started);
    ClaimKeepsOwned(s.db, id, a.started);
    ClaimKeepsMirror(s.db, id, a.started);
    ClaimEvolves(s.db, a.m, a.started);
    EvolutionKeepsUniqueRunning(s.db, claimed, Worker(Claim(a.m, a.started)));
    ClaimKeepsForeignKeys(s, a.m, a.started);
    hide RowsAgree, OnlyCompletedOwn, Mirrors, ClaimDatabase, Settle, UniqueRunning, ForeignKeys;
    if Starts(s.db, id) {
      ClaimedIsRunning(s.db, id, a.started);
      SettleKeepsRows(claimed, id, a.outcome, a.ended);
      SettleKeepsOwned(claimed, id, a.outcome, a.ended);
      SettleKeepsMirror(claimed, id, a.outcome, a.ended);
    }
  }

  lemma TidyTables(s: State)
    requires Tidy(s)
    ensures ForeignKeys(s.db) && s.attempts == multiset{}
    ensures forall id | id in s.db.scans :: id in s.issued
  {
  }

  lemma SafeIssued(s: State)
    requires Safe(s)
    ensures AllIssued(s)
  {
  }

  lemma SafeTables(s: State)
    requires Safe(s)
    ensures ForeignKeys(s.db) && UniqueRunning(s.db)
  {
  }

  // ---------- everything else ----------

  lemma ApiKeepsRowsAgree(db: Database, a: ApiStep)
    requires RowsAgree(db)
    ensures RowsAgree(ApiDatabase(db, a))
  {
  }

  // A scan id that no asset row mentions owns nothing.
  lemma {:induction false} NothingOwned(assets: seq<Asset>, id: ScanId)
    requires forall i | 0 <= i < |assets| :: assets[i].scan != id
    ensures OwnedBy(assets, id) == []
    decreases |assets|
  {
    if assets != [] {
      NothingOwned(assets[..|assets| - 1], id);
    }
  }

  lemma ApiKeepsOwned(db: Database, a: ApiStep, id: ScanId)
    requires ForeignKeys(db) && id in ApiDatabase(db, a).scans
    requires a.InsertInitial? || a.InsertManual? ==> a.id !in db.scans
    ensures OwnedBy(ApiDatabase(db, a).assets, id) == if id in db.scans then OwnedBy(db.assets, id) else []
  {
    hide OwnedBy;
    if a.RemoveDomain? {
      ForeignKeysAfterDelete(db, a.d);
    } else if id !in db.scans {
      NothingOwned(db.assets, id);
    }
  }

  lemma ApiKeepsOnlyCompletedOwn(db: Database, a: ApiStep)
    requires ForeignKeys(db) && OnlyCompletedOwn(db)
    requires a.InsertInitial? || a.InsertManual? ==> a.id !in db.scans
    ensures OnlyCompletedOwn(ApiDatabase(db, a))
  {
    hide OwnedBy;
    var db' := ApiDatabase(db, a);
    forall id | id in db'.scans && db'.scans[id].status != Completed
      ensures OwnedBy(db'.assets, id) == []
    {
      ApiKeepsOwned(db, a, id);
    }
  }

  // Inserting a scan and showing it are one step here; see CreateInitial for the initial scan.
  lemma ApiKeepsMirror(s: State, a: ApiStep)
    requires ForeignKeys(s.db) && AllIssued(s) && Mirrors(s.db) && ApiEnabled(s, a)
    requires !a.InsertInitial? && !a.ShowInitial?
    ensures Mirrors(ApiDatabase(s.db, a))
  {
    var db, db' := s.db, ApiDatabase(s.db, a);
    hide NameTaken;
    forall x | x in db'.scans && db'.scans[x].domain in db'.domains && Unfinished(db'.domains[db'.scans[x].domain].status)
      ensures HasActive(db', db'.scans[x].domain)
    {
      var d := db'.scans[x].domain;
      if a.InsertManual? && a.d == d {
        assert IsActive(db', a.id) && db'.scans[a.id].domain == d;
      } else {
        var y :| y in db.scans && db.scans[y].domain == d && IsActive(db, y);
        assert IsActive(db', y) && db'.scans[y].domain == d;
      }
    }
  }

  function InsertAndShow(db: Database, id: ScanId, d: DomainId, createdAt: int): Database {
    ShowQueued(CreateScan(db, id, d, Initial, createdAt), d)
  }

  lemma InsertKeepsMirror(db: Database, id: ScanId, d: DomainId, createdAt: int)
    requires ForeignKeys(db) && Mirrors(db) && id !in db.scans && d in db.domains
    ensures Mirrors(InsertAndShow(db, id, d, createdAt))
  {
    var db' := InsertAndShow(db, id, d, createdAt);
    forall x | x in db'.scans && Unfinished(db'.domains[db'.scans[x].domain].status)
      ensures HasActive(db', db'.scans[x].domain)
    {
      if db'.scans[x].domain == d {
        assert IsActive(db', id) && db'.scans[id].domain == d;
      } else {
        var y :| y in db.scans && db.scans[y].domain == db.scans[x].domain && IsActive(db, y);
        assert IsActive(db', y) && db'.scans[y].domain == db'.scans[x].domain;
      }
    }
  }

  lemma InsertKeepsRows(db: Database, id: ScanId, d: DomainId, createdAt: int)
    requires ForeignKeys(db) && RowsAgree(db) && OnlyCompletedOwn(db) && id !in db.scans && d in db.domains
    ensures RowsAgree(InsertAndShow(db, id, d, createdAt)) && OnlyCompletedOwn(InsertAndShow(db, id, d, createdAt))
  {
    hide OwnedBy;
    NothingOwned(db.assets, id);
  }

  lemma CreateInitialKeepsTidy(s: State, a: AtomicStep)
    requires Tidy(s) && AtomicEnabled(s, a) && a.CreateInitial?
    ensures Tidy(AtomicDo(s, a))
  {
    CreateInitialEffect(s, a);
    RunKeepsSafe(s, Expand(s, a));
    hide AtomicEnabled, AtomicDo;
    if a.d in s.db.domains {
      InsertKeepsMirror(s.db, a.id, a.d, a.createdAt);
      InsertKeepsRows(s.db, a.id, a.d, a.createdAt);
      assert AtomicDo(s, a).db == InsertAndShow(s.db, a.id, a.d, a.createdAt);
    }
    hide RowsAgree, OnlyCompletedOwn, Mirrors, InsertAndShow;
  }

  lemma ApiKeepsTidyTables(s: State, a: ApiStep)
    requires Tidy(s) && ApiEnabled(s, a) && !a.InsertInitial? && !a.ShowInitial?
    ensures
      var db := ApiDatabase(s.db, a);
      RowsAgree(db) && OnlyCompletedOwn(db) && Mirrors(db)
  {
    hide ApiDatabase, Mirrors, RowsAgree, OnlyCompletedOwn;
    ApiKeepsRowsAgree(s.db, a);
    ApiKeepsOnlyCompletedOwn(s.db, a);
    ApiKeepsMirror(s, a);
  }

  lemma PlainKeepsTidy(s: State, a: AtomicStep)
    requires Tidy(s) && AtomicEnabled(s, a) && a.Plain?
    ensures Tidy(AtomicDo(s, a))
  {
    hide AtomicDo, AtomicEnabled, RowsAgree, OnlyCompletedOwn, Mirrors, ApiDatabase, CallsAfter, Safe, OldestPending;
    PlainEffect(s, a);
    StepKeepsSafe(s, a.step);
    if a.step.Api? {
      ApiKeepsTidyTables(s, a.step.a);
    }
  }

  lemma StepKeepsTidy(s: State, a: AtomicStep)
    requires Tidy(s) && AtomicEnabled(s, a)
    ensures Tidy(AtomicDo(s, a))
  {
    hide Tidy, AtomicEnabled, AtomicDo;
    match a
    case Deliver(_, _, _, _, _) => DeliverKeepsTidy(s, a);
    case CreateInitial(_, _, _, _) => CreateInitialKeepsTidy(s, a);
    case Plain(_) => PlainKeepsTidy(s, a);
  }

  lemma {:induction false} RunKeepsTidy(s: State, run: seq<AtomicStep>)
    requires Tidy(s) && AtomicValid(s, run)
    ensures Tidy(AtomicFinal(s, run))
    decreases |run|
  {
    hide Tidy, AtomicEnabled, AtomicDo;
    if run != [] {
      RunKeepsTidy(s, Front(run));
      StepKeepsTidy(AtomicFinal(s, Front(run)), Last(run));
    }
  }

  lemma InitTidy(maxRetries: nat)
    ensures Tidy(Init(maxRetries))
  {
  }

  // ---------- time stamps ----------

  // The workers' clock readings of a step are in order, and not before those of earlier steps.
  predicate InTime(s: State, a: AtomicStep) {
    a.Deliver? ==> s.clock <= a.started && (Starts(s.db, a.m.scan) ==> a.started <= a.ended)
  }

  predicate Punctual(s: State, run: seq<AtomicStep>) {
    run == [] || (Punctual(s, Front(run)) && InTime(AtomicFinal(s, Front(run)), Last(run)))
  }

  lemma DeliverKeepsScanTimes(s: State, a: AtomicStep, id: ScanId)
    requires ForeignKeys(s.db) && a.Deliver? && InTime(s, a) && id in s.db.scans
    requires FieldsAgree(s.db.scans[id]) && TimesAgree(s.db.scans[id], s.clock)
    ensures
      var db' := DeliverDatabase(s, a.m, a.outcome, a.started, a.ended);
      id in db'.scans && TimesAgree(db'.scans[id], if Starts(s.db, a.m.scan) then a.ended else a.started)
  {
  }

  lemma DeliverKeepsTimes(s: State, a: AtomicStep)
    requires Tidy(s) && AtomicEnabled(s, a) && a.Deliver? && InTime(s, a)
    requires AllTimesAgree(s.db, s.clock)
    ensures AllTimesAgree(AtomicDo(s, a).db, AtomicDo(s, a).clock)
  {
    DeliverEffect(s, a);
    DeliverKeys(s, a.m, a.outcome, a.started, a.ended);
    TidyTables(s);
    TidyFields(s);
    hide Tidy, AtomicDo, AtomicEnabled, ForeignKeys, DeliverDatabase, FieldsAgree, TimesAgree, InTime, Starts;
    forall id | id in s.db.scans
      ensures TimesAgree(AtomicDo(s, a).db.scans[id], AtomicDo(s, a).clock)
    {
      DeliverKeepsScanTimes(s, a, id);
    }
  }

  lemma TidyFields(s: State)
    requires Tidy(s)
    ensures forall id | id in s.db.scans :: FieldsAgree(s.db.scans[id])
  {
  }

  lemma ApiKeepsTimes(db: Database, a: ApiStep, clock: int)
    requires AllTimesAgree(db, clock)
    ensures AllTimesAgree(ApiDatabase(db, a), clock)
  {
  }

  lemma StepKeepsTimes(s: State, a: AtomicStep)
    requires Tidy(s) && AtomicEnabled(s, a) && InTime(s, a)
    requires AllTimesAgree(s.db, s.clock)
    ensures AllTimesAgree(AtomicDo(s, a).db, AtomicDo(s, a).clock)
  {
    hide Tidy, AtomicEnabled, AtomicDo, ApiDatabase, CallsAfter, AllTimesAgree;
    match a
    case Deliver(_, _, _, _, _) => DeliverKeepsTimes(s, a);
    case CreateInitial(c, d, id, createdAt) =>
      CreateInitialEffect(s, a);
      if d in s.db.domains {
        InsertKeepsTimes(s.db, id, d, createdAt, s.clock);
      }
    case Plain(step) => PlainKeepsTimes(s, a);
  }

  lemma PlainKeepsTimes(s: State, a: AtomicStep)
    requires AtomicEnabled(s, a) && a.Plain? && AllTimesAgree(s.db, s.clock)
    ensures AllTimesAgree(AtomicDo(s, a).db, AtomicDo(s, a).clock)
  {
    PlainEffect(s, a);
    hide AtomicDo, AtomicEnabled, ApiDatabase, CallsAfter, AllTimesAgree;
    if a.step.Api? {
      ApiKeepsTimes(s.db, a.step.a, s.clock);
    }
  }

  lemma InsertKeepsTimes(db: Database, id: ScanId, d: DomainId, createdAt: int, clock: int)
    requires AllTimesAgree(db, clock)
    ensures AllTimesAgree(InsertAndShow(db, id, d, createdAt), clock)
  {
  }

  lemma {:induction false} RunKeepsTimes(s: State, run: seq<AtomicStep>)
    requires Tidy(s) && AtomicValid(s, run) && Punctual(s, run) && AllTimesAgree(s.db, s.clock)
    ensures AllTimesAgree(AtomicFinal(s, run).db, AtomicFinal(s, run).clock)
    decreases |run|
  {
    hide Tidy, AtomicEnabled, AtomicDo, AllTimesAgree, InTime;
    if run != [] {
      RunKeepsTimes(s, Front(run));
      RunKeepsTidy(s, Front(run));
      StepKeepsTimes(AtomicFinal(s, Front(run)), Last(run));
    }
  }

  // Every reachable row is consistent, and every scan's domain exists; if the workers' clock readings
  // never go back, no scan completed before it started.
  lemma {:induction false} RowFieldsAgree(maxRetries: nat, run: seq<AtomicStep>, id: ScanId)
    requires AtomicValid(Init(maxRetries), run)
    ensures
      var s := AtomicFinal(Init(maxRetries), run);
      id in s.db.scans ==>
        && FieldsAgree(s.db.scans[id]) && s.db.scans[id].domain in s.db.domains
        && (Punctual(Init(maxRetries), run) ==> TimesAgree(s.db.scans[id], s.clock))
  {
    hide AtomicDo, AtomicEnabled, AtomicFinal, AtomicValid, Init, Punctual;
    InitTidy(maxRetries);
    RunKeepsTidy(Init(maxRetries), run);
    if Punctual(Init(maxRetries), run) {
      NoTimesAtFirst(maxRetries);
      RunKeepsTimes(Init(maxRetries), run);
    }
  }

  lemma NoTimesAtFirst(maxRetries: nat)
    ensures AllTimesAgree(Init(maxRetries).db, Init(maxRetries).clock)
  {
  }
}
