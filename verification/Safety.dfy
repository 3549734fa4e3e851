/** What every step of the protocol keeps, faults included: foreign keys, at most one RUNNING scan
    per domain, no revival of finished scans, and the exclusion of manual triggers. */
module Safety {
  import opened Tables
  import opened Protocol
  import opened Evolution

  // ---------- the invariants ----------

  ghost predicate UniqueRunning(db: Database) {
    forall x, y | IsRunning(db, x) && IsRunning(db, y) && db.scans[x].domain == db.scans[y].domain :: x == y
  }

  predicate ActiveManual(db: Database, id: ScanId) {
    IsActive(db, id) && db.scans[id].kind == Manual
  }

  predicate IsInitial(db: Database, id: ScanId) {
    id in db.scans && db.scans[id].kind == Initial
  }

  predicate LocksDomain(call: Call) {
    call.Locked? || call.Checked?
  }

  // The row lock of a domain has one holder.
  ghost predicate OneLockHolder(calls: map<CallId, Call>) {
    forall b, c | b in calls && c in calls && LocksDomain(calls[b]) && LocksDomain(calls[c]) ::
      calls[b].domain == calls[c].domain ==> b == c
  }

  // At most one unfinished manual scan per domain, and none while a trigger holds a passed check.
  ghost predicate ManualExclusion(db: Database, calls: map<CallId, Call>) {
    && (forall x, y | ActiveManual(db, x) && ActiveManual(db, y) && db.scans[x].domain == db.scans[y].domain :: x == y)
    && (forall c, x | c in calls && calls[c].Checked? && ActiveManual(db, x) :: db.scans[x].domain != calls[c].domain)
  }

  ghost predicate OneCreator(calls: map<CallId, Call>) {
    forall b, c | b in calls && c in calls && calls[b].Creating? && calls[c].Creating? ::
      calls[b].domain == calls[c].domain ==> b == c
  }

  // A domain gets one initial scan, from the one call that created it.
  ghost predicate OneInitial(db: Database, calls: map<CallId, Call>) {
    && (forall x, y | IsInitial(db, x) && IsInitial(db, y) && db.scans[x].domain == db.scans[y].domain :: x == y)
    && (forall c, x | c in calls && calls[c].Creating? && IsInitial(db, x) :: db.scans[x].domain != calls[c].domain)
  }

  // Identifiers in use were handed out once.
  ghost predicate AllIssued(s: State) {
    && (forall d | d in s.db.domains :: d in s.issued)
    && (forall id | id in s.db.scans :: id in s.issued)
    && (forall c | c in s.calls && s.calls[c].Creating? :: s.calls[c].domain in s.issued)
  }

  ghost predicate Safe(s: State) {
    && ForeignKeys(s.db) && UniqueRunning(s.db) && OneLockHolder(s.calls)
    && ManualExclusion(s.db, s.calls) && OneCreator(s.calls) && OneInitial(s.db, s.calls) && AllIssued(s)
  }

  // ---------- one step ----------

  lemma SettleKeepsForeignKeys(db: Database, id: ScanId, outcome: Outcome, now: int)
    requires ForeignKeys(db)
    ensures ForeignKeys(Settle(db, id, outcome, now))
  {
  }

  lemma ApiKeepsForeignKeys(s: State, a: ApiStep)
    requires ForeignKeys(s.db) && AllIssued(s) && ApiEnabled(s, a)
    ensures ForeignKeys(DoApi(s, a).db)
  {
    if a.RemoveDomain? {
      ForeignKeysAfterDelete(s.db, a.d);
    }
  }

  lemma ClaimKeepsForeignKeys(s: State, m: Message, now: int)
    requires ForeignKeys(s.db)
    ensures ForeignKeys(DoClaim(s, m, now).db)
  {
  }

  lemma StepKeepsForeignKeys(s: State, step: Step)
    requires ForeignKeys(s.db) && AllIssued(s) && Enabled(s, step)
    ensures ForeignKeys(Do(s, step).db)
  {
    match step
    case Api(a) => ApiKeepsForeignKeys(s, a);
    case Worker(Claim(m, now)) => ClaimKeepsForeignKeys(s, m, now);
    case Worker(Finish(m, outcome, next, now)) => SettleKeepsForeignKeys(s.db, m.scan, outcome, now);
    case Broken(f) =>
  }

  lemma EvolutionKeepsUniqueRunning(db: Database, db': Database, step: Step)
    requires UniqueRunning(db) && Evolves(db, db', step)
    ensures UniqueRunning(db')
  {
  }

  // Which calls an API step leaves: the others as they were, its own moved on.
  lemma ApiMovesOneCall(s: State, a: ApiStep, c: CallId)
    requires ApiEnabled(s, a) && c in CallsAfter(s, a)
    ensures (c in s.calls && CallsAfter(s, a)[c] == s.calls[c])
         || (!a.RemoveDomain? && c == a.c && StillOwed(s.db, a) == Some(CallsAfter(s, a)[c]))
  {
  }

  lemma EvolutionKeepsManualExclusion(db: Database, db': Database, step: Step, calls: map<CallId, Call>, calls': map<CallId, Call>)
    requires ManualExclusion(db, calls) && Evolves(db, db', step) && !step.Api?
    requires forall c | c in calls' :: c in calls && calls'[c] == calls[c]
    ensures ManualExclusion(db', calls')
  {
  }

  lemma ApiKeepsOneLockHolder(s: State, a: ApiStep)
    requires OneLockHolder(s.calls) && ApiEnabled(s, a)
    ensures OneLockHolder(CallsAfter(s, a))
  {
  }

  lemma ApiManualScans(db: Database, a: ApiStep, x: ScanId)
    requires Evolves(db, ApiDatabase(db, a), Api(a)) && ActiveManual(ApiDatabase(db, a), x)
    ensures
      var row := ApiDatabase(db, a).scans[x];
      || (a.InsertManual? && x == a.id && row.domain == a.d)
      || (ActiveManual(db, x) && db.scans[x].domain == row.domain)
  {
  }

  lemma ApiKeepsManualUnique(s: State, a: ApiStep, x: ScanId, y: ScanId)
    requires ManualExclusion(s.db, s.calls) && AllIssued(s) && ApiEnabled(s, a)
    requires
      var db' := ApiDatabase(s.db, a);
      ActiveManual(db', x) && ActiveManual(db', y) && db'.scans[x].domain == db'.scans[y].domain
    ensures x == y
  {
  }

  // A check passes only where no manual scan is active, and the lock keeps others from adding one.
  lemma ApiKeepsCheckValid(s: State, a: ApiStep, c: CallId, x: ScanId)
    requires OneLockHolder(s.calls) && ManualExclusion(s.db, s.calls) && AllIssued(s) && ApiEnabled(s, a)
    requires
      var db', calls' := ApiDatabase(s.db, a), CallsAfter(s, a);
      c in calls' && calls'[c].Checked? && ActiveManual(db', x)
    ensures ApiDatabase(s.db, a).scans[x].domain != CallsAfter(s, a)[c].domain
  {
    ApiEvolves(s.db, a);
    hide ApiDatabase, Evolves;
    ApiManualScans(s.db, a, x);
    ApiMovesOneCall(s, a, c);
    if a.InsertManual? {
      hide AllIssued;
    } else {
      hide CallsAfter;
    }
  }

  lemma ApiKeepsManualExclusion(s: State, a: ApiStep)
    requires OneLockHolder(s.calls)
    requires ManualExclusion(s.db, s.calls) && AllIssued(s) && ApiEnabled(s, a)
    ensures ManualExclusion(ApiDatabase(s.db, a), CallsAfter(s, a))
  {
    var db', calls' := ApiDatabase(s.db, a), CallsAfter(s, a);
    hide ApiDatabase, CallsAfter, ApiEnabled, AllIssued, OneLockHolder;
    forall x, y | ActiveManual(db', x) && ActiveManual(db', y) && db'.scans[x].domain == db'.scans[y].domain
      ensures x == y
    {
      ApiKeepsManualUnique(s, a, x, y);
    }
    forall c, x | c in calls' && calls'[c].Checked? && ActiveManual(db', x)
      ensures db'.scans[x].domain != calls'[c].domain
    {
      ApiKeepsCheckValid(s, a, c, x);
    }
  }

  lemma EvolutionKeepsOneInitial(db: Database, db': Database, step: Step, calls: map<CallId, Call>, calls': map<CallId, Call>)
    requires OneInitial(db, calls) && Evolves(db, db', step) && !step.Api?
    requires forall c | c in calls' :: c in calls && calls'[c] == calls[c]
    ensures OneInitial(db', calls')
  {
  }

  lemma ApiKeepsOneCreator(s: State, a: ApiStep)
    requires OneCreator(s.calls) && AllIssued(s) && ApiEnabled(s, a)
    ensures OneCreator(CallsAfter(s, a))
  {
  }

  lemma ApiInitialScans(db: Database, a: ApiStep, x: ScanId)
    requires Evolves(db, ApiDatabase(db, a), Api(a)) && IsInitial(ApiDatabase(db, a), x)
    ensures
      var row := ApiDatabase(db, a).scans[x];
      || (a.InsertInitial? && x == a.id && row.domain == a.d)
      || (IsInitial(db, x) && db.scans[x].domain == row.domain)
  {
  }

  lemma ApiKeepsInitialUnique(s: State, a: ApiStep, x: ScanId, y: ScanId)
    requires OneInitial(s.db, s.calls) && AllIssued(s) && ApiEnabled(s, a)
    requires
      var db' := ApiDatabase(s.db, a);
      IsInitial(db', x) && IsInitial(db', y) && db'.scans[x].domain == db'.scans[y].domain
    ensures x == y
  {
  }

  lemma ApiKeepsCreatingAlone(s: State, a: ApiStep, c: CallId, x: ScanId)
    requires OneCreator(s.calls)
    requires OneInitial(s.db, s.calls) && AllIssued(s) && ForeignKeys(s.db) && ApiEnabled(s, a)
    requires
      var db', calls' := ApiDatabase(s.db, a), CallsAfter(s, a);
      c in calls' && calls'[c].Creating? && IsInitial(db', x)
    ensures ApiDatabase(s.db, a).scans[x].domain != CallsAfter(s, a)[c].domain
  {
    ApiEvolves(s.db, a);
    hide ApiDatabase, Evolves;
    ApiInitialScans(s.db, a, x);
    ApiMovesOneCall(s, a, c);
    if a.InsertInitial? {
      hide ForeignKeys, AllIssued;
    } else {
      hide CallsAfter;
    }
  }

  lemma ApiKeepsOneInitial(s: State, a: ApiStep)
    requires OneCreator(s.calls)
    requires OneInitial(s.db, s.calls) && AllIssued(s) && ForeignKeys(s.db) && ApiEnabled(s, a)
    ensures OneInitial(ApiDatabase(s.db, a), CallsAfter(s, a))
  {
    var db', calls' := ApiDatabase(s.db, a), CallsAfter(s, a);
    hide ApiDatabase, CallsAfter, ApiEnabled, AllIssued, ForeignKeys, OneCreator;
    forall x, y | IsInitial(db', x) && IsInitial(db', y) && db'.scans[x].domain == db'.scans[y].domain
      ensures x == y
    {
      ApiKeepsInitialUnique(s, a, x, y);
    }
    forall c, x | c in calls' && calls'[c].Creating? && IsInitial(db', x)
      ensures db'.scans[x].domain != calls'[c].domain
    {
      ApiKeepsCreatingAlone(s, a, c, x);
    }
  }

  lemma ApiKeepsIssued(s: State, a: ApiStep)
    requires AllIssued(s) && ApiEnabled(s, a)
    ensures AllIssued(DoApi(s, a)) && s.issued <= DoApi(s, a).issued
  {
  }

  lemma WorkerKeepsKeys(s: State, w: WorkerStep)
    ensures DoWorker(s, w).calls == s.calls && DoWorker(s, w).issued == s.issued
    ensures DoWorker(s, w).db.domains.Keys == s.db.domains.Keys
    ensures DoWorker(s, w).db.scans.Keys == s.db.scans.Keys
  {
  }

  lemma FewerCalls(calls: map<CallId, Call>, calls': map<CallId, Call>)
    requires OneLockHolder(calls) && OneCreator(calls)
    requires forall c | c in calls' :: c in calls && calls'[c] == calls[c]
    ensures OneLockHolder(calls') && OneCreator(calls')
  {
  }

  lemma ApiKeepsSafe(s: State, a: ApiStep)
    requires Safe(s) && ApiEnabled(s, a) && UniqueRunning(ApiDatabase(s.db, a))
    ensures Safe(DoApi(s, a)) && s.issued <= DoApi(s, a).issued
  {
    hide ApiDatabase, CallsAfter, ApiEnabled;
    hide UniqueRunning, ForeignKeys, ManualExclusion, OneInitial, OneCreator, OneLockHolder, AllIssued;
    ApiKeepsForeignKeys(s, a);
    ApiKeepsOneLockHolder(s, a);
    ApiKeepsManualExclusion(s, a);
    ApiKeepsOneCreator(s, a);
    ApiKeepsOneInitial(s, a);
    ApiKeepsIssued(s, a);
  }

  lemma OtherKeepsCalls(s: State, step: Step)
    requires !step.Api?
    ensures forall c | c in Do(s, step).calls :: c in s.calls && Do(s, step).calls[c] == s.calls[c]
    ensures Do(s, step).issued == s.issued
    ensures Do(s, step).db.domains.Keys == s.db.domains.Keys && Do(s, step).db.scans.Keys == s.db.scans.Keys
  {
    if step.Worker? {
      WorkerKeepsKeys(s, step.w);
      hide DoWorker;
    }
  }

  lemma OtherKeepsIssued(s: State, s': State)
    requires AllIssued(s)
    requires forall c | c in s'.calls :: c in s.calls && s'.calls[c] == s.calls[c]
    requires s'.issued == s.issued && s'.db.domains.Keys == s.db.domains.Keys && s'.db.scans.Keys == s.db.scans.Keys
    ensures AllIssued(s')
  {
  }

  lemma StepKeepsSafe(s: State, step: Step)
    requires Safe(s) && Enabled(s, step)
    ensures Safe(Do(s, step)) && s.issued <= Do(s, step).issued
  {
    var s' := Do(s, step);
    StepKeepsForeignKeys(s, step);
    StepEvolves(s, step);
    EvolutionKeepsUniqueRunning(s.db, s'.db, step);
    hide Evolves, UniqueRunning, ForeignKeys, ManualExclusion, OneInitial, OneCreator, OneLockHolder, AllIssued;
    if step.Api? {
      hide ApiEnabled, ApiDatabase, CallsAfter, Safe;
      ApiKeepsSafe(s, step.a);
    } else {
      hide Do, Enabled;
      OtherKeepsCalls(s, step);
      OtherKeepsIssued(s, s');
      FewerCalls(s.calls, s'.calls);
      EvolutionKeepsManualExclusion(s.db, s'.db, step, s.calls, s'.calls);
      EvolutionKeepsOneInitial(s.db, s'.db, step, s.calls, s'.calls);
    }
  }

  lemma {:induction false} RunKeepsSafe(s: State, run: seq<Step>)
    requires Safe(s) && Valid(s, run)
    ensures Safe(Final(s, run)) && s.issued <= Final(s, run).issued
    decreases |run|
  {
    if run != [] {
      RunKeepsSafe(s, Front(run));
      StepKeepsSafe(Final(s, Front(run)), Last(run));
    }
  }

  // ---------- over every run ----------

  // Every reachable state has at most one RUNNING scan per domain.
  lemma {:induction false} AtMostOneRunning(maxRetries: nat, run: seq<Step>, x: ScanId, y: ScanId)
    requires Valid(Init(maxRetries), run)
    ensures
      var db := Final(Init(maxRetries), run).db;
      IsRunning(db, x) && IsRunning(db, y) && db.scans[x].domain == db.scans[y].domain ==> x == y
  {
    RunKeepsSafe(Init(maxRetries), run);
    hide Final, Valid;
  }

  lemma DeletedOrFinished(s: State, step: Step, id: ScanId)
    requires Safe(s) && Enabled(s, step) && id in s.issued
    ensures IsFinished(s.db, id) ==> IsFinished(Do(s, step).db, id) || id !in Do(s, step).db.scans
    ensures id !in s.db.scans ==> id !in Do(s, step).db.scans
  {
    StepEvolves(s, step);
    hide Do;
    assert id in Do(s, step).db.scans && id !in s.db.scans ==> Inserts(step, id, Do(s, step).db.scans[id]);
  }

  // A finished scan stays finished for as long as its row exists.
  lemma {:induction false} FinishedStaysFinished(s: State, run: seq<Step>, id: ScanId)
    requires Safe(s) && Valid(s, run) && IsFinished(s.db, id)
    ensures IsFinished(Final(s, run).db, id) || id !in Final(s, run).db.scans
    decreases |run|
  {
    if run != [] {
      FinishedStaysFinished(s, Front(run), id);
      RunKeepsSafe(s, Front(run));
      DeletedOrFinished(Final(s, Front(run)), Last(run), id);
    }
  }

  // Once its row is gone, a scan id never comes back.
  lemma {:induction false} DeletedStaysDeleted(s: State, run: seq<Step>, id: ScanId)
    requires Safe(s) && Valid(s, run) && id in s.issued && id !in s.db.scans
    ensures id !in Final(s, run).db.scans
    decreases |run|
  {
    if run != [] {
      DeletedStaysDeleted(s, Front(run), id);
      RunKeepsSafe(s, Front(run));
      DeletedOrFinished(Final(s, Front(run)), Last(run), id);
    }
  }

  lemma KindsDiffer(db: Database, calls: map<CallId, Call>, d: DomainId)
    requires ManualExclusion(db, calls) && OneInitial(db, calls)
    ensures forall x, y | x in ActiveIn(db, d) && y in ActiveIn(db, d) && x != y :: db.scans[x].kind != db.scans[y].kind
  {
  }

  // ---------- deletion ----------

  // No trace of the domain in any table.
  ghost predicate Gone(db: Database, d: DomainId) {
    && d !in db.domains
    && (forall id | id in db.scans :: db.scans[id].domain != d)
    && (forall i | 0 <= i < |db.assets| :: db.assets[i].domain != d)
  }

  lemma DeletedDomainStays(s: State, step: Step, d: DomainId)
    requires Safe(s) && Enabled(s, step) && d in s.issued && d !in s.db.domains
    ensures d !in Do(s, step).db.domains
  {
    if !step.Api? {
      OtherKeepsCalls(s, step);
      hide Do;
      assert d in Do(s, step).db.domains <==> d in Do(s, step).db.domains.Keys;
    }
  }

  lemma {:induction false} DomainStaysDeleted(s: State, run: seq<Step>, d: DomainId)
    requires Safe(s) && Valid(s, run) && d in s.issued && d !in s.db.domains
    ensures d !in Final(s, run).db.domains
    decreases |run|
  {
    hide Safe, Do, Enabled;
    if run != [] {
      DomainStaysDeleted(s, Front(run), d);
      RunKeepsSafe(s, Front(run));
      DeletedDomainStays(Final(s, Front(run)), Last(run), d);
    }
  }

  lemma NothingWithoutDomain(s: State, d: DomainId)
    requires Safe(s) && d !in s.db.domains
    ensures Gone(s.db, d)
  {
  }

  // Once a domain has been deleted, then in no later state, whatever half-done calls, messages and attempts
  // were left, is there a trace of it, and none of its scans comes back.
  lemma {:induction false} DeletedForGood(s: State, d: DomainId, run: seq<Step>)
    requires Safe(s) && Enabled(s, Api(RemoveDomain(d))) && Valid(Do(s, Api(RemoveDomain(d))), run)
    ensures
      var db := Final(Do(s, Api(RemoveDomain(d))), run).db;
      Gone(db, d) && forall id | id in s.db.scans && s.db.scans[id].domain == d :: id !in db.scans
  {
    var t := Do(s, Api(RemoveDomain(d)));
    StepKeepsSafe(s, Api(RemoveDomain(d)));
    ForeignKeysAfterDelete(s.db, d);
    assert t.db == DeleteDomain(s.db, d) && d in t.issued;
    assert forall id | id in s.db.scans :: id in s.issued;
    hide Do, Enabled, Safe, Gone, DeleteDomain;
    DomainStaysDeleted(t, run, d);
    RunKeepsSafe(t, run);
    NothingWithoutDomain(Final(t, run), d);
    forall id | id in s.db.scans && s.db.scans[id].domain == d
      ensures id !in Final(t, run).db.scans
    {
      DeletedStaysDeleted(t, run, id);
    }
  }

  lemma ActiveInBounded(db: Database, calls: map<CallId, Call>, d: DomainId)
    requires ManualExclusion(db, calls) && OneInitial(db, calls)
    ensures |ActiveIn(db, d)| <= 2
    ensures forall x, y | x in ActiveIn(db, d) && y in ActiveIn(db, d) && x != y :: db.scans[x].kind != db.scans[y].kind
  {
    var ids := ActiveIn(db, d);
    KindsDiffer(db, calls, d);
    hide ManualExclusion, OneInitial;
    AtMostTwo(ids, set id | id in ids && db.scans[id].kind == Manual);
  }

  lemma AtMostOne(ids: set<ScanId>)
    requires forall x, y | x in ids && y in ids :: x == y
    ensures |ids| <= 1
  {
    if x :| x in ids {
      assert ids == {x};
    }
  }

  lemma AtMostTwo(ids: set<ScanId>, some: set<ScanId>)
    requires some <= ids
    requires forall x, y | x in some && y in some :: x == y
    requires forall x, y | x in ids - some && y in ids - some :: x == y
    ensures |ids| <= 2
  {
    AtMostOne(some);
    AtMostOne(ids - some);
    assert ids == some + (ids - some);
  }

  // At most two unfinished scans per domain; of two, one is the initial scan and the other manual.
  lemma {:induction false} ActiveScansBounded(maxRetries: nat, run: seq<Step>, d: DomainId)
    requires Valid(Init(maxRetries), run)
    ensures
      var db := Final(Init(maxRetries), run).db;
      && |ActiveIn(db, d)| <= 2
      && forall x, y | x in ActiveIn(db, d) && y in ActiveIn(db, d) && x != y :: db.scans[x].kind != db.scans[y].kind
  {
    RunKeepsSafe(Init(maxRetries), run);
    hide Final, ActiveIn;
    ActiveInBounded(Final(Init(maxRetries), run).db, Final(Init(maxRetries), run).calls, d);
  }

  lemma PendingAfterSettle(db: Database, calls: map<CallId, Call>, id: ScanId, outcome: Outcome, now: int, x: ScanId, y: ScanId)
    requires ManualExclusion(db, calls) && OneInitial(db, calls) && IsActive(db, id)
    requires
      var db', d := Settle(db, id, outcome, now), db.scans[id].domain;
      IsPendingIn(db', d, x) && IsPendingIn(db', d, y)
    ensures x == y
  {
  }

  // When an attempt on an unfinished scan ends, the query for the next PENDING scan of the domain has
  // one possible answer: the order of creation, and ties in it, decide nothing.
  lemma NextIsUnique(s: State, id: ScanId, outcome: Outcome, now: int, next: Option<ScanId>, other: Option<ScanId>)
    requires Safe(s) && IsActive(s.db, id)
    requires
      var db, d := Settle(s.db, id, outcome, now), s.db.scans[id].domain;
      OldestPending(db, d, next) && OldestPending(db, d, other)
    ensures next == other
  {
    if next.Some? && other.Some? {
      PendingAfterSettle(s.db, s.calls, id, outcome, now, next.value, other.value);
    }
  }

  // ---------- names ----------

  ghost predicate UniqueNames(db: Database) {
    forall x, y | x in db.domains && y in db.domains && db.domains[x].name == db.domains[y].name :: x == y
  }

  lemma WorkerKeepsNames(db: Database, id: ScanId, outcome: Outcome, now: int)
    requires UniqueNames(db)
    ensures UniqueNames(ClaimDatabase(db, id, now)) && UniqueNames(Settle(db, id, outcome, now))
  {
  }

  lemma ApiKeepsNames(db: Database, a: ApiStep)
    requires UniqueNames(db)
    ensures UniqueNames(ApiDatabase(db, a))
  {
  }

  // A name has one domain in every reachable state, although looking it up and inserting it are two steps.
  lemma {:induction false} NamesStayUnique(maxRetries: nat, run: seq<Step>)
    requires Valid(Init(maxRetries), run)
    ensures UniqueNames(Final(Init(maxRetries), run).db)
    decreases |run|
  {
    hide UniqueNames, Enabled, ApiDatabase, ClaimDatabase, Settle, CallsAfter;
    if run == [] {
      NoNames();
    } else {
      NamesStayUnique(maxRetries, Front(run));
      var db := Final(Init(maxRetries), Front(run)).db;
      match Last(run)
      case Api(a) => ApiKeepsNames(db, a);
      case Worker(w) => WorkerKeepsNames(db, w.m.scan, if w.Finish? then w.outcome else Resolved([]), w.now);
      case Broken(_) =>
    }
  }

  lemma NoNames()
    ensures UniqueNames(Database(map[], map[], []))
  {
  }

  // The lookup is not enough for that: without the unique index, an insertion after it would keep names
  // unique exactly when the name is still free.
  lemma UncheckedInsertion(db: Database, d: DomainId, name: string)
    requires UniqueNames(db) && d !in db.domains
    ensures UniqueNames(db.(domains := db.domains[d := Domain(name, Pending)])) <==> !NameTaken(db, name)
  {
    var db' := db.(domains := db.domains[d := Domain(name, Pending)]);
    if x :| x in db.domains && db.domains[x].name == name {
      assert x in db'.domains && db'.domains[x].name == db'.domains[d].name;
    }
  }

  // ---------- accepted triggers ----------

  predicate IsTrigger(step: Step, d: DomainId) {
    step.Api? && step.a.InsertManual? && step.a.d == d
  }

  function AcceptedTriggers(run: seq<Step>, d: DomainId): nat {
    if run == [] then 0
    else AcceptedTriggers(Front(run), d) + if IsTrigger(Last(run), d) then 1 else 0
  }

  function ManualIn(db: Database, d: DomainId): set<ScanId> {
    set id | id in db.scans && db.scans[id].domain == d && db.scans[id].kind == Manual
  }

  function FinishedManualIn(db: Database, d: DomainId): set<ScanId> {
    set id | id in db.scans && db.scans[id].domain == d && db.scans[id].kind == Manual && IsFinished(db, id)
  }

  // Only the removal of its domain removes a scan.
  lemma ScanKept(s: State, step: Step, id: ScanId)
    requires id in s.db.scans && step != Api(RemoveDomain(s.db.scans[id].domain))
    ensures id in Do(s, step).db.scans
  {
    if step.Worker? {
      WorkerKeepsKeys(s, step.w);
      hide Do, DoWorker;
    }
  }

  lemma ManualAfter(db: Database, db': Database, step: Step, d: DomainId, id: ScanId)
    requires Evolves(db, db', step)
    requires id in db.scans && db.scans[id].domain == d ==> id in db'.scans
    requires IsTrigger(step, d) ==> step.a.id !in db.scans && step.a.id in db'.scans
    ensures id in ManualIn(db', d) <==> id in ManualIn(db, d) || (IsTrigger(step, d) && id == step.a.id)
  {
  }

  lemma EvolutionCountsTriggers(db: Database, db': Database, step: Step, d: DomainId)
    requires Evolves(db, db', step)
    requires forall id | id in db.scans && db.scans[id].domain == d :: id in db'.scans
    requires IsTrigger(step, d) ==> step.a.id !in db.scans && step.a.id in db'.scans
    ensures |ManualIn(db', d)| == |ManualIn(db, d)| + if IsTrigger(step, d) then 1 else 0
  {
    var before, after := ManualIn(db, d), ManualIn(db', d);
    assert IsTrigger(step, d) ==> step.a.id !in before;
    forall id
      ensures id in after <==> id in before || (IsTrigger(step, d) && id == step.a.id)
    {
      ManualAfter(db, db', step, d, id);
    }
    hide ManualIn, Evolves;
    assert after == before + if IsTrigger(step, d) then {step.a.id} else {};
  }

  lemma StepCountsTriggers(s: State, step: Step, d: DomainId)
    requires Safe(s) && Enabled(s, step) && step != Api(RemoveDomain(d))
    ensures |ManualIn(Do(s, step).db, d)| == |ManualIn(s.db, d)| + if IsTrigger(step, d) then 1 else 0
  {
    StepEvolves(s, step);
    forall id | id in s.db.scans && s.db.scans[id].domain == d
      ensures id in Do(s, step).db.scans
    {
      ScanKept(s, step, id);
    }
    hide ManualIn, Evolves;
    EvolutionCountsTriggers(s.db, Do(s, step).db, step, d);
  }

  lemma {:induction false} TriggersAreManualScans(maxRetries: nat, run: seq<Step>, d: DomainId)
    requires Valid(Init(maxRetries), run)
    requires forall i | 0 <= i < |run| :: run[i] != Api(RemoveDomain(d))
    ensures |ManualIn(Final(Init(maxRetries), run).db, d)| == AcceptedTriggers(run, d)
    decreases |run|
  {
    if run == [] {
      assert ManualIn(Init(maxRetries).db, d) == {};
    } else {
      TriggersAreManualScans(maxRetries, Front(run), d);
      RunKeepsSafe(Init(maxRetries), Front(run));
      assert Last(run) == run[|run| - 1];
      StepCountsTriggers(Final(Init(maxRetries), Front(run)), Last(run), d);
    }
  }

  lemma ManualBoundedByFinished(db: Database, calls: map<CallId, Call>, d: DomainId)
    requires ManualExclusion(db, calls)
    ensures |ManualIn(db, d)| <= |FinishedManualIn(db, d)| + 1
  {
    var all, finished := ManualIn(db, d), FinishedManualIn(db, d);
    forall x, y | x in all - finished && y in all - finished
      ensures x == y
    {
      assert ActiveManual(db, x) && ActiveManual(db, y);
    }
    AtMostOne(all - finished);
    assert all == finished + (all - finished);
  }

  // While a domain exists, at most one accepted trigger is ahead of the finished manual scans.
  lemma {:induction false} TriggersBoundedByFinished(maxRetries: nat, run: seq<Step>, d: DomainId)
    requires Valid(Init(maxRetries), run)
    requires forall i | 0 <= i < |run| :: run[i] != Api(RemoveDomain(d))
    ensures AcceptedTriggers(run, d) <= |FinishedManualIn(Final(Init(maxRetries), run).db, d)| + 1
  {
    TriggersAreManualScans(maxRetries, run, d);
    RunKeepsSafe(Init(maxRetries), run);
    hide Final, ManualIn, FinishedManualIn;
    ManualBoundedByFinished(Final(Init(maxRetries), run).db, Final(Init(maxRetries), run).calls, d);
  }

  // A trigger is accepted exactly when the domain has no unfinished scan at its check.
  lemma TriggerAcceptedIffIdle(s: State, c: CallId, d: DomainId)
    requires Safe(s) && Enabled(s, Api(CheckActive(c, d)))
    ensures At(Do(s, Api(CheckActive(c, d))), c, Checked(d)) <==> ActiveIn(s.db, d) == {}
    ensures IsLocked(Do(s, Api(CheckActive(c, d))), d) <==> ActiveIn(s.db, d) == {}
  {
  }

  // A step that call c does not take, and that does not lose it.
  predicate LeavesCall(step: Step, c: CallId) {
    (step.Api? && !step.a.RemoveDomain? ==> step.a.c != c) && step != Broken(LoseCall(c))
  }

  lemma LockHeld(s: State, step: Step, c: CallId, d: DomainId)
    requires OneLockHolder(s.calls) && Enabled(s, step) && LeavesCall(step, c)
    requires c in s.calls && HoldsLock(s.calls[c], d)
    ensures c in Do(s, step).calls && Do(s, step).calls[c] == s.calls[c]
    ensures d in s.db.domains ==> d in Do(s, step).db.domains
    ensures !IsTrigger(step, d)
  {
    assert IsLocked(s, d);
    if !step.Api? {
      OtherKeepsCalls(s, step);
      hide Do;
      assert d in s.db.domains <==> d in s.db.domains.Keys;
      assert d in Do(s, step).db.domains <==> d in Do(s, step).db.domains.Keys;
    }
  }

  // While a trigger holds the row lock of a domain, before its check or after it, then however the others
  // go on none of them has a trigger accepted there, and the domain is not deleted.
  lemma {:induction false} LockKeepsOthersOut(s: State, run: seq<Step>, c: CallId, d: DomainId)
    requires Safe(s) && Valid(s, run) && c in s.calls && HoldsLock(s.calls[c], d)
    requires forall i | 0 <= i < |run| :: LeavesCall(run[i], c)
    ensures AcceptedTriggers(run, d) == 0
    ensures d in s.db.domains ==> d in Final(s, run).db.domains
    ensures c in Final(s, run).calls && Final(s, run).calls[c] == s.calls[c]
    decreases |run|
  {
    hide Do, Enabled, LeavesCall, Safe, HoldsLock, IsTrigger;
    if run != [] {
      LockKeepsOthersOut(s, Front(run), c, d);
      RunKeepsSafe(s, Front(run));
      SafeLocks(Final(s, Front(run)));
      hide OneLockHolder;
      assert Last(run) == run[|run| - 1];
      LockHeld(Final(s, Front(run)), Last(run), c, d);
    }
  }

  lemma SafeLocks(s: State)
    requires Safe(s)
    ensures OneLockHolder(s.calls)
  {
  }

  // ---------- why the claim must be atomic ----------

  // The guard of the claim and its writes, taken apart.
  predicate ClaimGuard(db: Database, id: ScanId) {
    Starts(db, id)
  }

  function ClaimWrite(db: Database, id: ScanId, now: int): Database {
    if id !in db.scans then db
    else SetDomainStatus(db.(scans := db.scans[id := RunningRow(db.scans[id], now)]), db.scans[id].domain, Running)
  }

  // Two workers that both pass the guard before either writes leave two RUNNING scans in a domain
  // exactly when they claim different scans of one domain.
  lemma InterleavedClaims(db: Database, x: ScanId, y: ScanId, now: int)
    requires UniqueRunning(db) && ClaimGuard(db, x) && ClaimGuard(db, y)
    ensures UniqueRunning(ClaimWrite(ClaimWrite(db, x, now), y, now))
        <==> x == y || db.scans[x].domain != db.scans[y].domain
  {
    var db' := ClaimWrite(ClaimWrite(db, x, now), y, now);
    assert IsRunning(db', x) && IsRunning(db', y);
    assert db'.scans[x].domain == db.scans[x].domain && db'.scans[y].domain == db.scans[y].domain;
    if x == y || db.scans[x].domain != db.scans[y].domain {
      forall a, b | IsRunning(db', a) && IsRunning(db', b) && db'.scans[a].domain == db'.scans[b].domain
        ensures a == b
      {
        assert IsRunning(db, a) || a == x || a == y;
        assert IsRunning(db, b) || b == x || b == y;
        if IsRunning(db, a) && a != x && a != y {
          assert HasRunning(db, db.scans[a].domain);
        }
        if IsRunning(db, b) && b != x && b != y {
          assert HasRunning(db, db.scans[b].domain);
        }
      }
    }
  }
}
