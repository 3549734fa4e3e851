/** No orphaned work: every unfinished scan's domain has something on the way that will look at it.
    And recovery, which restores this from any tables and any broker contents. */
module Coverage {
  import opened Tables
  import opened Protocol
  import opened Evolution
  import opened Safety

  // A message for this scan is queued, or a worker is busy with one.
  ghost predicate OnTheWay(queue: multiset<Message>, attempts: multiset<Message>, id: ScanId) {
    exists m: Message :: m.scan == id && (m in queue || m in attempts)
  }

  // A call will still enqueue this scan.
  predicate WillPublish(call: Call, id: ScanId) {
    match call
    case Initialising(_, scan) => scan == id
    case Publishing(todo) => id in todo
    case _ => false
  }

  // Something is on the way for this scan, or an API call still owes it. A recovery that has not
  // listed its scans yet owes all of them.
  ghost predicate Covered(s: State, id: ScanId) {
    || OnTheWay(s.queue, s.attempts, id)
    || exists c | c in s.calls :: WillPublish(s.calls[c], id) || s.calls[c].Recovering?
  }

  ghost predicate RunningCovered(s: State) {
    forall id | IsRunning(s.db, id) :: OnTheWay(s.queue, s.attempts, id)
  }

  ghost predicate DomainCovered(s: State, d: DomainId) {
    exists id | IsActive(s.db, id) && s.db.scans[id].domain == d :: Covered(s, id)
  }

  ghost predicate NoOrphans(s: State) {
    && RunningCovered(s)
    && forall id | IsActive(s.db, id) :: DomainCovered(s, s.db.scans[id].domain)
  }

  // ---------- one step ----------

  // A step that ends no scan keeps whatever covers a scan.
  lemma ApiKeepsCovered(s: State, a: ApiStep, id: ScanId)
    requires ApiEnabled(s, a) && Covered(s, id) && IsActive(s.db, id)
    ensures Covered(DoApi(s, a), id)
  {
    var s' := DoApi(s, a);
    if OnTheWay(s.queue, s.attempts, id) {
      var m: Message :| m.scan == id && (m in s.queue || m in s.attempts);
      assert m in s'.queue || m in s'.attempts;
    } else {
      var c :| c in s.calls && (WillPublish(s.calls[c], id) || s.calls[c].Recovering?);
      if c in s'.calls && s'.calls[c] == s.calls[c] {
      } else if a.Publish? && a.todo[0] == id {
        assert Message(id, 0) in s'.queue;
      } else if a.Publish? {
        assert id in a.todo[1..];
        assert WillPublish(s'.calls[c], id);
      } else if a.ListRecoverable? {
        assert id in ActiveIds(s.db);
        assert WillPublish(s'.calls[c], id);
      } else {
        assert a.ShowInitial? && WillPublish(s'.calls[c], id);
      }
    }
  }

  lemma ApiKeepsActive(db: Database, a: ApiStep, id: ScanId)
    requires a.InsertInitial? || a.InsertManual? ==> a.id !in db.scans
    requires id in db.scans && id in ApiDatabase(db, a).scans
    ensures IsActive(db, id) <==> IsActive(ApiDatabase(db, a), id)
    ensures ApiDatabase(db, a).scans[id].domain == db.scans[id].domain
  {
  }

  // Scans of one domain come and go together.
  lemma ApiKeepsDomainMates(db: Database, a: ApiStep, id: ScanId, mate: ScanId)
    requires id in db.scans && mate in db.scans && db.scans[id].domain == db.scans[mate].domain
    ensures id in ApiDatabase(db, a).scans ==> mate in ApiDatabase(db, a).scans
  {
  }

  // A scan that a call has just inserted is owed by that call.
  lemma ApiCoversInserted(s: State, a: ApiStep, id: ScanId)
    requires id !in s.db.scans && id in ApiDatabase(s.db, a).scans
    ensures Covered(DoApi(s, a), id)
  {
    var calls' := DoApi(s, a).calls;
    assert a.c in calls' && WillPublish(calls'[a.c], id);
  }

  lemma ApiKeepsNoOrphans(s: State, a: ApiStep)
    requires NoOrphans(s) && AllIssued(s) && ApiEnabled(s, a)
    ensures NoOrphans(DoApi(s, a))
  {
    var s' := DoApi(s, a);
    ApiEvolves(s.db, a);
    hide ApiDatabase, CallsAfter;
    forall id | IsRunning(s'.db, id)
      ensures OnTheWay(s'.queue, s'.attempts, id)
    {
      var m: Message :| m.scan == id && (m in s.queue || m in s.attempts);
      assert m in s'.queue || m in s'.attempts;
    }
    forall id | IsActive(s'.db, id)
      ensures DomainCovered(s', s'.db.scans[id].domain)
    {
      if id in s.db.scans {
        ApiKeepsActive(s.db, a, id);
        var mate :| IsActive(s.db, mate) && s.db.scans[mate].domain == s.db.scans[id].domain && Covered(s, mate);
        ApiKeepsDomainMates(s.db, a, id, mate);
        ApiKeepsActive(s.db, a, mate);
        ApiKeepsCovered(s, a, mate);
      } else {
        ApiCoversInserted(s, a, id);
      }
    }
  }

  // Work on the way for another scan is not touched by a worker handling m.
  lemma OthersStayOnTheWay(s: State, s': State, m: Message, id: ScanId)
    requires OnTheWay(s.queue, s.attempts, id) && id != m.scan
    requires s.queue - multiset{m} <= s'.queue && s.attempts - multiset{m} <= s'.attempts
    ensures OnTheWay(s'.queue, s'.attempts, id)
  {
  }

  lemma OthersStayCovered(s: State, s': State, m: Message, id: ScanId)
    requires Covered(s, id) && id != m.scan
    requires s.queue - multiset{m} <= s'.queue && s.attempts - multiset{m} <= s'.attempts && s'.calls == s.calls
    ensures Covered(s', id)
  {
  }

  // A message is dropped for a PENDING scan only in favour of a RUNNING one, which has its own.
  lemma ClaimKeepsCovered(s: State, m: Message, now: int, id: ScanId)
    requires ForeignKeys(s.db) && RunningCovered(s) && IsActive(s.db, id) && Covered(s, id)
    ensures DomainCovered(DoClaim(s, m, now), s.db.scans[id].domain)
  {
    var s' := DoClaim(s, m, now);
    var d := s.db.scans[id].domain;
    assert IsActive(s'.db, id) && s'.db.scans[id].domain == d;
    if id != m.scan {
      OthersStayCovered(s, s', m, id);
    } else if Starts(s.db, id) {
      assert m in s'.attempts;
    } else {
      var r :| r in s.db.scans && s.db.scans[r].domain == d && IsRunning(s.db, r);
      assert IsActive(s'.db, r) && s'.db.scans[r].domain == d;
      OthersStayOnTheWay(s, s', m, r);
      assert Covered(s', r);
    }
  }

  lemma ClaimKeepsNoOrphans(s: State, m: Message, now: int)
    requires ForeignKeys(s.db) && NoOrphans(s) && m in s.queue
    ensures NoOrphans(DoClaim(s, m, now))
  {
    var s' := DoClaim(s, m, now);
    forall id | IsRunning(s'.db, id)
      ensures OnTheWay(s'.queue, s'.attempts, id)
    {
      if id != m.scan {
        OthersStayOnTheWay(s, s', m, id);
      } else {
        assert m in s'.attempts;
      }
    }
    forall id | IsActive(s'.db, id)
      ensures DomainCovered(s', s'.db.scans[id].domain)
    {
      assert IsActive(s.db, id) && s.db.scans[id].domain == s'.db.scans[id].domain;
      var mate :| IsActive(s.db, mate) && s.db.scans[mate].domain == s.db.scans[id].domain && Covered(s, mate);
      ClaimKeepsCovered(s, m, now, mate);
    }
  }

  lemma RetryKeepsNoOrphans(s: State, m: Message, outcome: Outcome, next: Option<ScanId>, now: int)
    requires NoOrphans(s) && Retries(s, m, outcome)
    ensures NoOrphans(DoFinish(s, m, outcome, next, now))
  {
  }

  lemma SettleKeepsNoOrphans(s: State, m: Message, outcome: Outcome, next: Option<ScanId>, now: int)
    requires NoOrphans(s) && !Retries(s, m, outcome)
    requires WorkerEnabled(s, Finish(m, outcome, next, now))
    ensures NoOrphans(DoFinish(s, m, outcome, next, now))
  {
    var s' := DoFinish(s, m, outcome, next, now);
    SettleEvolves(s.db, m.scan, outcome, now, Worker(Finish(m, outcome, next, now)));
    forall id | IsRunning(s'.db, id)
      ensures id != m.scan && OnTheWay(s'.queue, s'.attempts, id)
    {
      OthersStayOnTheWay(s, s', m, id);
    }
    forall id | IsActive(s'.db, id)
      ensures DomainCovered(s', s'.db.scans[id].domain)
    {
      var d := s'.db.scans[id].domain;
      assert id != m.scan && IsActive(s.db, id) && s.db.scans[id].domain == d;
      var mate :| IsActive(s.db, mate) && s.db.scans[mate].domain == d && Covered(s, mate);
      if mate != m.scan {
        assert IsActive(s'.db, mate) && s'.db.scans[mate].domain == d;
        OthersStayCovered(s, s', m, mate);
      } else if next.Some? {
        assert Message(next.value, 0) in s'.queue;
        assert Covered(s', next.value);
      } else {
        assert !IsPendingIn(s'.db, d, id);
        assert Covered(s', id);
      }
    }
  }

  lemma StepKeepsNoOrphans(s: State, step: Step)
    requires ForeignKeys(s.db) && AllIssued(s) && NoOrphans(s) && Enabled(s, step) && !IsLoss(step)
    ensures NoOrphans(Do(s, step))
  {
    match step
    case Api(a) => ApiKeepsNoOrphans(s, a);
    case Worker(Claim(m, now)) => ClaimKeepsNoOrphans(s, m, now);
    case Worker(Finish(m, outcome, next, now)) =>
      if Retries(s, m, outcome) {
        RetryKeepsNoOrphans(s, m, outcome, next, now);
      } else {
        SettleKeepsNoOrphans(s, m, outcome, next, now);
      }
    case Broken(Redeliver(m)) =>
      var s' := Do(s, step);
      assert forall w | w in s.queue :: w in s'.queue;
      assert forall id | OnTheWay(s.queue, s.attempts, id) :: OnTheWay(s'.queue, s'.attempts, id);
      assert forall id | Covered(s, id) :: Covered(s', id);
      assert forall d | DomainCovered(s, d) :: DomainCovered(s', d);
  }

  // ---------- over every run ----------

  lemma StepKeepsIssued(s: State, step: Step)
    requires AllIssued(s) && Enabled(s, step)
    ensures AllIssued(Do(s, step))
  {
    match step
    case Api(a) => ApiKeepsIssued(s, a);
    case Worker(w) => WorkerKeepsKeys(s, w);
    case Broken(f) =>
  }

  lemma {:induction false} RunKeepsNoOrphans(s: State, run: seq<Step>)
    requires ForeignKeys(s.db) && AllIssued(s) && NoOrphans(s) && Valid(s, run) && CrashFree(run)
    ensures NoOrphans(Final(s, run)) && ForeignKeys(Final(s, run).db) && AllIssued(Final(s, run))
    decreases |run|
  {
    hide Do, Enabled, NoOrphans, AllIssued, ForeignKeys;
    if run != [] {
      RunKeepsNoOrphans(s, Front(run));
      StepKeepsNoOrphans(Final(s, Front(run)), Last(run));
      StepKeepsForeignKeys(Final(s, Front(run)), Last(run));
      StepKeepsIssued(Final(s, Front(run)), Last(run));
    }
  }

  // In every state that a crash-free run reaches, no unfinished scan is orphaned.
  lemma {:induction false} NoOrphanedWork(maxRetries: nat, run: seq<Step>)
    requires Valid(Init(maxRetries), run) && CrashFree(run)
    ensures NoOrphans(Final(Init(maxRetries), run))
  {
    assert NoOrphans(Init(maxRetries));
    RunKeepsNoOrphans(Init(maxRetries), run);
  }

  // With no API call half done, work for the domain of every unfinished scan is on the way.
  lemma QuietMeansOnTheWay(s: State, id: ScanId)
    requires NoOrphans(s) && s.calls == map[] && IsActive(s.db, id)
    ensures exists mate | IsActive(s.db, mate) && s.db.scans[mate].domain == s.db.scans[id].domain ::
              OnTheWay(s.queue, s.attempts, mate)
  {
  }

  // ---------- recovery ----------

  // Whatever the tables, the broker, the attempts and the other calls: a reset leaves no orphan.
  lemma ResetLeavesNoOrphans(s: State, c: CallId)
    ensures NoOrphans(DoApi(s, Recover(c)))
  {
    var s' := DoApi(s, Recover(c));
    assert c in s'.calls && s'.calls[c].Recovering?;
    assert forall id :: !IsRunning(s'.db, id);
    forall id | IsActive(s'.db, id)
      ensures DomainCovered(s', s'.db.scans[id].domain)
    {
      assert Covered(s', id);
    }
  }

  // Self-stabilisation: from arbitrary tables and broker contents, after the reset of a recovery no
  // scan is orphaned, however workers, triggers and the rest of the recovery interleave from there.
  lemma {:induction false} RecoveryStabilises(s: State, c: CallId, run: seq<Step>)
    requires ForeignKeys(s.db) && AllIssued(s) && c !in s.calls
    requires Valid(Do(s, Api(Recover(c))), run) && CrashFree(run)
    ensures NoOrphans(Final(Do(s, Api(Recover(c))), run))
  {
    ResetLeavesNoOrphans(s, c);
    ApiKeepsForeignKeys(s, Recover(c));
    ApiKeepsIssued(s, Recover(c));
    RunKeepsNoOrphans(Do(s, Api(Recover(c))), run);
  }
}
