/** Runs without any fault in which the promises of Overlap and SplitRows fail: the conditions there are
    needed, and an API restart or a manual scan at the wrong moment is enough to violate them. */
module Witnesses {
  import opened Tables
  import opened Protocol
  import opened Atomic
  import opened Rows
  import opened Overlap
  import opened SplitRows
  import opened Steps
  import Service

  // ---------- a recovery while an attempt is in flight ----------

  lemma FreshCall(calls: set<CallId>) returns (c: CallId)
    ensures c !in calls
  {
    c := UpperBound(calls);
  }

  lemma {:induction false} UpperBound(ids: set<nat>) returns (n: nat)
    ensures forall id | id in ids :: id < n
    decreases |ids|
  {
    if ids == {} {
      n := 0;
    } else {
      var id :| id in ids;
      var m := UpperBound(ids - {id});
      n := if m <= id then id + 1 else m;
      assert forall x | x in ids :: x == id || x in ids - {id};
    }
  }

  lemma {:induction false} Enumeration(ids: set<ScanId>) returns (list: seq<ScanId>)
    ensures Enumerates(list, ids)
    decreases |ids|, 0
  {
    if ids == {} {
      list := [];
    } else {
      var id :| id in ids;
      list := EnumerationFrom(ids, id);
    }
  }

  // One that names a given scan first.
  lemma EnumerationFrom(ids: set<ScanId>, id: ScanId) returns (list: seq<ScanId>)
    requires id in ids
    ensures Enumerates(list, ids) && list != [] && list[0] == id
    decreases |ids - {id}|, 1
  {
    var rest := Enumeration(ids - {id});
    list := [id] + rest;
    var named, left := set x | x in list, set x | x in rest;
    forall x
      ensures x in named <==> x in ids
    {
      assert x in list <==> x == id || x in rest;
      assert x in rest <==> x in left;
      assert left == ids - {id};
    }
  }

  lemma ClaimTakes(s: State, m: Message) returns (t: State)
    requires m in s.queue && Starts(s.db, m.scan)
    ensures Takes(s, Worker(Claim(m, s.clock)), t)
    ensures t.attempts == s.attempts + multiset{m} && t.calls == s.calls
    ensures t.db == ClaimDatabase(s.db, m.scan, s.clock) && Starts(t.db, m.scan)
    ensures m.scan in t.db.scans && t.db.assets == s.db.assets
  {
    t := Do(s, Worker(Claim(m, s.clock)));
  }

  lemma RecoverTakes(s: State, c: CallId, id: ScanId) returns (t: State)
    requires c !in s.calls && Starts(s.db, id)
    ensures Takes(s, Api(Recover(c)), t)
    ensures t == s.(db := ResetInterrupted(s.db), calls := s.calls[c := Recovering])
    ensures Starts(t.db, id) && id in t.db.scans && t.db.scans[id].startedAt == ResetInterrupted(s.db).scans[id].startedAt
  {
    t := Do(s, Api(Recover(c)));
    assert t.issued == s.issued;
  }

  lemma ListTakes(s: State, c: CallId, id: ScanId) returns (step: Step, t: State, todo: seq<ScanId>)
    requires At(s, c, Recovering) && IsActive(s.db, id)
    ensures Takes(s, step, t) && todo != [] && todo[0] == id
    ensures t == s.(calls := s.calls[c := Publishing(todo)])
  {
    todo := EnumerationFrom(ActiveIds(s.db), id);
    step := Api(ListRecoverable(c, todo));
    hide ActiveIds, Enumerates;
    t := Do(s, step);
    assert t.issued == s.issued;
  }

  // While an attempt is in flight, a recovery may start a second one of the same scan.
  lemma RecoveryOverlaps(s: State, m: Message) returns (run: seq<Step>, t: State)
    requires m in s.queue && Starts(s.db, m.scan)
    ensures Leads(s, run, t)
    ensures t.attempts == s.attempts + multiset{m} + multiset{Message(m.scan, 0)}
    ensures m.scan in t.db.scans && t.db.assets == s.db.assets
  {
    hide Takes, Leads, Starts, ClaimDatabase, ResetInterrupted;
    var again := Message(m.scan, 0);
    var c := FreshCall(s.calls.Keys);
    LeadsNowhere(s);
    var s1 := ClaimTakes(s, m);
    Extend(s, [], s, Worker(Claim(m, s.clock)), s1);
    var s2 := RecoverTakes(s1, c, m.scan);
    run := [] + [Worker(Claim(m, s.clock))];
    Extend(s, run, s1, Api(Recover(c)), s2);
    run := run + [Api(Recover(c))];
    StartsActive(s2.db, m.scan);
    var list, s3, todo := ListTakes(s2, c, m.scan);
    Extend(s, run, s2, list, s3);
    run := run + [list];
    PublishTakes(s3, c, todo);
    var s4 := Do(s3, Api(Publish(c, todo)));
    Extend(s, run, s3, Api(Publish(c, todo)), s4);
    run := run + [Api(Publish(c, todo))];
    assert again in s4.queue;
    t := ClaimTakes(s4, again);
    Extend(s, run, s4, Worker(Claim(again, s4.clock)), t);
    run := run + [Worker(Claim(again, s4.clock))];
    ResetKeepsAssets(s1.db);
  }

  lemma StartsActive(db: Database, id: ScanId)
    ensures Starts(db, id) ==> IsActive(db, id)
  {
  }

  lemma ResetKeepsAssets(db: Database)
    ensures ResetInterrupted(db).assets == db.assets
  {
  }

  // From any state in which a message can start, a recovery may leave its scan with two results more.
  lemma RecoveryKeepsBoth(s: State, m: Message, r1: seq<Record>, r2: seq<Record>) returns (run: seq<Step>)
    requires m in s.queue && Starts(s.db, m.scan)
    ensures Valid(s, run) && Faultless(run) && m.scan in Final(s, run).db.scans
    ensures
      var db := Final(s, run).db;
      db.scans[m.scan].status == Completed && OwnedBy(db.assets, m.scan) == OwnedBy(s.db.assets, m.scan) + r1 + r2
  {
    hide Final, Valid, Starts, OwnedBy;
    var overlap, t := RecoveryOverlaps(s, m);
    var w := Message(m.scan, 0);
    assert w in t.attempts - multiset{m};
    var both := OverlapKeepsBoth(t, m, w, r1, r2);
    RunConcat(s, overlap, both);
    run := overlap + both;
  }

  // The state in which the first domain and its initial scan have been created.
  lemma FirstScan(maxRetries: nat) returns (run: seq<Step>)
    ensures Valid(Init(maxRetries), run) && Faultless(run)
    ensures
      var s := Final(Init(maxRetries), run);
      Message(1, 0) in s.queue && Starts(s.db, 1) && OwnedBy(s.db.assets, 1) == []
  {
    run := Service.CreateSteps(0, "example.com", 1, 0);
    Service.CreateIsRun(Init(maxRetries), 0, "example.com", 1, 0);
    hide Final, Valid;
  }

  // Storing a result once fails in a run without a fault: a scan ends COMPLETED and owns two results.
  lemma ExactlyOnceCanFail(maxRetries: nat, r1: seq<Record>, r2: seq<Record>) returns (run: seq<Step>)
    ensures Valid(Init(maxRetries), run) && Faultless(run) && 1 in Final(Init(maxRetries), run).db.scans
    ensures
      var db := Final(Init(maxRetries), run).db;
      db.scans[1].status == Completed && OwnedBy(db.assets, 1) == r1 + r2
  {
    hide Final, Valid, Init, Starts, OwnedBy;
    var create := FirstScan(maxRetries);
    var both := RecoveryKeepsBoth(Final(Init(maxRetries), create), Message(1, 0), r1, r2);
    RunConcat(Init(maxRetries), create, both);
    run := create + both;
    assert [] + r1 + r2 == r1 + r2;
  }

  // And a scan may end COMPLETED without a start.
  lemma FieldsCanFail(maxRetries: nat) returns (run: seq<Step>)
    ensures Valid(Init(maxRetries), run) && Faultless(run) && 1 in Final(Init(maxRetries), run).db.scans
    ensures
      var row := Final(Init(maxRetries), run).db.scans[1];
      row.status == Completed && row.startedAt == None && !FieldsAgree(row)
  {
    var create := FirstScan(maxRetries);
    var s, m := Final(Init(maxRetries), create), Message(1, 0);
    hide Final, Valid, Init, Starts, OwnedBy, Takes, Leads, ClaimDatabase, Settle;
    var c := FreshCall(s.calls.Keys);
    var s1 := ClaimTakes(s, m);
    var s2 := RecoverTakes(s1, c, 1);
    ResetHasNoStart(s.db, 1, s.clock);
    var finish, t := FinishTakes(s2, m);
    LeadsNowhere(s);
    Extend(s, [], s, Worker(Claim(m, s.clock)), s1);
    Extend(s, [] + [Worker(Claim(m, s.clock))], s1, Api(Recover(c)), s2);
    var rest := [] + [Worker(Claim(m, s.clock))] + [Api(Recover(c))];
    Extend(s, rest, s2, finish, t);
    LeadsFrom(s, rest + [finish], t);
    RunConcat(Init(maxRetries), create, rest + [finish]);
    run := create + (rest + [finish]);
  }

  lemma LeadsFrom(s: State, run: seq<Step>, t: State)
    requires Leads(s, run, t)
    ensures Valid(s, run) && Faultless(run) && Final(s, run) == t
  {
  }

  lemma ResetHasNoStart(db: Database, id: ScanId, now: int)
    requires Starts(db, id)
    ensures
      var db' := ResetInterrupted(ClaimDatabase(db, id, now));
      id in db'.scans && db'.scans[id].startedAt == None
  {
  }

  lemma FinishTakes(s: State, m: Message) returns (step: Step, t: State)
    requires m in s.attempts && m.scan in s.db.scans
    ensures Takes(s, step, t) && m.scan in t.db.scans
    ensures t.db.scans[m.scan].status == Completed && t.db.scans[m.scan].startedAt == s.db.scans[m.scan].startedAt
  {
    var d := s.db.scans[m.scan].domain;
    OldestPendingExists(Settle(s.db, m.scan, Resolved([]), s.clock), d);
    var next :| OldestPending(Settle(s.db, m.scan, Resolved([]), s.clock), d, next);
    hide OldestPending;
    step := Worker(Finish(m, Resolved([]), next, s.clock));
    t := Do(s, step);
  }

  // ---------- the domain status ----------

  const NAME := "example.com"

  // One domain with a manual scan 1 and an initial scan 2.
  function TwoScans(status: Status, manual: Scan, initial: Scan): Database {
    Database(map[0 := Domain(NAME, status)], map[1 := manual, 2 := initial], [])
  }

  const MANUAL := NewScan(0, Manual, 0)
  const INITIAL := NewScan(0, Initial, 0)

  lemma ClaimLeads(s: State, m: Message)
    requires m in s.queue && Starts(s.db, m.scan)
    ensures
      Takes(s, Worker(Claim(m, s.clock)),
            s.(db := ClaimDatabase(s.db, m.scan, s.clock), queue := s.queue - multiset{m}, attempts := s.attempts + multiset{m}))
  {
  }

  lemma FinishLeads(s: State, m: Message, next: Option<ScanId>)
    requires m in s.attempts && m.scan in s.db.scans
    requires OldestPending(Settle(s.db, m.scan, Resolved([]), s.clock), s.db.scans[m.scan].domain, next)
    ensures
      Takes(s, Worker(Finish(m, Resolved([]), next, s.clock)),
            s.(db := Settle(s.db, m.scan, Resolved([]), s.clock), queue := s.queue + Enqueued(next),
               attempts := s.attempts - multiset{m}))
  {
  }

  lemma ClaimManual()
    ensures
      var db := Database(map[0 := Domain(NAME, Pending)], map[1 := MANUAL], []);
      && Starts(db, 1)
      && CreateScan(ClaimDatabase(db, 1, 0), 2, 0, Initial, 0) == TwoScans(Running, RunningRow(MANUAL, 0), INITIAL)
  {
  }

  lemma ClaimInitial(status: Status, manual: Scan)
    requires manual.domain == 0 && manual.status != Running
    ensures Starts(TwoScans(status, manual, INITIAL), 2)
    ensures ClaimDatabase(TwoScans(status, manual, INITIAL), 2, 0) == TwoScans(Running, manual, RunningRow(INITIAL, 0))
  {
    assert TwoScans(status, manual, INITIAL).scans.Keys == {1, 2};
  }

  lemma SettleManual(status: Status, manual: Scan, initial: Scan)
    requires manual.domain == 0 && initial.domain == 0
    ensures
      var db := Settle(TwoScans(status, manual, initial), 1, Resolved([]), 0);
      && db == TwoScans(Completed, CompletedRow(manual, 0), initial)
      && OldestPending(db, 0, if initial.status == Pending then Some(2) else None)
  {
  }

  lemma SettleInitial(status: Status, manual: Scan, initial: Scan)
    requires manual.domain == 0 && initial.domain == 0 && manual.status != Pending
    ensures
      var db := Settle(TwoScans(status, manual, initial), 2, Resolved([]), 0);
      db == TwoScans(Completed, manual, CompletedRow(initial, 0)) && OldestPending(db, 0, None)
  {
  }

  lemma Bags(x: Message, y: Message)
    requires x != y
    ensures multiset{} + multiset{x} == multiset{x} && multiset{x} - multiset{x} == multiset{}
    ensures multiset{x} + multiset{y} == multiset{x, y} && multiset{x, y} - multiset{x} == multiset{y}
    ensures multiset{x} + multiset{} == multiset{x} && multiset{} + Enqueued(None) == multiset{}
  {
  }

  // A client triggers a scan of a new domain before its initial scan is inserted, and a worker claims it.
  function Overtaken(maxRetries: nat): State {
    State(TwoScans(Running, RunningRow(MANUAL, 0), INITIAL), multiset{}, multiset{Message(1, 0)},
          map[0 := Initialising(0, 2)], {0, 1, 2}, 0, maxRetries)
  }

  function Registered(maxRetries: nat): State {
    State(Database(map[0 := Domain(NAME, Pending)], map[], []), multiset{}, multiset{}, map[0 := Creating(0)], {0}, 0, maxRetries)
  }

  function Triggered(maxRetries: nat): State {
    State(Database(map[0 := Domain(NAME, Pending)], map[1 := MANUAL], []), multiset{Message(1, 0)}, multiset{},
          map[0 := Creating(0)], {0, 1}, 0, maxRetries)
  }

  lemma RegisteredReachable(maxRetries: nat)
    ensures Leads(Init(maxRetries), [Api(LookupName(0, NAME)), Api(InsertDomain(0, 0, NAME))], Registered(maxRetries))
  {
    var s := Init(maxRetries);
    var s1 := s.(calls := map[0 := Naming(NAME)]);
    LookupTakes(s, 0, NAME);
    InsertDomainTakes(s1, 0, 0, NAME);
    hide Takes, Leads;
    LeadsNowhere(s);
    Extend(s, [], s, Api(LookupName(0, NAME)), s1);
    Extend(s, [] + [Api(LookupName(0, NAME))], s1, Api(InsertDomain(0, 0, NAME)), Registered(maxRetries));
    assert [] + [Api(LookupName(0, NAME))] + [Api(InsertDomain(0, 0, NAME))]
        == [Api(LookupName(0, NAME)), Api(InsertDomain(0, 0, NAME))];
  }

  lemma TriggeredReachable(maxRetries: nat) returns (run: seq<Step>)
    ensures Leads(Registered(maxRetries), run, Triggered(maxRetries))
  {
    hide Takes, Leads;
    var s := Registered(maxRetries);
    var s1 := s.(calls := s.calls[1 := Locked(0)]);
    var s2 := s.(calls := s.calls[1 := Checked(0)]);
    var s3 := s.(db := Triggered(maxRetries).db, calls := s.calls[1 := Publishing([1])], issued := {0, 1});
    LockTakes(s, 1, 0);
    CheckTakes(s1, 1, 0);
    InsertManualTakes(s2, 1, 0, 1, 0);
    PublishTakes(s3, 1, [1]);
    assert s1.calls[1 := Checked(0)] == s2.calls && s2.calls[1 := Publishing([1])] == s3.calls && s3.calls - {1} == s.calls;
    assert ShowQueued(CreateScan(s.db, 1, 0, Manual, 0), 0) == s3.db;
    assert s2.issued + {1} == s3.issued;
    Bags(Message(1, 0), Message(2, 0));
    run := [Api(LockDomain(1, 0)), Api(CheckActive(1, 0)), Api(InsertManual(1, 0, 1, 0)), Api(Publish(1, [1]))];
    LeadsThroughFour(s, run[0], s1, run[1], s2, run[2], s3, run[3], Triggered(maxRetries));
  }

  lemma OvertakenReachable(maxRetries: nat) returns (run: seq<Step>)
    ensures Leads(Init(maxRetries), run, Overtaken(maxRetries))
  {
    hide Takes, Leads, Starts, ClaimDatabase, CreateScan;
    RegisteredReachable(maxRetries);
    var trigger := TriggeredReachable(maxRetries);
    var register := [Api(LookupName(0, NAME)), Api(InsertDomain(0, 0, NAME))];
    LeadsOn(Init(maxRetries), register, Registered(maxRetries), trigger, Triggered(maxRetries));
    var s, m := Triggered(maxRetries), Message(1, 0);
    Bags(m, Message(2, 0));
    ClaimManual();
    ClaimLeads(s, m);
    var s1 := s.(db := ClaimDatabase(s.db, 1, 0), queue := multiset{}, attempts := multiset{m});
    ClaimStarted(s.db, 1, 0);
    InsertInitialTakes(s1, 0, 0, 2, 0);
    Extend(Init(maxRetries), register + trigger, s, Worker(Claim(m, 0)), s1);
    run := register + trigger + [Worker(Claim(m, 0))];
    assert s1.issued + {2} == {0, 1, 2} && s1.calls[0 := Initialising(0, 2)] == map[0 := Initialising(0, 2)];
    Extend(Init(maxRetries), run, s1, Api(InsertInitial(0, 0, 2, 0)), Overtaken(maxRetries));
    run := run + [Api(InsertInitial(0, 0, 2, 0))];
  }

  lemma ClaimStarted(db: Database, id: ScanId, now: int)
    ensures ClaimDatabase(db, id, now).domains.Keys == db.domains.Keys
  {
  }

  // If both scans are then finished before the initial one is shown, the domain is left PENDING with
  // nothing to wait for.
  lemma ShownLate(maxRetries: nat) returns (run: seq<Step>, t: State)
    ensures Leads(Init(maxRetries), run, t) && !Mirrors(t.db) && MirrorBroken(Init(maxRetries), run)
    ensures 0 in t.db.domains && t.db.domains[0].status == Pending && ActiveIds(t.db) == {}
    ensures t.queue == multiset{} && t.attempts == multiset{}
  {
    hide Takes, Leads, Starts, ClaimDatabase, Settle, OldestPending, TwoScans, MirrorBroken;
    var init, first, second := Init(maxRetries), Message(1, 0), Message(2, 0);
    Bags(first, second);
    Bags(second, first);
    var manual, initial := CompletedRow(RunningRow(MANUAL, 0), 0), RunningRow(INITIAL, 0);
    run := OvertakenReachable(maxRetries);
    var s := Overtaken(maxRetries);
    SettleManual(Running, RunningRow(MANUAL, 0), INITIAL);
    TwoScansRows(Running, RunningRow(MANUAL, 0), INITIAL);
    FinishLeads(s, first, Some(2));
    var s1 := s.(db := TwoScans(Completed, manual, INITIAL), queue := multiset{second}, attempts := multiset{});
    Extend(init, run, s, Worker(Finish(first, Resolved([]), Some(2), 0)), s1);
    run := run + [Worker(Finish(first, Resolved([]), Some(2), 0))];
    ClaimInitial(Completed, manual);
    ClaimLeads(s1, second);
    var s2 := s1.(db := TwoScans(Running, manual, initial), queue := multiset{}, attempts := multiset{second});
    Extend(init, run, s1, Worker(Claim(second, 0)), s2);
    run := run + [Worker(Claim(second, 0))];
    SettleInitial(Running, manual, initial);
    TwoScansRows(Running, manual, initial);
    FinishLeads(s2, second, None);
    var s3 := s2.(db := TwoScans(Completed, manual, CompletedRow(initial, 0)), attempts := multiset{});
    Extend(init, run, s2, Worker(Finish(second, Resolved([]), None, 0)), s3);
    run := run + [Worker(Finish(second, Resolved([]), None, 0))];
    ShowTakes(s3, 0, 0, 2);
    ShowFinished(manual, CompletedRow(initial, 0));
    t := s3.(db := TwoScans(Pending, manual, CompletedRow(initial, 0)), calls := s3.calls[0 := Publishing([2])]);
    Extend(init, run, s3, Api(ShowInitial(0, 0, 2)), t);
    EndsBroken(init, run, s3, Api(ShowInitial(0, 0, 2)));
    run := run + [Api(ShowInitial(0, 0, 2))];
  }

  lemma TwoScansRows(status: Status, manual: Scan, initial: Scan)
    ensures TwoScans(status, manual, initial).scans.Keys == {1, 2}
    ensures TwoScans(status, manual, initial).scans[1] == manual && TwoScans(status, manual, initial).scans[2] == initial
  {
  }

  lemma ShowFinished(manual: Scan, initial: Scan)
    requires manual.domain == 0 && initial.domain == 0 && manual.status == Completed && initial.status == Completed
    ensures
      var db := TwoScans(Completed, manual, initial);
      var db' := TwoScans(Pending, manual, initial);
      && ShowQueued(db, 0) == db' && ActiveIds(db') == {} && !Mirrors(db') && !HasActive(db, 0)
      && 0 in db.domains && 2 in db.scans && db.scans[2].domain == 0
      && 0 in db'.domains && db'.domains[0].status == Pending
  {
    var db' := TwoScans(Pending, manual, initial);
    assert 1 in db'.scans && !HasActive(db', 0);
  }

  lemma EndsBroken(s: State, run: seq<Step>, t: State, step: Step)
    requires Leads(s, run, t) && BreaksMirror(t, step)
    ensures MirrorBroken(s, run + [step])
  {
  }

  // If the API restarts while the manual scan is in flight and a worker claims the initial one, the end of
  // the first leaves the domain COMPLETED while the second is RUNNING.
  lemma SettledBesideRunning(maxRetries: nat) returns (run: seq<Step>, t: State)
    ensures Leads(Init(maxRetries), run, t) && !Mirrors(t.db) && MirrorBroken(Init(maxRetries), run)
    ensures 0 in t.db.domains && t.db.domains[0].status == Completed
    ensures IsRunning(t.db, 2) && t.db.scans[2].domain == 0
  {
    hide Takes, Leads, Starts, ClaimDatabase, Settle, OldestPending, TwoScans, MirrorBroken, ResetInterrupted;
    var init, first, second := Init(maxRetries), Message(1, 0), Message(2, 0);
    Bags(first, second);
    Bags(second, first);
    var running, initial := RunningRow(MANUAL, 0), RunningRow(INITIAL, 0);
    run := OvertakenReachable(maxRetries);
    var s := Overtaken(maxRetries);
    ShowRunning(running, INITIAL);
    ShowTakes(s, 0, 0, 2);
    var s1 := s.(calls := s.calls[0 := Publishing([2])]);
    Extend(init, run, s, Api(ShowInitial(0, 0, 2)), s1);
    run := run + [Api(ShowInitial(0, 0, 2))];
    PublishTakes(s1, 0, [2]);
    var s2 := s1.(queue := multiset{second}, calls := s1.calls - {0});
    Extend(init, run, s1, Api(Publish(0, [2])), s2);
    run := run + [Api(Publish(0, [2]))];
    ResetManual(running);
    var s3 := s2.(db := TwoScans(Running, Interrupted(running), INITIAL), calls := s2.calls[1 := Recovering]);
    assert s2.issued + {} == s2.issued;
    assert Takes(s2, Api(Recover(1)), s3) by { RecoverLeads(s2, 1); }
    Extend(init, run, s2, Api(Recover(1)), s3);
    run := run + [Api(Recover(1))];
    ClaimInitial(Running, Interrupted(running));
    ClaimLeads(s3, second);
    var s4 := s3.(db := TwoScans(Running, Interrupted(running), initial), queue := multiset{}, attempts := multiset{first, second});
    Extend(init, run, s3, Worker(Claim(second, 0)), s4);
    run := run + [Worker(Claim(second, 0))];
    SettleManual(Running, Interrupted(running), initial);
    TwoScansRows(Running, Interrupted(running), initial);
    FinishLeads(s4, first, None);
    t := s4.(db := TwoScans(Completed, CompletedRow(Interrupted(running), 0), initial), attempts := multiset{second});
    var finish := Worker(Finish(first, Resolved([]), None, 0));
    Extend(init, run, s4, finish, t);
    CompletedBesideRunning(CompletedRow(Interrupted(running), 0), initial);
    assert BreaksMirror(s4, finish) by {
      assert 2 in s4.db.scans && IsRunning(s4.db, 2);
    }
    EndsBroken(init, run, s4, finish);
    run := run + [finish];
  }

  lemma RecoverLeads(s: State, c: CallId)
    requires c !in s.calls
    ensures Takes(s, Api(Recover(c)), s.(db := ResetInterrupted(s.db), calls := s.calls[c := Recovering]))
  {
  }

  lemma ShowRunning(manual: Scan, initial: Scan)
    ensures ShowQueued(TwoScans(Running, manual, initial), 0) == TwoScans(Running, manual, initial)
  {
  }

  lemma ResetManual(manual: Scan)
    ensures ResetInterrupted(TwoScans(Running, manual, INITIAL)) == TwoScans(Running, Interrupted(manual), INITIAL)
  {
  }

  lemma CompletedBesideRunning(manual: Scan, initial: Scan)
    requires initial.domain == 0 && initial.status == Running
    ensures
      var db := TwoScans(Completed, manual, initial);
      !Mirrors(db) && IsRunning(db, 2) && db.scans[2].domain == 0 && 0 in db.domains && db.domains[0].status == Completed
  {
  }
}
