/** The application's procedures over the tables and the broker, proved to be runs of the protocol.
    Each runs uninterrupted here; the protocol's steps are where others may come between. */
module Service {
  import opened Sequences
  import opened Tables
  import opened Protocol
  import opened Atomic
  import opened Steps
  import Fqdn
  import Resolver

  datatype Reply = Accepted(scan: ScanId) | Created(domain: DomainId) | Done | NotFound | Conflict | BadRequest

  // What the resolver would find for a name, per record type.
  type Dns = string -> Resolver.Answers

  // The call that the procedure under way belongs to.
  const CALL: CallId := 0

  // Enqueueing one id after the other.
  function PublishSteps(ids: seq<ScanId>): seq<Step> {
    if ids == [] then [] else [Api(Publish(CALL, ids))] + PublishSteps(ids[1..])
  }

  function FreshMessages(ids: seq<ScanId>): (ms: seq<Message>)
    ensures |ms| == |ids| && forall i | 0 <= i < |ids| :: ms[i] == Message(ids[i], 0)
  {
    seq(|ids|, i requires 0 <= i < |ids| => Message(ids[i], 0))
  }

  lemma FreshMessagesConcat(a: seq<ScanId>, b: seq<ScanId>)
    ensures multiset(FreshMessages(a + b)) == multiset(FreshMessages(a)) + multiset(FreshMessages(b))
  {
    assert FreshMessages(a + b) == FreshMessages(a) + FreshMessages(b);
  }

  lemma FreshMessageOf(id: ScanId)
    ensures multiset(FreshMessages([id])) == multiset{Message(id, 0)}
  {
  }

  lemma FreshMessagesUpTo(ids: seq<ScanId>, i: nat)
    requires i < |ids|
    ensures multiset(FreshMessages(ids[..i + 1])) == multiset(FreshMessages(ids[..i])) + multiset{Message(ids[i], 0)}
  {
    FreshMessageOf(ids[i]);
    FreshMessagesConcat(ids[..i], [ids[i]]);
    assert ids[..i + 1] == ids[..i] + [ids[i]];
  }

  // Ids without duplicates give one fresh message each.
  lemma {:induction false} OneMessageEach(ids: seq<ScanId>, m: Message)
    requires forall i, j | 0 <= i < j < |ids| :: ids[i] != ids[j]
    ensures multiset(FreshMessages(ids))[m] == if m.retries == 0 && m.scan in ids then 1 else 0
    decreases |ids|
  {
    if ids == [] {
      NoFreshMessages();
    } else {
      var n := |ids| - 1;
      OneMessageEach(ids[..n], m);
      FreshMessagesUpTo(ids, n);
      assert ids[..n + 1] == ids;
      assert ids == ids[..n] + [ids[n]];
      hide FreshMessages;
    }
  }

  lemma RecoveredQueue(queue: multiset<Message>, ids: seq<ScanId>)
    requires forall i, j | 0 <= i < j < |ids| :: ids[i] != ids[j]
    ensures forall m :: (queue + multiset(FreshMessages(ids)))[m] == queue[m] + if m.retries == 0 && m.scan in ids then 1 else 0
  {
    forall m
      ensures (queue + multiset(FreshMessages(ids)))[m] == queue[m] + if m.retries == 0 && m.scan in ids then 1 else 0
    {
      OneMessageEach(ids, m);
    }
  }

  lemma NoFreshMessages()
    ensures multiset(FreshMessages([])) == multiset{}
  {
  }

  // The state after the first id has been enqueued.
  lemma PublishFirst(s: State, ids: seq<ScanId>)
    requires ids != [] && s.calls == map[CALL := Publishing(ids)]
    ensures
      var s' := s.(queue := s.queue + multiset{Message(ids[0], 0)},
                   calls := if |ids| == 1 then map[] else map[CALL := Publishing(ids[1..])]);
      Do(s, Api(Publish(CALL, ids))) == s'
    ensures Enabled(s, Api(Publish(CALL, ids)))
  {
  }

  lemma {:induction false} PublishAll(s: State, ids: seq<ScanId>)
    requires ids != [] ==> s.calls == map[CALL := Publishing(ids)]
    requires ids == [] ==> s.calls == map[]
    ensures Valid(s, PublishSteps(ids))
    ensures Final(s, PublishSteps(ids)) == s.(queue := s.queue + multiset(FreshMessages(ids)), calls := map[])
    decreases |ids|
  {
    hide Do, Enabled;
    if ids == [] {
      assert s.queue + multiset(FreshMessages(ids)) == s.queue;
    } else {
      var first := Api(Publish(CALL, ids));
      var s' := Do(s, first);
      OneStep(s, first);
      PublishFirst(s, ids);
      RunConcat(s, [first], PublishSteps(ids[1..]));
      FreshMessageOf(ids[0]);
      FreshMessagesConcat([ids[0]], ids[1..]);
      assert [ids[0]] + ids[1..] == ids;
      hide Final, Valid, FreshMessages;
      PublishAll(s', ids[1..]);
      assert s'.queue + multiset(FreshMessages(ids[1..])) == s.queue + multiset(FreshMessages(ids));
    }
  }

  // ---------- each procedure as a run ----------

  function CreateSteps(d: DomainId, name: string, id: ScanId, createdAt: int): seq<Step> {
    [Api(LookupName(CALL, name)), Api(InsertDomain(CALL, d, name)), Api(InsertInitial(CALL, d, id, createdAt)),
     Api(ShowInitial(CALL, d, id)), Api(Publish(CALL, [id]))]
  }

  lemma CreateIsRun(s: State, d: DomainId, name: string, id: ScanId, createdAt: int)
    requires s.calls == map[] && !NameTaken(s.db, name) && d !in s.issued && id !in s.issued && id != d
    ensures
      var created := s.db.(domains := s.db.domains[d := Domain(name, Pending)]);
      Leads(s, CreateSteps(d, name, id, createdAt),
            s.(db := ShowQueued(CreateScan(created, id, d, Initial, createdAt), d),
               queue := s.queue + multiset{Message(id, 0)},
               issued := s.issued + {d} + {id}))
  {
    hide Takes, Leads, ShowQueued, CreateScan, NameTaken;
    var created := s.db.(domains := s.db.domains[d := Domain(name, Pending)]);
    var scanned := CreateScan(created, id, d, Initial, createdAt);
    var s1 := s.(calls := map[CALL := Naming(name)]);
    var s2 := s1.(db := created, calls := map[CALL := Creating(d)], issued := s.issued + {d});
    var s3 := s2.(db := scanned, calls := map[CALL := Initialising(d, id)], issued := s.issued + {d} + {id});
    var s4 := s3.(db := ShowQueued(scanned, d), calls := map[CALL := Publishing([id])]);
    var s5 := s4.(queue := s.queue + multiset{Message(id, 0)}, calls := map[]);
    LookupTakes(s, CALL, name);
    InsertDomainTakes(s1, CALL, d, name);
    InsertInitialTakes(s2, CALL, d, id, createdAt);
    ShowTakes(s3, CALL, d, id);
    PublishTakes(s4, CALL, [id]);
    assert s1.calls[CALL := Creating(d)] == s2.calls && s2.calls[CALL := Initialising(d, id)] == s3.calls;
    assert s3.calls[CALL := Publishing([id])] == s4.calls && s4.calls - {CALL} == s5.calls;
    var lookup, insert := Api(LookupName(CALL, name)), Api(InsertDomain(CALL, d, name));
    var initial, show := Api(InsertInitial(CALL, d, id, createdAt)), Api(ShowInitial(CALL, d, id));
    LeadsThroughFour(s, lookup, s1, insert, s2, initial, s3, show, s4);
    Extend(s, [lookup, insert, initial, show], s4, Api(Publish(CALL, [id])), s5);
    assert [lookup, insert, initial, show] + [Api(Publish(CALL, [id]))] == CreateSteps(d, name, id, createdAt);
  }

  // A lookup that finds the name leaves everything as it was.
  lemma LookupIsRun(s: State, name: string)
    requires s.calls == map[] && NameTaken(s.db, name)
    ensures Valid(s, [Api(LookupName(CALL, name))]) && Final(s, [Api(LookupName(CALL, name))]) == s
  {
    var lookup := Api(LookupName(CALL, name));
    OneStep(s, lookup);
    hide Final, Valid, NameTaken;
    assert s.calls - {CALL} == s.calls && s.issued + {} == s.issued;
    assert Do(s, lookup) == s;
  }

  function TriggerSteps(d: DomainId, id: ScanId, createdAt: int): seq<Step> {
    [Api(LockDomain(CALL, d)), Api(CheckActive(CALL, d)), Api(InsertManual(CALL, d, id, createdAt)), Api(Publish(CALL, [id]))]
  }

  lemma TriggerIsRun(s: State, d: DomainId, id: ScanId, createdAt: int)
    requires s.calls == map[] && d in s.db.domains && !HasActive(s.db, d) && id !in s.issued
    ensures
      Leads(s, TriggerSteps(d, id, createdAt),
            s.(db := ShowQueued(CreateScan(s.db, id, d, Manual, createdAt), d),
               queue := s.queue + multiset{Message(id, 0)},
               issued := s.issued + {id}))
  {
    hide Takes, Leads, ShowQueued, CreateScan, HasActive;
    var scanned := CreateScan(s.db, id, d, Manual, createdAt);
    var s1 := s.(calls := map[CALL := Locked(d)]);
    var s2 := s.(calls := map[CALL := Checked(d)]);
    var s3 := s.(db := ShowQueued(scanned, d), calls := map[CALL := Publishing([id])], issued := s.issued + {id});
    var s4 := s3.(queue := s.queue + multiset{Message(id, 0)}, calls := map[]);
    LockTakes(s, CALL, d);
    CheckTakes(s1, CALL, d);
    InsertManualTakes(s2, CALL, d, id, createdAt);
    PublishTakes(s3, CALL, [id]);
    assert s1.calls[CALL := Checked(d)] == s2.calls && s2.calls[CALL := Publishing([id])] == s3.calls;
    assert s3.calls - {CALL} == s4.calls;
    LeadsThroughFour(s, Api(LockDomain(CALL, d)), s1, Api(CheckActive(CALL, d)), s2,
                     Api(InsertManual(CALL, d, id, createdAt)), s3, Api(Publish(CALL, [id])), s4);
  }

  function RefusalSteps(d: DomainId): seq<Step> {
    [Api(LockDomain(CALL, d)), Api(CheckActive(CALL, d))]
  }

  // A refused trigger takes the lock, looks, and leaves everything as it was.
  lemma RefusalIsRun(s: State, d: DomainId)
    requires s.calls == map[] && d in s.db.domains && HasActive(s.db, d)
    ensures Valid(s, RefusalSteps(d)) && Final(s, RefusalSteps(d)) == s
  {
    TwoSteps(s, Api(LockDomain(CALL, d)), Api(CheckActive(CALL, d)));
    hide Final, Valid;
    assert Do(Do(s, Api(LockDomain(CALL, d))), Api(CheckActive(CALL, d))).calls == s.calls;
  }

  function RecoverySteps(ids: seq<ScanId>): seq<Step> {
    [Api(Recover(CALL)), Api(ListRecoverable(CALL, ids))] + PublishSteps(ids)
  }

  lemma RecoveryIsRun(s: State, ids: seq<ScanId>)
    requires s.calls == map[] && Enumerates(ids, ActiveIds(ResetInterrupted(s.db)))
    ensures Valid(s, RecoverySteps(ids))
    ensures Final(s, RecoverySteps(ids)) == s.(db := ResetInterrupted(s.db), queue := s.queue + multiset(FreshMessages(ids)))
  {
    var reset, list := Api(Recover(CALL)), Api(ListRecoverable(CALL, ids));
    TwoSteps(s, reset, list);
    hide ResetInterrupted, ActiveIds;
    RunConcat(s, [reset, list], PublishSteps(ids));
    var t := Do(Do(s, reset), list);
    assert t.calls == if ids == [] then map[] else map[CALL := Publishing(ids)];
    hide Final, Valid, FreshMessages;
    PublishAll(t, ids);
  }

  // The effect of a delivery makes it a step of the atomic protocol.
  lemma DeliveryIsStep(s: State, a: AtomicStep)
    requires a.Deliver? && a.m in s.queue
    requires Starts(s.db, a.m.scan) && !Retries(s, a.m, a.outcome) ==>
      OldestPending(DeliverDatabase(s, a.m, a.outcome, a.started, a.ended), s.db.scans[a.m.scan].domain, a.next)
    ensures AtomicEnabled(s, a)
    ensures
      AtomicDo(s, a) ==
        s.(db := DeliverDatabase(s, a.m, a.outcome, a.started, a.ended),
           queue := s.queue - multiset{a.m} + if Starts(s.db, a.m.scan) then FollowUp(s, a.m, a.outcome, a.next) else multiset{},
           clock := if Starts(s.db, a.m.scan) then a.ended else a.started)
  {
    DeliveryEnabled(s, a);
    hide AtomicEnabled, AtomicDo, DeliverDatabase, Starts, FollowUp;
    DeliverEffect(s, a);
  }

  lemma DeliveryEnabled(s: State, a: AtomicStep)
    requires a.Deliver? && a.m in s.queue
    requires Starts(s.db, a.m.scan) && !Retries(s, a.m, a.outcome) ==>
      OldestPending(DeliverDatabase(s, a.m, a.outcome, a.started, a.ended), s.db.scans[a.m.scan].domain, a.next)
    ensures AtomicEnabled(s, a)
  {
    var claim := Worker(Claim(a.m, a.started));
    if Starts(s.db, a.m.scan) {
      var finish := Worker(Finish(a.m, a.outcome, a.next, a.ended));
      assert Expand(s, a) == [claim, finish];
      TwoSteps(s, claim, finish);
      ClaimKeepsScanDomain(s.db, a.m.scan, a.started);
      hide Final, Valid, ClaimDatabase, Settle, OldestPending, Starts;
      assert Enabled(Do(s, claim), finish);
    } else {
      assert Expand(s, a) == [claim];
      OneStep(s, claim);
    }
  }

  class App {
    const maxRetries: nat
    const text: Fqdn.Unicode
    var domains: map<DomainId, Domain>
    var scans: map<ScanId, Scan>
    var assets: seq<Asset>
    var queue: multiset<Message>
    ghost var issued: set<nat>
    ghost var clock: int

    constructor (maxRetries: nat, text: Fqdn.Unicode)
      ensures Snapshot() == Init(maxRetries) && this.text == text
    {
      this.maxRetries, this.text := maxRetries, text;
      domains, scans, assets, queue := map[], map[], [], multiset{};
      issued, clock := {}, 0;
    }

    function Db(): Database
      reads this
    {
      Database(domains, scans, assets)
    }

    // The protocol state between procedures: no attempt in flight, no call half done.
    ghost function Snapshot(): State
      reads this
    {
      State(Db(), queue, multiset{}, map[], issued, clock, maxRetries)
    }

    // ---------- repositories/scan.py ----------

    method MarkScanRunning(id: ScanId, now: int)
      requires id in scans
      modifies this`scans
      ensures scans == old(scans)[id := old(scans)[id].(status := Running, startedAt := Some(now), error := None)]
      ensures scans == old(scans)[id := RunningRow(old(scans)[id], now)]
    {
      scans := scans[id := scans[id].(status := Running)];
      scans := scans[id := scans[id].(startedAt := Some(now))];
      scans := scans[id := scans[id].(error := None)];
    }

    method MarkScanCompleted(id: ScanId, now: int)
      requires id in scans
      modifies this`scans
      ensures scans == old(scans)[id := old(scans)[id].(status := Completed, completedAt := Some(now), error := None)]
      ensures scans == old(scans)[id := CompletedRow(old(scans)[id], now)]
    {
      scans := scans[id := scans[id].(status := Completed)];
      scans := scans[id := scans[id].(completedAt := Some(now))];
      scans := scans[id := scans[id].(error := None)];
    }

    method MarkScanFailed(id: ScanId, message: Text, now: int)
      requires id in scans
      modifies this`scans
      ensures scans == old(scans)[id := old(scans)[id].(status := Failed, completedAt := Some(now), error := Some(message))]
      ensures scans == old(scans)[id := FailedRow(old(scans)[id], message, now)]
    {
      scans := scans[id := scans[id].(status := Failed)];
      scans := scans[id := scans[id].(completedAt := Some(now))];
      scans := scans[id := scans[id].(error := Some(message))];
    }

    method SetStatus(d: DomainId, status: Status)
      requires d in domains
      modifies this`domains
      ensures domains == old(domains)[d := old(domains)[d].(status := status)]
      ensures Db() == SetDomainStatus(old(Db()), d, status)
    {
      domains := domains[d := domains[d].(status := status)];
    }

    // Moves leftover RUNNING scans back to PENDING, row by row.
    method ResetInterruptedScans() returns (ids: seq<ScanId>)
      modifies this`scans
      ensures scans.Keys == old(scans).Keys
      ensures forall id | id in old(scans) && old(scans)[id].status == Running ::
                scans[id] == old(scans)[id].(
                  status := Pending, startedAt := None, error := Some("Interrupted by process restart; re-queued"))
      ensures forall id | id in old(scans) && old(scans)[id].status != Running :: scans[id] == old(scans)[id]
      ensures forall id :: id in ids <==> id in old(scans) && old(scans)[id].status == Running
      ensures Db() == ResetInterrupted(old(Db()))
    {
      ids := [];
      var left := scans.Keys;
      while left != {}
        invariant left <= old(scans).Keys && scans.Keys == old(scans).Keys
        invariant forall id | id in old(scans) :: scans[id] == if id in left then old(scans)[id] else Interrupted(old(scans)[id])
        invariant forall id :: id in ids <==> id !in left && IsRunning(old(Db()), id)
        decreases left
      {
        var id :| id in left;
        if scans[id].status == Running {
          scans := scans[id := scans[id].(status := Pending, startedAt := None, error := Some(INTERRUPTED))];
          ids := ids + [id];
        }
        left := left - {id};
      }
      assert scans == ResetInterrupted(old(Db())).scans;
    }

    method ListRecoverableScanIds() returns (ids: seq<ScanId>)
      ensures forall id :: id in ids <==> id in scans && (scans[id].status == Pending || scans[id].status == Running)
      ensures forall i, j | 0 <= i < j < |ids| :: ids[i] != ids[j]
      ensures Enumerates(ids, ActiveIds(Db()))
    {
      ids := [];
      var left := ActiveIds(Db());
      ghost var all := left;
      while left != {}
        invariant left <= all && |ids| + |left| == |all|
        invariant forall id :: id in ids <==> id in all && id !in left
        invariant forall i, j | 0 <= i < j < |ids| :: ids[i] != ids[j]
        decreases left
      {
        var id :| id in left;
        ids := ids + [id];
        left := left - {id};
      }
    }

    method EnqueueScan(id: ScanId)
      modifies this`queue
      ensures queue == old(queue) + multiset{Message(id, 0)}
    {
      queue := queue + multiset{Message(id, 0)};
    }

    // ---------- workers/discovery.py ----------

    method EnqueueNextPendingForDomain(d: DomainId) returns (next: Option<ScanId>)
      modifies this`queue
      ensures next.Some? ==>
        && next.value in scans && scans[next.value].domain == d && scans[next.value].status == Pending
        && forall id | id in scans && scans[id].domain == d && scans[id].status == Pending ::
             scans[next.value].createdAt <= scans[id].createdAt
      ensures next == None ==> forall id | id in scans && scans[id].domain == d :: scans[id].status != Pending
      ensures queue == match next case None => old(queue) case Some(id) => old(queue) + multiset{Message(id, 0)}
      ensures OldestPending(Db(), d, next)
      ensures queue == old(queue) + Enqueued(next)
    {
      OldestPendingExists(Db(), d);
      if x :| x in scans && OldestPending(Db(), d, Some(x)) {
        next := Some(x);
        EnqueueScan(x);
      } else {
        next := None;
        assert queue == old(queue) + Enqueued(next);
      }
    }

    method FailScan(id: ScanId, e: Error, now: int) returns (next: Option<ScanId>)
      requires id in scans
      modifies this`scans, this`domains, this`queue
      ensures scans == old(scans)[id := old(scans)[id].(
        status := Failed, completedAt := Some(now), error := Some(if e.text != "" then e.text else e.className))]
      ensures
        var d := old(scans)[id].domain;
        domains == if d in old(domains) then old(domains)[d := old(domains)[d].(status := Failed)] else old(domains)
      ensures queue == match next case None => old(queue) case Some(x) => old(queue) + multiset{Message(x, 0)}
      ensures
        var failed := old(Db()).(scans := old(scans)[id := FailedRow(old(scans)[id], Describe(e), now)]);
        && Db() == SetDomainStatus(failed, old(scans)[id].domain, Failed)
        && OldestPending(Db(), old(scans)[id].domain, next)
        && queue == old(queue) + Enqueued(next)
    {
      MarkScanFailed(id, Describe(e), now);
      var d := scans[id].domain;
      if d in domains {
        SetStatus(d, Failed);
      }
      next := EnqueueNextPendingForDomain(d);
    }

    // The claim, and whether it starts an attempt.
    method ClaimScan(id: ScanId, now: int) returns (starts: bool)
      modifies this`domains, this`scans
      ensures starts <==>
        && id in old(scans) && (old(scans)[id].status == Pending || old(scans)[id].status == Running)
        && old(scans)[id].domain in old(domains)
        && (old(scans)[id].status == Running ||
            forall x | x in old(scans) && old(scans)[x].domain == old(scans)[id].domain :: old(scans)[x].status != Running)
      ensures starts ==>
        var d := old(scans)[id].domain;
        && scans == old(scans)[id := old(scans)[id].(status := Running, startedAt := Some(now), error := None)]
        && domains == old(domains)[d := old(domains)[d].(status := Running)]
      ensures !starts ==>
        && domains == old(domains)
        && scans ==
             if id in old(scans) && (old(scans)[id].status == Pending || old(scans)[id].status == Running)
               && old(scans)[id].domain !in old(domains)
             then old(scans)[id := old(scans)[id].(
                    status := Failed, completedAt := Some(now), error := Some("Domain no longer exists"))]
             else old(scans)
      ensures starts <==> Starts(old(Db()), id)
      ensures Db() == ClaimDatabase(old(Db()), id, now)
    {
      if id !in scans {
        return false;
      }
      if scans[id].status != Pending && scans[id].status != Running {
        return false;
      }
      var d := scans[id].domain;
      if d !in domains {
        MarkScanFailed(id, NO_DOMAIN, now);
        return false;
      }
      if HasRunning(Db(), d) && scans[id].status != Running {
        return false;
      }
      MarkScanRunning(id, now);
      SetStatus(d, Running);
      return true;
    }

    // What becomes of the scan once the resolver has answered or raised.
    method FinishScan(m: Message, outcome: Outcome, now: int) returns (next: Option<ScanId>)
      requires m.scan in scans
      modifies this`domains, this`scans, this`assets, this`queue
      ensures outcome.Retryable? && m.retries < maxRetries ==>
        && domains == old(domains) && scans == old(scans) && assets == old(assets)
        && queue == old(queue) + multiset{Message(m.scan, m.retries + 1)}
      ensures !(outcome.Retryable? && m.retries < maxRetries) ==>
        var row := old(scans)[m.scan];
        var records := if outcome.Resolved? then outcome.records else [];
        && scans == old(scans)[m.scan :=
             if outcome.Resolved? then row.(status := Completed, completedAt := Some(now), error := None)
             else row.(status := Failed, completedAt := Some(now), error := Some(
               if outcome.error.text != "" then outcome.error.text else outcome.error.className))]
        && domains == (if row.domain !in old(domains) then old(domains)
             else old(domains)[row.domain := old(domains)[row.domain].(
               status := if outcome.Resolved? then Completed else Failed)])
        && assets == old(assets) + seq(|records|, i requires 0 <= i < |records| => Asset(m.scan, row.domain, records[i]))
        && queue == match next case None => old(queue) case Some(x) => old(queue) + multiset{Message(x, 0)}
      ensures Db() == if Retries(old(Snapshot()), m, outcome) then old(Db()) else Settle(old(Db()), m.scan, outcome, now)
      ensures queue == old(queue) + FollowUp(old(Snapshot()), m, outcome, next)
      ensures !Retries(old(Snapshot()), m, outcome) ==> OldestPending(Db(), old(scans)[m.scan].domain, next)
    {
      hide OldestPending;
      next := None;
      var d := scans[m.scan].domain;
      match outcome
      case Resolved(records) =>
        assets := assets + AssetRows(m.scan, d, records);
        MarkScanCompleted(m.scan, now);
        if d in domains {
          SetStatus(d, Completed);
        }
        next := EnqueueNextPendingForDomain(d);
      case Retryable(e) =>
        if m.retries < maxRetries {
          queue := queue + multiset{Message(m.scan, m.retries + 1)};
          return;
        }
        NothingStored(m.scan, d, assets);
        next := FailScan(m.scan, e, now);
      case Fatal(e) =>
        NothingStored(m.scan, d, assets);
        next := FailScan(m.scan, e, now);
    }

    // What a worker does with a message once it has taken it off the queue.
    method ProcessScan(m: Message, dns: Dns, started: int, ended: int) returns (outcome: Outcome, next: Option<ScanId>)
      modifies this
      ensures Db() == DeliverDatabase(old(Snapshot()), m, outcome, started, ended)
      ensures queue == old(queue) + if Starts(old(Db()), m.scan) then FollowUp(old(Snapshot()), m, outcome, next) else multiset{}
      ensures clock == if Starts(old(Db()), m.scan) then ended else started
      ensures issued == old(issued)
      ensures Starts(old(Db()), m.scan) ==>
        outcome == Resolver.Resolve(dns(old(domains)[old(scans)[m.scan].domain].name))
      ensures Starts(old(Db()), m.scan) && !Retries(old(Snapshot()), m, outcome) ==>
        OldestPending(Db(), old(scans)[m.scan].domain, next)
    {
      hide OldestPending, Settle, Resolver.Resolve;
      outcome, next := Resolved([]), None;
      clock := started;
      var starts := ClaimScan(m.scan, started);
      if !starts {
        assert queue == queue + multiset{};
        return;
      }
      ClaimKeepsScanDomain(old(Db()), m.scan, started);
      hide ClaimDatabase;
      outcome := Resolver.ResolveDomainRecords(dns(domains[scans[m.scan].domain].name));
      clock := ended;
      next := FinishScan(m, outcome, ended);
    }

    // One delivery of a queued message to a Celery worker.
    method RunDiscoveryScan(m: Message, dns: Dns, started: int, ended: int) returns (ghost a: AtomicStep)
      requires m in queue
      modifies this
      ensures AtomicEnabled(old(Snapshot()), a) && Snapshot() == AtomicDo(old(Snapshot()), a)
      ensures a.Deliver? && a.m == m
      ensures Starts(old(Db()), m.scan) ==>
        a.outcome == Resolver.Resolve(dns(old(domains)[old(scans)[m.scan].domain].name))
    {
      ghost var before := Snapshot();
      queue := queue - multiset{m};
      var outcome, next := ProcessScan(m, dns, started, ended);
      a := Deliver(m, outcome, next, started, ended);
      DeliveryIsStep(before, a);
    }

    method RecoverPendingJobs() returns (ids: seq<ScanId>)
      modifies this`scans, this`queue
      ensures scans.Keys == old(scans).Keys
      ensures forall id | id in old(scans) && old(scans)[id].status == Running ::
                scans[id] == old(scans)[id].(
                  status := Pending, startedAt := None, error := Some("Interrupted by process restart; re-queued"))
      ensures forall id | id in old(scans) && old(scans)[id].status != Running :: scans[id] == old(scans)[id]
      ensures forall id :: id in ids <==>
                id in old(scans) && (old(scans)[id].status == Pending || old(scans)[id].status == Running)
      ensures forall i, j | 0 <= i < j < |ids| :: ids[i] != ids[j]
      ensures queue == old(queue) + multiset(FreshMessages(ids))
      ensures Valid(old(Snapshot()), RecoverySteps(ids)) && Snapshot() == Final(old(Snapshot()), RecoverySteps(ids))
    {
      hide Final, Valid, ResetInterrupted, ActiveIds, FreshMessages, Enumerates, RecoverySteps;
      ghost var before := Snapshot();
      var reset := ResetInterruptedScans();
      ids := ListRecoverableScanIds();
      forall id
        ensures id in ids <==>
          id in before.db.scans && (before.db.scans[id].status == Pending || before.db.scans[id].status == Running)
      {
        assert id in scans <==> id in scans.Keys;
        assert id in before.db.scans <==> id in before.db.scans.Keys;
      }
      NoFreshMessages();
      assert ids[..0] == [];
      for i := 0 to |ids|
        invariant Db() == ResetInterrupted(before.db)
        invariant queue == before.queue + multiset(FreshMessages(ids[..i]))
      {
        EnqueueScan(ids[i]);
        FreshMessagesUpTo(ids, i);
      }
      assert ids[..|ids|] == ids;
      RecoveryIsRun(before, ids);
    }

    // ---------- services ----------

    method GetDomainByName(name: string) returns (found: bool)
      ensures found <==> exists d | d in domains :: domains[d].name == name
      ensures found <==> NameTaken(Db(), name)
    {
      found := exists x | x in domains :: domains[x].name == name;
    }

    // d and id are the identifiers that the two new rows get.
    method CreateDomain(raw: string, d: DomainId, id: ScanId, createdAt: int) returns (reply: Reply)
      requires d !in issued && id !in issued && id != d
      modifies this
      ensures
        match Fqdn.Normalise(text, raw)
        case BadRequest => reply == BadRequest && Snapshot() == old(Snapshot())
        case Valid(name) =>
          if NameTaken(old(Db()), name) then
            && reply == Conflict && Snapshot() == old(Snapshot())
            && Valid(old(Snapshot()), [Api(LookupName(CALL, name))])
            && Snapshot() == Final(old(Snapshot()), [Api(LookupName(CALL, name))])
          else
            var run := CreateSteps(d, name, id, createdAt);
            && domains == old(domains)[d := Domain(name, Pending)] && assets == old(assets)
            && scans == old(scans)[id := Scan(d, Initial, Pending, createdAt, None, None, None)]
            && queue == old(queue) + multiset{Message(id, 0)}
            && reply == Created(d) && Valid(old(Snapshot()), run) && Snapshot() == Final(old(Snapshot()), run)
    {
      hide Final, Valid, NameTaken, ShowQueued, Fqdn.Normalise, CreateSteps;
      ghost var before := Snapshot();
      match Fqdn.Validate(text, raw)
      case BadRequest => return BadRequest;
      case Valid(name) =>
        var taken := GetDomainByName(name);
        if taken {
          LookupIsRun(before, name);
          return Conflict;
        }
        domains := domains[d := Domain(name, Pending)];
        issued := issued + {d};
        EnqueueInitialScan(d, id, createdAt);
        CreateIsRun(before, d, name, id, createdAt);
        return Created(d);
    }

    method EnqueueInitialScan(d: DomainId, id: ScanId, createdAt: int)
      modifies this
      ensures scans == old(scans)[id := Scan(d, Initial, Pending, createdAt, None, None, None)] && assets == old(assets)
      ensures domains ==
        if d in old(domains) && old(domains)[d].status != Running
        then old(domains)[d := old(domains)[d].(status := Pending)] else old(domains)
      ensures Db() == ShowQueued(CreateScan(old(Db()), id, d, Initial, createdAt), d)
      ensures queue == old(queue) + multiset{Message(id, 0)} && issued == old(issued) + {id} && clock == old(clock)
    {
      scans := scans[id := NewScan(d, Initial, createdAt)];
      issued := issued + {id};
      if d in domains && domains[d].status != Running {
        SetStatus(d, Pending);
      }
      EnqueueScan(id);
    }

    method TriggerManualScan(d: DomainId, id: ScanId, createdAt: int) returns (reply: Reply)
      requires id !in issued
      modifies this
      ensures d !in old(domains) ==> reply == NotFound && Snapshot() == old(Snapshot())
      ensures d in old(domains) ==>
        (reply == Conflict <==>
         exists x | x in old(scans) ::
           old(scans)[x].domain == d && (old(scans)[x].status == Pending || old(scans)[x].status == Running))
      ensures d in old(domains) && HasActive(old(Db()), d) ==>
        && reply == Conflict && Snapshot() == old(Snapshot())
        && Valid(old(Snapshot()), RefusalSteps(d)) && Snapshot() == Final(old(Snapshot()), RefusalSteps(d))
      ensures d in old(domains) && !HasActive(old(Db()), d) ==>
        var run := TriggerSteps(d, id, createdAt);
        && scans == old(scans)[id := Scan(d, Manual, Pending, createdAt, None, None, None)] && assets == old(assets)
        && domains == old(domains)[d := old(domains)[d].(
             status := if old(domains)[d].status == Running then Running else Pending)]
        && queue == old(queue) + multiset{Message(id, 0)}
        && reply == Accepted(id) && Valid(old(Snapshot()), run) && Snapshot() == Final(old(Snapshot()), run)
    {
      hide Final, Valid, HasActive;
      ghost var before := Snapshot();
      ActiveSpelledOut(Db(), d);
      if d !in domains {
        return NotFound;
      }
      if HasActive(Db(), d) {
        RefusalIsRun(before, d);
        return Conflict;
      }
      scans := scans[id := NewScan(d, Manual, createdAt)];
      issued := issued + {id};
      if domains[d].status != Running {
        domains := domains[d := domains[d].(status := Pending)];
      }
      EnqueueScan(id);
      TriggerIsRun(before, d, id, createdAt);
      return Accepted(id);
    }

    method RemoveDomain(d: DomainId) returns (reply: Reply)
      modifies this`domains, this`scans, this`assets
      ensures d !in old(domains) ==> reply == NotFound && Snapshot() == old(Snapshot())
      ensures d in old(domains) ==>
        && reply == Done
        && domains == old(domains) - {d}
        && (forall id :: id in scans <==> id in old(scans) && old(scans)[id].domain != d)
        && (forall id | id in scans :: scans[id] == old(scans)[id])
        && (exists at :: Picks(old(assets), assets, at)
              && forall i | 0 <= i < |old(assets)| :: i in at <==> old(assets)[i].domain != d)
        && Enabled(old(Snapshot()), Api(ApiStep.RemoveDomain(d)))
        && Snapshot() == Do(old(Snapshot()), Api(ApiStep.RemoveDomain(d)))
    {
      if d !in domains {
        return NotFound;
      }
      hide Picks, AssetsOutside;
      ghost var at := DeletionIsExact(Db(), d);
      domains := map x | x in domains && x != d :: domains[x];
      assets := AssetsOutside(assets, d);
      scans := map id | id in scans && scans[id].domain != d :: scans[id];
      assert Db() == DeleteDomain(old(Db()), d);
      RemovalIsStep(old(Snapshot()), d);
      hide DeleteDomain;
      return Done;
    }
  }

  lemma ActiveSpelledOut(db: Database, d: DomainId)
    ensures HasActive(db, d) <==>
      exists x | x in db.scans :: db.scans[x].domain == d && (db.scans[x].status == Pending || db.scans[x].status == Running)
  {
  }

  lemma RemovalIsStep(s: State, d: DomainId)
    requires s.calls == map[] && d in s.db.domains
    ensures Enabled(s, Api(RemoveDomain(d))) && Do(s, Api(RemoveDomain(d))) == s.(db := DeleteDomain(s.db, d))
  {
    assert s.issued + {} == s.issued;
  }

  lemma ClaimKeepsScanDomain(db: Database, id: ScanId, now: int)
    requires Starts(db, id)
    ensures
      var db' := ClaimDatabase(db, id, now);
      && id in db'.scans && db'.scans[id].domain == db.scans[id].domain
      && db.scans[id].domain in db'.domains && db'.domains[db.scans[id].domain].name == db.domains[db.scans[id].domain].name
  {
  }

  lemma NothingStored(id: ScanId, d: DomainId, assets: seq<Asset>)
    ensures assets + AssetRows(id, d, []) == assets
  {
  }
}
