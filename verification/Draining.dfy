/** Workers left alone come to an end, and leave nothing unfinished. */
module Draining {
  import opened Tables
  import opened Protocol
  import opened Safety
  import opened Coverage

  // ---------- sums over a bag of messages ----------

  ghost function Pick(ms: multiset<Message>): (m: Message)
    requires ms != multiset{}
    ensures m in ms
  {
    var m :| m in ms; m
  }

  ghost function Sum(f: Message -> nat, ms: multiset<Message>): nat
    decreases |ms|
  {
    if ms == multiset{} then 0 else f(Pick(ms)) + Sum(f, ms - multiset{Pick(ms)})
  }

  lemma {:induction false} SumRemove(f: Message -> nat, ms: multiset<Message>, m: Message)
    requires m in ms
    ensures Sum(f, ms) == f(m) + Sum(f, ms - multiset{m})
    decreases |ms|
  {
    var x := Pick(ms);
    if x != m {
      SumRemove(f, ms - multiset{x}, m);
      SumRemove(f, ms - multiset{m}, x);
      assert ms - multiset{x} - multiset{m} == ms - multiset{m} - multiset{x};
    }
  }

  lemma SumAdd(f: Message -> nat, ms: multiset<Message>, m: Message)
    ensures Sum(f, ms + multiset{m}) == f(m) + Sum(f, ms)
  {
    SumRemove(f, ms + multiset{m}, m);
    assert ms + multiset{m} - multiset{m} == ms;
  }

  lemma {:induction false} SumMonotone(f: Message -> nat, g: Message -> nat, ms: multiset<Message>)
    requires forall m | m in ms :: f(m) <= g(m)
    ensures Sum(f, ms) <= Sum(g, ms)
    decreases |ms|
  {
    if ms != multiset{} {
      SumMonotone(f, g, ms - multiset{Pick(ms)});
    }
  }

  // ---------- the potential of a state ----------

  function RetriesLeft(maxRetries: nat, m: Message): nat {
    if m.retries < maxRetries then maxRetries - m.retries else 0
  }

  // What a fresh message may still cost.
  function Fresh(maxRetries: nat): nat {
    2 * maxRetries + 2
  }

  function Load(db: Database, maxRetries: nat): nat {
    Fresh(maxRetries) * |ActiveIds(db)|
  }

  function MessageRank(load: nat, maxRetries: nat): Message -> nat {
    (m: Message) => load + 2 * RetriesLeft(maxRetries, m) + 2
  }

  // An attempt on a finished or deleted scan may still enqueue a fresh message.
  function AttemptRank(active: set<ScanId>, load: nat, maxRetries: nat): Message -> nat {
    (m: Message) =>
      if m.scan in active then load + 2 * RetriesLeft(maxRetries, m) + 1
      else load + Fresh(maxRetries) + 1
  }

  ghost function Potential(s: State): nat {
    var load := Load(s.db, s.maxRetries);
    Sum(MessageRank(load, s.maxRetries), s.queue) + Sum(AttemptRank(ActiveIds(s.db), load, s.maxRetries), s.attempts)
  }

  // ---------- every worker step lowers it ----------

  // Ending a scan, or nothing, raises no rank.
  lemma RanksShrink(db: Database, db': Database, id: ScanId, maxRetries: nat, queue: multiset<Message>, attempts: multiset<Message>)
    requires ActiveIds(db') == ActiveIds(db) - {id} || ActiveIds(db') == ActiveIds(db)
    ensures ActiveIds(db') != ActiveIds(db) ==> Load(db', maxRetries) + Fresh(maxRetries) == Load(db, maxRetries)
    ensures
      Sum(MessageRank(Load(db', maxRetries), maxRetries), queue) <= Sum(MessageRank(Load(db, maxRetries), maxRetries), queue)
    ensures
      Sum(AttemptRank(ActiveIds(db'), Load(db', maxRetries), maxRetries), attempts)
      <= Sum(AttemptRank(ActiveIds(db), Load(db, maxRetries), maxRetries), attempts)
  {
    var load, load' := Load(db, maxRetries), Load(db', maxRetries);
    if ActiveIds(db') != ActiveIds(db) {
      assert ActiveIds(db) == ActiveIds(db') + {id};
      assert |ActiveIds(db)| == |ActiveIds(db')| + 1;
      assert Fresh(maxRetries) * (|ActiveIds(db')| + 1) == load' + Fresh(maxRetries);
    }
    SumMonotone(MessageRank(load', maxRetries), MessageRank(load, maxRetries), queue);
    SumMonotone(AttemptRank(ActiveIds(db'), load', maxRetries), AttemptRank(ActiveIds(db), load, maxRetries), attempts);
  }

  lemma ClaimActives(db: Database, id: ScanId, now: int)
    ensures ActiveIds(ClaimDatabase(db, id, now)) == ActiveIds(db) - {id}
         || ActiveIds(ClaimDatabase(db, id, now)) == ActiveIds(db)
    ensures Starts(db, id) ==> ActiveIds(ClaimDatabase(db, id, now)) == ActiveIds(db) && id in ActiveIds(db)
  {
  }

  lemma ClaimLowersPotential(s: State, m: Message, now: int)
    requires m in s.queue
    ensures Potential(DoClaim(s, m, now)) < Potential(s)
  {
    var s' := DoClaim(s, m, now);
    ClaimActives(s.db, m.scan, now);
    hide ClaimDatabase, ActiveIds, IsActive, Sum;
    RanksShrink(s.db, s'.db, m.scan, s.maxRetries, s'.queue, s.attempts);
    SumRemove(MessageRank(Load(s.db, s.maxRetries), s.maxRetries), s.queue, m);
    if Starts(s.db, m.scan) {
      SumAdd(AttemptRank(ActiveIds(s'.db), Load(s'.db, s.maxRetries), s.maxRetries), s.attempts, m);
    } else {
      assert s'.attempts == s.attempts;
    }
  }

  lemma SettleActives(db: Database, id: ScanId, outcome: Outcome, now: int)
    ensures ActiveIds(Settle(db, id, outcome, now)) == ActiveIds(db) - {id}
  {
  }

  // The rank of an attempt exceeds that of anything it puts on the queue.
  lemma FollowUpRank(s: State, m: Message, outcome: Outcome, next: Option<ScanId>, now: int, w: Message)
    requires w in FollowUp(s, m, outcome, next)
    ensures FollowUp(s, m, outcome, next) == multiset{w}
    ensures
      MessageRank(Load(DoFinish(s, m, outcome, next, now).db, s.maxRetries), s.maxRetries)(w)
      < AttemptRank(ActiveIds(s.db), Load(s.db, s.maxRetries), s.maxRetries)(m)
  {
    SettleActives(s.db, m.scan, outcome, now);
    hide Settle, IsActive;
    RanksShrink(s.db, DoFinish(s, m, outcome, next, now).db, m.scan, s.maxRetries, multiset{}, multiset{});
    hide Load;
  }

  lemma FinishLowersPotential(s: State, m: Message, outcome: Outcome, next: Option<ScanId>, now: int)
    requires m in s.attempts
    ensures Potential(DoFinish(s, m, outcome, next, now)) < Potential(s)
  {
    var s' := DoFinish(s, m, outcome, next, now);
    SettleActives(s.db, m.scan, outcome, now);
    hide Settle, ActiveIds, IsActive, Load, Sum;
    RanksShrink(s.db, s'.db, m.scan, s.maxRetries, s.queue, s'.attempts);
    SumRemove(AttemptRank(ActiveIds(s.db), Load(s.db, s.maxRetries), s.maxRetries), s.attempts, m);
    if w :| w in FollowUp(s, m, outcome, next) {
      FollowUpRank(s, m, outcome, next, now, w);
      SumAdd(MessageRank(Load(s'.db, s.maxRetries), s.maxRetries), s.queue, w);
    } else {
      assert FollowUp(s, m, outcome, next) == multiset{};
      assert s'.queue == s.queue;
    }
  }

  // No schedule of worker steps is longer than the potential it starts from.
  lemma {:induction false} DrainingTerminates(s: State, run: seq<Step>)
    requires Valid(s, run) && WorkersOnly(run)
    ensures |run| + Potential(Final(s, run)) <= Potential(s)
    decreases |run|
  {
    hide Potential, DoWorker, WorkerEnabled;
    if run != [] {
      DrainingTerminates(s, Front(run));
      assert run[|run| - 1].Worker?;
      WorkerLowersPotential(Final(s, Front(run)), Last(run).w);
    }
  }

  lemma WorkerLowersPotential(s: State, w: WorkerStep)
    requires WorkerEnabled(s, w)
    ensures Potential(DoWorker(s, w)) < Potential(s)
  {
    hide Potential, DoClaim, DoFinish;
    match w
    case Claim(m, now) => ClaimLowersPotential(s, m, now);
    case Finish(m, outcome, next, now) => FinishLowersPotential(s, m, outcome, next, now);
  }

  // ---------- what a drain that cannot go on leaves ----------

  // While a message is queued or an attempt in flight, a worker can move, whatever the resolver says.
  lemma WorkersNeverStuck(s: State, outcome: Outcome)
    ensures s.queue != multiset{} ==> WorkerEnabled(s, Claim(Pick(s.queue), s.clock))
    ensures s.attempts != multiset{} ==> exists next :: WorkerEnabled(s, Finish(Pick(s.attempts), outcome, next, s.clock))
  {
    if s.attempts != multiset{} {
      var m := Pick(s.attempts);
      if m.scan in s.db.scans {
        OldestPendingExists(Settle(s.db, m.scan, outcome, s.clock), s.db.scans[m.scan].domain);
        var next :| OldestPending(Settle(s.db, m.scan, outcome, s.clock), s.db.scans[m.scan].domain, next);
        assert WorkerEnabled(s, Finish(m, outcome, next, s.clock));
      } else {
        assert WorkerEnabled(s, Finish(m, outcome, None, s.clock));
      }
    }
  }

  ghost predicate NoWorkerStep(s: State) {
    forall w :: !WorkerEnabled(s, w)
  }

  lemma StoppedMeansEmpty(s: State)
    requires NoWorkerStep(s)
    ensures s.queue == multiset{} && s.attempts == multiset{}
  {
    WorkersNeverStuck(s, Resolved([]));
  }

  lemma {:induction false} DrainKeepsCalls(s: State, run: seq<Step>)
    requires WorkersOnly(run)
    ensures Final(s, run).calls == s.calls
    decreases |run|
  {
    hide DoWorker;
    if run != [] {
      DrainKeepsCalls(s, Front(run));
      assert run[|run| - 1].Worker?;
      WorkerKeepsKeys(Final(s, Front(run)), Last(run).w);
    }
  }

  // With no API call half done and no scan orphaned, a drain that can go no further has finished every scan.
  lemma {:induction false} QuietDrainFinishes(s: State, drain: seq<Step>, id: ScanId)
    requires ForeignKeys(s.db) && AllIssued(s) && NoOrphans(s) && s.calls == map[]
    requires Valid(s, drain) && WorkersOnly(drain) && NoWorkerStep(Final(s, drain))
    ensures
      var db := Final(s, drain).db;
      id in db.scans ==> db.scans[id].status == Completed || db.scans[id].status == Failed
  {
    var t := Final(s, drain);
    hide Final, Valid;
    RunKeepsNoOrphans(s, drain);
    DrainKeepsCalls(s, drain);
    StoppedMeansEmpty(t);
    hide NoOrphans;
    if IsActive(t.db, id) {
      QuietMeansOnTheWay(t, id);
    }
  }

  // From any reachable state with no API call half done, a drain that can go no further has finished
  // every scan.
  lemma {:induction false} DrainingLeavesNothing(maxRetries: nat, before: seq<Step>, drain: seq<Step>, id: ScanId)
    requires Valid(Init(maxRetries), before) && CrashFree(before)
    requires
      var s := Final(Init(maxRetries), before);
      s.calls == map[] && Valid(s, drain) && WorkersOnly(drain) && NoWorkerStep(Final(s, drain))
    ensures
      var db := Final(Final(Init(maxRetries), before), drain).db;
      id in db.scans ==> db.scans[id].status == Completed || db.scans[id].status == Failed
  {
    assert NoOrphans(Init(maxRetries));
    hide Final, Valid, NoOrphans, NoWorkerStep;
    RunKeepsNoOrphans(Init(maxRetries), before);
    QuietDrainFinishes(Final(Init(maxRetries), before), drain, id);
  }

  // Recovery restores that from any tables and any broker contents: when every call that was under way
  // has ended, a drain that can go no further has finished every scan, the interrupted ones included.
  lemma {:induction false} RecoveryThenDrainFinishes(s: State, c: CallId, run: seq<Step>, drain: seq<Step>, id: ScanId)
    requires ForeignKeys(s.db) && AllIssued(s) && c !in s.calls
    requires Valid(Do(s, Api(Recover(c))), run) && CrashFree(run)
    ensures
      var t := Final(Do(s, Api(Recover(c))), run);
      var db := Final(t, drain).db;
      t.calls == map[] && Valid(t, drain) && WorkersOnly(drain) && NoWorkerStep(Final(t, drain)) && id in db.scans ==>
        db.scans[id].status == Completed || db.scans[id].status == Failed
  {
    var r := Do(s, Api(Recover(c)));
    ApiKeepsForeignKeys(s, Recover(c));
    ApiKeepsIssued(s, Recover(c));
    ResetLeavesNoOrphans(s, c);
    hide Final, Valid, NoOrphans, NoWorkerStep;
    RunKeepsNoOrphans(r, run);
    var t := Final(r, run);
    if t.calls == map[] && Valid(t, drain) && WorkersOnly(drain) && NoWorkerStep(Final(t, drain)) {
      QuietDrainFinishes(t, drain, id);
    }
  }
}
