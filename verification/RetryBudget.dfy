/** The retry budget of settings.scan_max_retries, in both directions. */
module RetryBudget {
  import opened Tables
  import opened Protocol
  import opened Draining

  predicate FailsRetryably(step: Step, id: ScanId) {
    step.Worker? && step.w.Finish? && step.w.m.scan == id && step.w.outcome.Retryable?
  }

  // How many attempts of this scan have ended in a retryable DNS error.
  function FailedAttempts(run: seq<Step>, id: ScanId): nat {
    if run == [] then 0 else FailedAttempts(Front(run), id) + if FailsRetryably(Last(run), id) then 1 else 0
  }

  // A retry counter is within the budget and backed by that many failed attempts.
  ghost predicate CounterEarned(run: seq<Step>, maxRetries: nat, m: Message) {
    m.retries <= maxRetries && m.retries <= FailedAttempts(run, m.scan)
  }

  ghost predicate CountersEarned(s: State, run: seq<Step>) {
    forall m | m in s.queue || m in s.attempts :: CounterEarned(run, s.maxRetries, m)
  }

  // Where a message may come from: it was there, it is fresh, or it is the retry of a failed attempt.
  ghost predicate Explained(s: State, step: Step, m: Message) {
    || m in s.queue || m in s.attempts || m.retries == 0
    || (m.retries > 0 && Message(m.scan, m.retries - 1) in s.attempts
        && FailsRetryably(step, m.scan) && m.retries <= s.maxRetries)
  }

  lemma MessagesAfterFinish(s: State, m: Message, outcome: Outcome, next: Option<ScanId>, now: int, w: Message)
    requires m in s.attempts
    requires w in DoFinish(s, m, outcome, next, now).queue || w in DoFinish(s, m, outcome, next, now).attempts
    ensures Explained(s, Worker(Finish(m, outcome, next, now)), w)
  {
  }

  lemma MessagesAfterClaim(s: State, m: Message, now: int, w: Message)
    requires m in s.queue
    requires w in DoClaim(s, m, now).queue || w in DoClaim(s, m, now).attempts
    ensures Explained(s, Worker(Claim(m, now)), w)
  {
  }

  lemma MessagesAfterApi(s: State, a: ApiStep, m: Message)
    requires m in DoApi(s, a).queue || m in DoApi(s, a).attempts
    ensures Explained(s, Api(a), m)
  {
  }

  lemma MessagesAfterFault(s: State, f: Fault, m: Message)
    requires FaultEnabled(s, f) && (m in DoFault(s, f).queue || m in DoFault(s, f).attempts)
    ensures Explained(s, Broken(f), m)
  {
  }

  lemma MessagesAfterStep(s: State, step: Step, m: Message)
    requires Enabled(s, step) && (m in Do(s, step).queue || m in Do(s, step).attempts)
    ensures Explained(s, step, m)
  {
    hide DoApi, DoFinish, DoClaim, DoFault, Explained, OldestPending;
    match step
    case Api(a) => MessagesAfterApi(s, a, m);
    case Worker(Claim(w, now)) => MessagesAfterClaim(s, w, now, m);
    case Worker(Finish(w, outcome, next, now)) => MessagesAfterFinish(s, w, outcome, next, now, m);
    case Broken(f) => MessagesAfterFault(s, f, m);
  }

  lemma StepKeepsBudget(s: State, step: Step)
    ensures Do(s, step).maxRetries == s.maxRetries
  {
  }

  lemma {:induction false} RunEarnsCounters(maxRetries: nat, run: seq<Step>)
    requires Valid(Init(maxRetries), run)
    ensures CountersEarned(Final(Init(maxRetries), run), run)
    ensures Final(Init(maxRetries), run).maxRetries == maxRetries
    decreases |run|
  {
    hide Do, Enabled;
    if run != [] {
      RunEarnsCounters(maxRetries, Front(run));
      var s, s' := Final(Init(maxRetries), Front(run)), Final(Init(maxRetries), run);
      StepKeepsBudget(s, Last(run));
      forall m | m in s'.queue || m in s'.attempts
        ensures CounterEarned(run, s'.maxRetries, m)
      {
        MessagesAfterStep(s, Last(run), m);
        if m !in s.queue && m !in s.attempts && m.retries > 0 {
          assert CounterEarned(Front(run), maxRetries, Message(m.scan, m.retries - 1));
        }
      }
    }
  }

  // A retryable error marks a scan FAILED only when maxRetries + 1 of its attempts have failed so.
  lemma {:induction false} FailedOnlyAfterBudget(maxRetries: nat, run: seq<Step>, id: ScanId)
    requires Valid(Init(maxRetries), run) && run != []
    ensures
      var db, db' := Final(Init(maxRetries), Front(run)).db, Final(Init(maxRetries), run).db;
      FailsRetryably(Last(run), id) && id in db.scans && (id in db'.scans ==> db.scans[id] != db'.scans[id]) ==>
        && id in db'.scans && db'.scans[id].status == Failed
        && FailedAttempts(run, id) >= maxRetries + 1
  {
    RunEarnsCounters(maxRetries, Front(run));
    var s := Final(Init(maxRetries), Front(run));
    assert Final(Init(maxRetries), run) == Do(s, Last(run)) && Enabled(s, Last(run));
    hide Final, Valid, OldestPending;
    if FailsRetryably(Last(run), id) {
      var m := Last(run).w.m;
      assert m in s.attempts;
      assert CounterEarned(Front(run), maxRetries, m);
    }
  }

  // ---------- at most maxRetries + 1 attempts for each fresh message ----------

  predicate StartsAttempt(s: State, step: Step, id: ScanId) {
    step.Worker? && step.w.Claim? && step.w.m.scan == id && Starts(s.db, id)
  }

  function StartedAttempts(s: State, run: seq<Step>, id: ScanId): nat {
    if run == [] then 0
    else StartedAttempts(s, Front(run), id) + if StartsAttempt(Final(s, Front(run)), Last(run), id) then 1 else 0
  }

  predicate PublishesFresh(s: State, step: Step, id: ScanId) {
    match step
    case Api(Publish(_, todo)) => todo != [] && todo[0] == id
    case Worker(Finish(m, outcome, next, _)) => !Retries(s, m, outcome) && m.scan in s.db.scans && next == Some(id)
    case _ => false
  }

  function FreshMessages(s: State, run: seq<Step>, id: ScanId): nat {
    if run == [] then 0
    else FreshMessages(s, Front(run), id) + if PublishesFresh(Final(s, Front(run)), Last(run), id) then 1 else 0
  }

  // Attempts that a message, or an attempt in flight, may still lead to.
  function MessageAllowance(maxRetries: nat, id: ScanId): Message -> nat {
    (m: Message) => if m.scan == id && m.retries <= maxRetries then maxRetries + 1 - m.retries else 0
  }

  function AttemptAllowance(maxRetries: nat, id: ScanId): Message -> nat {
    (m: Message) => if m.scan == id && m.retries <= maxRetries then maxRetries - m.retries else 0
  }

  ghost function Allowance(s: State, id: ScanId): nat {
    Sum(MessageAllowance(s.maxRetries, id), s.queue) + Sum(AttemptAllowance(s.maxRetries, id), s.attempts)
  }

  lemma ClaimSpendsAllowance(s: State, m: Message, now: int, id: ScanId)
    requires m in s.queue && m.retries <= s.maxRetries
    ensures Allowance(DoClaim(s, m, now), id) + (if StartsAttempt(s, Worker(Claim(m, now)), id) then 1 else 0) <= Allowance(s, id)
  {
    var s' := DoClaim(s, m, now);
    hide Sum, ClaimDatabase;
    SumRemove(MessageAllowance(s.maxRetries, id), s.queue, m);
    if Starts(s.db, m.scan) {
      SumAdd(AttemptAllowance(s.maxRetries, id), s.attempts, m);
    } else {
      assert s'.attempts == s.attempts;
    }
  }

  lemma FinishKeepsAllowance(s: State, m: Message, outcome: Outcome, next: Option<ScanId>, now: int, id: ScanId)
    requires m in s.attempts
    ensures
      Allowance(DoFinish(s, m, outcome, next, now), id)
      <= Allowance(s, id) + if PublishesFresh(s, Worker(Finish(m, outcome, next, now)), id) then s.maxRetries + 1 else 0
  {
    var s' := DoFinish(s, m, outcome, next, now);
    hide Sum, Settle;
    SumRemove(AttemptAllowance(s.maxRetries, id), s.attempts, m);
    if w :| w in FollowUp(s, m, outcome, next) {
      assert FollowUp(s, m, outcome, next) == multiset{w};
      SumAdd(MessageAllowance(s.maxRetries, id), s.queue, w);
    } else {
      assert FollowUp(s, m, outcome, next) == multiset{};
      assert s'.queue == s.queue;
    }
  }

  lemma OtherKeepsAllowance(s: State, step: Step, id: ScanId)
    requires Enabled(s, step) && !step.Worker? && (step.Broken? ==> !step.f.Redeliver?)
    ensures
      Allowance(Do(s, step), id)
      <= Allowance(s, id) + if PublishesFresh(s, step, id) then s.maxRetries + 1 else 0
  {
    hide Sum, ApiDatabase, CallsAfter;
    match step
    case Api(a) =>
      if a.Publish? {
        SumAdd(MessageAllowance(s.maxRetries, id), s.queue, Message(a.todo[0], 0));
      }
    case Broken(LoseMessage(m)) => SumRemove(MessageAllowance(s.maxRetries, id), s.queue, m);
    case Broken(LoseAttempt(m)) => SumRemove(AttemptAllowance(s.maxRetries, id), s.attempts, m);
    case Broken(LoseCall(_)) =>
  }

  lemma StepSpendsAllowance(s: State, step: Step, id: ScanId)
    requires Enabled(s, step) && (step.Broken? ==> !step.f.Redeliver?)
    requires forall m | m in s.queue :: m.retries <= s.maxRetries
    ensures
      Allowance(Do(s, step), id) + (if StartsAttempt(s, step, id) then 1 else 0)
      <= Allowance(s, id) + if PublishesFresh(s, step, id) then s.maxRetries + 1 else 0
  {
    hide Allowance, DoClaim, DoFinish, DoApi, DoFault;
    match step
    case Worker(Claim(m, now)) => ClaimSpendsAllowance(s, m, now, id);
    case Worker(Finish(m, outcome, next, now)) => FinishKeepsAllowance(s, m, outcome, next, now, id);
    case _ => OtherKeepsAllowance(s, step, id);
  }

  function Budget(maxRetries: nat, messages: nat): nat {
    (maxRetries + 1) * messages
  }

  lemma BudgetOfOneMore(maxRetries: nat, messages: nat)
    ensures Budget(maxRetries, messages + 1) == Budget(maxRetries, messages) + maxRetries + 1
  {
  }

  // Unless the broker redelivers, a scan is attempted at most maxRetries + 1 times for each message
  // that was freshly published for it.
  lemma {:induction false} AttemptsWithinBudget(maxRetries: nat, run: seq<Step>, id: ScanId)
    requires Valid(Init(maxRetries), run)
    requires forall i | 0 <= i < |run| && run[i].Broken? :: !run[i].f.Redeliver?
    ensures
      var s := Init(maxRetries);
      StartedAttempts(s, run, id) + Allowance(Final(s, run), id) <= Budget(maxRetries, FreshMessages(s, run, id))
    decreases |run|
  {
    hide Do, Enabled, StartsAttempt, PublishesFresh;
    var s := Init(maxRetries);
    if run == [] {
      assert Allowance(s, id) == 0;
    } else {
      hide Allowance;
      AttemptsWithinBudget(maxRetries, Front(run), id);
      RunEarnsCounters(maxRetries, Front(run));
      var t, step := Final(s, Front(run)), Last(run);
      assert step == run[|run| - 1];
      forall m | m in t.queue
        ensures m.retries <= t.maxRetries
      {
        assert CounterEarned(Front(run), t.maxRetries, m);
      }
      StepSpendsAllowance(t, step, id);
      BudgetOfOneMore(maxRetries, FreshMessages(s, Front(run), id));
      hide Budget;
    }
  }
}
