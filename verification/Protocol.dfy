/** The scan lifecycle as a transition system over the tables, the broker, the worker attempts in
    flight and the API calls that are only half done.

    Split granularity: claiming a message is one step, the outcome of its DNS resolution is another,
    and anything may happen between the two. */
module Protocol {
  import opened Tables

  // An exception, by its text and its class name.
  datatype Error = Error(text: string, className: Text)

  // str(exc) or exc.__class__.__name__
  function Describe(e: Error): Text {
    if e.text != "" then e.text else e.className
  }

  // What one run of the resolver (and the storing of its records) comes to.
  datatype Outcome = Resolved(records: seq<Record>) | Retryable(error: Error) | Fatal(error: Error)

  // A queued discovery job: the scan and how often Celery has retried it.
  datatype Message = Message(scan: ScanId, retries: nat)

  type CallId = nat

  // An API call, or API start, that has committed something and still owes a step.
  datatype Call =
    | Naming(name: string)                         // no domain had the name; domain row not inserted
    | Creating(domain: DomainId)                   // domain row committed; initial scan not inserted
    | Initialising(domain: DomainId, scan: ScanId) // initial scan committed; domain status not touched
    | Locked(domain: DomainId)                     // manual trigger: row lock held
    | Checked(domain: DomainId)                    // manual trigger: lock held, no active scan seen
    | Recovering                                   // RUNNING scans reset; recoverable ids not listed
    | Publishing(todo: seq<ScanId>)                // ids still to be enqueued, in order

  datatype State = State(
    db: Database,
    queue: multiset<Message>,
    attempts: multiset<Message>, // claimed messages whose resolution is in flight
    calls: map<CallId, Call>,
    issued: set<nat>,            // every row identifier ever handed out
    clock: int,                  // last clock reading of a worker; readings need not be in order
    maxRetries: nat)             // settings.scan_max_retries

  // What the API process commits or enqueues, on behalf of call c.
  datatype ApiStep =
    | LookupName(c: CallId, name: string)
    | InsertDomain(c: CallId, d: DomainId, name: string)
    | InsertInitial(c: CallId, d: DomainId, id: ScanId, createdAt: int)
    | ShowInitial(c: CallId, d: DomainId, id: ScanId)
    | LockDomain(c: CallId, d: DomainId)
    | CheckActive(c: CallId, d: DomainId)
    | InsertManual(c: CallId, d: DomainId, id: ScanId, createdAt: int)
    | Publish(c: CallId, todo: seq<ScanId>)
    | Recover(c: CallId)
    | ListRecoverable(c: CallId, ids: seq<ScanId>)
    | RemoveDomain(d: DomainId)

  // What a Celery worker does with a message. `next` is the answer of the query for the oldest
  // PENDING scan, `now` the clock reading stored in the row.
  datatype WorkerStep =
    | Claim(m: Message, now: int)
    | Finish(m: Message, outcome: Outcome, next: Option<ScanId>, now: int)

  // What the broker and the machines may do to both.
  datatype Fault =
    | Redeliver(m: Message)
    | LoseMessage(m: Message)
    | LoseAttempt(m: Message)
    | LoseCall(c: CallId)

  datatype Step = Api(a: ApiStep) | Worker(w: WorkerStep) | Broken(f: Fault)

  function Init(maxRetries: nat): State {
    State(Database(map[], map[], []), multiset{}, multiset{}, map[], {}, 0, maxRetries)
  }

  // ---------- when a step may happen ----------

  predicate At(s: State, c: CallId, call: Call) {
    c in s.calls && s.calls[c] == call
  }

  predicate HoldsLock(call: Call, d: DomainId) {
    call == Locked(d) || call == Checked(d)
  }

  predicate IsLocked(s: State, d: DomainId) {
    exists c | c in s.calls :: HoldsLock(s.calls[c], d)
  }

  // The worker asks for another attempt instead of settling the scan.
  predicate Retries(s: State, m: Message, outcome: Outcome) {
    outcome.Retryable? && m.retries < s.maxRetries
  }

  predicate Enumerates(ids: seq<ScanId>, all: set<ScanId>) {
    && (set id | id in ids) == all
    && |ids| == |all|
  }

  predicate ApiEnabled(s: State, a: ApiStep) {
    match a
    case LookupName(c, name) => c !in s.calls
    case InsertDomain(c, d, name) => At(s, c, Naming(name)) && d !in s.issued
    case InsertInitial(c, d, id, _) => At(s, c, Creating(d)) && id !in s.issued
    case ShowInitial(c, d, id) => At(s, c, Initialising(d, id))
    case LockDomain(c, d) => c !in s.calls && d in s.db.domains && !IsLocked(s, d)
    case CheckActive(c, d) => At(s, c, Locked(d))
    case InsertManual(c, d, id, _) => At(s, c, Checked(d)) && d in s.db.domains && id !in s.issued
    case Publish(c, todo) => At(s, c, Publishing(todo)) && todo != []
    case Recover(c) => c !in s.calls
    case ListRecoverable(c, ids) => At(s, c, Recovering) && Enumerates(ids, ActiveIds(s.db))
    case RemoveDomain(d) => d in s.db.domains && !IsLocked(s, d)
  }

  predicate WorkerEnabled(s: State, w: WorkerStep) {
    match w
    case Claim(m, now) => m in s.queue
    case Finish(m, outcome, next, now) =>
      && m in s.attempts
      && (!Retries(s, m, outcome) && m.scan in s.db.scans ==>
            OldestPending(Settle(s.db, m.scan, outcome, now), s.db.scans[m.scan].domain, next))
  }

  predicate FaultEnabled(s: State, f: Fault) {
    match f
    case Redeliver(m) => m in s.queue || m in s.attempts
    case LoseMessage(m) => m in s.queue
    case LoseAttempt(m) => m in s.attempts
    case LoseCall(c) => c in s.calls
  }

  predicate Enabled(s: State, step: Step) {
    match step
    case Api(a) => ApiEnabled(s, a)
    case Worker(w) => WorkerEnabled(s, w)
    case Broken(f) => FaultEnabled(s, f)
  }

  // ---------- what a step does ----------

  // An API call that has nothing left to enqueue is over.
  function StillPublishing(todo: seq<ScanId>): Option<Call> {
    if todo == [] then None else Some(Publishing(todo))
  }

  // What a call still owes after a step.
  function StillOwed(db: Database, a: ApiStep): Option<Call> {
    match a
    case LookupName(_, name) => if NameTaken(db, name) then None else Some(Naming(name))
    case InsertDomain(_, d, name) => if NameTaken(db, name) then None else Some(Creating(d))
    case InsertInitial(_, d, id, _) => if d in db.domains then Some(Initialising(d, id)) else None
    case ShowInitial(_, _, id) => Some(Publishing([id]))
    case LockDomain(_, d) => Some(Locked(d))
    case CheckActive(_, d) => if HasActive(db, d) then None else Some(Checked(d))
    case InsertManual(_, _, id, _) => Some(Publishing([id]))
    case Publish(_, todo) => if todo == [] then None else StillPublishing(todo[1..])
    case Recover(_) => Some(Recovering)
    case ListRecoverable(_, ids) => StillPublishing(ids)
    case RemoveDomain(_) => None
  }

  function CallsAfter(s: State, a: ApiStep): map<CallId, Call> {
    if a.RemoveDomain? then s.calls
    else
      match StillOwed(s.db, a)
      case None => s.calls - {a.c}
      case Some(call) => s.calls[a.c := call]
  }

  function ApiDatabase(db: Database, a: ApiStep): Database {
    match a
    case InsertDomain(_, d, name) => AddDomain(db, d, name)
    case InsertInitial(_, d, id, createdAt) => if d in db.domains then CreateScan(db, id, d, Initial, createdAt) else db
    case ShowInitial(_, d, _) => ShowQueued(db, d)
    case InsertManual(_, d, id, createdAt) => ShowQueued(CreateScan(db, id, d, Manual, createdAt), d)
    case Recover(_) => ResetInterrupted(db)
    case RemoveDomain(d) => DeleteDomain(db, d)
    case _ => db
  }

  function IssuedBy(a: ApiStep): set<nat> {
    match a
    case InsertDomain(_, d, _) => {d}
    case InsertInitial(_, _, id, _) => {id}
    case InsertManual(_, _, id, _) => {id}
    case _ => {}
  }

  function DoApi(s: State, a: ApiStep): State {
    s.(db := ApiDatabase(s.db, a),
       queue := if a.Publish? && a.todo != [] then s.queue + multiset{Message(a.todo[0], 0)} else s.queue,
       calls := CallsAfter(s, a),
       issued := s.issued + IssuedBy(a))
  }

  // The claim starts an attempt; otherwise the message is dropped.
  predicate Starts(db: Database, id: ScanId) {
    && IsActive(db, id)
    && db.scans[id].domain in db.domains
    && (HasRunning(db, db.scans[id].domain) ==> IsRunning(db, id))
  }

  const NO_DOMAIN: Text := "Domain no longer exists"

  function ClaimDatabase(db: Database, id: ScanId, now: int): Database {
    if Starts(db, id) then
      var row := db.scans[id];
      SetDomainStatus(db.(scans := db.scans[id := RunningRow(row, now)]), row.domain, Running)
    else if IsActive(db, id) && db.scans[id].domain !in db.domains then
      db.(scans := db.scans[id := FailedRow(db.scans[id], NO_DOMAIN, now)])
    else
      db
  }

  function DoClaim(s: State, m: Message, now: int): State {
    s.(db := ClaimDatabase(s.db, m.scan, now),
       queue := s.queue - multiset{m},
       attempts := s.attempts + if Starts(s.db, m.scan) then multiset{m} else multiset{},
       clock := now)
  }

  function SettledRow(scan: Scan, outcome: Outcome, now: int): Scan {
    match outcome
    case Resolved(_) => CompletedRow(scan, now)
    case Retryable(e) => FailedRow(scan, Describe(e), now)
    case Fatal(e) => FailedRow(scan, Describe(e), now)
  }

  function Verdict(outcome: Outcome): Status {
    if outcome.Resolved? then Completed else Failed
  }

  function Stored(outcome: Outcome): seq<Record> {
    if outcome.Resolved? then outcome.records else []
  }

  // The row updates that end a scan: assets, scan status, domain status.
  function Settle(db: Database, id: ScanId, outcome: Outcome, now: int): Database {
    if id !in db.scans then db
    else
      var row := db.scans[id];
      SetDomainStatus(
        Database(
          db.domains,
          db.scans[id := SettledRow(row, outcome, now)],
          db.assets + AssetRows(id, row.domain, Stored(outcome))),
        row.domain, Verdict(outcome))
  }

  function Enqueued(next: Option<ScanId>): multiset<Message> {
    match next
    case None => multiset{}
    case Some(id) => multiset{Message(id, 0)}
  }

  // What an ended attempt puts on the queue: its own retry, or the next PENDING scan of the domain.
  function FollowUp(s: State, m: Message, outcome: Outcome, next: Option<ScanId>): multiset<Message> {
    if Retries(s, m, outcome) then multiset{Message(m.scan, m.retries + 1)}
    else if m.scan in s.db.scans then Enqueued(next)
    else multiset{}
  }

  function DoFinish(s: State, m: Message, outcome: Outcome, next: Option<ScanId>, now: int): State {
    s.(db := if Retries(s, m, outcome) then s.db else Settle(s.db, m.scan, outcome, now),
       queue := s.queue + FollowUp(s, m, outcome, next),
       attempts := s.attempts - multiset{m},
       clock := now)
  }

  function DoWorker(s: State, w: WorkerStep): State {
    match w
    case Claim(m, now) => DoClaim(s, m, now)
    case Finish(m, outcome, next, now) => DoFinish(s, m, outcome, next, now)
  }

  function DoFault(s: State, f: Fault): State {
    match f
    case Redeliver(m) => s.(queue := s.queue + multiset{m})
    case LoseMessage(m) => s.(queue := s.queue - multiset{m})
    case LoseAttempt(m) => s.(attempts := s.attempts - multiset{m})
    case LoseCall(c) => s.(calls := s.calls - {c})
  }

  function Do(s: State, step: Step): State {
    match step
    case Api(a) => DoApi(s, a)
    case Worker(w) => DoWorker(s, w)
    case Broken(f) => DoFault(s, f)
  }

  // ---------- runs ----------

  predicate IsLoss(step: Step) {
    step.Broken? && !step.f.Redeliver?
  }

  function Front<T>(run: seq<T>): seq<T>
    requires run != []
  {
    run[..|run| - 1]
  }

  function Last<T>(run: seq<T>): T
    requires run != []
  {
    run[|run| - 1]
  }

  function Final(s: State, run: seq<Step>): State {
    if run == [] then s else Do(Final(s, Front(run)), Last(run))
  }

  predicate Valid(s: State, run: seq<Step>) {
    run == [] || (Valid(s, Front(run)) && Enabled(Final(s, Front(run)), Last(run)))
  }

  // No message, attempt or half-done call is ever lost: no crash.
  predicate CrashFree(run: seq<Step>) {
    forall i | 0 <= i < |run| :: !IsLoss(run[i])
  }

  predicate WorkersOnly(run: seq<Step>) {
    forall i | 0 <= i < |run| :: run[i].Worker?
  }

  lemma {:induction false} RunConcat(s: State, a: seq<Step>, b: seq<Step>)
    ensures Final(s, a + b) == Final(Final(s, a), b)
    ensures Valid(s, a + b) <==> Valid(s, a) && Valid(Final(s, a), b)
    decreases |b|
  {
    hide Do, Enabled;
    if b == [] {
      assert a + b == a;
    } else {
      RunConcat(s, a, Front(b));
      assert Front(a + b) == a + Front(b);
      assert Last(a + b) == Last(b);
    }
  }
}
