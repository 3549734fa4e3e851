/** What any one step may do to the scan rows, whatever the step is. */
module Evolution {
  import opened Tables
  import opened Protocol

  // The same scan, not un-finished.
  predicate RowKept(before: Scan, after: Scan) {
    && after.domain == before.domain && after.kind == before.kind && after.createdAt == before.createdAt
    && (!Unfinished(before.status) ==> !Unfinished(after.status))
  }

  predicate Inserts(step: Step, id: ScanId, row: Scan) {
    && step.Api?
    && match step.a
       case InsertInitial(_, d, x, createdAt) => x == id && row == NewScan(d, Initial, createdAt)
       case InsertManual(_, d, x, createdAt) => x == id && row == NewScan(d, Manual, createdAt)
       case _ => false
  }

  predicate StartsBy(db: Database, step: Step, id: ScanId) {
    step.Worker? && step.w.Claim? && step.w.m.scan == id && Starts(db, id)
  }

  ghost predicate Evolves(db: Database, db': Database, step: Step) {
    && (forall id | id in db'.scans && id in db.scans :: RowKept(db.scans[id], db'.scans[id]))
    && (forall id | id in db'.scans && id !in db.scans :: Inserts(step, id, db'.scans[id]))
    && (forall id | IsRunning(db', id) && !IsRunning(db, id) :: StartsBy(db, step, id))
  }

  lemma ApiEvolves(db: Database, a: ApiStep)
    requires a.InsertInitial? || a.InsertManual? ==> a.id !in db.scans
    ensures Evolves(db, ApiDatabase(db, a), Api(a))
  {
  }

  lemma ClaimEvolves(db: Database, m: Message, now: int)
    ensures Evolves(db, ClaimDatabase(db, m.scan, now), Worker(Claim(m, now)))
  {
  }

  lemma SettleEvolves(db: Database, id: ScanId, outcome: Outcome, now: int, step: Step)
    ensures Evolves(db, Settle(db, id, outcome, now), step)
  {
  }

  lemma StepEvolves(s: State, step: Step)
    requires Enabled(s, step) && forall id | id in s.db.scans :: id in s.issued
    ensures Evolves(s.db, Do(s, step).db, step)
  {
    hide ApiDatabase, CallsAfter, ClaimDatabase, Settle, OldestPending, FollowUp;
    match step
    case Api(a) => ApiEvolves(s.db, a);
    case Worker(Claim(m, now)) => ClaimEvolves(s.db, m, now);
    case Worker(Finish(m, outcome, next, now)) => SettleEvolves(s.db, m.scan, outcome, now, step);
    case Broken(f) =>
  }
}
