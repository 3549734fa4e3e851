/** A scan row against the history of an atomic run: what the row says is what last happened to it, and a
    domain hides an unfinished scan only behind an outcome that came after it. */
module History {
  import opened Tables
  import opened Protocol
  import opened Evolution
  import opened Safety
  import opened Atomic
  import opened Rows
  import opened Outcomes

  // ---------- what a delivery writes ----------

  // An attempt on the scan begins: the scan is unfinished, its domain exists, and no other runs there.
  predicate Begins(db: Database, id: ScanId) {
    && id in db.scans && (db.scans[id].status == Pending || db.scans[id].status == Running)
    && db.scans[id].domain in db.domains
    && (db.scans[id].status == Running ||
        forall x | x in db.scans && db.scans[x].domain == db.scans[id].domain :: db.scans[x].status != Running)
  }

  predicate AsksRetry(s: State, m: Message, outcome: Outcome) {
    outcome.Retryable? && m.retries < s.maxRetries
  }

  // str(exc) or exc.__class__.__name__
  predicate Tells(message: string, e: Error) {
    if e.text != "" then message == e.text else message == e.className
  }

  // The row after an attempt that began at `started` and ended at `ended`.
  predicate EndedRow(row: Scan, outcome: Outcome, started: int, ended: int) {
    && row.startedAt == Some(started) && row.completedAt == Some(ended)
    && match outcome
       case Resolved(_) => row.status == Completed && row.error == None
       case Retryable(e) => row.status == Failed && row.error.Some? && Tells(row.error.value, e)
       case Fatal(e) => row.status == Failed && row.error.Some? && Tells(row.error.value, e)
  }

  predicate SameScan(before: Scan, after: Scan) {
    after.domain == before.domain && after.kind == before.kind && after.createdAt == before.createdAt
  }

  // From `db` to `db'`: the attempt's two clock readings, the outcome with its records or its error text, and
  // the status of the domain; or, on a retry, only the beginning. Nothing else changes.
  ghost predicate Wrote(db: Database, db': Database, id: ScanId, outcome: Outcome, retry: bool, started: int, ended: int) {
    && id in db.scans && id in db'.scans && db.scans[id].domain in db.domains && db.scans[id].domain in db'.domains
    && var before, after := db.scans[id], db'.scans[id];
    var records := if outcome.Resolved? then outcome.records else [];
    && db'.scans == db.scans[id := after] && SameScan(before, after)
    && db'.domains == db.domains[before.domain := db'.domains[before.domain]]
    && db'.domains[before.domain].name == db.domains[before.domain].name
    && |db'.assets| == |db.assets| + |records| && db'.assets[..|db.assets|] == db.assets
    && (forall i | 0 <= i < |records| :: db'.assets[|db.assets| + i] == Asset(id, before.domain, records[i]))
    && if retry then
         && after.status == Running && after.startedAt == Some(started) && after.error == None
         && after.completedAt == before.completedAt && db'.domains[before.domain].status == Running
       else
         && EndedRow(after, outcome, started, ended)
         && db'.domains[before.domain].status == if outcome.Resolved? then Completed else Failed
  }

  // A delivery that begins no attempt changes nothing in the tables; any other writes exactly that.
  lemma DeliveryWrites(s: State, a: AtomicStep)
    requires ForeignKeys(s.db) && AtomicEnabled(s, a) && a.Deliver?
    ensures !Begins(s.db, a.m.scan) ==> AtomicDo(s, a).db == s.db
    ensures Begins(s.db, a.m.scan) ==>
      Wrote(s.db, AtomicDo(s, a).db, a.m.scan, a.outcome, AsksRetry(s, a.m, a.outcome), a.started, a.ended)
  {
    DeliverEffect(s, a);
    hide AtomicEnabled, AtomicDo, Begins, Starts, Wrote, DeliverDatabase, ForeignKeys;
    StartsIffBegins(s.db, a.m.scan);
    if Begins(s.db, a.m.scan) {
      DeliveredTables(s, a.m, a.outcome, a.started, a.ended);
    } else {
      DroppedTables(s, a.m, a.outcome, a.started, a.ended);
    }
  }

  lemma StartsIffBegins(db: Database, id: ScanId)
    ensures Starts(db, id) <==> Begins(db, id)
  {
  }

  lemma DroppedTables(s: State, m: Message, outcome: Outcome, started: int, ended: int)
    requires ForeignKeys(s.db) && !Starts(s.db, m.scan)
    ensures DeliverDatabase(s, m, outcome, started, ended) == s.db
  {
  }

  lemma DeliveredTables(s: State, m: Message, outcome: Outcome, started: int, ended: int)
    requires Starts(s.db, m.scan)
    ensures
      Wrote(s.db, DeliverDatabase(s, m, outcome, started, ended), m.scan, outcome, AsksRetry(s, m, outcome), started, ended)
  {
    var db' := DeliverDatabase(s, m, outcome, started, ended);
    assert db'.scans == s.db.scans[m.scan := db'.scans[m.scan]];
    assert db'.domains == s.db.domains[s.db.scans[m.scan].domain := db'.domains[s.db.scans[m.scan].domain]];
  }

  // ---------- a row is what last happened to it ----------

  datatype Event = Inserted | Began(started: int) | Reset | Ended(outcome: Outcome, started: int, ended: int)

  // What a step does to the row of a scan, if anything.
  function EventOf(s: State, a: AtomicStep, id: ScanId): Option<Event> {
    match a
    case Deliver(m, outcome, _, started, ended) =>
      if m.scan != id || !Begins(s.db, id) then None
      else if AsksRetry(s, m, outcome) then Some(Began(started))
      else Some(Ended(outcome, started, ended))
    case CreateInitial(_, d, x, _) => if x == id && d in s.db.domains then Some(Inserted) else None
    case Plain(Api(InsertManual(_, _, x, _))) => if x == id then Some(Inserted) else None
    case Plain(Api(Recover(_))) => if id in s.db.scans && s.db.scans[id].status == Running then Some(Reset) else None
    case _ => None
  }

  function LastEvent(s: State, run: seq<AtomicStep>, id: ScanId): Option<Event> {
    if run == [] then None
    else Later(EventOf(AtomicFinal(s, Front(run)), Last(run), id), LastEvent(s, Front(run), id))
  }

  function Later(event: Option<Event>, before: Option<Event>): Option<Event> {
    if event.Some? then event else before
  }

  predicate RowTells(row: Scan, event: Event) {
    match event
    case Inserted => row.status == Pending && row.startedAt == None && row.completedAt == None && row.error == None
    case Began(started) => row.status == Running && row.startedAt == Some(started) && row.completedAt == None && row.error == None
    case Reset =>
      && row.status == Pending && row.startedAt == None && row.completedAt == None
      && row.error == Some("Interrupted by process restart; re-queued")
    case Ended(outcome, started, ended) => EndedRow(row, outcome, started, ended)
  }

  predicate Told(db: Database, id: ScanId, last: Option<Event>) {
    id in db.scans ==> last.Some? && RowTells(db.scans[id], last.value)
  }

  lemma WroteTells(db: Database, db': Database, m: ScanId, outcome: Outcome, retry: bool, started: int, ended: int,
                   id: ScanId, last: Option<Event>)
    requires Wrote(db, db', m, outcome, retry, started, ended) && RowsAgree(db)
    requires db.scans[m].status == Pending || db.scans[m].status == Running
    requires Told(db, id, last)
    ensures Told(db', id, if m != id then last else Some(if retry then Began(started) else Ended(outcome, started, ended)))
  {
    assert id in db.scans ==> FieldsAgree(db.scans[id]);
  }

  lemma DeliverTells(s: State, a: AtomicStep, id: ScanId, last: Option<Event>)
    requires Tidy(s) && AtomicEnabled(s, a) && a.Deliver? && Told(s.db, id, last)
    ensures Told(AtomicDo(s, a).db, id, Later(EventOf(s, a, id), last))
  {
    hide Tidy, AtomicEnabled, AtomicDo, ForeignKeys, RowsAgree, Told, Wrote, AsksRetry, Begins;
    TidyTables(s);
    TidyRows(s);
    BegunIsUnfinished(s.db, a.m.scan);
    DeliveryWrites(s, a);
    if Begins(s.db, a.m.scan) {
      WroteTells(s.db, AtomicDo(s, a).db, a.m.scan, a.outcome, AsksRetry(s, a.m, a.outcome), a.started, a.ended, id, last);
    }
  }

  lemma BegunIsUnfinished(db: Database, id: ScanId)
    ensures Begins(db, id) ==> id in db.scans && (db.scans[id].status == Pending || db.scans[id].status == Running)
  {
  }

  lemma CreateTells(s: State, a: AtomicStep, id: ScanId, last: Option<Event>)
    requires AtomicEnabled(s, a) && a.CreateInitial? && Told(s.db, id, last)
    ensures Told(AtomicDo(s, a).db, id, Later(EventOf(s, a, id), last))
  {
    CreateInitialEffect(s, a);
    hide AtomicEnabled, AtomicDo;
  }

  lemma ApiTells(db: Database, a: ApiStep, id: ScanId, last: Option<Event>)
    requires RowsAgree(db) && id in ApiDatabase(db, a).scans && !a.InsertInitial?
    requires a.InsertManual? ==> a.id !in db.scans
    requires id in db.scans ==> last.Some? && RowTells(db.scans[id], last.value)
    ensures
      var row := ApiDatabase(db, a).scans[id];
      if a.InsertManual? && a.id == id then RowTells(row, Inserted)
      else if a.Recover? && id in db.scans && db.scans[id].status == Running then RowTells(row, Reset)
      else last.Some? && RowTells(row, last.value)
  {
    assert id in db.scans ==> FieldsAgree(db.scans[id]);
  }

  lemma StepTells(s: State, a: AtomicStep, id: ScanId, last: Option<Event>)
    requires Tidy(s) && AtomicEnabled(s, a) && Told(s.db, id, last)
    ensures Told(AtomicDo(s, a).db, id, Later(EventOf(s, a, id), last))
  {
    hide Tidy, AtomicEnabled, AtomicDo, Told, EventOf;
    match a
    case Deliver(_, _, _, _, _) => DeliverTells(s, a, id, last);
    case CreateInitial(_, _, _, _) => CreateTells(s, a, id, last);
    case Plain(step) => PlainTells(s, a, id, last);
  }

  lemma PlainTells(s: State, a: AtomicStep, id: ScanId, last: Option<Event>)
    requires Tidy(s) && AtomicEnabled(s, a) && a.Plain? && Told(s.db, id, last)
    ensures Told(AtomicDo(s, a).db, id, Later(EventOf(s, a, id), last))
  {
    PlainDatabase(s, a);
    TidyTables(s);
    TidyRows(s);
    if a.step.Api? && a.step.a.InsertManual? {
      InsertsFresh(s, a.step.a);
    }
    hide Tidy, AtomicEnabled, AtomicDo, RowTells, RowsAgree, ForeignKeys, ApiDatabase, ApiEnabled, Begins;
    if a.step.Api? && id in ApiDatabase(s.db, a.step.a).scans {
      ApiTells(s.db, a.step.a, id, last);
    }
  }

  lemma InsertsFresh(s: State, a: ApiStep)
    requires ApiEnabled(s, a) && a.InsertManual?
    ensures a.id !in s.issued && a.d in s.db.domains
  {
  }

  lemma TidyRows(s: State)
    requires Tidy(s)
    ensures RowsAgree(s.db)
  {
  }

  // In every reachable state a row says exactly what last happened to its scan: inserted; begun and waiting
  // for a retry, with that beginning; reset, with the notice; or ended, with the clock readings of the
  // delivery that ended it and its outcome, the error by its text or, if that is empty, its class name.
  lemma {:induction false} RowIsItsHistory(maxRetries: nat, run: seq<AtomicStep>, id: ScanId)
    requires AtomicValid(Init(maxRetries), run)
    ensures Told(AtomicFinal(Init(maxRetries), run).db, id, LastEvent(Init(maxRetries), run, id))
    decreases |run|
  {
    hide AtomicDo, AtomicEnabled, EventOf, Tidy;
    InitTidy(maxRetries);
    if run != [] {
      hide Told, Init;
      RowIsItsHistory(maxRetries, Front(run), id);
      RunKeepsTidy(Init(maxRetries), Front(run));
      StepTells(AtomicFinal(Init(maxRetries), Front(run)), Last(run), id, LastEvent(Init(maxRetries), Front(run), id));
    }
  }

  // ---------- what hides an unfinished scan ----------

  // Since the scan was inserted, a delivery has ended a scan of its domain.
  predicate EndedSince(s: State, run: seq<AtomicStep>, id: ScanId) {
    run != [] &&
    var t, a := AtomicFinal(s, Front(run)), Last(run);
    id in t.db.scans && (EndedSince(s, Front(run), id) || EndsScanOf(t, a, t.db.scans[id].domain))
  }

  predicate EndsScanOf(s: State, a: AtomicStep, d: DomainId) {
    && a.Deliver? && Begins(s.db, a.m.scan) && !AsksRetry(s, a.m, a.outcome)
    && s.db.scans[a.m.scan].domain == d
  }

  predicate ShowsOutcome(db: Database, d: DomainId) {
    d in db.domains && (db.domains[d].status == Completed || db.domains[d].status == Failed)
  }

  lemma WroteFinishes(db: Database, db': Database, m: ScanId, outcome: Outcome, retry: bool, started: int, ended: int, d: DomainId)
    requires Wrote(db, db', m, outcome, retry, started, ended)
    ensures ShowsOutcome(db', d) && !ShowsOutcome(db, d) ==> !retry && db.scans[m].domain == d
  {
  }

  lemma WroteKeepsScan(db: Database, db': Database, m: ScanId, outcome: Outcome, retry: bool, started: int, ended: int, id: ScanId)
    requires Wrote(db, db', m, outcome, retry, started, ended)
    requires db.scans[m].status == Pending || db.scans[m].status == Running
    ensures id in db'.scans ==> id in db.scans && db'.scans[id].domain == db.scans[id].domain
    ensures IsActive(db', id) ==> IsActive(db, id)
  {
  }

  lemma DeliverOutcome(s: State, a: AtomicStep, d: DomainId, id: ScanId)
    requires ForeignKeys(s.db) && AtomicEnabled(s, a) && a.Deliver?
    ensures ShowsOutcome(AtomicDo(s, a).db, d) && !ShowsOutcome(s.db, d) ==> EndsScanOf(s, a, d)
    ensures id in AtomicDo(s, a).db.scans ==>
      id in s.db.scans && AtomicDo(s, a).db.scans[id].domain == s.db.scans[id].domain
    ensures IsActive(AtomicDo(s, a).db, id) ==> IsActive(s.db, id)
  {
    DeliveryWrites(s, a);
    hide AtomicEnabled, AtomicDo, ForeignKeys, Wrote, ShowsOutcome;
    if Begins(s.db, a.m.scan) {
      var db', retry := AtomicDo(s, a).db, AsksRetry(s, a.m, a.outcome);
      WroteFinishes(s.db, db', a.m.scan, a.outcome, retry, a.started, a.ended, d);
      WroteKeepsScan(s.db, db', a.m.scan, a.outcome, retry, a.started, a.ended, id);
    }
  }

  // Other steps finish no domain, revive no scan, and show a scan that they insert.
  lemma ApiOutcome(db: Database, a: ApiStep, d: DomainId, id: ScanId)
    requires a.InsertManual? ==> a.id !in db.scans && a.d in db.domains
    requires !a.InsertInitial? && !a.ShowInitial?
    ensures ShowsOutcome(ApiDatabase(db, a), d) ==> ShowsOutcome(db, d)
    ensures IsActive(ApiDatabase(db, a), id) && id in db.scans ==>
      IsActive(db, id) && ApiDatabase(db, a).scans[id].domain == db.scans[id].domain
    ensures id in ApiDatabase(db, a).scans && id !in db.scans ==>
      !ShowsOutcome(ApiDatabase(db, a), ApiDatabase(db, a).scans[id].domain)
  {
  }

  lemma CreateOutcome(s: State, a: AtomicStep, d: DomainId, id: ScanId)
    requires AtomicEnabled(s, a) && a.CreateInitial? && (id in s.db.scans ==> id in s.issued)
    ensures ShowsOutcome(AtomicDo(s, a).db, d) ==> ShowsOutcome(s.db, d)
    ensures IsActive(AtomicDo(s, a).db, id) && id in s.db.scans ==>
      IsActive(s.db, id) && AtomicDo(s, a).db.scans[id].domain == s.db.scans[id].domain
    ensures id in AtomicDo(s, a).db.scans && id !in s.db.scans ==>
      !ShowsOutcome(AtomicDo(s, a).db, AtomicDo(s, a).db.scans[id].domain)
  {
    CreateInitialEffect(s, a);
    hide AtomicEnabled, AtomicDo;
  }

  lemma PlainOutcome(s: State, a: AtomicStep, d: DomainId, id: ScanId)
    requires Tidy(s) && AtomicEnabled(s, a) && a.Plain?
    ensures ShowsOutcome(AtomicDo(s, a).db, d) ==> ShowsOutcome(s.db, d)
    ensures IsActive(AtomicDo(s, a).db, id) && id in s.db.scans ==>
      IsActive(s.db, id) && AtomicDo(s, a).db.scans[id].domain == s.db.scans[id].domain
    ensures id in AtomicDo(s, a).db.scans && id !in s.db.scans ==>
      !ShowsOutcome(AtomicDo(s, a).db, AtomicDo(s, a).db.scans[id].domain)
  {
    PlainDatabase(s, a);
    TidyTables(s);
    if a.step.Api? && a.step.a.InsertManual? {
      InsertsFresh(s, a.step.a);
    }
    hide Tidy, AtomicEnabled, AtomicDo, ShowsOutcome, ForeignKeys, ApiDatabase, ApiEnabled;
    if a.step.Api? {
      ApiOutcome(s.db, a.step.a, d, id);
    }
  }

  lemma StepOutcome(s: State, a: AtomicStep, d: DomainId, id: ScanId)
    requires Tidy(s) && AtomicEnabled(s, a)
    ensures ShowsOutcome(AtomicDo(s, a).db, d) && !ShowsOutcome(s.db, d) ==> EndsScanOf(s, a, d)
    ensures IsActive(AtomicDo(s, a).db, id) && id in s.db.scans ==>
      IsActive(s.db, id) && AtomicDo(s, a).db.scans[id].domain == s.db.scans[id].domain
    ensures id in AtomicDo(s, a).db.scans && id !in s.db.scans ==>
      !ShowsOutcome(AtomicDo(s, a).db, AtomicDo(s, a).db.scans[id].domain)
  {
    TidyTables(s);
    hide Tidy, AtomicEnabled, AtomicDo, ShowsOutcome, EndsScanOf, ForeignKeys;
    match a
    case Deliver(_, _, _, _, _) => DeliverOutcome(s, a, d, id);
    case CreateInitial(_, _, _, _) => CreateOutcome(s, a, d, id);
    case Plain(_) => PlainOutcome(s, a, d, id);
  }

  // In every reachable state: if a domain is COMPLETED or FAILED while one of its scans is unfinished, then a
  // scan of the domain was ended after that one had been inserted.
  lemma {:induction false} OutcomeIsNewer(maxRetries: nat, run: seq<AtomicStep>, id: ScanId)
    requires AtomicValid(Init(maxRetries), run)
    ensures
      var db := AtomicFinal(Init(maxRetries), run).db;
      IsActive(db, id) && ShowsOutcome(db, db.scans[id].domain) ==> EndedSince(Init(maxRetries), run, id)
    decreases |run|
  {
    hide AtomicDo, AtomicEnabled, Tidy, ShowsOutcome, EndsScanOf;
    InitTidy(maxRetries);
    if run != [] {
      hide Init;
      OutcomeIsNewer(maxRetries, Front(run), id);
      RunKeepsTidy(Init(maxRetries), Front(run));
      var s, a := AtomicFinal(Init(maxRetries), Front(run)), Last(run);
      if IsActive(AtomicDo(s, a).db, id) {
        StepOutcome(s, a, AtomicDo(s, a).db.scans[id].domain, id);
      }
    }
  }
}
