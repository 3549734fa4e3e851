/** The database rows and the repository functions that change them, as values.
    Every function below stands for one committed transaction. */
module Tables {
  import opened Sequences

  datatype Option<+T> = None | Some(value: T)

  type DomainId = nat

  type ScanId = nat

  // A text that an operator can read: never empty.
  type Text = s: string | |s| > 0 witness "?"

  // ScanStatus and DomainStatus have the same four members.
  datatype Status = Pending | Running | Completed | Failed

  // How a scan came to be. No column records it: both kinds carry a user id in triggered_by.
  datatype Kind = Initial | Manual

  datatype AssetType = A | AAAA | NS | MX

  datatype Record = Record(rtype: AssetType, value: string)

  datatype Domain = Domain(name: string, status: Status)

  datatype Scan = Scan(
    domain: DomainId,
    kind: Kind,
    status: Status,
    createdAt: int,
    startedAt: Option<int>,
    completedAt: Option<int>,
    error: Option<Text>)

  datatype Asset = Asset(scan: ScanId, domain: DomainId, record: Record)

  datatype Database = Database(
    domains: map<DomainId, Domain>,
    scans: map<ScanId, Scan>,
    assets: seq<Asset>)

  // ---------- queries ----------

  predicate Unfinished(status: Status) {
    status == Pending || status == Running
  }

  predicate IsActive(db: Database, id: ScanId) {
    id in db.scans && Unfinished(db.scans[id].status)
  }

  predicate IsRunning(db: Database, id: ScanId) {
    id in db.scans && db.scans[id].status == Running
  }

  predicate IsPending(db: Database, id: ScanId) {
    id in db.scans && db.scans[id].status == Pending
  }

  predicate IsFinished(db: Database, id: ScanId) {
    id in db.scans && !Unfinished(db.scans[id].status)
  }

  predicate HasRunning(db: Database, d: DomainId) {
    exists id | id in db.scans :: db.scans[id].domain == d && IsRunning(db, id)
  }

  predicate HasActive(db: Database, d: DomainId) {
    exists id | id in db.scans :: db.scans[id].domain == d && IsActive(db, id)
  }

  predicate NameTaken(db: Database, name: string) {
    exists d | d in db.domains :: db.domains[d].name == name
  }

  function ActiveIds(db: Database): set<ScanId> {
    set id | id in db.scans && IsActive(db, id)
  }

  function ActiveIn(db: Database, d: DomainId): set<ScanId> {
    set id | id in db.scans && db.scans[id].domain == d && IsActive(db, id)
  }

  predicate IsPendingIn(db: Database, d: DomainId, id: ScanId) {
    IsPending(db, id) && db.scans[id].domain == d
  }

  // What ORDER BY created_at LIMIT 1 over the PENDING scans of d may return.
  predicate OldestPending(db: Database, d: DomainId, next: Option<ScanId>) {
    match next
    case None => forall id | id in db.scans :: !IsPendingIn(db, d, id)
    case Some(x) =>
      && IsPendingIn(db, d, x)
      && forall id | id in db.scans && IsPendingIn(db, d, id) :: db.scans[x].createdAt <= db.scans[id].createdAt
  }

  // The records a scan owns, in the order they were stored.
  function OwnedBy(assets: seq<Asset>, id: ScanId): seq<Record> {
    if assets == [] then []
    else
      var last := assets[|assets| - 1];
      OwnedBy(assets[..|assets| - 1], id) + if last.scan == id then [last.record] else []
  }

  // ---------- updates ----------

  // A name that is taken by now violates the unique index, and nothing is inserted.
  function AddDomain(db: Database, d: DomainId, name: string): Database {
    if NameTaken(db, name) then db else db.(domains := db.domains[d := Domain(name, Pending)])
  }

  function NewScan(d: DomainId, kind: Kind, createdAt: int): Scan {
    Scan(d, kind, Pending, createdAt, None, None, None)
  }

  function CreateScan(db: Database, id: ScanId, d: DomainId, kind: Kind, createdAt: int): Database {
    db.(scans := db.scans[id := NewScan(d, kind, createdAt)])
  }

  // mark_scan_running, mark_scan_completed and mark_scan_failed, on the row.
  function RunningRow(scan: Scan, now: int): Scan {
    scan.(status := Running, startedAt := Some(now), error := None)
  }

  function CompletedRow(scan: Scan, now: int): Scan {
    scan.(status := Completed, completedAt := Some(now), error := None)
  }

  function FailedRow(scan: Scan, error: Text, now: int): Scan {
    scan.(status := Failed, completedAt := Some(now), error := Some(error))
  }

  function SetDomainStatus(db: Database, d: DomainId, status: Status): Database {
    if d !in db.domains then db
    else db.(domains := db.domains[d := db.domains[d].(status := status)])
  }

  // A newly queued scan shows on its domain, unless another scan is RUNNING there.
  function ShowQueued(db: Database, d: DomainId): Database {
    if d in db.domains && db.domains[d].status != Running then SetDomainStatus(db, d, Pending) else db
  }

  function AssetRows(id: ScanId, d: DomainId, records: seq<Record>): (rows: seq<Asset>)
    ensures |rows| == |records|
    ensures forall i | 0 <= i < |rows| :: rows[i] == Asset(id, d, records[i])
  {
    seq(|records|, i requires 0 <= i < |records| => Asset(id, d, records[i]))
  }

  const INTERRUPTED: Text := "Interrupted by process restart; re-queued"

  function Interrupted(scan: Scan): Scan {
    if scan.status == Running
    then scan.(status := Pending, startedAt := None, error := Some(INTERRUPTED))
    else scan
  }

  function ResetInterrupted(db: Database): Database {
    db.(scans := map id | id in db.scans :: Interrupted(db.scans[id]))
  }

  function AssetsOutside(assets: seq<Asset>, d: DomainId): seq<Asset> {
    if assets == [] then []
    else
      var last := assets[|assets| - 1];
      AssetsOutside(assets[..|assets| - 1], d) + if last.domain == d then [] else [last]
  }

  // Deleting a domain cascades to its scans and assets.
  function DeleteDomain(db: Database, d: DomainId): Database {
    Database(
      map x | x in db.domains && x != d :: db.domains[x],
      map id | id in db.scans && db.scans[id].domain != d :: db.scans[id],
      AssetsOutside(db.assets, d))
  }

  // ---------- facts about the rows ----------

  // Showing a queued scan: the domain is PENDING afterwards unless it is RUNNING, and nothing else changes.
  lemma ShownExactly(db: Database, d: DomainId)
    ensures
      var db' := ShowQueued(db, d);
      && db'.scans == db.scans && db'.assets == db.assets && db'.domains.Keys == db.domains.Keys
      && (d in db.domains ==>
            && db'.domains[d].name == db.domains[d].name
            && db'.domains[d].status == if db.domains[d].status == Running then Running else Pending)
      && (forall x | x in db.domains && x != d :: db'.domains[x] == db.domains[x])
  {
  }

  // What the foreign keys of scans and assets guarantee.
  predicate ForeignKeys(db: Database) {
    && (forall id | id in db.scans :: db.scans[id].domain in db.domains)
    && (forall i | 0 <= i < |db.assets| ::
          db.assets[i].scan in db.scans && db.scans[db.assets[i].scan].domain == db.assets[i].domain)
  }

  lemma {:induction false} OwnedByConcat(a: seq<Asset>, b: seq<Asset>, id: ScanId)
    ensures OwnedBy(a + b, id) == OwnedBy(a, id) + OwnedBy(b, id)
    decreases |b|
  {
    if b == [] {
      assert a + b == a;
    } else {
      var front, last := b[..|b| - 1], b[|b| - 1];
      OwnedByConcat(a, front, id);
      assert (a + b)[..|a + b| - 1] == a + front;
      assert (a + b)[|a + b| - 1] == last;
    }
  }

  lemma {:induction false} OwnedByRows(id: ScanId, d: DomainId, records: seq<Record>, other: ScanId)
    ensures OwnedBy(AssetRows(id, d, records), other) == if other == id then records else []
    decreases |records|
  {
    if records != [] {
      var front, last := records[..|records| - 1], Asset(id, d, records[|records| - 1]);
      OwnedByRows(id, d, front, other);
      OwnedByConcat(AssetRows(id, d, front), [last], other);
      assert AssetRows(id, d, records) == AssetRows(id, d, front) + [last];
      assert [last][..0] == [];
      assert front + [last.record] == records;
    }
  }

  // Storing a result appends it to what its scan owns and to nothing else.
  lemma OwnedAfterStoring(assets: seq<Asset>, id: ScanId, d: DomainId, records: seq<Record>, other: ScanId)
    ensures OwnedBy(assets + AssetRows(id, d, records), other)
         == OwnedBy(assets, other) + if other == id then records else []
  {
    OwnedByConcat(assets, AssetRows(id, d, records), other);
    OwnedByRows(id, d, records, other);
  }

  lemma {:induction false} AssetsOutsideElements(assets: seq<Asset>, d: DomainId)
    ensures forall a :: a in AssetsOutside(assets, d) <==> a in assets && a.domain != d
    decreases |assets|
  {
    if assets != [] {
      AssetsOutsideElements(assets[..|assets| - 1], d);
      assert assets == assets[..|assets| - 1] + [assets[|assets| - 1]];
    }
  }

  // Deleting one domain leaves the assets of every scan of another domain as they were.
  lemma {:induction false} AssetsOutsideOwned(assets: seq<Asset>, d: DomainId, id: ScanId)
    requires forall i | 0 <= i < |assets| && assets[i].scan == id :: assets[i].domain != d
    ensures OwnedBy(AssetsOutside(assets, d), id) == OwnedBy(assets, id)
    decreases |assets|
  {
    if assets != [] {
      var front, last := assets[..|assets| - 1], assets[|assets| - 1];
      AssetsOutsideOwned(front, d, id);
      OwnedByConcat(AssetsOutside(front, d), if last.domain == d then [] else [last], id);
      assert OwnedBy([last], id) == if last.scan == id then [last.record] else [] by {
        assert [last][..0] == [];
      }
    }
  }

  // The assets of the other domains are kept, in their order, and no others.
  lemma {:induction false} AssetsOutsidePicks(assets: seq<Asset>, d: DomainId) returns (at: seq<nat>)
    ensures Picks(assets, AssetsOutside(assets, d), at)
    ensures forall i | 0 <= i < |assets| :: i in at <==> assets[i].domain != d
    decreases |assets|
  {
    if assets == [] {
      at := [];
    } else {
      var front, last := assets[..|assets| - 1], assets[|assets| - 1];
      var before := AssetsOutsidePicks(front, d);
      assert assets == front + [last];
      PickedBelow(front, AssetsOutside(front, d), before, |front|);
      if last.domain == d {
        at := before;
        PicksSkip(front, AssetsOutside(front, d), before, last);
      } else {
        at := before + [|front|];
        PicksTake(front, AssetsOutside(front, d), before, last);
      }
      hide Picks;
      assert forall i | 0 <= i < |front| :: assets[i] == front[i];
      assert forall i :: i in at ==> i in before || i == |front|;
    }
  }

  // Deleting a domain removes its row, all its scans and all its assets, and leaves every other row as it
  // was: the other domains and their scans, and the assets of the other domains in their order.
  lemma DeletionIsExact(db: Database, d: DomainId) returns (at: seq<nat>)
    ensures
      var db' := DeleteDomain(db, d);
      && db'.domains == db.domains - {d}
      && (forall id :: id in db'.scans <==> id in db.scans && db.scans[id].domain != d)
      && (forall id | id in db'.scans :: db'.scans[id] == db.scans[id])
      && Picks(db.assets, db'.assets, at)
      && (forall i | 0 <= i < |db.assets| :: i in at <==> db.assets[i].domain != d)
  {
    at := AssetsOutsidePicks(db.assets, d);
    hide Picks;
  }

  lemma ForeignKeysAfterDelete(db: Database, d: DomainId)
    requires ForeignKeys(db)
    ensures ForeignKeys(DeleteDomain(db, d)) && d !in DeleteDomain(db, d).domains
    ensures forall id | id in db.scans && db.scans[id].domain == d :: id !in DeleteDomain(db, d).scans
    ensures forall i | 0 <= i < |DeleteDomain(db, d).assets| :: DeleteDomain(db, d).assets[i].domain != d
    ensures forall id | id in DeleteDomain(db, d).scans :: OwnedBy(DeleteDomain(db, d).assets, id) == OwnedBy(db.assets, id)
  {
    var db' := DeleteDomain(db, d);
    AssetsOutsideElements(db.assets, d);
    forall i | 0 <= i < |db'.assets|
      ensures db'.assets[i].scan in db'.scans && db'.scans[db'.assets[i].scan].domain == db'.assets[i].domain
    {
      assert db'.assets[i] in db'.assets;
      assert db'.assets[i] in db.assets;
    }
    forall id | id in db'.scans
      ensures OwnedBy(db'.assets, id) == OwnedBy(db.assets, id)
    {
      AssetsOutsideOwned(db.assets, d, id);
    }
  }

  // The query for the oldest PENDING scan always has an answer.
  lemma {:induction false} OldestPendingExists(db: Database, d: DomainId)
    ensures exists next :: OldestPending(db, d, next)
  {
    var pending := set id | id in db.scans && IsPendingIn(db, d, id);
    if pending == {} {
      forall id | id in db.scans
        ensures !IsPendingIn(db, d, id)
      {
        assert id !in pending;
      }
      assert OldestPending(db, d, None);
    } else {
      var x := EarliestOf(db, pending);
      assert OldestPending(db, d, Some(x));
    }
  }

  lemma {:induction false} EarliestOf(db: Database, ids: set<ScanId>) returns (x: ScanId)
    requires ids != {} && forall id | id in ids :: id in db.scans
    ensures x in ids && forall id | id in ids :: db.scans[x].createdAt <= db.scans[id].createdAt
    decreases |ids|
  {
    x :| x in ids;
    var rest := ids - {x};
    if rest == {} {
      assert ids == {x};
    } else {
      var y := EarliestOf(db, rest);
      assert ids == rest + {x};
      if db.scans[y].createdAt < db.scans[x].createdAt {
        x := y;
      }
    }
  }
}
