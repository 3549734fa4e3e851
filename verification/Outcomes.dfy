/** Exactly-once assets and the domain status, against the history of an atomic run. */
module Outcomes {
  import opened Tables
  import opened Protocol
  import opened Evolution
  import opened Safety
  import opened Atomic
  import opened Rows

  // ---------- the history ----------

  // Whole resolver results obtained by the attempts of one scan, in order.
  function Results(s: State, run: seq<AtomicStep>, id: ScanId): seq<seq<Record>> {
    if run == [] then []
    else Results(s, Front(run), id) + NewResults(AtomicFinal(s, Front(run)), Last(run), id)
  }

  function NewResults(s: State, a: AtomicStep, id: ScanId): seq<seq<Record>> {
    if a.Deliver? && a.m.scan == id && Starts(s.db, id) && a.outcome.Resolved? then [a.outcome.records] else []
  }

  // The scan of a domain that finished last.
  function LastSettled(s: State, run: seq<AtomicStep>, d: DomainId): Option<ScanId> {
    if run == [] then None
    else Settled(AtomicFinal(s, Front(run)), Last(run), d, LastSettled(s, Front(run), d))
  }

  function Settled(s: State, a: AtomicStep, d: DomainId, last: Option<ScanId>): Option<ScanId> {
    if Settles(s, a) && s.db.scans[a.m.scan].domain == d then Some(a.m.scan) else last
  }

  // ---------- exactly-once assets ----------

  // A COMPLETED scan owns the one result its attempts ever obtained; any other scan obtained none.
  ghost predicate OwnsItsResult(s: State, results: seq<seq<Record>>, id: ScanId) {
    && (id !in s.issued ==> results == [])
    && (id in s.db.scans ==>
          results == if s.db.scans[id].status == Completed then [OwnedBy(s.db.assets, id)] else [])
  }

  lemma DeliverKeepsResult(s: State, a: AtomicStep, id: ScanId, results: seq<seq<Record>>)
    requires Tidy(s) && AtomicEnabled(s, a) && a.Deliver?
    requires OwnsItsResult(s, results, id)
    ensures OwnsItsResult(AtomicDo(s, a), results + NewResults(s, a, id), id)
  {
    hide Tidy, ForeignKeys, OwnedBy, AtomicDo, AtomicEnabled;
    TidyTables(s);
    DeliverEffect(s, a);
    DeliverKeys(s, a.m, a.outcome, a.started, a.ended);
    if id in s.db.scans {
      DeliverScan(s, a.m, a.outcome, a.started, a.ended, id);
      TidyOwns(s, id);
    }
    hide DeliverDatabase;
    if id == a.m.scan && Starts(s.db, id) && a.outcome.Resolved? {
      assert OwnedBy(s.db.assets, id) + a.outcome.records == a.outcome.records;
      assert results + NewResults(s, a, id) == [a.outcome.records];
    } else {
      assert results + NewResults(s, a, id) == results;
    }
  }

  lemma ApiKeepsResult(s: State, a: ApiStep, id: ScanId, results: seq<seq<Record>>)
    requires ForeignKeys(s.db) && AllIssued(s) && ApiEnabled(s, a)
    requires OwnsItsResult(s, results, id)
    ensures OwnsItsResult(DoApi(s, a), results, id)
  {
    hide OwnedBy, CallsAfter;
    if id in ApiDatabase(s.db, a).scans {
      ApiKeepsOwned(s.db, a, id);
      ApiStatus(s.db, a, id);
    }
    hide ApiDatabase;
  }

  lemma ApiStatus(db: Database, a: ApiStep, id: ScanId)
    requires a.InsertInitial? || a.InsertManual? ==> a.id !in db.scans
    requires id in ApiDatabase(db, a).scans
    ensures id in db.scans && !Unfinished(db.scans[id].status) ==> ApiDatabase(db, a).scans[id] == db.scans[id]
    ensures id in db.scans && Unfinished(db.scans[id].status) ==> Unfinished(ApiDatabase(db, a).scans[id].status)
    ensures id !in db.scans ==> ApiDatabase(db, a).scans[id].status == Pending && id in IssuedBy(a)
  {
  }

  lemma CreateInitialKeepsResult(s: State, a: AtomicStep, id: ScanId, results: seq<seq<Record>>)
    requires ForeignKeys(s.db) && AllIssued(s) && AtomicEnabled(s, a) && a.CreateInitial?
    requires OwnsItsResult(s, results, id)
    ensures OwnsItsResult(AtomicDo(s, a), results, id)
  {
    CreateInitialEffect(s, a);
    hide AtomicDo, AtomicEnabled, OwnedBy;
  }

  lemma StepKeepsResult(s: State, a: AtomicStep, id: ScanId, results: seq<seq<Record>>)
    requires Tidy(s) && AtomicEnabled(s, a)
    requires OwnsItsResult(s, results, id)
    ensures OwnsItsResult(AtomicDo(s, a), results + NewResults(s, a, id), id)
  {
    hide AtomicDo, AtomicEnabled, OwnsItsResult;
    assert !a.Deliver? ==> results + NewResults(s, a, id) == results;
    match a
    case Deliver(_, _, _, _, _) => DeliverKeepsResult(s, a, id, results);
    case CreateInitial(_, _, _, _) => CreateInitialKeepsResult(s, a, id, results);
    case Plain(step) =>
      PlainEffect(s, a);
      PlainKeepsResult(s, a, id, results);
  }

  lemma PlainKeepsResult(s: State, a: AtomicStep, id: ScanId, results: seq<seq<Record>>)
    requires Tidy(s) && AtomicEnabled(s, a) && a.Plain?
    requires OwnsItsResult(s, results, id)
    ensures OwnsItsResult(AtomicDo(s, a), results, id)
  {
    PlainEffect(s, a);
    hide AtomicDo, AtomicEnabled, DoApi, OwnedBy;
    if a.step.Api? {
      ApiKeepsResult(s, a.step.a, id, results);
    }
  }

  // Whatever retries, duplicates, recoveries and deletions occurred: a scan is COMPLETED when its
  // attempts obtained exactly one result, and it owns precisely that; otherwise it owns nothing.
  lemma {:induction false} AssetsExactlyOnce(maxRetries: nat, run: seq<AtomicStep>, id: ScanId)
    requires AtomicValid(Init(maxRetries), run)
    ensures
      var s := AtomicFinal(Init(maxRetries), run);
      && OwnsItsResult(s, Results(Init(maxRetries), run, id), id)
      && (id in s.db.scans && s.db.scans[id].status != Completed ==> OwnedBy(s.db.assets, id) == [])
    decreases |run|
  {
    hide AtomicDo, AtomicEnabled, NewResults, Tidy;
    var s := Init(maxRetries);
    InitTidy(maxRetries);
    if run != [] {
      hide OwnsItsResult, Init;
      AssetsExactlyOnce(maxRetries, Front(run), id);
      RunKeepsTidy(s, Front(run));
      StepKeepsResult(AtomicFinal(s, Front(run)), Last(run), id, Results(s, Front(run), id));
      RunKeepsTidy(s, run);
      TidyOwns(AtomicFinal(s, run), id);
    }
  }

  lemma TidyOwns(s: State, id: ScanId)
    requires Tidy(s)
    ensures id in s.db.scans && s.db.scans[id].status != Completed ==> OwnedBy(s.db.assets, id) == []
  {
  }

  // ---------- the domain status ----------

  // A COMPLETED or FAILED domain shows the outcome of the scan that finished last.
  ghost predicate ShowsLast(db: Database, d: DomainId, last: Option<ScanId>) {
    d in db.domains && !Unfinished(db.domains[d].status) ==>
      && last.Some? && last.value in db.scans
      && db.scans[last.value].domain == d && db.scans[last.value].status == db.domains[d].status
  }

  lemma DeliverShowsLast(s: State, a: AtomicStep, d: DomainId, last: Option<ScanId>)
    requires Tidy(s) && AtomicEnabled(s, a) && a.Deliver? && ShowsLast(s.db, d, last)
    ensures ShowsLast(AtomicDo(s, a).db, d, Settled(s, a, d, last))
  {
    hide Tidy, ForeignKeys, OwnedBy, AtomicDo, AtomicEnabled;
    TidyTables(s);
    DeliverEffect(s, a);
    hide DeliverDatabase;
    DeliverKeys(s, a.m, a.outcome, a.started, a.ended);
    if d in s.db.domains {
      DeliverDomain(s, a.m, a.outcome, a.started, a.ended, d);
    }
    if a.m.scan in s.db.scans {
      DeliverScan(s, a.m, a.outcome, a.started, a.ended, a.m.scan);
    }
    if last.Some? && last.value in s.db.scans {
      DeliverScan(s, a.m, a.outcome, a.started, a.ended, last.value);
    }
  }

  lemma ApiShowsLast(s: State, a: ApiStep, d: DomainId, last: Option<ScanId>)
    requires ForeignKeys(s.db) && AllIssued(s) && ApiEnabled(s, a) && ShowsLast(s.db, d, last)
    ensures ShowsLast(ApiDatabase(s.db, a), d, last)
  {
  }

  lemma OtherShowsLast(s: State, a: AtomicStep, d: DomainId, last: Option<ScanId>)
    requires Tidy(s) && AtomicEnabled(s, a) && !a.Deliver? && ShowsLast(s.db, d, last)
    ensures ShowsLast(AtomicDo(s, a).db, d, last)
  {
    if a.CreateInitial? {
      CreateInitialEffect(s, a);
      hide AtomicDo, AtomicEnabled;
    } else {
      PlainEffect(s, a);
      hide AtomicDo, AtomicEnabled, ApiDatabase;
      if a.step.Api? {
        ApiShowsLast(s, a.step.a, d, last);
      }
    }
  }

  lemma {:induction false} RunShowsLast(maxRetries: nat, run: seq<AtomicStep>, d: DomainId)
    requires AtomicValid(Init(maxRetries), run)
    ensures ShowsLast(AtomicFinal(Init(maxRetries), run).db, d, LastSettled(Init(maxRetries), run, d))
    decreases |run|
  {
    hide AtomicDo, AtomicEnabled, Settled, Tidy;
    var s := Init(maxRetries);
    InitTidy(maxRetries);
    if run != [] {
      hide ShowsLast, Init;
      RunShowsLast(maxRetries, Front(run), d);
      RunKeepsTidy(s, Front(run));
      var t := AtomicFinal(s, Front(run));
      if Last(run).Deliver? {
        DeliverShowsLast(t, Last(run), d, LastSettled(s, Front(run), d));
      } else {
        OtherShowsLast(t, Last(run), d, LastSettled(s, Front(run), d));
        OtherSettlesNothing(t, Last(run), d, LastSettled(s, Front(run), d));
      }
    }
  }

  lemma OtherSettlesNothing(s: State, a: AtomicStep, d: DomainId, last: Option<ScanId>)
    ensures !a.Deliver? ==> Settled(s, a, d, last) == last
  {
  }

  // The status of a domain mirrors its scans: RUNNING while one of them runs, and the outcome of the
  // scan that finished last when none is unfinished.
  lemma {:induction false} DomainMirrorsScans(maxRetries: nat, run: seq<AtomicStep>, id: ScanId)
    requires AtomicValid(Init(maxRetries), run)
    ensures
      var db := AtomicFinal(Init(maxRetries), run).db;
      id in db.scans ==>
        var d := db.scans[id].domain;
        && d in db.domains
        && (IsRunning(db, id) ==> db.domains[d].status == Running)
        && ShowsLast(db, d, LastSettled(Init(maxRetries), run, d))
        && (!HasActive(db, d) ==> !Unfinished(db.domains[d].status))
  {
    InitTidy(maxRetries);
    RunKeepsTidy(Init(maxRetries), run);
    hide AtomicFinal, AtomicValid, Init, ShowsLast;
    if id in AtomicFinal(Init(maxRetries), run).db.scans {
      RunShowsLast(maxRetries, run, AtomicFinal(Init(maxRetries), run).db.scans[id].domain);
    }
  }
}
