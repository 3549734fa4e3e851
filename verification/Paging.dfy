/** Offset pagination over a fixed query order, and the asset list that uses it. */
module Paging {
  import opened Sequences
  import opened Tables

  function Max(a: int, b: int): int { if a < b then b else a }

  function Min(a: int, b: int): int { if a < b then a else b }

  // OFFSET and LIMIT.
  function Slice<T>(items: seq<T>, offset: nat, limit: nat): seq<T> {
    items[Min(offset, |items|)..Min(offset + limit, |items|)]
  }

  function Offset(page: nat, limit: nat): nat
    requires page >= 1
  {
    (page - 1) * limit
  }

  function ClampPage(page: int): nat { Max(page, 1) }

  function ClampLimit(limit: int, maxPageSize: nat): nat
    requires maxPageSize >= 1
  {
    Min(Max(limit, 1), maxPageSize)
  }

  // The page that a request gets, after clamping.
  function Page<T>(items: seq<T>, page: int, limit: int, maxPageSize: nat): seq<T>
    requires maxPageSize >= 1
  {
    var l := ClampLimit(limit, maxPageSize);
    Slice(items, Offset(ClampPage(page), l), l)
  }

  function PageCount(total: nat, limit: int, maxPageSize: nat): nat
    requires maxPageSize >= 1
  {
    var l := ClampLimit(limit, maxPageSize);
    (total + l - 1) / l
  }

  // Pages 1 to n, one after the other.
  function Pages<T>(items: seq<T>, limit: int, maxPageSize: nat, n: nat): seq<T>
    requires maxPageSize >= 1
  {
    if n == 0 then [] else Pages(items, limit, maxPageSize, n - 1) + Page(items, n, limit, maxPageSize)
  }

  function PageLengths<T>(items: seq<T>, limit: int, maxPageSize: nat, n: nat): nat
    requires maxPageSize >= 1
  {
    if n == 0 then 0 else PageLengths(items, limit, maxPageSize, n - 1) + |Page(items, n, limit, maxPageSize)|
  }

  lemma {:induction false} PagesArePrefix<T>(items: seq<T>, limit: int, maxPageSize: nat, n: nat)
    requires maxPageSize >= 1
    ensures Pages(items, limit, maxPageSize, n) == items[..Min(Offset(n + 1, ClampLimit(limit, maxPageSize)), |items|)]
    ensures PageLengths(items, limit, maxPageSize, n) == |Pages(items, limit, maxPageSize, n)|
    decreases n
  {
    var l := ClampLimit(limit, maxPageSize);
    OffsetStep(n, l);
    hide Offset, ClampLimit;
    if n > 0 {
      PagesArePrefix(items, limit, maxPageSize, n - 1);
      assert Page(items, n, limit, maxPageSize) == Slice(items, Offset(n, l), l);
      hide Page, Slice;
      PrefixThenSlice(items, Offset(n, l), l);
    }
  }

  lemma OffsetStep(n: nat, l: nat)
    ensures Offset(n + 1, l) == if n == 0 then 0 else Offset(n, l) + l
  {
  }

  lemma PrefixThenSlice<T>(items: seq<T>, offset: nat, limit: nat)
    ensures items[..Min(offset, |items|)] + Slice(items, offset, limit) == items[..Min(offset + limit, |items|)]
  {
  }

  lemma OffsetPastEnd(total: nat, l: nat, page: nat)
    requires l >= 1 && page > (total + l - 1) / l && page > 1
    ensures total <= Offset(page, l)
  {
    CeilingBounds(total, l);
    Monotone((total + l - 1) / l, page - 1, l);
  }

  lemma OffsetBeforeEnd(total: nat, l: nat, page: nat)
    requires l >= 1 && 1 <= page <= (total + l - 1) / l
    ensures Offset(page, l) < total
  {
    var n := (total + l - 1) / l;
    CeilingBounds(total, l);
    Monotone(page - 1, n - 1, l);
    assert (n - 1) * l == n * l - l;
  }

  lemma PagePastEnd<T>(items: seq<T>, page: int, limit: int, maxPageSize: nat)
    requires maxPageSize >= 1 && page > PageCount(|items|, limit, maxPageSize) && page > 1
    ensures Page(items, page, limit, maxPageSize) == []
  {
    OffsetPastEnd(|items|, ClampLimit(limit, maxPageSize), page);
    hide Offset, ClampLimit, PageCount;
  }

  lemma PageBeforeEnd<T>(items: seq<T>, page: int, limit: int, maxPageSize: nat)
    requires maxPageSize >= 1 && 1 <= page <= PageCount(|items|, limit, maxPageSize)
    ensures Page(items, page, limit, maxPageSize) != []
  {
    OffsetBeforeEnd(|items|, ClampLimit(limit, maxPageSize), page);
    LimitPositive(limit, maxPageSize);
    hide Offset, ClampLimit, PageCount;
    assert |Page(items, page, limit, maxPageSize)| > 0;
  }

  lemma LimitPositive(limit: int, maxPageSize: nat)
    requires maxPageSize >= 1
    ensures ClampLimit(limit, maxPageSize) >= 1
  {
  }

  // The pages, in order, are the sequence: nothing is missing, repeated or out of place, every later
  // page is empty, no earlier one is, and the page lengths add up to the total.
  lemma {:induction false} PagesPartition<T>(items: seq<T>, limit: int, maxPageSize: nat)
    requires maxPageSize >= 1
    ensures
      var n := PageCount(|items|, limit, maxPageSize);
      && Pages(items, limit, maxPageSize, n) == items
      && PageLengths(items, limit, maxPageSize, n) == |items|
      && (forall page | page > n && page > 1 :: Page(items, page, limit, maxPageSize) == [])
      && (forall page | 1 <= page <= n :: Page(items, page, limit, maxPageSize) != [])
  {
    var l, n := ClampLimit(limit, maxPageSize), PageCount(|items|, limit, maxPageSize);
    PagesArePrefix(items, limit, maxPageSize, n);
    CeilingBounds(|items|, l);
    assert items[..|items|] == items;
    hide Page, Pages, PageLengths, ClampLimit;
    forall page | page > n && page > 1
      ensures Page(items, page, limit, maxPageSize) == []
    {
      PagePastEnd(items, page, limit, maxPageSize);
    }
    forall page | 1 <= page <= n
      ensures Page(items, page, limit, maxPageSize) != []
    {
      PageBeforeEnd(items, page, limit, maxPageSize);
    }
  }

  lemma CeilingBounds(total: nat, l: nat)
    requires l >= 1
    ensures
      var n := (total + l - 1) / l;
      total <= n * l < total + l
  {
  }

  lemma Monotone(a: int, b: int, l: nat)
    requires a <= b
    ensures a * l <= b * l
  {
  }

  // A limit out of range is replaced by the nearest one in range.
  lemma ClampingIsNearest(limit: int, maxPageSize: nat, other: int)
    requires maxPageSize >= 1 && 1 <= other <= maxPageSize
    ensures
      var l := ClampLimit(limit, maxPageSize);
      1 <= l <= maxPageSize && Max(l - limit, limit - l) <= Max(other - limit, limit - other)
  {
  }

  // ---------- the asset list ----------

  type AssetId = nat

  // A row of the asset table with its id, of which the scan lifecycle makes no use.
  datatype Row = Row(id: AssetId, asset: Asset)

  // The name of a domain, or its id if its row is gone.
  datatype Shown = Named(name: string) | Unnamed(id: DomainId)

  datatype AssetResponse = AssetResponse(id: AssetId, domain: Shown, rtype: AssetType, value: string)

  datatype AssetList = NotFound | Listed(items: seq<AssetResponse>, page: nat, limit: nat, total: nat)

  predicate Selected(row: Row, d: Option<DomainId>, t: Option<AssetType>) {
    (d.Some? ==> row.asset.domain == d.value) && (t.Some? ==> row.asset.record.rtype == t.value)
  }

  function Select(rows: seq<Row>, d: Option<DomainId>, t: Option<AssetType>): seq<Row> {
    if rows == [] then []
    else if Selected(rows[|rows| - 1], d, t) then Select(rows[..|rows| - 1], d, t) + [rows[|rows| - 1]]
    else Select(rows[..|rows| - 1], d, t)
  }

  // `at` is, in increasing order, exactly the indices of the rows that a request for domain d and type t is
  // to show; either filter may be left out.
  ghost predicate Matching(rows: seq<Row>, at: seq<nat>, d: Option<DomainId>, t: Option<AssetType>) {
    && (forall j, k | 0 <= j < k < |at| :: at[j] < at[k])
    && (forall k | 0 <= k < |at| :: at[k] < |rows|)
    && forall i | 0 <= i < |rows| :: i in at <==>
         (d == None || rows[i].asset.domain == d.value) && (t == None || rows[i].asset.record.rtype == t.value)
  }

  predicate IsItem(domains: map<DomainId, Domain>, row: Row, item: AssetResponse) {
    && item.id == row.id && item.rtype == row.asset.record.rtype && item.value == row.asset.record.value
    && (if row.asset.domain in domains then item.domain == Named(domains[row.asset.domain].name)
        else item.domain == Unnamed(row.asset.domain))
  }

  // The items are the rows to show from position `offset` on, `limit` of them if there are so many.
  ghost predicate ShowsPage(domains: map<DomainId, Domain>, rows: seq<Row>, items: seq<AssetResponse>,
                            offset: nat, limit: nat, d: Option<DomainId>, t: Option<AssetType>) {
    exists at ::
      && Matching(rows, at, d, t)
      && |items| == (if |at| <= offset then 0 else if |at| < offset + limit then |at| - offset else limit)
      && forall k | 0 <= k < |items| :: IsItem(domains, rows[at[offset + k]], items[k])
  }

  function MatchingIndices(rows: seq<Row>, d: Option<DomainId>, t: Option<AssetType>): set<nat> {
    set i: nat | i < |rows| &&
      (d == None || rows[i].asset.domain == d.value) && (t == None || rows[i].asset.record.rtype == t.value)
  }

  lemma {:induction false} SelectPicks(rows: seq<Row>, d: Option<DomainId>, t: Option<AssetType>) returns (at: seq<nat>)
    ensures Picks(rows, Select(rows, d, t), at) && Matching(rows, at, d, t)
    decreases |rows|
  {
    if rows == [] {
      at := [];
    } else {
      var front, last := rows[..|rows| - 1], rows[|rows| - 1];
      var before := SelectPicks(front, d, t);
      assert rows == front + [last];
      at := if Selected(last, d, t) then before + [|front|] else before;
      MatchingNext(front, before, last, d, t);
      hide Matching, Picks;
      if Selected(last, d, t) {
        PicksTake(front, Select(front, d, t), before, last);
      } else {
        PicksSkip(front, Select(front, d, t), before, last);
      }
    }
  }

  lemma MatchingNext(rows: seq<Row>, at: seq<nat>, row: Row, d: Option<DomainId>, t: Option<AssetType>)
    requires Matching(rows, at, d, t)
    ensures Matching(rows + [row], if Selected(row, d, t) then at + [|rows|] else at, d, t)
  {
    var at' := if Selected(row, d, t) then at + [|rows|] else at;
    assert forall i :: i in at' <==> i in at || (Selected(row, d, t) && i == |rows|);
    assert |rows| !in at;
  }

  lemma {:induction false} CountIsSize(rows: seq<Row>, d: Option<DomainId>, t: Option<AssetType>)
    ensures CountSelected(rows, d, t) == |MatchingIndices(rows, d, t)|
    decreases |rows|
  {
    if rows != [] {
      var n := |rows| - 1;
      CountIsSize(rows[..n], d, t);
      var before := MatchingIndices(rows[..n], d, t);
      assert MatchingIndices(rows, d, t) == if Selected(rows[n], d, t) then before + {n} else before;
    }
  }

  // SELECT count(*) with the same filters.
  function CountSelected(rows: seq<Row>, d: Option<DomainId>, t: Option<AssetType>): nat {
    if rows == [] then 0
    else CountSelected(rows[..|rows| - 1], d, t) + if Selected(rows[|rows| - 1], d, t) then 1 else 0
  }

  lemma {:induction false} SelectKeeps(rows: seq<Row>, d: Option<DomainId>, t: Option<AssetType>, row: Row)
    ensures multiset(Select(rows, d, t))[row] == if Selected(row, d, t) then multiset(rows)[row] else 0
    ensures |Select(rows, d, t)| == CountSelected(rows, d, t)
    decreases |rows|
  {
    if rows != [] {
      SelectKeeps(rows[..|rows| - 1], d, t, row);
      assert rows == rows[..|rows| - 1] + [rows[|rows| - 1]];
    }
  }

  // The count does not depend on the order in which the page query returns the rows.
  lemma CountIgnoresOrder(table: seq<Row>, rows: seq<Row>, d: Option<DomainId>, t: Option<AssetType>)
    requires multiset(rows) == multiset(table)
    ensures CountSelected(table, d, t) == |Select(rows, d, t)|
  {
    forall row
      ensures multiset(Select(rows, d, t))[row] == multiset(Select(table, d, t))[row]
    {
      SelectKeeps(rows, d, t, row);
      SelectKeeps(table, d, t, row);
    }
    assert multiset(Select(rows, d, t)) == multiset(Select(table, d, t));
    assert |multiset(Select(rows, d, t))| == |Select(rows, d, t)|;
    assert |multiset(Select(table, d, t))| == |Select(table, d, t)|;
    SelectKeeps(table, d, t, Row(0, Asset(0, 0, Record(A, ""))));
  }

  function Respond(domains: map<DomainId, Domain>, row: Row): AssetResponse {
    AssetResponse(
      row.id,
      if row.asset.domain in domains then Named(domains[row.asset.domain].name) else Unnamed(row.asset.domain),
      row.asset.record.rtype, row.asset.record.value)
  }

  function RespondAll(domains: map<DomainId, Domain>, rows: seq<Row>): (r: seq<AssetResponse>)
    ensures |r| == |rows|
    ensures forall i | 0 <= i < |rows| :: r[i] == Respond(domains, rows[i])
  {
    seq(|rows|, i requires 0 <= i < |rows| => Respond(domains, rows[i]))
  }

  lemma SliceOfResponses(domains: map<DomainId, Domain>, rows: seq<Row>, offset: nat, limit: nat)
    ensures RespondAll(domains, Slice(rows, offset, limit)) == Slice(RespondAll(domains, rows), offset, limit)
  {
  }

  lemma ClampsTo(page: int, limit: int, maxPageSize: nat)
    requires maxPageSize >= 1
    ensures ClampPage(page) == if page < 1 then 1 else page
    ensures ClampLimit(limit, maxPageSize) == if limit < 1 then 1 else if maxPageSize < limit then maxPageSize else limit
  {
  }

  lemma SliceShowsPage(domains: map<DomainId, Domain>, rows: seq<Row>, offset: nat, limit: nat,
                       d: Option<DomainId>, t: Option<AssetType>)
    ensures ShowsPage(domains, rows, Slice(RespondAll(domains, Select(rows, d, t)), offset, limit), offset, limit, d, t)
  {
    var at := SelectPicks(rows, d, t);
    hide Select, Matching;
    var items := Slice(RespondAll(domains, Select(rows, d, t)), offset, limit);
    forall k | 0 <= k < |items|
      ensures IsItem(domains, rows[at[offset + k]], items[k])
    {
      assert items[k] == Respond(domains, Select(rows, d, t)[offset + k]);
    }
  }

  lemma PageOfResponses(domains: map<DomainId, Domain>, rows: seq<Row>, page: int, limit: int, maxPageSize: nat,
                        d: Option<DomainId>, t: Option<AssetType>)
    requires maxPageSize >= 1
    ensures
      var p, l := ClampPage(page), ClampLimit(limit, maxPageSize);
      var responses := RespondAll(domains, Slice(Select(rows, d, t), Offset(p, l), l));
      && ShowsPage(domains, rows, responses, Offset(p, l), l, d, t)
      && responses == Page(RespondAll(domains, Select(rows, d, t)), page, limit, maxPageSize)
  {
    var p, l := ClampPage(page), ClampLimit(limit, maxPageSize);
    SliceOfResponses(domains, Select(rows, d, t), Offset(p, l), l);
    SliceShowsPage(domains, rows, Offset(p, l), l, d, t);
    hide ShowsPage, Select, Slice, ClampPage, ClampLimit, Offset, RespondAll;
  }

  // `rows` is the table in the order of the query; `table` is what the count runs over.
  method ListAssets(domains: map<DomainId, Domain>, table: seq<Row>, rows: seq<Row>, page: int, limit: int, maxPageSize: nat,
                    d: Option<DomainId>, t: Option<AssetType>) returns (list: AssetList)
    requires maxPageSize >= 1
    ensures list.NotFound? <==> d.Some? && d.value !in domains
    ensures list.Listed? ==>
      && list.page == (if page < 1 then 1 else page)
      && list.limit == (if limit < 1 then 1 else if maxPageSize < limit then maxPageSize else limit)
      && ShowsPage(domains, rows, list.items, Offset(list.page, list.limit), list.limit, d, t)
      && list.total == |MatchingIndices(table, d, t)|
    ensures list.Listed? ==>
      && list.items == Page(RespondAll(domains, Select(rows, d, t)), page, limit, maxPageSize)
      && list.total == CountSelected(table, d, t)
      && list.page == ClampPage(page) && list.limit == ClampLimit(limit, maxPageSize)
  {
    if d.Some? && d.value !in domains {
      return NotFound;
    }
    var p, l := ClampPage(page), ClampLimit(limit, maxPageSize);
    hide Offset, Slice, Select, CountSelected, Respond, ClampLimit, ClampPage, ShowsPage, MatchingIndices, Min, Max, Page;
    var items := Slice(Select(rows, d, t), Offset(p, l), l);
    var total := CountSelected(table, d, t);
    var responses: seq<AssetResponse> := [];
    for i := 0 to |items|
      invariant |responses| == i
      invariant forall k | 0 <= k < i :: responses[k] == Respond(domains, items[k])
    {
      responses := responses + [Respond(domains, items[i])];
    }
    assert responses == RespondAll(domains, items);
    PageOfResponses(domains, rows, page, limit, maxPageSize, d, t);
    ClampsTo(page, limit, maxPageSize);
    CountIsSize(table, d, t);
    return Listed(responses, p, l, total);
  }

  // Walking all pages of a filtered list shows every selected asset once, in the query's order, and the
  // total is their number although the count runs over the table in any order.
  lemma {:induction false} AssetPagesPartition(
      domains: map<DomainId, Domain>, table: seq<Row>, rows: seq<Row>, limit: int, maxPageSize: nat, d: Option<DomainId>, t: Option<AssetType>)
    requires maxPageSize >= 1 && multiset(rows) == multiset(table)
    ensures
      var all := RespondAll(domains, Select(rows, d, t));
      && CountSelected(table, d, t) == |all|
      && Pages(all, limit, maxPageSize, PageCount(CountSelected(table, d, t), limit, maxPageSize)) == all
      && exists at ::
           && Matching(rows, at, d, t) && |at| == |all| == |MatchingIndices(table, d, t)|
           && forall k | 0 <= k < |all| :: IsItem(domains, rows[at[k]], all[k])
  {
    CountIgnoresOrder(table, rows, d, t);
    CountIsSize(table, d, t);
    var all := RespondAll(domains, Select(rows, d, t));
    PagesPartition(all, limit, maxPageSize);
    var at := SelectPicks(rows, d, t);
    hide Select, Matching, CountSelected, MatchingIndices, Pages;
    forall k | 0 <= k < |all|
      ensures IsItem(domains, rows[at[k]], all[k])
    {
      assert all[k] == Respond(domains, Select(rows, d, t)[k]);
    }
  }
}
