/**
 * getLedgerByEntity: one entity's entries, optionally limited to a window
 * of creation times, newest first, one page at a time.
 */
module LedgerQuery {
  import opened Types
  import opened LedgerModel
  import opened LedgerBalance

  /**
   * The handler's inputs. page and limit are the already-parsed query
   * strings (absent means the defaults "1" and "10"); the date bounds are
   * the start and end of the requested days, each absent when not given or
   * not a valid date. The handler still adds an empty `createdAt` condition
   * when a bound was given but none is valid; that query is not modelled.
   */
  datatype EntityQuery = EntityQuery(
    entityId: Option<Id>,
    page: Option<int>,
    limit: Option<int>,
    startDate: Option<int>,
    endDate: Option<int>)

  datatype LedgerPage = LedgerPage(
    ledgers: seq<Entry>,
    currentPage: int,
    totalPages: int,
    totalItems: int,
    pageSize: int)

  /** `Math.max(n, 1)`. */
  function AtLeastOne(n: int): (r: int)
    ensures r >= 1 && r >= n
    ensures r == 1 || r == n
  {
    if n < 1 then 1 else n
  }

  predicate InWindow(e: Entry, startDate: Option<int>, endDate: Option<int>) {
    && (startDate.Some? ==> e.createdAt >= startDate.value)
    && (endDate.Some? ==> e.createdAt <= endDate.value)
  }

  /** The entries the query selects, in append order. */
  function Matching(s: seq<Entry>, id: Id, startDate: Option<int>, endDate: Option<int>): (r: seq<Entry>)
    ensures |r| <= |s|
    ensures forall e :: e in r ==> e in s && e.entityId == id && InWindow(e, startDate, endDate)
    ensures forall e :: e in s && e.entityId == id && InWindow(e, startDate, endDate) ==> e in r
  {
    if s == [] then []
    else (if s[0].entityId == id && InWindow(s[0], startDate, endDate) then [s[0]] else [])
         + Matching(s[1..], id, startDate, endDate)
  }

  function Reverse(s: seq<Entry>): (r: seq<Entry>)
    ensures |r| == |s|
    ensures forall i :: 0 <= i < |s| ==> r[i] == s[|s| - 1 - i]
  {
    if s == [] then [] else Reverse(s[1..]) + [s[0]]
  }

  /** `Math.ceil(total / limit)`. */
  function CeilDiv(total: nat, limit: int): nat
    requires limit >= 1
  {
    (total + limit - 1) / limit
  }

  function Min(a: int, b: int): int {
    if a <= b then a else b
  }

  /** `(page - 1) * limit`: the number of rows before page `page`. */
  function PageStart(page: int, limit: int): nat
    requires page >= 1 && limit >= 1
  {
    (page - 1) * limit
  }

  /** `.skip(skip).limit(limit)`: drop the first `skip` rows, then keep at most `limit`. */
  function PageOf(rows: seq<Entry>, skip: nat, limit: int): (r: seq<Entry>)
    requires limit >= 1
    ensures |r| <= limit
    ensures forall e :: e in r ==> e in rows
    ensures Min(skip, |rows|) <= Min(skip + limit, |rows|)
    ensures r == rows[Min(skip, |rows|)..Min(skip + limit, |rows|)]
  {
    var rest := if skip >= |rows| then [] else rows[skip..];
    if |rest| <= limit then rest else rest[..limit]
  }

  /** The handler, with the sort on createdAt descending taken as the reverse of append order. */
  function GetLedgerByEntity(s: seq<Entry>, q: EntityQuery): (r: Result<LedgerPage>)
    ensures q.entityId.None? <==> r == Err(MissingEntityId)
    ensures r.Ok? ==>
              && r.value.currentPage == AtLeastOne(q.page.GetOr(1))
              && r.value.pageSize == AtLeastOne(q.limit.GetOr(10))
              && |r.value.ledgers| <= r.value.pageSize
              && r.value.totalItems == |Matching(s, q.entityId.value, q.startDate, q.endDate)|
              && r.value.totalPages == CeilDiv(r.value.totalItems, r.value.pageSize)
              && (forall e :: e in r.value.ledgers ==>
                    e in s && e.entityId == q.entityId.value && InWindow(e, q.startDate, q.endDate))
    ensures r.Ok? ==>
              r.value.currentPage >= 1 && r.value.pageSize >= 1
              && r.value.ledgers == PageOf(Reverse(Matching(s, q.entityId.value, q.startDate, q.endDate)),
                                           PageStart(r.value.currentPage, r.value.pageSize), r.value.pageSize)
  {
    if q.entityId.None? then Err(MissingEntityId)
    else
      var page := AtLeastOne(q.page.GetOr(1));
      var limit := AtLeastOne(q.limit.GetOr(10));
      var rows := Reverse(Matching(s, q.entityId.value, q.startDate, q.endDate));
      Ok(LedgerPage(PageOf(rows, PageStart(page, limit), limit), page, CeilDiv(|rows|, limit), |rows|, limit))
  }

  /** Pages 1 to k of `rows`, one after the other. */
  function FirstPages(rows: seq<Entry>, limit: int, k: nat): seq<Entry>
    requires limit >= 1
  {
    if k == 0 then [] else FirstPages(rows, limit, k - 1) + PageOf(rows, PageStart(k, limit), limit)
  }

  /** totalPages is the least number of pages of `limit` entries that hold every item. */
  lemma TotalPagesIsCeiling(total: nat, limit: int)
    requires limit >= 1
    ensures CeilDiv(total, limit) * limit >= total
    ensures total > 0 ==> (CeilDiv(total, limit) - 1) * limit < total
    ensures total == 0 ==> CeilDiv(total, limit) == 0
  {
    var q := (total + limit - 1) / limit;
    var m := (total + limit - 1) % limit;
    assert total + limit - 1 == q * limit + m;
    assert q * limit == total + limit - 1 - m;
    assert (q - 1) * limit == q * limit - limit;
  }

  /** The first k pages are the first k * limit rows. */
  lemma {:induction false} FirstPagesArePrefix(rows: seq<Entry>, limit: int, k: nat)
    requires limit >= 1
    ensures FirstPages(rows, limit, k) == rows[..Min(k * limit, |rows|)]
  {
    if k > 0 {
      FirstPagesArePrefix(rows, limit, k - 1);
      var start := PageStart(k, limit);
      NextPageFollows(rows, start, limit);
      assert start == (k - 1) * limit && start + limit == k * limit;
    }
  }

  /** The rows before `skip` followed by the page that starts there are the rows before the next page. */
  lemma NextPageFollows(rows: seq<Entry>, skip: nat, limit: int)
    requires limit >= 1
    ensures rows[..Min(skip, |rows|)] + PageOf(rows, skip, limit) == rows[..Min(skip + limit, |rows|)]
  {
    var lo, hi := Min(skip, |rows|), Min(skip + limit, |rows|);
    assert rows[..lo] + rows[lo..hi] == rows[..hi];
  }

  /** Reading pages 1 to totalPages returns every selected entry exactly once, in order. */
  lemma PagesCoverEverything(s: seq<Entry>, q: EntityQuery)
    requires q.entityId.Some?
    ensures var r := GetLedgerByEntity(s, q).value;
            var rows := Reverse(Matching(s, q.entityId.value, q.startDate, q.endDate));
            FirstPages(rows, r.pageSize, r.totalPages) == rows
  {
    var r := GetLedgerByEntity(s, q).value;
    var rows := Reverse(Matching(s, q.entityId.value, q.startDate, q.endDate));
    TotalPagesIsCeiling(|rows|, r.pageSize);
    FirstPagesArePrefix(rows, r.pageSize, r.totalPages);
  }

  /** A page past the last one is empty. */
  lemma PageBeyondLastIsEmpty(s: seq<Entry>, q: EntityQuery)
    requires q.entityId.Some?
    requires GetLedgerByEntity(s, q).value.currentPage > GetLedgerByEntity(s, q).value.totalPages
    ensures GetLedgerByEntity(s, q).value.ledgers == []
  {
    var r := GetLedgerByEntity(s, q).value;
    SkipPastLastPage(r.totalItems, r.pageSize, r.currentPage);
  }

  /** A page number past totalPages skips at least every item. */
  lemma SkipPastLastPage(total: nat, limit: int, page: int)
    requires limit >= 1 && page > CeilDiv(total, limit)
    ensures (page - 1) * limit >= total
  {
    TotalPagesIsCeiling(total, limit);
    MoreRowsPerPage(CeilDiv(total, limit), page - 1, limit);
  }

  lemma MoreRowsPerPage(pages: nat, more: int, limit: int)
    requires pages <= more && limit >= 1
    ensures pages * limit <= more * limit
  {
    assert more * limit == pages * limit + (more - pages) * limit;
  }

  lemma {:induction false} MatchingKeepsOrder(s: seq<Entry>, id: Id, startDate: Option<int>, endDate: Option<int>)
    requires Ordered(s)
    ensures Ordered(Matching(s, id, startDate, endDate))
  {
    if s != [] {
      var rest := Matching(s[1..], id, startDate, endDate);
      assert Ordered(s[1..]);
      MatchingKeepsOrder(s[1..], id, startDate, endDate);
      forall k | 0 <= k < |rest| ensures s[0].createdAt < rest[k].createdAt {
        assert rest[k] in s[1..];
      }
    }
  }

  /** Strictly decreasing creation times: newest first. */
  ghost predicate Descending(s: seq<Entry>) {
    forall i, j :: 0 <= i < j < |s| ==> s[i].createdAt > s[j].createdAt
  }

  lemma ReverseIsDescending(s: seq<Entry>)
    requires Ordered(s)
    ensures Descending(Reverse(s))
  {
    var r := Reverse(s);
    forall i, j | 0 <= i < j < |r| ensures r[i].createdAt > r[j].createdAt {
      assert r[i] == s[|s| - 1 - i] && r[j] == s[|s| - 1 - j];
    }
  }

  lemma PageIsDescending(rows: seq<Entry>, skip: nat, limit: int)
    requires limit >= 1
    requires Descending(rows)
    ensures Descending(PageOf(rows, skip, limit))
  {
    SliceIsDescending(rows, Min(skip, |rows|), Min(skip + limit, |rows|));
  }

  lemma SliceIsDescending(rows: seq<Entry>, lo: int, hi: int)
    requires 0 <= lo <= hi <= |rows| && Descending(rows)
    ensures Descending(rows[lo..hi])
  {
    var r := rows[lo..hi];
    forall i, j | 0 <= i < j < |r| ensures r[i].createdAt > r[j].createdAt {
      assert r[i] == rows[lo + i] && r[j] == rows[lo + j];
    }
  }

  /** In a store whose append order is creation order, every page is sorted newest first. */
  lemma NewestFirst(s: seq<Entry>, q: EntityQuery)
    requires Ordered(s) && q.entityId.Some?
    ensures Descending(GetLedgerByEntity(s, q).value.ledgers)
  {
    var m := Matching(s, q.entityId.value, q.startDate, q.endDate);
    MatchingKeepsOrder(s, q.entityId.value, q.startDate, q.endDate);
    ReverseIsDescending(m);
    var r := GetLedgerByEntity(s, q).value;
    PageIsDescending(Reverse(m), PageStart(r.currentPage, r.pageSize), r.pageSize);
  }
}
