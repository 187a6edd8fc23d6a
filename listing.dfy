/**
 * The page listing (`GET /api/pages`): the parameters of the listing query,
 * and the loop that turns the fetched join rows into page views, keeping the
 * first row of every page.
 */
module Listing {
  import opened Wrappers
  import opened Codec

  /** The `TOP 100` cap the query puts on the fetched rows. */
  const MaxRows := 100

  /** The literal sentinel that switches the name filter off. */
  const AllTerms := "All"

  /** A bound SQL parameter of the listing query. */
  datatype Param = IntParam(n: int) | TextParam(s: string)

  /** One fetched row of the pages / pagesProducts / ads join; every outer-joined column may be NULL. */
  datatype Row = Row(
    pagesProductsId: Option<int>,
    pageId: string,
    name: Option<string>,
    euTotalReach: Option<int>,
    status: Option<int>,
    ppBeneficiary: Option<string>,
    creativeUrl: Option<string>,
    creativeType: Option<int>,
    adSnapshotUrl: Option<string>)

  datatype TopCreative = TopCreative(mediaUrl: string, mediaType: string, snapshotUrl: string)

  /** The page view sent to the front end. */
  datatype PageData = PageData(
    pageId: string,
    name: string,
    country: string,
    totalEuReach: int,
    manualStatus: string,
    beneficiary: string,
    topCreative: Option<TopCreative>)

  /** Whether a search term adds the `pg.Name LIKE ?` filter: it must be truthy and not "All". */
  predicate NameFilterApplies(searchTerm: Option<string>) {
    TextTruthy(searchTerm) && searchTerm.value != AllTerms
  }

  /**
   * The parameters bound to the listing query, in placeholder order: the
   * status code twice (for `pp.status = ?` and `? = 0`), then the substring
   * pattern of the name filter when there is one.
   */
  method ListingParams(status: string, searchTerm: Option<string>) returns (nameFilter: bool, params: seq<Param>)
    ensures nameFilter <==> NameFilterApplies(searchTerm)
    ensures |params| == if nameFilter then 3 else 2
    ensures params[0] == params[1] == IntParam(ListingStatusCode(status))
    ensures params[0].n in StatusMapToUi
    ensures status !in StatusMapToDb ==> params[0] == IntParam(0)
    ensures nameFilter ==> params[2] == TextParam("%" + searchTerm.value + "%")
  {
    var code := ListingStatusCode(status);
    params := [IntParam(code), IntParam(code)];
    nameFilter := NameFilterApplies(searchTerm);
    if nameFilter {
      params := params + [TextParam("%" + searchTerm.value + "%")];
    }
  }

  /** The top creative of a row: present when either URL is truthy, a falsy URL becoming "". */
  function TopCreativeOf(row: Row): (c: Option<TopCreative>)
    ensures c.None? <==> !TextTruthy(row.creativeUrl) && !TextTruthy(row.adSnapshotUrl)
    ensures c.Some? ==> c.value.mediaType in {"image", "video", "carousel"}
    ensures c.Some? ==> c.value.mediaType == MediaType(row.creativeType)
    ensures c.Some? && !TextTruthy(row.creativeUrl) ==> c.value.mediaUrl == ""
    ensures c.Some? && TextTruthy(row.creativeUrl) ==> c.value.mediaUrl == row.creativeUrl.value
    ensures c.Some? && !TextTruthy(row.adSnapshotUrl) ==> c.value.snapshotUrl == ""
    ensures c.Some? && TextTruthy(row.adSnapshotUrl) ==> c.value.snapshotUrl == row.adSnapshotUrl.value
  {
    if TextTruthy(row.creativeUrl) || TextTruthy(row.adSnapshotUrl) then
      Some(TopCreative(TextOr(row.creativeUrl, ""), MediaType(row.creativeType), TextOr(row.adSnapshotUrl, "")))
    else
      None
  }

  /** The page view built from a kept row, with the defaults for NULL and empty columns. */
  function Project(row: Row): (p: PageData)
    ensures p.pageId == row.pageId
    ensures p.name != ""
    ensures p.name == if TextTruthy(row.name) then row.name.value else "Unknown"
    ensures p.country == ""
    ensures p.totalEuReach == row.euTotalReach.GetOr(0)
    ensures p.manualStatus in StatusMapToDb
    ensures p.manualStatus == UiStatus(row.status)
    ensures p.beneficiary == if TextTruthy(row.ppBeneficiary) then row.ppBeneficiary.value else ""
    ensures p.topCreative == TopCreativeOf(row)
  {
    PageData(
      row.pageId,
      TextOr(row.name, "Unknown"),
      "",
      if IntTruthy(row.euTotalReach) then row.euTotalReach.value else 0,
      UiStatus(row.status),
      TextOr(row.ppBeneficiary, ""),
      TopCreativeOf(row))
  }

  /** The page identifiers occurring in `rows`. */
  function IdsOf(rows: seq<Row>): set<string> {
    set r | r in rows :: r.pageId
  }

  /** Row `i` is the first row of its page. */
  predicate FirstOfPage(rows: seq<Row>, i: nat)
    requires i < |rows|
  {
    forall j :: 0 <= j < i ==> rows[j].pageId != rows[i].pageId
  }

  /**
   * The positions of the rows that are the first of their page, in
   * increasing order: exactly the rows the listing keeps.
   */
  function FirstOccurrences(rows: seq<Row>): (idx: seq<nat>)
    ensures |idx| <= |rows|
    ensures forall k :: 0 <= k < |idx| ==> idx[k] < |rows|
    ensures forall k, l :: 0 <= k < l < |idx| ==> idx[k] < idx[l]
    ensures forall i :: 0 <= i < |rows| ==> (i in idx <==> FirstOfPage(rows, i))
  {
    if rows == [] then []
    else
      var n := |rows| - 1;
      var prev := FirstOccurrences(rows[..n]);
      assert forall i :: 0 <= i < n ==> (FirstOfPage(rows[..n], i) <==> FirstOfPage(rows, i));
      if rows[n].pageId in IdsOf(rows[..n]) then
        assert !FirstOfPage(rows, n) by {
          var r :| r in rows[..n] && r.pageId == rows[n].pageId;
          var j :| 0 <= j < n && rows[..n][j] == r;
        }
        prev
      else
        prev + [n]
  }

  /** What the listing returns for the fetched rows: the views of the rows kept, in row order. */
  function Pages(rows: seq<Row>): (r: seq<PageData>)
    ensures |r| <= |rows|
  {
    var idx := FirstOccurrences(rows);
    seq(|idx|, k requires 0 <= k < |idx| => Project(rows[idx[k]]))
  }

  /** One more row either adds its view (the first of its page) or is skipped. */
  lemma PagesExtend(rows: seq<Row>, i: nat)
    requires i < |rows|
    ensures Pages(rows[..i + 1]) ==
              Pages(rows[..i]) + if rows[i].pageId in IdsOf(rows[..i]) then [] else [Project(rows[i])]
  {
    var pre, ext := rows[..i], rows[..i + 1];
    assert ext[..i] == pre;
    var idx, idx' := FirstOccurrences(pre), FirstOccurrences(ext);
    assert forall k :: 0 <= k < |idx| ==> idx'[k] == idx[k] && ext[idx[k]] == pre[idx[k]];
  }

  /**
   * The row loop of `get_pages`: skip a row whose page was seen, otherwise
   * record the page and append its view.
   */
  method CollectPages(rows: seq<Row>) returns (results: seq<PageData>)
    ensures results == Pages(rows)
  {
    results := [];
    var seenPages: set<string> := {};
    for i := 0 to |rows|
      invariant seenPages == IdsOf(rows[..i])
      invariant results == Pages(rows[..i])
    {
      var row := rows[i];
      PagesExtend(rows, i);
      assert rows[..i + 1] == rows[..i] + [row];
      if row.pageId in seenPages {
        continue;
      }
      seenPages := seenPages + {row.pageId};
      results := results + [Project(row)];
    }
    assert rows[..|rows|] == rows;
  }

  /** No two views of the listing share a page identifier. */
  lemma PagesDistinct(rows: seq<Row>)
    ensures forall k, l :: 0 <= k < l < |Pages(rows)| ==> Pages(rows)[k].pageId != Pages(rows)[l].pageId
  {
    var idx := FirstOccurrences(rows);
    forall k, l | 0 <= k < l < |idx|
      ensures Pages(rows)[k].pageId != Pages(rows)[l].pageId
    {
      assert idx[k] < idx[l] && idx[l] in idx;
      assert FirstOfPage(rows, idx[l]);
    }
  }

  /** Every row has a first row of its page at or before it. */
  lemma FirstRowOfPage(rows: seq<Row>, i: nat) returns (j: nat)
    requires i < |rows|
    ensures j <= i && rows[j].pageId == rows[i].pageId && FirstOfPage(rows, j)
    decreases i
  {
    if FirstOfPage(rows, i) {
      j := i;
    } else {
      var j0 :| 0 <= j0 < i && rows[j0].pageId == rows[i].pageId;
      j := FirstRowOfPage(rows, j0);
    }
  }

  /**
   * The listing holds exactly the views of the rows that are the first of
   * their page: every such view is in it, and nothing else is.
   */
  lemma PagesAreFirstRows(rows: seq<Row>)
    ensures forall i :: 0 <= i < |rows| && FirstOfPage(rows, i) ==> Project(rows[i]) in Pages(rows)
    ensures forall p :: p in Pages(rows) ==>
              exists i :: 0 <= i < |rows| && FirstOfPage(rows, i) && p == Project(rows[i])
  {
    var idx := FirstOccurrences(rows);
    forall i | 0 <= i < |rows| && FirstOfPage(rows, i)
      ensures Project(rows[i]) in Pages(rows)
    {
      var k :| 0 <= k < |idx| && idx[k] == i;
      assert Pages(rows)[k] == Project(rows[i]);
    }
    forall p | p in Pages(rows)
      ensures exists i :: 0 <= i < |rows| && FirstOfPage(rows, i) && p == Project(rows[i])
    {
      var k :| 0 <= k < |Pages(rows)| && Pages(rows)[k] == p;
      assert idx[k] in idx;
      assert FirstOfPage(rows, idx[k]) && p == Project(rows[idx[k]]);
    }
  }

  /** Every page of the fetched rows is listed, and no other page. */
  lemma PagesCoverAllPages(rows: seq<Row>)
    ensures (set p | p in Pages(rows) :: p.pageId) == IdsOf(rows)
  {
    PagesAreFirstRows(rows);
    forall id | id in IdsOf(rows)
      ensures id in (set p | p in Pages(rows) :: p.pageId)
    {
      var r :| r in rows && r.pageId == id;
      var i :| 0 <= i < |rows| && rows[i] == r;
      var j := FirstRowOfPage(rows, i);
      assert Project(rows[j]) in Pages(rows);
    }
  }

  /** When no page repeats, every row is the first of its page. */
  lemma {:induction false} FirstOccurrencesOfDistinct(rows: seq<Row>)
    requires forall i, j :: 0 <= i < j < |rows| ==> rows[i].pageId != rows[j].pageId
    ensures |FirstOccurrences(rows)| == |rows|
    ensures forall k :: 0 <= k < |rows| ==> FirstOccurrences(rows)[k] == k
  {
    if rows != [] {
      var n := |rows| - 1;
      FirstOccurrencesOfDistinct(rows[..n]);
      assert rows[n].pageId !in IdsOf(rows[..n]);
    }
  }

  /** When no page repeats, the listing is the view of every row, in order. */
  lemma PagesOfDistinctRows(rows: seq<Row>)
    requires forall i, j :: 0 <= i < j < |rows| ==> rows[i].pageId != rows[j].pageId
    ensures |Pages(rows)| == |rows|
    ensures forall k :: 0 <= k < |rows| ==> Pages(rows)[k] == Project(rows[k])
  {
    FirstOccurrencesOfDistinct(rows);
  }

  /** SQL Server's `ORDER BY eu_total_reach DESC`: larger first, NULL after every value. */
  predicate ReachAtLeast(a: Option<int>, b: Option<int>) {
    b.None? || (a.Some? && a.value >= b.value)
  }

  /** What the engine promises of the fetched rows: `TOP 100`, ordered by reach, descending. */
  predicate FetchedRows(rows: seq<Row>) {
    && |rows| <= MaxRows
    && forall i, j :: 0 <= i < j < |rows| ==> ReachAtLeast(rows[i].euTotalReach, rows[j].euTotalReach)
  }

  /** No stored reach is negative. */
  predicate NonNegativeReach(rows: seq<Row>) {
    forall i :: 0 <= i < |rows| && rows[i].euTotalReach.Some? ==> rows[i].euTotalReach.value >= 0
  }

  /**
   * On rows the engine fetched, the listing holds at most 100 views, ordered
   * by reported reach, descending (NULL reach is reported as 0, which keeps
   * the order as long as no reach is negative).
   */
  lemma PagesOfFetchedRows(rows: seq<Row>)
    requires FetchedRows(rows) && NonNegativeReach(rows)
    ensures |Pages(rows)| <= MaxRows
    ensures forall k, l :: 0 <= k < l < |Pages(rows)| ==> Pages(rows)[k].totalEuReach >= Pages(rows)[l].totalEuReach
  {
  }
}
