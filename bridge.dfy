/**
 * The two write handlers of the bridge, `PATCH /api/pages/{page_id}/status`
 * and `POST /api/search_terms`, as transitions of the tables they touch.
 * A raised exception is caught by the handler, which rolls the transaction
 * back and answers 500, whatever the exception was.
 */
module Bridge {
  import opened Wrappers
  import opened Seqs
  import opened Codec

  /** A UTC clock reading, supplied by the caller. */
  type Timestamp = int

  /** The niche a search term is filed under when the niches table is empty. */
  const DefaultNicheId := 1

  /** The status code of every error response: the handlers turn each exception into a 500. */
  const ServerErrorCode := 500

  /** A row of `pages`: the internal key `Id` and the external `Page_id`. */
  datatype Page = Page(id: int, pageId: string, name: Option<string>, euTotalReach: Option<int>)

  /** A row of `pagesProducts`: the status record of the page whose key is `pageId`; its status may be NULL. */
  datatype PagesProduct = PagesProduct(id: int, pageId: int, status: Option<int>, beneficiary: Option<string>)

  /** A row of `searchTerms`. */
  datatype SearchTerm = SearchTerm(
    nicheId: int,
    searchTerm: string,
    countryType: nat,
    searchCreativeType: int,
    lastUpdated: Timestamp,
    isUpdateable: bool,
    scrapeFully: bool)

  /** Why a handler failed; the client sees a 500 in every case. */
  datatype Cause = InvalidStatus | PageNotFound | DatabaseError

  datatype Response = Success(message: string) | ServerError(statusCode: int, cause: Cause)

  function PageIds(pages: seq<Page>): seq<string> {
    seq(|pages|, i requires 0 <= i < |pages| => pages[i].pageId)
  }

  /**
   * `SELECT Id FROM pages WHERE Page_id = ?` followed by `fetchone()`: the key
   * of the first page in table order with that identifier, if any.
   */
  function FindPageKey(pages: seq<Page>, pageId: string): (key: Option<int>)
    ensures key.None? <==> forall i :: 0 <= i < |pages| ==> pages[i].pageId != pageId
    ensures key.Some? ==>
              exists i :: 0 <= i < |pages| && pages[i].pageId == pageId && pages[i].id == key.value &&
                          forall j :: 0 <= j < i ==> pages[j].pageId != pageId
  {
    var ids := PageIds(pages);
    match IndexOf(ids, pageId)
    case Some(i) =>
      assert forall j :: 0 <= j < i ==> pages[j].pageId == ids[j];
      Some(pages[i].id)
    case None =>
      assert forall i :: 0 <= i < |pages| ==> ids[i] == pages[i].pageId && ids[i] in ids;
      None
  }

  /**
   * `UPDATE pagesProducts SET status = ? WHERE pageId = ?`: every row of the
   * page gets the new code, every other row and every other column keeps its value.
   */
  function SetStatus(rows: seq<PagesProduct>, pageKey: int, code: int): (r: seq<PagesProduct>)
    ensures |r| == |rows|
    ensures forall i :: 0 <= i < |rows| && rows[i].pageId == pageKey ==> r[i] == rows[i].(status := Some(code))
    ensures forall i :: 0 <= i < |rows| && rows[i].pageId != pageKey ==> r[i] == rows[i]
  {
    if rows == [] then []
    else
      [if rows[0].pageId == pageKey then rows[0].(status := Some(code)) else rows[0]] + SetStatus(rows[1..], pageKey, code)
  }

  /** The blind update of a page that has no status record changes nothing. */
  lemma SetStatusWithoutRecord(rows: seq<PagesProduct>, pageKey: int, code: int)
    requires forall i :: 0 <= i < |rows| ==> rows[i].pageId != pageKey
    ensures SetStatus(rows, pageKey, code) == rows
  {
  }

  /** Setting the same status twice is setting it once. */
  lemma SetStatusIdempotent(rows: seq<PagesProduct>, pageKey: int, code: int)
    ensures SetStatus(SetStatus(rows, pageKey, code), pageKey, code) == SetStatus(rows, pageKey, code)
  {
  }

  /**
   * A status written through the write path reads back, through the read
   * path, as the string the client sent.
   */
  lemma WrittenStatusReadsBack(rows: seq<PagesProduct>, pageKey: int, manualStatus: string)
    requires WriteStatusCode(manualStatus).Some?
    ensures forall i :: 0 <= i < |rows| && rows[i].pageId == pageKey ==>
              UiStatus(SetStatus(rows, pageKey, WriteStatusCode(manualStatus).value)[i].status) == manualStatus
  {
  }

  /**
   * The row `create_search_term` inserts: the first niche (or the fallback),
   * the raw search text, the country index, creative type 0, the clock
   * reading and both flags set.
   */
  function NewSearchTerm(niches: seq<int>, country: string, searchTerm: string, now: Timestamp): (t: SearchTerm)
    ensures t.nicheId in niches || (niches == [] && t.nicheId == DefaultNicheId)
    ensures niches != [] ==> t.nicheId == niches[0]
    ensures t.searchTerm == searchTerm
    ensures t.countryType < |CountryList| && t.countryType == CountryIndex(country)
    ensures t.searchCreativeType == 0 && t.lastUpdated == now
    ensures t.isUpdateable && t.scrapeFully
  {
    var nicheId := if niches != [] then niches[0] else DefaultNicheId;
    SearchTerm(nicheId, searchTerm, CountryIndex(country), 0, now, true, true)
  }

  /** The tables the two write handlers read and change, as one connection sees them. */
  class Database {
    var pages: seq<Page>
    var pagesProducts: seq<PagesProduct>
    var niches: seq<int>
    var searchTerms: seq<SearchTerm>

    constructor (pages: seq<Page>, pagesProducts: seq<PagesProduct>, niches: seq<int>, searchTerms: seq<SearchTerm>)
      ensures this.pages == pages && this.pagesProducts == pagesProducts
      ensures this.niches == niches && this.searchTerms == searchTerms
    {
      this.pages := pages;
      this.pagesProducts := pagesProducts;
      this.niches := niches;
      this.searchTerms := searchTerms;
    }

    /** Every stored status is NULL or one of the three codes the codec names. */
    predicate KnownStatuses()
      reads this
    {
      forall i :: 0 <= i < |pagesProducts| ==>
        pagesProducts[i].status.None? || pagesProducts[i].status.value in StatusMapToUi
    }

    /**
     * `update_page_status`: validate the status, find the page's key, update
     * its status records and commit. An invalid status, an unknown page and a
     * failing statement or commit (`dbFails`) all end in a rollback and a 500.
     * A page without a status record is reported updated although no row changed.
     */
    method UpdatePageStatus(pageId: string, manualStatus: string, dbFails: bool) returns (response: Response)
      modifies this
      ensures pages == old(pages) && niches == old(niches) && searchTerms == old(searchTerms)
      ensures response.ServerError? ==> response.statusCode == ServerErrorCode && pagesProducts == old(pagesProducts)
      ensures WriteStatusCode(manualStatus).None? ==> response == ServerError(ServerErrorCode, InvalidStatus)
      ensures WriteStatusCode(manualStatus).Some? && FindPageKey(pages, pageId).None? ==>
                response == ServerError(ServerErrorCode, PageNotFound)
      ensures WriteStatusCode(manualStatus).Some? && FindPageKey(pages, pageId).Some? && dbFails ==>
                response == ServerError(ServerErrorCode, DatabaseError)
      ensures response.Success? <==>
                WriteStatusCode(manualStatus).Some? && FindPageKey(pages, pageId).Some? && !dbFails
      ensures response.Success? ==>
                response.message == "Status updated successfully" &&
                pagesProducts == SetStatus(old(pagesProducts), FindPageKey(pages, pageId).value, WriteStatusCode(manualStatus).value)
      ensures old(KnownStatuses()) ==> KnownStatuses()
    {
      var committed := pagesProducts; // what a rollback returns to
      var code := WriteStatusCode(manualStatus);
      if code.None? {
        pagesProducts := committed; // db.rollback()
        return ServerError(ServerErrorCode, InvalidStatus);
      }
      var key := FindPageKey(pages, pageId);
      if key.None? {
        pagesProducts := committed; // db.rollback()
        return ServerError(ServerErrorCode, PageNotFound);
      }
      pagesProducts := SetStatus(pagesProducts, key.value, code.value);
      if dbFails {
        pagesProducts := committed; // db.rollback()
        return ServerError(ServerErrorCode, DatabaseError);
      }
      response := Success("Status updated successfully");
    }

    /**
     * `create_search_term`: resolve the country and the niche, insert one
     * search term and commit; a failing statement or commit (`dbFails`)
     * rolls back and answers 500. No other table changes, and no niche is created.
     */
    method CreateSearchTerm(country: string, searchTerm: string, now: Timestamp, dbFails: bool) returns (response: Response)
      modifies this
      ensures pages == old(pages) && pagesProducts == old(pagesProducts) && niches == old(niches)
      ensures dbFails ==> response == ServerError(ServerErrorCode, DatabaseError) && searchTerms == old(searchTerms)
      ensures !dbFails ==>
                response == Success("Search term created successfully") &&
                searchTerms == old(searchTerms) + [NewSearchTerm(niches, country, searchTerm, now)]
    {
      var committed := searchTerms; // what a rollback returns to
      var term := NewSearchTerm(niches, country, searchTerm, now);
      searchTerms := searchTerms + [term];
      if dbFails {
        searchTerms := committed; // db.rollback()
        return ServerError(ServerErrorCode, DatabaseError);
      }
      response := Success("Search term created successfully");
    }
  }
}
