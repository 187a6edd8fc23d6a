# NicheBreaker API bridge — a verified model

The bridge is a small FastAPI service in front of a SQL Server schema. It lists
"pages" with their reach and one creative each, lets the front end change a
page's manual review status, and registers search terms for a separate
ingestion pipeline. All of its logic is in `main.py`. This project models the
deterministic part of that file in Dafny:

- **Codec** (`codec.dfy`): the status tables in both directions, the
  creative-type table, the 248-entry country vocabulary, and the
  case-insensitive country lookup that falls back to index 0 ("ALL").
  `Seqs.IndexOf` (`seqs.dfy`) is Python's `list.index`, with `None` standing
  for its `ValueError`.
- **Listing** (`listing.dfy`): the parameters bound to the listing query, and
  the loop that turns the fetched join rows into page views. The loop keeps
  the first row of every page and applies Python's truthiness defaults.
  `CollectPages` is the loop: a set of seen pages and a growing result list.
  It is proved equal to `Pages`, which is defined from the first-occurrence
  positions `FirstOccurrences`. The lemmas prove the following about `Pages`:
  no page appears twice; it holds exactly the views of the first rows; it
  covers every page fetched; it keeps row order; and on the engine's
  `TOP 100 ... ORDER BY eu_total_reach DESC` rows it holds at most 100 views,
  sorted by reach as long as no stored reach is negative.
- **Bridge** (`bridge.dfy`): the two write handlers as methods of a
  `Database` class. The class holds the `pages`, `pagesProducts`, `niches`
  and `searchTerms` tables as sequences. A raised exception is a rollback to
  the tables as they were before the request.
  `dbFails` stands for any failing `execute` or `commit`.
- **Wrappers** (`wrappers.dfy`): `Option` for `None`/`NULL`, and Python
  truthiness for optional strings and integers.

Behaviour of `main.py` worth noting:

- The `HTTPException(400, "Invalid status")` and `HTTPException(404, "Page not
  found")` of `update_page_status` are raised inside its `try`. The generic
  `except Exception` catches them, rolls back and re-raises them as 500. So
  the client never sees a 400 or a 404. `UpdatePageStatus` therefore answers
  `ServerError(500, cause)` in every error case, and the cause is kept only
  for the reader.
- A top creative is produced when either URL is *truthy*. A URL stored as
  `""` counts as missing, just like `NULL`.
- The name filter is skipped for an empty search term as well as for
  `None` and `"All"`.
- `beneficiary` is never null in a page view. A NULL becomes `""`.
- The niche of a new search term is the first row of `niches` in table
  order. The engine itself guarantees no order here.
- A page that has no `pagesProducts` row is reported updated, but nothing
  changes (`SetStatusWithoutRecord`). This is the behaviour as written.

## Model

| member | source | states |
|---|---|---|
| `Codec.UiStatus` | main.py:119 | a stored status reads as "saved" iff it is 11, "deleted" iff 13, and "unprocessed" otherwise (including NULL); the result is always one of the three names |
| `Codec.ListingStatusCode` | main.py:67 | the listing filter code is 11 iff the status is "saved", 13 iff "deleted", and 0 for every other string (unknown strings are not rejected) |
| `Codec.WriteStatusCode` | main.py:144-146 | the write path yields a code exactly for the three names, and that code reads back as the same name |
| `Codec.StatusRoundTrip` | main.py:20-30 | the two status tables are inverse bijections between {0, 11, 13} and the three names |
| `Codec.MediaType` | main.py:112 | the media type is "video" iff the code is 1, "carousel" iff 2, and "image" for 0, NULL and every other code; it is always a value of the creative-type table |
| `Codec.AsciiUpper` | main.py:195 | upper-casing keeps the length, turns every lower-case ASCII letter into its upper-case counterpart, and keeps every other character |
| `Codec.AsciiUpperIdempotent` | main.py:195 | upper-casing twice gives the same string as upper-casing once |
| `Seqs.IndexOf` | main.py:195 | `list.index` gives the least position holding the value, and fails exactly when the value is absent |
| `Codec.CodeIndex` | main.py:193-197 | the looked-up index is in range; it is the least position of the code, or 0 when the code is not in the list; `CountryIndex` applies it to the vocabulary and the upper-cased code |
| `Codec.CountryIndexIgnoresCase` | main.py:195 | a country code and its upper-cased form resolve to the same index |
| `Codec.CountryIndexCaseInsensitive` | main.py:193-197 | any two codes that agree up to ASCII case resolve to the same index |
| `Codec.CountryIndexOfAll` | main.py:176 | position 0 of the vocabulary is "ALL", and "ALL" resolves to 0 |
| `Codec.CountryIndexOfUs` | main.py:193-197 | "us" and "US" both resolve to index 4 |
| `Listing.ListingParams` | main.py:67-89 | the parameters are the status code twice; a third `%term%` pattern is added, together with the name filter, exactly when the term is truthy and not "All"; an unknown status binds 0 |
| `Listing.TopCreativeOf` | main.py:110-117 | there is no top creative iff both URLs are falsy; otherwise a falsy URL becomes "", a truthy one is kept, and the media type is one of image/video/carousel |
| `Listing.Project` | main.py:119-129 | a view keeps the page id; its name is never empty ("Unknown" replaces NULL and ""); country is ""; reach is 0 for NULL; the status is one of the three names; beneficiary is "" for NULL and "" |
| `Listing.FirstOccurrences` | main.py:103-108 | the kept positions are strictly increasing, in range, no more than the rows, and are exactly the rows whose page does not occur earlier |
| `Listing.Pages` | main.py:101-131 | the listing never has more views than there are fetched rows |
| `Listing.PagesExtend` | main.py:105-129 | one more row adds its view if its page is new, and otherwise adds nothing |
| `Listing.CollectPages` | main.py:101-131 | the loop with its seen-pages set returns exactly `Pages` of the fetched rows |
| `Listing.PagesDistinct` | main.py:103-108 | no two views in the listing have the same page id |
| `Listing.PagesAreFirstRows` | main.py:105-108 | the view of every first row of a page is listed, and every listed view is the view of such a first row |
| `Listing.PagesCoverAllPages` | main.py:105-108 | the listed page ids are exactly the page ids of the fetched rows |
| `Listing.FirstOccurrencesOfDistinct` | main.py:105-108 | when no page repeats, every row position is kept, in order |
| `Listing.PagesOfDistinctRows` | main.py:105-129 | when no page repeats, the listing is the view of every row, in row order |
| `Listing.PagesOfFetchedRows` | main.py:93-96 | on at most 100 rows ordered by reach descending (NULL last), the listing has at most 100 views, ordered by reported reach descending |
| `Bridge.FindPageKey` | main.py:151-157 | the page lookup fails iff no page has the identifier; otherwise it gives the key of the first such page |
| `Bridge.SetStatus` | main.py:160-163 | the blind UPDATE gives every status record of the page the new code (replacing a NULL status too) and leaves every other row, and every other column, unchanged |
| `Bridge.SetStatusWithoutRecord` | main.py:160-166 | updating a page that has no status record leaves the table unchanged |
| `Bridge.SetStatusIdempotent` | main.py:160-163 | applying the same status update twice is the same as applying it once |
| `Bridge.WrittenStatusReadsBack` | main.py:144-163 | a status written through the write path reads back through the read path as the string the client sent |
| `Bridge.NewSearchTerm` | main.py:193-209 | the inserted row is filed under the first niche (or niche 1 when there is none), carries the raw text and the country index, creative type 0, the clock reading, and both flags set |
| `Bridge.Database.UpdatePageStatus` | main.py:137-170 | an invalid status, an unknown page or a database failure answers 500 and leaves every table unchanged; otherwise the page's records get the new code and nothing else changes; a table whose statuses are all NULL or known codes stays so |
| `Bridge.Database.CreateSearchTerm` | main.py:185-217 | a database failure answers 500 and changes nothing; otherwise exactly one row `NewSearchTerm(...)` is appended to `searchTerms`, and `niches` and the other tables are unchanged |

## Left out

- The SQL engine is not modelled: the joins, the `WHERE` filter on the
  status, the `LIKE` match, the `ORDER BY`, and the `TOP 100` that
  `query.replace("SELECT", "SELECT TOP 100")` inserts. The fetched rows are an
  input. What the engine promises of them is the precondition
  `FetchedRows` of `Listing.PagesOfFetchedRows`. So properties that hold
  only across an update and a later listing (a saved page is listed under
  "saved") are not stated.
- The text of the listing query is not modelled. `ListingParams` models
  only its bound parameters and whether the name clause is added.
- The failure path of `get_pages` (a failing query answers 500) is not
  modelled, since the model starts from rows already fetched.
- `Listing.Row` has a non-NULL `Page_id`. A NULL one would make the page view
  fail validation, and the handler would answer 500.
- `Listing.PagesOfFetchedRows` states the reach order only when no stored reach is negative. A NULL reach is reported as 0, which could place it above a negative reach.
- `Bridge.Database.UpdatePageStatus` and `Bridge.Database.CreateSearchTerm`
  merge every failing `execute` or `commit` into one `dbFails` flag. The
  exception text in the 500 detail is not modelled.
- `str.upper()` is modelled for ASCII letters only. Python's full Unicode
  case mapping (for example "ß" to "SS") is not.
- `Bridge.FindPageKey` resolves `SELECT Id FROM pages WHERE Page_id = ?`
  with `fetchone()` to the first page in table order whose identifier is
  exactly equal. The query has no `ORDER BY`, so the engine may return any
  matching page. It also compares `Page_id` under the column's collation,
  which may ignore case and trailing blanks. The model captures neither.
- `datetime.utcnow()` is the `now` parameter.
- The connection provider (`database.py`: the connection string, driver
  choice, `connect`/`close`) is I/O and is not part of this model. Neither is
  the per-request connection scoping.
- Not modelled as framework code: FastAPI routing, pydantic validation, the
  CORS middleware and the `/health` endpoint.
- The `country` and `category` query parameters of the listing and the
  `min_ad_creation_time` field of a new search term are accepted and never
  used, so they do not appear.
- The diagnostic scripts (`inspect_db.py`, `check_schema.py`, `check_data.py`,
  `check_data_pymssql.py`) only connect and print, so they are not modelled.
- Concurrent requests are not modelled. Each handler is one transition of
  the tables.
