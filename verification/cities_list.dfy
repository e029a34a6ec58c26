/** The Cities list screen: its URL-change rule (which refetches only when
    the new query names a page), the CSV bulk import, and the tile image URL
    rule. */
module CitiesList {
  import opened Values
  import opened ListView

  /** `componentDidUpdate`: the toasts, then, when `location.search` changed
      and the new query has a page, a new active page and a refetch with the
      whole query. A search change without a page dispatches nothing. */
  function DidUpdate(prev: Props, cur: Props, activePage: string, parse: string -> Query): (u: Updated)
    ensures u.toasts == ToastsFor(prev, cur)
    ensures u.fetch.Some? <==>
      prev.location.search != cur.location.search && HasPage(parse(cur.location.search))
    ensures u.fetch.Some? ==>
      u.fetch.value == parse(cur.location.search) && u.activePage == parse(cur.location.search)["page"]
    ensures u.fetch.None? ==> u.activePage == activePage
  {
    var toasts := ToastsFor(prev, cur);
    if prev.location.search != cur.location.search then
      var params := parse(cur.location.search);
      if HasPage(params) then Updated(toasts, params["page"], Some(params))
      else Updated(toasts, activePage, None)
    else Updated(toasts, activePage, None)
  }

  /** Selecting a page does not fetch by itself: it pushes a new location,
      and the URL change refetches the old query with the new page and makes
      that page active. */
  lemma PaginationRefetches(prev: Props, cur: Props, activePage: string, selected: string,
                            parse: string -> Query, stringify: Query -> string)
    requires RoundTrips(parse, stringify)
    requires selected != ""
    requires cur.location == OnPaginationSelect(prev.location, selected, parse, stringify)
    requires cur.location.search != prev.location.search
    ensures var u := DidUpdate(prev, cur, activePage, parse);
      && u.fetch == Some(WithPage(parse(prev.location.search), selected))
      && u.activePage == selected
  {
    var q := WithPage(parse(prev.location.search), selected);
    assert parse("?" + stringify(q)) == q;
  }

  // ---------------------------------------------------------------------
  // CSV bulk import

  /** `record[k]`: a missing cell reads as undefined. */
  function Cell(row: seq<string>, k: nat): (v: Value)
    ensures k < |row| ==> v == Text(row[k])
    ensures k >= |row| ==> v == Undefined
  {
    if k < |row| then Text(row[k]) else Undefined
  }

  /** The city record built from one CSV row and two clock readings. */
  function CityRecord(row: seq<string>, createdAt: string, updatedAt: string): (record: Value) {
    Record(map[
      "created_at" := Text(createdAt),
      "updated_at" := Text(updatedAt),
      "name" := Cell(row, 0),
      "order" := Cell(row, 1),
      "image_url" := Cell(row, 2),
      "is_open" := Cell(row, 3)])
  }

  /** The `onChangeCSVFile` mapping. Every parsed row, the header included,
      becomes a record and reads the clock twice (`created_at`, then
      `updated_at`), so row `i` gets readings `2i` and `2i + 1`; then
      `output.splice(0, 1)` drops the header's record. */
  function CsvRecords(rows: seq<seq<string>>, clock: nat -> string): (records: seq<Value>)
    ensures |records| == if rows == [] then 0 else |rows| - 1
    ensures forall j :: 0 <= j < |records| ==>
      records[j] == CityRecord(rows[j + 1], clock(2 * (j + 1)), clock(2 * (j + 1) + 1))
  {
    var output := seq(|rows|, i requires 0 <= i < |rows| => CityRecord(rows[i], clock(2 * i), clock(2 * i + 1)));
    if output == [] then [] else output[1..]
  }

  /** The cells a city record carries, in CSV column order. */
  function RowOf(record: Value): (cells: seq<Value>) {
    [Field(record, "name"), Field(record, "order"), Field(record, "image_url"), Field(record, "is_open")]
  }

  /** The import keeps a row's cells in place: reading a record's columns
      back gives the row's first four cells, and cells beyond the fourth are
      ignored (with `CsvRecords`, data row `j + 1` becomes record `j`). */
  lemma CsvKeepsRows(row: seq<string>, createdAt: string, updatedAt: string)
    requires |row| >= 4
    ensures RowOf(CityRecord(row, createdAt, updatedAt)) == [Text(row[0]), Text(row[1]), Text(row[2]), Text(row[3])]
  {
  }

  /** When the file has been read: submit every record but the header's,
      with the query of the moment. */
  function OnCsvLoaded(rows: seq<seq<string>>, clock: nat -> string, search: string,
                       parse: string -> Query): (d: Dispatch)
    ensures d.AddRecords? && d.params == parse(search)
    ensures d.records == CsvRecords(rows, clock)
    ensures |d.records| < |rows| || rows == []
  {
    AddRecords(CsvRecords(rows, clock), parse(search))
  }

  /** The submitted records are the data rows in file order: record `j`
      reads back the first four cells of row `j + 1`. */
  lemma CsvSubmitsRows(rows: seq<seq<string>>, clock: nat -> string, search: string,
                       parse: string -> Query, j: nat)
    requires j + 1 < |rows| && |rows[j + 1]| >= 4
    ensures var d := OnCsvLoaded(rows, clock, search, parse);
      && j < |d.records|
      && RowOf(d.records[j]) == [Text(rows[j + 1][0]), Text(rows[j + 1][1]), Text(rows[j + 1][2]), Text(rows[j + 1][3])]
  {
    CsvKeepsRows(rows[j + 1], clock(2 * (j + 1)), clock(2 * (j + 1) + 1));
  }

  // ---------------------------------------------------------------------
  // Tile image

  /** `s.substring(0, 4)`. */
  function Substring4(s: string): (prefix: string) {
    if |s| <= 4 then s else s[..4]
  }

  /** The URL starts with the four characters "http". */
  predicate StartsWithHttp(url: string) {
    |url| >= 4 && url[..4] == "http"
  }

  /** The tile image: `BASE_URL` is prefixed unless the URL's first four
      characters are "http". */
  function TileImageUrl(baseUrl: string, url: string): (r: string)
    ensures StartsWithHttp(url) ==> r == url
    ensures !StartsWithHttp(url) ==> r == baseUrl + url
  {
    if Substring4(url) != "http" then baseUrl + url else url
  }

  /** When `BASE_URL` is itself an http URL every tile URL is one, and the
      rule is idempotent. */
  lemma TileImageIdempotent(baseUrl: string, url: string)
    requires StartsWithHttp(baseUrl)
    ensures StartsWithHttp(TileImageUrl(baseUrl, url))
    ensures TileImageUrl(baseUrl, TileImageUrl(baseUrl, url)) == TileImageUrl(baseUrl, url)
  {
    if !StartsWithHttp(url) {
      assert (baseUrl + url)[..4] == baseUrl[..4];
    }
  }
}
