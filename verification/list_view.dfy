/** The controller rules the Cities and Restaurants list screens share:
    reading the query string on mount, edge-triggered toasts, pagination
    through the URL, filter accumulation, confirm-gated delete, and the
    pagination guard. Rendering is not modelled; each rule returns what the
    screen would dispatch, push or show.

    The query string library is a pair of function parameters: `parse` maps
    a `location.search` string to its query, `stringify` maps a query back to
    text. A query is a finite map from keys to values. */
module ListView {
  import opened Values

  type Query = map<string, string>

  datatype Location = Location(pathname: string, search: string)

  /** The props a list screen reads: its slice's status fields and the
      router location. */
  datatype Props = Props(error: Value, success: bool, message: Option<string>, location: Location)

  /** What a screen dispatches to its entity's action creators. */
  datatype Dispatch =
    | FetchList(params: Query)
    | DeleteRecord(id: Value)
    | AddRecords(records: seq<Value>, params: Query)

  /** The initial `activePage`. The screen starts from the number 1 and
      later stores the query's string; only `parseInt` ever reads it, so the
      text "1" stands for the number. */
  const InitialPage := "1"

  /** `if (params.page)`: the key is present with a non-empty value. */
  predicate HasPage(q: Query) {
    "page" in q && q["page"] != ""
  }

  // ---------------------------------------------------------------------
  // Mount

  datatype Mounted = Mounted(activePage: string, fetch: Dispatch)

  /** `componentDidMount`: the active page follows the query's `page` when
      it has one, and the list is always fetched with the whole query. */
  function Mount(search: string, parse: string -> Query): (m: Mounted)
    ensures m.fetch == FetchList(parse(search))
    ensures HasPage(parse(search)) ==> m.activePage == parse(search)["page"]
    ensures !HasPage(parse(search)) ==> m.activePage == InitialPage
  {
    var params := parse(search);
    Mounted(if HasPage(params) then params["page"] else InitialPage, FetchList(params))
  }

  // ---------------------------------------------------------------------
  // Toasts

  /** The toasts one update shows: an error toast with the new error, and a
      success toast with the current message. */
  datatype Toasts = Toasts(error: Option<Value>, success: Option<Option<string>>)

  const NoToasts := Toasts(None, None)

  /** What one `componentDidUpdate` does: the toasts it shows, the active
      page it leaves, and the query it refetches with, if any. */
  datatype Updated = Updated(toasts: Toasts, activePage: string, fetch: Option<Query>)

  /** The first two tests of `componentDidUpdate`. Both are edge-triggered:
      the error toast fires when the error changed to anything but null, the
      success toast only when `success` rose from false to true. */
  function ToastsFor(prev: Props, cur: Props): (t: Toasts)
    ensures t.error.Some? <==> cur.error != prev.error && cur.error != Null
    ensures t.error.Some? ==> t.error.value == cur.error
    ensures t.success.Some? <==> !prev.success && cur.success
    ensures t.success.Some? ==> t.success.value == cur.message
  {
    Toasts(if cur.error != prev.error && cur.error != Null then Some(cur.error) else None,
           if cur.success != prev.success && cur.success == true then Some(cur.message) else None)
  }

  /** An update that changes neither status field shows no toast, and two
      success toasts are always separated by an update where `success` was
      false: a slice that stays successful is announced once. */
  lemma ToastsAreEdgeTriggered(p: Props, q: Props, r: Props)
    ensures p.error == q.error && p.success == q.success ==> ToastsFor(p, q) == NoToasts
    ensures ToastsFor(p, q).success.Some? ==> ToastsFor(q, r).success.None?
  {
  }

  // ---------------------------------------------------------------------
  // Pagination

  /** `{ ...values, page: selectedPage }`: the page key is set, every other
      key keeps its value. */
  function WithPage(q: Query, page: string): (r: Query)
    ensures r.Keys == q.Keys + {"page"}
    ensures r["page"] == page
    ensures forall k :: k in q && k != "page" ==> r[k] == q[k]
  {
    q["page" := page]
  }

  /** `onPaginationSelect`: push the same path with the query's page
      replaced. The selected page is the text the number renders to. */
  function OnPaginationSelect(loc: Location, selected: string,
                              parse: string -> Query, stringify: Query -> string): (next: Location)
    ensures next.pathname == loc.pathname
    ensures next.search == "?" + stringify(WithPage(parse(loc.search), selected))
  {
    Location(loc.pathname, "?" + stringify(WithPage(parse(loc.search), selected)))
  }

  /** The query-string library reads back what it writes. */
  ghost predicate RoundTrips(parse: string -> Query, stringify: Query -> string) {
    forall q :: parse("?" + stringify(q)) == q
  }

  /** With a round-tripping library, the pushed location parses to the old
      query with only its page replaced. */
  lemma PaginationKeepsQuery(loc: Location, selected: string,
                             parse: string -> Query, stringify: Query -> string)
    requires RoundTrips(parse, stringify)
    ensures var q := parse(OnPaginationSelect(loc, selected, parse, stringify).search);
      && q.Keys == parse(loc.search).Keys + {"page"}
      && q["page"] == selected
      && forall k :: k in parse(loc.search) && k != "page" ==> q[k] == parse(loc.search)[k]
  {
    var q0 := WithPage(parse(loc.search), selected);
    assert parse("?" + stringify(q0)) == q0;
  }

  // ---------------------------------------------------------------------
  // Filter

  type Filter = map<string, string>

  /** `onFilterChange`: `{ ...this.filter, [name]: value }`. */
  function OnFilterChange(filter: Filter, name: string, value: string): (f: Filter)
    ensures f.Keys == filter.Keys + {name}
    ensures f[name] == value
    ensures forall k :: k in filter && k != name ==> f[k] == filter[k]
  {
    filter[name := value]
  }

  /** The filter after a sequence of change events (name, value), starting
      from the empty filter. */
  function Accumulate(events: seq<(string, string)>): (f: Filter)
    decreases |events|
  {
    if events == [] then map[]
    else
      var last := events[|events| - 1];
      OnFilterChange(Accumulate(events[..|events| - 1]), last.0, last.1)
  }

  /** A field is in the filter exactly when some event named it. */
  lemma {:induction false} FilterKeys(events: seq<(string, string)>, name: string)
    ensures name in Accumulate(events) <==> exists i :: 0 <= i < |events| && events[i].0 == name
    decreases |events|
  {
    if events != [] {
      var n := |events| - 1;
      var init := events[..n];
      FilterKeys(init, name);
      if name in Accumulate(init) {
        var i :| 0 <= i < |init| && init[i].0 == name;
        assert events[i].0 == name;
      }
      if exists i :: 0 <= i < |events| && events[i].0 == name {
        var i :| 0 <= i < |events| && events[i].0 == name;
        if i < n {
          assert init[i].0 == name;
        }
      }
    }
  }

  /** A field's value is the value of the last event that named it: a later
      value for the same name overwrites an earlier one. */
  lemma {:induction false} FilterKeepsLastValue(events: seq<(string, string)>, i: nat)
    requires i < |events|
    requires forall j :: i < j < |events| ==> events[j].0 != events[i].0
    ensures events[i].0 in Accumulate(events)
    ensures Accumulate(events)[events[i].0] == events[i].1
    decreases |events|
  {
    var n := |events| - 1;
    if i < n {
      var init := events[..n];
      assert forall j :: i < j < |init| ==> init[j].0 != init[i].0 by {
        forall j | i < j < |init| ensures init[j].0 != init[i].0 {
          assert init[j] == events[j];
        }
      }
      FilterKeepsLastValue(init, i);
      assert init[i] == events[i];
    }
  }

  // ---------------------------------------------------------------------
  // Delete

  /** `onDelete`: the confirmation dialog settles with `result.value`
      (true on confirm, undefined on dismiss); the delete is dispatched only
      when it is truthy. */
  function OnDelete(id: Value, answer: Value): (d: Option<Dispatch>)
    ensures d.Some? <==> Truthy(answer)
    ensures d.Some? ==> d.value == DeleteRecord(id)
  {
    if Truthy(answer) then Some(DeleteRecord(id)) else None
  }

  /** The deletes a screen dispatches over a run of delete clicks, each
      click paired with the answer of its confirmation dialog. */
  function DeleteSession(clicks: seq<(Value, Value)>): (ds: seq<Dispatch>)
    decreases |clicks|
  {
    if clicks == [] then []
    else
      var rest := DeleteSession(clicks[1..]);
      match OnDelete(clicks[0].0, clicks[0].1)
      case Some(d) => [d] + rest
      case None => rest
  }

  /** Only confirmed clicks delete: every dispatched delete names a record
      whose confirmation was truthy, every confirmed record is deleted, and
      a run of dismissed dialogs dispatches nothing. */
  lemma {:induction false} DeletesFollowConfirmations(clicks: seq<(Value, Value)>)
    ensures forall d :: d in DeleteSession(clicks) ==>
      exists i :: 0 <= i < |clicks| && Truthy(clicks[i].1) && d == DeleteRecord(clicks[i].0)
    ensures forall i :: 0 <= i < |clicks| && Truthy(clicks[i].1) ==>
      DeleteRecord(clicks[i].0) in DeleteSession(clicks)
    ensures (forall i :: 0 <= i < |clicks| ==> !Truthy(clicks[i].1)) ==> DeleteSession(clicks) == []
    decreases |clicks|
  {
    if clicks != [] {
      var rest := clicks[1..];
      DeletesFollowConfirmations(rest);
      forall d | d in DeleteSession(clicks)
        ensures exists i :: 0 <= i < |clicks| && Truthy(clicks[i].1) && d == DeleteRecord(clicks[i].0)
      {
        if d in DeleteSession(rest) {
          var j :| 0 <= j < |rest| && Truthy(rest[j].1) && d == DeleteRecord(rest[j].0);
          assert clicks[j + 1] == rest[j];
        }
      }
      forall i | 0 <= i < |clicks| && Truthy(clicks[i].1)
        ensures DeleteRecord(clicks[i].0) in DeleteSession(clicks)
      {
        if i > 0 {
          assert clicks[i] == rest[i - 1];
        }
      }
      if forall i :: 0 <= i < |clicks| ==> !Truthy(clicks[i].1) {
        forall j | 0 <= j < |rest|
          ensures !Truthy(rest[j].1)
        {
          assert rest[j] == clicks[j + 1];
        }
      }
    }
  }

  // ---------------------------------------------------------------------
  // Rendering guards

  /** The `data` array of a list response. */
  function Data(listing: Value): (data: Value) {
    Field(listing, "data")
  }

  /** The guard of the table and tile renderers: `listing && data &&
      data.length > 0`. */
  predicate HasRows(listing: Value) {
    Truthy(listing) && Truthy(Data(listing))
    && Length(Data(listing)).Some? && Length(Data(listing)).value > 0
  }

  /** `renderPagination`: pagination is drawn only when the response is an
      object carrying a truthy `meta` and a non-empty `data`. */
  function ShowPagination(listing: Value): (shown: bool)
    ensures shown <==>
      && listing.Record?
      && Truthy(Field(listing, "meta"))
      && (Data(listing).List? || Data(listing).Text?)
      && Length(Data(listing)).value > 0
  {
    && Truthy(listing)
    && Truthy(Field(listing, "meta"))
    && Truthy(Data(listing))
    && Length(Data(listing)).Some? && Length(Data(listing)).value > 0
  }

  /** Whenever pagination is drawn, the rows it pages through are drawn too;
      the converse fails for a response without `meta`. */
  lemma PaginationOnlyWithRows(listing: Value)
    ensures ShowPagination(listing) ==> HasRows(listing)
    ensures var noMeta := Record(map["data" := List([Null])]);
      HasRows(noMeta) && !ShowPagination(noMeta)
  {
    var noMeta := Record(map["data" := List([Null])]);
    assert Field(noMeta, "meta") == Undefined;
  }
}
