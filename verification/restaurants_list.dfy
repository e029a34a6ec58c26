/** The Restaurants list screen: its URL-change rule (which refetches on
    every change of the search string) and the categories column of its
    table. Mount, pagination, filter, delete and the pagination guard are the
    shared rules of `ListView`. */
module RestaurantsList {
  import opened Values
  import opened ListView
  import CitiesList

  /** `componentDidUpdate`: the toasts, then, whenever `location.search`
      changed, a refetch with the whole query; the active page follows the
      query only when it names one. */
  function DidUpdate(prev: Props, cur: Props, activePage: string, parse: string -> Query): (u: Updated)
    ensures u.toasts == ToastsFor(prev, cur)
    ensures u.fetch.Some? <==> prev.location.search != cur.location.search
    ensures u.fetch.Some? ==> u.fetch.value == parse(cur.location.search)
    ensures u.fetch.Some? && HasPage(parse(cur.location.search)) ==>
      u.activePage == parse(cur.location.search)["page"]
    ensures !(u.fetch.Some? && HasPage(parse(cur.location.search))) ==> u.activePage == activePage
  {
    var toasts := ToastsFor(prev, cur);
    if prev.location.search != cur.location.search then
      var params := parse(cur.location.search);
      Updated(toasts, if HasPage(params) then params["page"] else activePage, Some(params))
    else Updated(toasts, activePage, None)
  }

  /** The two screens differ in one case only. Whenever Cities refetches,
      Restaurants refetches the same query and moves to the same page; and
      Restaurants refetches while Cities does not exactly when the search
      changed to a query without a page. */
  lemma RefetchPoliciesDiffer(prev: Props, cur: Props, activePage: string, parse: string -> Query)
    ensures var c := CitiesList.DidUpdate(prev, cur, activePage, parse);
      var r := DidUpdate(prev, cur, activePage, parse);
      && (c.fetch.Some? ==> r == c)
      && (r.fetch.Some? && c.fetch.None? <==>
            prev.location.search != cur.location.search && !HasPage(parse(cur.location.search)))
  {
  }

  /** Both screens refetch the way they mount: whenever an update fetches,
      it fetches the query a fresh mount on the new location would, and when
      that query names a page, it moves to the page the mount would. */
  lemma UpdatesAgreeWithMount(prev: Props, cur: Props, activePage: string, parse: string -> Query)
    ensures var m := Mount(cur.location.search, parse);
      var c := CitiesList.DidUpdate(prev, cur, activePage, parse);
      var r := DidUpdate(prev, cur, activePage, parse);
      && (c.fetch.Some? ==> FetchList(c.fetch.value) == m.fetch && c.activePage == m.activePage)
      && (r.fetch.Some? ==> FetchList(r.fetch.value) == m.fetch)
      && (r.fetch.Some? && HasPage(parse(cur.location.search)) ==> r.activePage == m.activePage)
  {
  }

  // ---------------------------------------------------------------------
  // Categories column

  /** `String(v)` for the values a category name can hold; an array is its
      elements joined with ",". */
  function ToText(v: Value): (t: string)
    decreases v, 1
  {
    match v
    case Undefined => "undefined"
    case Null => "null"
    case Bool(b) => if b then "true" else "false"
    case Number(n) => if n < 0 then "-" + Decimal(-n) else Decimal(n)
    case Text(s) => s
    case List(_) => JoinElements(v, 0, ",")
    case Record(_) => "[object Object]"
    case Thrown(name) => name
  }

  /** `Array.prototype.join` from element `i` of the array `v`: null and
      undefined elements become the empty string. */
  function JoinElements(v: Value, i: nat, sep: string): (t: string)
    requires v.List? && i <= |v.elems|
    decreases v, 0, |v.elems| - i
  {
    if i == |v.elems| then ""
    else
      var piece := if IsNullish(v.elems[i]) then "" else ToText(v.elems[i]);
      if i == |v.elems| - 1 then piece else piece + sep + JoinElements(v, i + 1, sep)
  }

  /** The decimal digits of a natural number. */
  function Decimal(n: nat): (s: string)
    ensures |s| > 0
    decreases n
  {
    var digit := ["0", "1", "2", "3", "4", "5", "6", "7", "8", "9"][n % 10];
    if n < 10 then digit else Decimal(n / 10) + digit
  }

  /** `names.join(sep)` over texts. */
  function Join(names: seq<string>, sep: string): (r: string)
    ensures names == [] ==> r == ""
    ensures |names| == 1 ==> r == names[0]
    ensures names != [] ==> |r| == TotalLength(names) + |sep| * (|names| - 1)
    decreases |names|
  {
    if names == [] then ""
    else if |names| == 1 then names[0]
    else names[0] + sep + Join(names[1..], sep)
  }

  /** The summed length of the texts. */
  function TotalLength(names: seq<string>): (n: nat)
    decreases |names|
  {
    if names == [] then 0 else |names[0]| + TotalLength(names[1..])
  }

  /** Joining one more name appends the separator and the name: `Join` is
      the left-to-right join. */
  lemma {:induction false} JoinAppend(names: seq<string>, name: string, sep: string)
    requires names != []
    ensures Join(names + [name], sep) == Join(names, sep) + sep + name
    decreases |names|
  {
    if |names| == 1 {
      assert names + [name] == [names[0], name];
      assert [names[0], name][1..] == [name];
    } else {
      assert (names + [name])[1..] == names[1..] + [name];
      JoinAppend(names[1..], name, sep);
    }
  }

  /** The text a category contributes: its `name`, as `join` renders it, so
      a null or missing name contributes the empty text, not "null". */
  function NameText(category: Value): (t: string)
    ensures IsNullish(Field(category, "name")) ==> t == ""
    ensures Field(category, "name").Text? ==> t == Field(category, "name").s
  {
    var name := Field(category, "name");
    if IsNullish(name) then "" else ToText(name)
  }

  function NameTexts(categories: seq<Value>): (names: seq<string>)
    ensures |names| == |categories|
    ensures forall i :: 0 <= i < |categories| ==> names[i] == NameText(categories[i])
  {
    seq(|categories|, i requires 0 <= i < |categories| => NameText(categories[i]))
  }

  /** The categories column of one restaurant row: the category names joined
      with ", ", and the empty text when `categories` is missing. None when
      rendering throws: `categories` is truthy but not an array, or one of
      its elements is null. */
  function CategoriesColumn(categories: Value): (r: Option<string>)
    ensures !Truthy(categories) ==> r == Some("")
    ensures categories.List? && (forall i :: 0 <= i < |categories.elems| ==> !IsNullish(categories.elems[i])) ==>
      r == Some(Join(NameTexts(categories.elems), ", "))
    ensures r.Some? ==> !Truthy(categories) || categories.List?
    ensures r.None? <==>
      Truthy(categories)
      && (!categories.List? || exists i :: 0 <= i < |categories.elems| && IsNullish(categories.elems[i]))
  {
    if !Truthy(categories) then Some("")
    else match categories
      case List(elems) =>
        if exists i :: 0 <= i < |elems| && IsNullish(elems[i]) then None
        else Some(Join(NameTexts(elems), ", "))
      case _ => None
  }

  /** The categories of a row: `Some(text)` is a category named by that
      text, `None` a category whose name is null. */
  function Named(names: seq<Option<string>>): (categories: seq<Value>)
    ensures |categories| == |names|
    ensures forall i :: 0 <= i < |names| ==>
      categories[i] == Single("name", if names[i].Some? then Text(names[i].value) else Null)
  {
    seq(|names|, i requires 0 <= i < |names| =>
      Single("name", if names[i].Some? then Text(names[i].value) else Null))
  }

  /** The texts `join` shows for such names: a null name shows as nothing. */
  function Shown(names: seq<Option<string>>): (texts: seq<string>)
    ensures |texts| == |names|
    ensures forall i :: 0 <= i < |names| ==> names[i].None? ==> texts[i] == ""
    ensures forall i :: 0 <= i < |names| ==> names[i].Some? ==> texts[i] == names[i].value
  {
    seq(|names|, i requires 0 <= i < |names| => if names[i].Some? then names[i].value else "")
  }

  /** Categories give their names joined by ", ", a category with a null
      name contributing the empty text. */
  lemma CategoriesColumnNames(names: seq<Option<string>>)
    ensures CategoriesColumn(List(Named(names))) == Some(Join(Shown(names), ", "))
  {
    assert NameTexts(Named(names)) == Shown(names);
  }

  /** The joined column is empty only for no categories or a single one with
      an empty name: two names always leave the separator. */
  lemma EmptyColumn(names: seq<string>)
    ensures Join(names, ", ") == "" <==> TotalLength(names) == 0 && |names| <= 1
  {
  }
}
