/** The item effect handlers. Each generator is modelled as a pure function
    from its action payload and a scripted API to the trace it produces: the
    API calls it makes, in order, and the actions it puts, in order. The
    handlers run sequentially; redux-saga's scheduling is not modelled. */
module ItemSaga {
  import opened Values
  import opened ItemActions
  import MenuActions
  import opened Store

  /** How one API call settles: resolved with a value or rejected with an
      error. */
  datatype Outcome = Ok(value: Value) | Err(error: Value)

  /** The scripted API of one handler run: its k-th call (from 0) settles
      with `oracle(k)`. */
  type Oracle = nat -> Outcome

  /** The item API calls a handler can make. */
  datatype ApiCall =
    | GetItemsCall(params: Value)
    | AddItemCall(item: Value)
    | DeleteItemCall(id: Value)
    | UpdateItemCall(id: Value, item: Value)
    | GetItemCall(id: Value)

  datatype Trace = Trace(calls: seq<ApiCall>, puts: seq<Action>)

  // ---------------------------------------------------------------------
  // Routing

  datatype Handler =
    | GetItemsHandler | AddItemHandler | DeleteItemHandler
    | UpdateItemHandler | GetItemHandler | AddItemsHandler

  /** The action type each handler is subscribed to with `takeEvery`. */
  function Subscription(h: Handler): (name: string) {
    match h
    case GetItemsHandler => "GET_ITEMS"
    case AddItemHandler => "ADD_ITEM"
    case DeleteItemHandler => "DELETE_ITEM"
    case UpdateItemHandler => "UPDATE_ITEM"
    case GetItemHandler => "GET_ITEM"
    case AddItemsHandler => "ADD_ITEMS"
  }

  /** `itemSubscriber`: the handler a dispatched type string starts, if any.
      It is the inverse of `Subscription`: every type string starts at most
      one handler, and a handler starts exactly on its own type. */
  function Route(typeName: string): (r: Option<Handler>)
    ensures r.Some? ==> Subscription(r.value) == typeName
    ensures r.None? ==> forall h :: Subscription(h) != typeName
  {
    if typeName == "GET_ITEMS" then Some(GetItemsHandler)
    else if typeName == "ADD_ITEM" then Some(AddItemHandler)
    else if typeName == "DELETE_ITEM" then Some(DeleteItemHandler)
    else if typeName == "UPDATE_ITEM" then Some(UpdateItemHandler)
    else if typeName == "GET_ITEM" then Some(GetItemHandler)
    else if typeName == "ADD_ITEMS" then Some(AddItemsHandler)
    else None
  }

  // ---------------------------------------------------------------------
  // Handlers

  /** The `{ page: 1 }` parameters of the list refresh after a delete. */
  const FirstPage: Value := Single("page", Number(1))

  /** The text of the null-input guard of `addItems`. */
  const EmptyItemsText := "Empty (Null) items submitted"

  /** `getItems`: one call, then exactly one outcome carrying the resolved
      list or the rejection. */
  function GetItemsSaga(params: Value, oracle: Oracle): (t: Trace)
    ensures t.calls == [GetItemsCall(params)] && |t.puts| == 1
    ensures oracle(0).Ok? ==> t.puts[0] == Item(GetItemsSucceed(oracle(0).value))
    ensures oracle(0).Err? ==> t.puts[0] == Item(GetItemsFailed(oracle(0).error))
  {
    var outcome := match oracle(0)
      case Ok(items) => GetItemsSucceed(items)
      case Err(error) => GetItemsFailed(error);
    Trace([GetItemsCall(params)], [Item(outcome)])
  }

  /** `addItem`: on success the item slice hears of it first and the menus
      are refreshed second; a failure refreshes nothing. */
  function AddItemSaga(item: Value, params: Value, oracle: Oracle): (t: Trace)
    ensures t.calls == [AddItemCall(item)]
    ensures oracle(0).Ok? ==> t.puts == [Item(AddItemSucceed), Menu(MenuActions.GetMenus(params))]
    ensures oracle(0).Err? ==> t.puts == [Item(AddItemFailed(oracle(0).error))]
  {
    match oracle(0)
    case Ok(_) => Trace([AddItemCall(item)], [Item(AddItemSucceed), Menu(MenuActions.GetMenus(params))])
    case Err(error) => Trace([AddItemCall(item)], [Item(AddItemFailed(error))])
  }

  /** `deleteItem`: on success the outcome, then a refetch of the first item
      page, then the menu refresh, in that order. */
  function DeleteItemSaga(id: Value, params: Value, oracle: Oracle): (t: Trace)
    ensures t.calls == [DeleteItemCall(id)]
    ensures oracle(0).Ok? ==>
      t.puts == [Item(DeleteItemSucceed), Item(GetItems(FirstPage)), Menu(MenuActions.GetMenus(params))]
    ensures oracle(0).Err? ==> t.puts == [Item(DeleteItemFailed(oracle(0).error))]
  {
    match oracle(0)
    case Ok(_) =>
      Trace([DeleteItemCall(id)],
            [Item(DeleteItemSucceed), Item(GetItems(FirstPage)), Menu(MenuActions.GetMenus(params))])
    case Err(error) => Trace([DeleteItemCall(id)], [Item(DeleteItemFailed(error))])
  }

  /** `updateItem`: the API receives the id and the item; on success the
      outcome is followed by the menu refresh. */
  function UpdateItemSaga(id: Value, item: Value, params: Value, oracle: Oracle): (t: Trace)
    ensures t.calls == [UpdateItemCall(id, item)]
    ensures oracle(0).Ok? ==> t.puts == [Item(UpdateItemSucceed), Menu(MenuActions.GetMenus(params))]
    ensures oracle(0).Err? ==> t.puts == [Item(UpdateItemFailed(oracle(0).error))]
  {
    match oracle(0)
    case Ok(_) => Trace([UpdateItemCall(id, item)], [Item(UpdateItemSucceed), Menu(MenuActions.GetMenus(params))])
    case Err(error) => Trace([UpdateItemCall(id, item)], [Item(UpdateItemFailed(error))])
  }

  /** `getItem`: the outcome carries `response.data`. Reading `data` of a
      null or undefined response throws a TypeError, which the handler's own
      `catch` turns into the failure outcome. */
  function GetItemSaga(id: Value, oracle: Oracle): (t: Trace)
    ensures t.calls == [GetItemCall(id)] && |t.puts| == 1
    ensures oracle(0).Ok? && !IsNullish(oracle(0).value) ==>
      t.puts[0] == Item(GetItemSucceed(Field(oracle(0).value, "data")))
    ensures oracle(0).Ok? && IsNullish(oracle(0).value) ==> t.puts[0] == Item(GetItemFailed(Thrown("TypeError")))
    ensures oracle(0).Err? ==> t.puts[0] == Item(GetItemFailed(oracle(0).error))
  {
    var outcome := match oracle(0)
      case Ok(response) =>
        if IsNullish(response) then GetItemFailed(Thrown("TypeError"))
        else GetItemSucceed(Field(response, "data"))
      case Err(error) => GetItemFailed(error);
    Trace([GetItemCall(id)], [Item(outcome)])
  }

  // ---------------------------------------------------------------------
  // addItems: the sequential bulk loop

  /** What `items[index]` yields for `0 <= index < items.length`: array
      elements, or the one-character strings of a string. Any other value
      that is not null has no `length`, so the loop test `0 < undefined` is
      false and the loop makes no call. Null and undefined have no elements
      at all: reading their `length` throws. */
  function Elements(items: Value): (xs: seq<Value>)
    requires !IsNullish(items)
    ensures items.List? ==> xs == items.elems
    ensures Length(items).Some? ==> |xs| == Length(items).value
    ensures Length(items).None? ==> xs == []
  {
    match items
    case List(elems) => elems
    case Text(s) => Characters(s)
    case _ => []
  }

  /** The one-character strings of a string, in order. */
  function Characters(s: string): (xs: seq<Value>)
    ensures |xs| == |s|
    ensures forall i :: 0 <= i < |s| ==> xs[i] == Text([s[i]])
  {
    if s == [] then [] else [Text([s[0]])] + Characters(s[1..])
  }

  /** One `addItem` call per element, in order. */
  function AddCalls(xs: seq<Value>): (calls: seq<ApiCall>)
    ensures |calls| == |xs|
    ensures forall j :: 0 <= j < |xs| ==> calls[j] == AddItemCall(xs[j])
  {
    seq(|xs|, j requires 0 <= j < |xs| => AddItemCall(xs[j]))
  }

  /** The index of the first rejected call among calls `lo .. n-1`, or `n`
      when all of them resolve. */
  function FirstErr(oracle: Oracle, lo: nat, n: nat): (k: nat)
    requires lo <= n
    ensures lo <= k <= n
    ensures forall j :: lo <= j < k ==> oracle(j).Ok?
    ensures k < n ==> oracle(k).Err?
    decreases n - lo
  {
    if lo == n then n
    else if oracle(lo).Err? then lo
    else FirstErr(oracle, lo + 1, n)
  }

  /** The state of the loop when it stops: the calls made and, when a call
      rejected, its error. */
  datatype Progress = Progress(calls: seq<ApiCall>, failure: Option<Value>)

  /** The `for` loop of `addItems` from `index = i`: it calls the API once
      per element and stops at the first rejection, which leaves the loop
      (and skips every later element) through the `catch`. */
  function AddEach(xs: seq<Value>, i: nat, oracle: Oracle): (p: Progress)
    requires i <= |xs|
    ensures var k := FirstErr(oracle, i, |xs|);
      && (k == |xs| ==> p.calls == AddCalls(xs[i..]) && p.failure == None)
      && (k < |xs| ==> p.calls == AddCalls(xs[i..k + 1]) && p.failure == Some(oracle(k).error))
    decreases |xs| - i
  {
    if i == |xs| then Progress([], None)
    else
      match oracle(i)
      case Err(error) =>
        assert AddCalls(xs[i..i + 1]) == [AddItemCall(xs[i])];
        Progress([AddItemCall(xs[i])], Some(error))
      case Ok(_) =>
        var rest := AddEach(xs, i + 1, oracle);
        var p := Progress([AddItemCall(xs[i])] + rest.calls, rest.failure);
        var k := FirstErr(oracle, i + 1, |xs|);
        assert k == |xs| ==> AddCalls(xs[i..]) == [AddItemCall(xs[i])] + AddCalls(xs[i + 1..]);
        assert k < |xs| ==> AddCalls(xs[i..k + 1]) == [AddItemCall(xs[i])] + AddCalls(xs[i + 1..k + 1]);
        p
  }

  /** `addItems`. A null or undefined `items` passes the guard, which puts a
      failure but does not return; the loop then reads `items.length`, which
      throws, and the `catch` puts a second failure. (The guard's other test,
      `items.length < 0`, is never true.) Otherwise the elements are added one
      call at a time; the first rejection stops the loop and puts one failure,
      and the items already created stay created. */
  function AddItemsSaga(items: Value, params: Value, oracle: Oracle): (t: Trace)
    ensures IsNullish(items) ==>
      && t.calls == []
      && t.puts == [Item(AddItemsFailed(Single("error", Text(EmptyItemsText)))),
                    Item(AddItemsFailed(Thrown("TypeError")))]
    ensures !IsNullish(items) ==>
      var xs := Elements(items);
      var k := FirstErr(oracle, 0, |xs|);
      && (k == |xs| ==>
            t.calls == AddCalls(xs) && t.puts == [Item(AddItemsSucceed), Menu(MenuActions.GetMenus(params))])
      && (k < |xs| ==>
            t.calls == AddCalls(xs[..k + 1]) && t.puts == [Item(AddItemsFailed(oracle(k).error))])
  {
    if IsNullish(items) then
      // the guard's own put, then the TypeError of `items.length` caught below
      Trace([], [Item(AddItemsFailed(Single("error", Text(EmptyItemsText)))),
                 Item(AddItemsFailed(Thrown("TypeError")))])
    else
      var xs := Elements(items);
      var p := AddEach(xs, 0, oracle);
      assert xs[0..] == xs;
      match p.failure
      case None => Trace(p.calls, [Item(AddItemsSucceed), Menu(MenuActions.GetMenus(params))])
      case Some(error) => Trace(p.calls, [Item(AddItemsFailed(error))])
  }

  /** Handler `h` run on an action of the type it is subscribed to: each
      generator destructures its own payload fields. */
  function Run(h: Handler, a: ItemAction, oracle: Oracle): (t: Trace)
    requires Subscription(h) == a.TypeName()
  {
    match h
    case GetItemsHandler => GetItemsSaga(a.params, oracle)
    case AddItemHandler => AddItemSaga(a.item, a.params, oracle)
    case DeleteItemHandler => DeleteItemSaga(a.id, a.params, oracle)
    case UpdateItemHandler => UpdateItemSaga(a.id, a.item, a.params, oracle)
    case GetItemHandler => GetItemSaga(a.id, oracle)
    case AddItemsHandler => AddItemsSaga(a.items, a.params, oracle)
  }

  /** What dispatching an item action sets off, run against the scripted
      API: the trace of exactly the handler its type string is routed to,
      and nothing for the actions no handler is subscribed to. */
  function Dispatch(a: ItemAction, oracle: Oracle): (t: Option<Trace>)
    ensures t.Some? <==> Route(a.TypeName()).Some?
    ensures t.Some? ==> t.value == Run(Route(a.TypeName()).value, a, oracle)
  {
    match a
    case GetItems(params) => Some(GetItemsSaga(params, oracle))
    case AddItem(item, params) => Some(AddItemSaga(item, params, oracle))
    case AddItems(items, params) => Some(AddItemsSaga(items, params, oracle))
    case DeleteItem(id, params) => Some(DeleteItemSaga(id, params, oracle))
    case UpdateItem(id, item, params) => Some(UpdateItemSaga(id, item, params, oracle))
    case GetItem(id) => Some(GetItemSaga(id, oracle))
    case _ => None
  }
}
