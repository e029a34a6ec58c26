/** The item pipeline end to end: an intent is reduced into the item slice,
    its handler runs against a scripted API, and the actions the handler puts
    are reduced in turn. (Actions the handler puts are dispatched to the
    store; a put `getItems` also starts its own handler run, which is a
    separate trace.) */
module Pipeline {
  import opened Values
  import opened Slice
  import opened ItemActions
  import opened Store
  import opened ItemReducer
  import opened ItemSaga
  import MenuActions

  /** Two or three actions in a row, unfolded. */
  lemma ReduceTwo(s: Slice, a: Action, b: Action)
    ensures ReduceAll(s, [a, b]) == Reduce(Reduce(s, a), b)
  {
    assert [a, b][1..] == [b];
    assert [b][1..] == [];
    assert ReduceAll(s, [a, b]) == ReduceAll(Reduce(s, a), [b]);
    assert ReduceAll(Reduce(s, a), [b]) == ReduceAll(Reduce(Reduce(s, a), b), []);
  }

  lemma ReduceThree(s: Slice, a: Action, b: Action, c: Action)
    ensures ReduceAll(s, [a, b, c]) == Reduce(Reduce(Reduce(s, a), b), c)
  {
    assert [a, b, c][1..] == [b, c];
    ReduceTwo(Reduce(s, a), b, c);
  }

  /** A list fetch settles: loading ends with the fetched list, or with the
      error and the old list. */
  lemma ListFetchSettles(s: Slice, params: Value, oracle: Oracle)
    ensures var r := ReduceAll(Reduce(s, Item(GetItems(params))), GetItemsSaga(params, oracle).puts);
      && !r.loading
      && (oracle(0).Ok? ==> r.list == Carried(oracle(0).value, "items") && r.error == Null)
      && (oracle(0).Err? ==> r.error == Carried(oracle(0).error, "error") && r.list == s.list)
  {
    var s1 := Reduce(s, Item(GetItems(params)));
    var puts := GetItemsSaga(params, oracle).puts;
    assert puts == [puts[0]];
    assert puts[1..] == [];
  }

  /** A mutation success followed by the menu refresh: the refresh leaves
      the item slice as the success left it. */
  lemma SucceedThenMenus(s: Slice, succeed: ItemAction, params: Value)
    ensures ReduceAll(s, [Item(succeed), Menu(MenuActions.GetMenus(params))]) == Reduce(s, Item(succeed))
  {
    var menus := Menu(MenuActions.GetMenus(params));
    ReduceTwo(s, Item(succeed), menus);
    OtherActions(Reduce(s, Item(succeed)), Null, menus);
  }

  /** A lone failure outcome, reduced. */
  lemma OnlyFailure(s: Slice, failed: ItemAction)
    ensures ReduceAll(s, [Item(failed)]) == Reduce(s, Item(failed))
  {
    assert [Item(failed)][1..] == [];
  }

  /** `addItem` settles: loading ends, `success` says whether the API
      accepted the item, and the error is null or what the failure carries.
      The menu refresh it also puts leaves the item slice alone. */
  lemma AddItemSettles(s: Slice, item: Value, params: Value, oracle: Oracle)
    ensures var r := ReduceAll(Reduce(s, Item(AddItem(item, params))), AddItemSaga(item, params, oracle).puts);
      && !r.loading && r.success == oracle(0).Ok?
      && (oracle(0).Ok? ==> r.error == Null && r.message == Some("Item added successfully"))
      && (oracle(0).Err? ==> r.error == Carried(oracle(0).error, "error") && r.message == Some("Adding item..."))
  {
    var s1 := Reduce(s, Item(AddItem(item, params)));
    if oracle(0).Ok? {
      SucceedThenMenus(s1, AddItemSucceed, params);
    } else {
      OnlyFailure(s1, AddItemFailed(oracle(0).error));
    }
  }

  /** `updateItem` settles the same way, with its own texts. */
  lemma UpdateItemSettles(s: Slice, id: Value, item: Value, params: Value, oracle: Oracle)
    ensures var r := ReduceAll(Reduce(s, Item(UpdateItem(id, item, params))), UpdateItemSaga(id, item, params, oracle).puts);
      && !r.loading && r.success == oracle(0).Ok?
      && (oracle(0).Ok? ==> r.error == Null && r.message == Some("Item updated successfully"))
      && (oracle(0).Err? ==> r.error == Carried(oracle(0).error, "error") && r.message == Some("Uploading item..."))
  {
    var s1 := Reduce(s, Item(UpdateItem(id, item, params)));
    if oracle(0).Ok? {
      SucceedThenMenus(s1, UpdateItemSucceed, params);
    } else {
      OnlyFailure(s1, UpdateItemFailed(oracle(0).error));
    }
  }

  /** A successful delete does not leave the slice settled: the first-page
      refetch it puts right after the success sets `loading` again and
      replaces the success text, while `success` stays true. A rejected
      delete settles with the error. */
  lemma DeleteLeavesListLoading(s: Slice, id: Value, params: Value, oracle: Oracle)
    ensures var r := ReduceAll(Reduce(s, Item(DeleteItem(id, params))), DeleteItemSaga(id, params, oracle).puts);
      && (oracle(0).Ok? ==>
            r.loading && r.success && r.error == Null && r.message == Some("Generating items list..."))
      && (oracle(0).Err? ==> !r.loading && !r.success && r.error == Carried(oracle(0).error, "error"))
  {
    var s1 := Reduce(s, Item(DeleteItem(id, params)));
    if oracle(0).Ok? {
      var menus := Menu(MenuActions.GetMenus(params));
      ReduceThree(s1, Item(DeleteItemSucceed), Item(GetItems(FirstPage)), menus);
      OtherActions(Reduce(Reduce(s1, Item(DeleteItemSucceed)), Item(GetItems(FirstPage))), Null, menus);
    } else {
      assert [Item(DeleteItemFailed(oracle(0).error))][1..] == [];
    }
  }

  /** A single-item fetch settles. A response that is not null puts its
      `data` into the current item with an empty message; a null response
      (whose `data` read throws) and a rejection both clear the current item
      and show the failure text. The caught `TypeError` is passed through as
      the payload, so its failure leaves the error undefined. */
  lemma SingleItemSettles(s: Slice, id: Value, oracle: Oracle)
    ensures var r := ReduceAll(Reduce(s, Item(GetItem(id))), GetItemSaga(id, oracle).puts);
      && !r.loading && !r.success && r.list == s.list
      && (oracle(0).Ok? && !IsNullish(oracle(0).value) ==>
            && r.current == Carried(Values.Field(oracle(0).value, "data"), "item")
            && r.message == Some("") && r.error == Null)
      && (oracle(0).Ok? && IsNullish(oracle(0).value) ==>
            r.current == Null && r.message == Some("Getting item info failed") && r.error == Undefined)
      && (oracle(0).Err? ==>
            && r.current == Null && r.message == Some("Getting item info failed")
            && r.error == Carried(oracle(0).error, "error"))
  {
    var puts := GetItemSaga(id, oracle).puts;
    assert puts == [puts[0]];
    assert puts[1..] == [];
  }

  /** `addItems(null)` makes no API call and puts two failures. The second
      carries the `TypeError` itself, which redux-actions passes through as
      the payload, so the reducer's `payload.error` is undefined: the slice
      ends with an undefined error, and the guard's message is overwritten. */
  lemma NullItemsFailTwice(s: Slice, params: Value, oracle: Oracle)
    ensures var t := AddItemsSaga(Null, params, oracle);
      var r := ReduceAll(Reduce(s, Item(AddItems(Null, params))), t.puts);
      && t.calls == [] && |t.puts| == 2
      && !r.loading && !r.success && r.error == Undefined && r.message == Some("Adding items...")
  {
    var t := AddItemsSaga(Null, params, oracle);
    ReduceTwo(Reduce(s, Item(AddItems(Null, params))), t.puts[0], t.puts[1]);
  }

  /** An empty array makes no call and succeeds, refreshing the menus. */
  lemma EmptyItemsSucceed(params: Value, oracle: Oracle)
    ensures AddItemsSaga(List([]), params, oracle)
      == Trace([], [Item(AddItemsSucceed), Menu(MenuActions.GetMenus(params))])
  {
    assert FirstErr(oracle, 0, 0) == 0;
  }

  /** Bulk import of three items whose second creation is rejected: the first
      is created, the third is never attempted, and exactly one failure is
      put. */
  lemma SecondOfThreeFails(a: Value, b: Value, c: Value, params: Value, oracle: Oracle)
    requires oracle(0).Ok? && oracle(1).Err?
    ensures var t := AddItemsSaga(List([a, b, c]), params, oracle);
      && t.calls == [AddItemCall(a), AddItemCall(b)]
      && t.puts == [Item(AddItemsFailed(oracle(1).error))]
  {
    var xs := [a, b, c];
    assert FirstErr(oracle, 1, 3) == 1;
    assert FirstErr(oracle, 0, 3) == 1;
    assert xs[..2] == [a, b];
  }

  /** Partial application: for any input that is not null, the calls made
      are an order-preserving prefix of the elements; every call but a
      rejected last one was accepted, and none is ever undone (the handler
      makes no call other than `addItem`). */
  lemma {:induction false} BulkIsPrefix(items: Value, params: Value, oracle: Oracle)
    requires !IsNullish(items)
    ensures var xs := Elements(items);
      var t := AddItemsSaga(items, params, oracle);
      && |t.calls| <= |xs|
      && (forall j :: 0 <= j < |t.calls| ==> t.calls[j] == AddItemCall(xs[j]))
      && (forall j :: 0 <= j < |t.calls| - 1 ==> oracle(j).Ok?)
      && (|t.calls| < |xs| ==> t.puts == [Item(AddItemsFailed(oracle(|t.calls| - 1).error))])
  {
    var xs := Elements(items);
    var k := FirstErr(oracle, 0, |xs|);
    var t := AddItemsSaga(items, params, oracle);
    if k < |xs| {
      assert t.calls == AddCalls(xs[..k + 1]);
      assert |t.calls| == k + 1;
    } else {
      assert t.calls == AddCalls(xs);
    }
  }
}
