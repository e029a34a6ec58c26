/** The item slice reducer: `handleActions` over the item actions, starting
    from the item `defaultState`. */
module ItemReducer {
  import opened Values
  import opened Slice
  import opened ItemActions
  import opened Store

  /** The item `defaultState`. Its status key is spelled `messages`, so the
      `message` key stays absent until a transition writes it. */
  function Initial(): (s: Slice)
    ensures s.list == Null && s.error == Null && s.current == Null
    ensures !s.loading && !s.success
    ensures s.message == None && s.messages == Some("")
  {
    Slice(Null, Null, false, false, None, Null, Some(""))
  }

  /** The intents that start a request: each sets `loading` and clears `error`. */
  predicate IsIntent(a: ItemAction) {
    a.GetItems? || a.AddItem? || a.AddItems? || a.DeleteItem? || a.UpdateItem? || a.GetItem?
  }

  /** The four mutating intents. */
  predicate IsMutation(a: ItemAction) {
    a.AddItem? || a.AddItems? || a.DeleteItem? || a.UpdateItem?
  }

  predicate IsMutationSuccess(a: ItemAction) {
    a.AddItemSucceed? || a.AddItemsSucceed? || a.DeleteItemSucceed? || a.UpdateItemSucceed?
  }

  predicate IsMutationFailure(a: ItemAction) {
    a.AddItemFailed? || a.AddItemsFailed? || a.DeleteItemFailed? || a.UpdateItemFailed?
  }

  /** The outcomes that end a request: every `*Succeed` and `*Failed`. */
  predicate IsOutcome(a: ItemAction) {
    IsMutationSuccess(a) || IsMutationFailure(a)
    || a.GetItemsSucceed? || a.GetItemsFailed? || a.GetItemSucceed? || a.GetItemFailed?
  }

  /** The fields each transition writes; every other field is copied by the
      `...state` spread. */
  function Writes(a: Action): (w: set<Field>) {
    if !a.Item? then {} else
    match a.item
    case GetItems(_) => {ErrorField, LoadingField, MessageField}
    case GetItemsSucceed(_) => {LoadingField, ListField}
    case GetItemsFailed(_) => {ErrorField, LoadingField}
    case GetItemSucceed(_) => {LoadingField, MessageField, CurrentField}
    case GetItemFailed(_) => {LoadingField, SuccessField, MessageField, ErrorField, CurrentField}
    case UpdateCurrentItem(_) => {CurrentField}
    case _ =>
      if IsMutationSuccess(a.item) then {LoadingField, SuccessField, MessageField}
      else if IsMutationFailure(a.item) then {LoadingField, SuccessField, ErrorField}
      else {LoadingField, SuccessField, MessageField, ErrorField}
  }

  /** The reducer. Actions of other slices fall through unchanged. */
  function Reduce(s: Slice, a: Action): (r: Slice)
    ensures OnlyWrites(s, r, Writes(a))
    ensures a.Item? && IsIntent(a.item) ==> r.loading && r.error == Null
    ensures a.Item? && IsOutcome(a.item) ==> !r.loading
    ensures a.Item? && (IsMutation(a.item) || a.item.GetItem?) ==> !r.success
    ensures a.Item? && IsMutationSuccess(a.item) ==> r.success
    ensures a.Item? && (IsMutationFailure(a.item) || a.item.GetItemFailed? || a.item.GetItemsFailed?) ==>
              r.error == Carried(a.item.error, "error")
    ensures a.Item? && (IsMutationFailure(a.item) || a.item.GetItemFailed?) ==> !r.success
  {
    if !a.Item? then s else
    match a.item
    case GetItems(_) =>
      s.(error := Null, loading := true, message := Some("Generating items list..."))
    case GetItemsSucceed(items) =>
      s.(loading := false, list := Carried(items, "items"))
    case GetItemsFailed(error) =>
      s.(error := Carried(error, "error"), loading := false)
    case AddItem(_, _) =>
      s.(loading := true, success := false, message := Some("Adding item..."), error := Null)
    case AddItemSucceed =>
      s.(loading := false, success := true, message := Some("Item added successfully"))
    case AddItemFailed(error) =>
      s.(loading := false, success := false, error := Carried(error, "error"))
    case AddItems(_, _) =>
      s.(loading := true, success := false, message := Some("Adding items..."), error := Null)
    case AddItemsSucceed =>
      s.(loading := false, success := true, message := Some("Items added successfully"))
    case AddItemsFailed(error) =>
      s.(loading := false, success := false, error := Carried(error, "error"))
    case DeleteItem(_, _) =>
      s.(loading := true, success := false, message := Some("Deleting item..."), error := Null)
    case DeleteItemSucceed =>
      s.(loading := false, success := true, message := Some("Item deleted successfully"))
    case DeleteItemFailed(error) =>
      s.(loading := false, success := false, error := Carried(error, "error"))
    case UpdateItem(_, _, _) =>
      s.(loading := true, success := false, message := Some("Uploading item..."), error := Null)
    case UpdateItemSucceed =>
      s.(loading := false, success := true, message := Some("Item updated successfully"))
    case UpdateItemFailed(error) =>
      s.(loading := false, success := false, error := Carried(error, "error"))
    case GetItem(_) =>
      s.(loading := true, success := false, message := Some("Getting item info..."), error := Null)
    case GetItemSucceed(item) =>
      s.(loading := false, message := Some(""), current := Carried(item, "item"))
    case GetItemFailed(error) =>
      s.(loading := false, success := false, message := Some("Getting item info failed"),
         error := Carried(error, "error"), current := Null)
    case UpdateCurrentItem(item) =>
      s.(current := Carried(item, "item"))
  }

  /** The fields a sequence of actions may write. */
  function WritesAll(actions: seq<Action>): (w: set<Field>)
    decreases |actions|
  {
    if actions == [] then {} else Writes(actions[0]) + WritesAll(actions[1..])
  }

  /** The actions a store applies one after another; together they write no
      field outside their write sets. */
  function ReduceAll(s: Slice, actions: seq<Action>): (r: Slice)
    ensures OnlyWrites(s, r, WritesAll(actions))
    decreases |actions|
  {
    if actions == [] then s
    else
      var t := Reduce(s, actions[0]);
      var r := ReduceAll(t, actions[1..]);
      OnlyWritesTrans(s, t, r, Writes(actions[0]), WritesAll(actions[1..]));
      r
  }

  // ---------------------------------------------------------------------
  // Per-action properties

  /** The status texts of the mutating intents and of their successes. */
  function MutationTexts(a: ItemAction): (texts: (string, string))
    requires IsMutation(a)
  {
    match a
    case AddItem(_, _) => ("Adding item...", "Item added successfully")
    case AddItems(_, _) => ("Adding items...", "Items added successfully")
    case DeleteItem(_, _) => ("Deleting item...", "Item deleted successfully")
    case UpdateItem(_, _, _) => ("Uploading item...", "Item updated successfully")
  }

  /** The success outcome that answers a mutating intent. */
  function SuccessOf(a: ItemAction): (o: ItemAction)
    requires IsMutation(a)
    ensures IsMutationSuccess(o)
  {
    match a
    case AddItem(_, _) => AddItemSucceed
    case AddItems(_, _) => AddItemsSucceed
    case DeleteItem(_, _) => DeleteItemSucceed
    case UpdateItem(_, _, _) => UpdateItemSucceed
  }

  /** `getItems` starts a list fetch and leaves `success`, the list and the
      current item alone. */
  lemma GetItemsStartsFetch(s: Slice, params: Value)
    ensures var r := Reduce(s, Item(GetItems(params)));
      && r.loading && r.error == Null && r.message == Some("Generating items list...")
      && r.success == s.success && r.list == s.list && r.current == s.current
  {
  }

  /** The list fetch outcomes end loading; neither touches `success` or
      `message`. */
  lemma ListOutcomes(s: Slice, v: Value)
    ensures var r := Reduce(s, Item(GetItemsSucceed(v)));
      !r.loading && r.list == Carried(v, "items") && r.error == s.error && r.success == s.success && r.message == s.message
    ensures var r := Reduce(s, Item(GetItemsFailed(v)));
      !r.loading && r.error == Carried(v, "error") && r.list == s.list && r.success == s.success && r.message == s.message
  {
  }

  /** A mutating intent sets `loading`, resets `success`, clears `error` and
      shows its verb's progress text. */
  lemma MutationIntent(s: Slice, a: ItemAction)
    requires IsMutation(a)
    ensures var r := Reduce(s, Item(a));
      && r.loading && !r.success && r.error == Null && r.message == Some(MutationTexts(a).0)
      && r.list == s.list && r.current == s.current
  {
  }

  /** A mutation's success ends loading, sets `success`, shows its verb's
      success text, and keeps `error`. */
  lemma MutationSuccess(s: Slice, a: ItemAction)
    requires IsMutation(a)
    ensures var r := Reduce(s, Item(SuccessOf(a)));
      && !r.loading && r.success && r.message == Some(MutationTexts(a).1)
      && r.error == s.error && r.list == s.list && r.current == s.current
  {
  }

  /** A mutation's failure ends loading, resets `success`, records the error
      and keeps the message; applying it twice is applying it once. */
  lemma MutationFailure(s: Slice, a: ItemAction)
    requires IsMutationFailure(a)
    ensures var r := Reduce(s, Item(a));
      && !r.loading && !r.success && r.error == Carried(a.error, "error")
      && r.message == s.message && r.list == s.list && r.current == s.current
      && Reduce(r, Item(a)) == r
  {
  }

  /** `getItem` starts a single-item fetch: it sets `loading`, resets
      `success`, clears `error` and shows its progress text, leaving the list
      and the current item alone. */
  lemma SingleItemIntent(s: Slice, id: Value)
    ensures var r := Reduce(s, Item(GetItem(id)));
      && r.loading && !r.success && r.error == Null && r.message == Some("Getting item info...")
      && r.list == s.list && r.current == s.current
  {
  }

  /** The single-item fetch outcomes. */
  lemma SingleItemOutcomes(s: Slice, v: Value)
    ensures var r := Reduce(s, Item(GetItemSucceed(v)));
      !r.loading && r.current == Carried(v, "item") && r.message == Some("") && r.success == s.success && r.error == s.error
    ensures var r := Reduce(s, Item(GetItemFailed(v)));
      && !r.loading && r.current == Null && r.message == Some("Getting item info failed")
      && !r.success && r.error == Carried(v, "error") && r.list == s.list
  {
  }

  /** `updateCurrentItem` changes only the current item; actions of other
      slices leave the item slice as it is. */
  lemma OtherActions(s: Slice, v: Value, a: Action)
    ensures Reduce(s, Item(UpdateCurrentItem(v))) == s.(current := Carried(v, "item"))
    ensures !a.Item? ==> Reduce(s, a) == s
  {
    if !a.Item? {
      AgreeEverywhere(s, Reduce(s, a));
    }
  }

  /** Every item transition only overwrites fields with values that do not
      depend on the state, so each one is idempotent. */
  lemma Idempotent(s: Slice, a: Action)
    ensures Reduce(Reduce(s, a), a) == Reduce(s, a)
  {
  }

  /** Actions of other slices interleaved into a sequence of item actions
      change nothing: a sequence of foreign actions is the identity. */
  lemma {:induction false} ForeignSequence(s: Slice, actions: seq<Action>)
    requires forall i :: 0 <= i < |actions| ==> !actions[i].Item?
    ensures ReduceAll(s, actions) == s
  {
    if actions != [] {
      OtherActions(s, Null, actions[0]);
      ForeignSequence(s, actions[1..]);
    }
  }
}
