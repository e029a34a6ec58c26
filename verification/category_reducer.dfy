/** The category slice reducer: `handleActions` over the category actions,
    starting from the category `defaultState`. */
module CategoryReducer {
  import opened Values
  import opened Slice
  import opened CategoryActions
  import opened Store

  /** The category `defaultState`: unlike the item slice it defines
      `message` (as the empty text) and has no `messages` key. */
  function Initial(): (s: Slice)
    ensures s.list == Null && s.error == Null && s.current == Null
    ensures !s.loading && !s.success
    ensures s.message == Some("") && s.messages == None
  {
    Slice(Null, Null, false, false, Some(""), Null, None)
  }

  /** The three mutating intents. */
  predicate IsMutation(a: CategoryAction) {
    a.AddCategory? || a.DeleteCategory? || a.UpdateCategory?
  }

  predicate IsMutationSuccess(a: CategoryAction) {
    a.AddCategorySucceed? || a.DeleteCategorySucceed? || a.UpdateCategorySucceed?
  }

  predicate IsMutationFailure(a: CategoryAction) {
    a.AddCategoryFailed? || a.DeleteCategoryFailed? || a.UpdateCategoryFailed?
  }

  /** The fields each transition writes; every other field is copied by the
      `...state` spread. */
  function Writes(a: Action): (w: set<Field>) {
    if !a.Category? then {} else
    match a.category
    case GetCategories => {ErrorField, LoadingField, MessageField}
    case GetCategoriesSucceed(_) => {LoadingField, ListField}
    case GetCategoriesFailed(_) => {ErrorField, LoadingField}
    case AddCategorySucceed => {LoadingField, SuccessField, MessageField, ErrorField}
    case GetCategorySucceed(_) => {LoadingField, MessageField, CurrentField}
    case GetCategoryFailed(_) => {LoadingField, SuccessField, MessageField, ErrorField, CurrentField}
    case UpdateCurrentCategory(_) => {CurrentField}
    case _ =>
      if IsMutationSuccess(a.category) then {LoadingField, SuccessField, MessageField}
      else if IsMutationFailure(a.category) then {LoadingField, SuccessField, ErrorField}
      else {LoadingField, SuccessField, MessageField, ErrorField}
  }

  /** The reducer. Actions of other slices fall through unchanged. */
  function Reduce(s: Slice, a: Action): (r: Slice)
    ensures OnlyWrites(s, r, Writes(a))
    ensures a.Category? && (IsMutation(a.category) || a.category.GetCategories? || a.category.GetCategory?) ==>
              r.loading && r.error == Null
    ensures a.Category? && (IsMutation(a.category) || a.category.GetCategory?) ==> !r.success
    ensures a.Category? && IsMutationSuccess(a.category) ==> !r.loading && r.success
    ensures a.Category? && (IsMutationFailure(a.category) || a.category.GetCategoryFailed?) ==>
              !r.loading && !r.success && r.error == Carried(a.category.error, "error")
  {
    if !a.Category? then s else
    match a.category
    case GetCategories =>
      s.(error := Null, loading := true, message := Some("Generating category lists..."))
    case GetCategoriesFailed(error) =>
      s.(error := Carried(error, "error"), loading := false)
    case GetCategoriesSucceed(categories) =>
      s.(loading := false, list := Carried(categories, "categories"))
    case AddCategory =>
      s.(loading := true, success := false, message := Some("Adding Category..."), error := Null)
    case AddCategorySucceed =>
      s.(loading := false, success := true, message := Some("Category added successfully"), error := Null)
    case AddCategoryFailed(error) =>
      s.(loading := false, success := false, error := Carried(error, "error"))
    case DeleteCategory(_) =>
      s.(loading := true, success := false, message := Some("Deleting Category..."), error := Null)
    case DeleteCategorySucceed =>
      s.(loading := false, success := true, message := Some("Category deleted successfully"))
    case DeleteCategoryFailed(error) =>
      s.(loading := false, success := false, error := Carried(error, "error"))
    case UpdateCategory =>
      s.(loading := true, success := false, message := Some("Updating category..."), error := Null)
    case UpdateCategorySucceed =>
      s.(loading := false, success := true, message := Some("Category updated successfully"))
    case UpdateCategoryFailed(error) =>
      s.(loading := false, success := false, error := Carried(error, "error"))
    case GetCategory =>
      s.(loading := true, success := false, message := Some("Getting category info..."), error := Null)
    case GetCategorySucceed(category) =>
      s.(loading := false, message := Some(""), current := Carried(category, "category"))
    case GetCategoryFailed(error) =>
      s.(loading := false, success := false, message := Some("Getting category info failed"),
         error := Carried(error, "error"), current := Null)
    case UpdateCurrentCategory(category) =>
      s.(current := Carried(category, "category"))
  }

  // ---------------------------------------------------------------------
  // Per-action properties

  /** The status text each mutating intent shows. */
  function IntentText(a: CategoryAction): (text: string)
    requires IsMutation(a)
  {
    match a
    case AddCategory => "Adding Category..."
    case DeleteCategory(_) => "Deleting Category..."
    case UpdateCategory => "Updating category..."
  }

  /** The list fetch: the intent clears `error` and starts loading; the
      outcomes end loading and store the list or the error. */
  lemma ListFetch(s: Slice, v: Value)
    ensures var r := Reduce(s, Category(GetCategories));
      r.loading && r.error == Null && r.message == Some("Generating category lists...") && r.list == s.list
    ensures var r := Reduce(s, Category(GetCategoriesSucceed(v)));
      !r.loading && r.list == Carried(v, "categories") && r.error == s.error && r.success == s.success
    ensures var r := Reduce(s, Category(GetCategoriesFailed(v)));
      !r.loading && r.error == Carried(v, "error") && r.list == s.list && r.success == s.success
  {
  }

  /** A mutating intent sets `loading`, resets `success`, clears `error` and
      shows its verb's progress text. */
  lemma MutationIntent(s: Slice, a: CategoryAction)
    requires IsMutation(a)
    ensures var r := Reduce(s, Category(a));
      && r.loading && !r.success && r.error == Null && r.message == Some(IntentText(a))
      && r.list == s.list && r.current == s.current
  {
  }

  /** Of the three mutation successes only `addCategorySucceed` clears the
      error; the delete and update successes keep it. */
  lemma MutationSuccesses(s: Slice)
    ensures var r := Reduce(s, Category(AddCategorySucceed));
      !r.loading && r.success && r.error == Null && r.message == Some("Category added successfully")
    ensures var r := Reduce(s, Category(DeleteCategorySucceed));
      !r.loading && r.success && r.error == s.error && r.message == Some("Category deleted successfully")
    ensures var r := Reduce(s, Category(UpdateCategorySucceed));
      !r.loading && r.success && r.error == s.error && r.message == Some("Category updated successfully")
  {
  }

  /** A mutation's failure ends loading, resets `success`, records the error
      and keeps the list, the message and the current category. */
  lemma MutationFailure(s: Slice, a: CategoryAction)
    requires IsMutationFailure(a)
    ensures var r := Reduce(s, Category(a));
      && !r.loading && !r.success && r.error == Carried(a.error, "error")
      && r.list == s.list && r.message == s.message && r.current == s.current
  {
  }

  /** `getCategory` starts a single-category fetch: it sets `loading`,
      resets `success`, clears `error` and shows its progress text, leaving
      the list and the current category alone. */
  lemma SingleCategoryIntent(s: Slice)
    ensures var r := Reduce(s, Category(GetCategory));
      && r.loading && !r.success && r.error == Null && r.message == Some("Getting category info...")
      && r.list == s.list && r.current == s.current
  {
  }

  /** The single-category outcomes and `updateCurrentCategory`, which changes
      only the current category. */
  lemma SingleCategory(s: Slice, v: Value)
    ensures var r := Reduce(s, Category(GetCategorySucceed(v)));
      !r.loading && r.current == Carried(v, "category") && r.message == Some("") && r.success == s.success
    ensures var r := Reduce(s, Category(GetCategoryFailed(v)));
      && !r.loading && r.current == Null && r.message == Some("Getting category info failed")
      && !r.success && r.error == Carried(v, "error")
    ensures Reduce(s, Category(UpdateCurrentCategory(v))) == s.(current := Carried(v, "category"))
  {
  }

  /** Actions of other slices leave the category slice as it is. */
  lemma ForeignActions(s: Slice, a: Action)
    requires !a.Category?
    ensures Reduce(s, a) == s
  {
    AgreeEverywhere(s, Reduce(s, a));
  }
}
