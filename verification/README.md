# Restaurant admin front-end: the Redux state pipeline, in Dafny

This project models the state pipeline of a restaurant-delivery admin
front-end (a React/Redux application) and proves properties of it:

- **Slice reducers** (`item_reducer.dfy`, `category_reducer.dfy`). The item and
  category reducers are total functions over one shared slice record (`slice.dfy`).
  Each transition carries a frame: a table (`Writes`) of the fields it may
  write, and a proof that every other field is copied unchanged.
  Actions of other slices fall through unchanged.
- **Item effect handlers** (`item_saga.dfy`). Each redux-saga generator is a pure
  function. It takes the action payload and a scripted API, where the k-th call
  settles with `oracle(k)`. It returns the API calls made and the actions put,
  in order. `addItems` is its sequential loop; the loop stops at the first rejection.
- **The pipeline end to end** (`pipeline.dfy`). Intent, then handler, then the
  reducer over what the handler put. This proves when the item slice settles. It
  also proves that a successful delete leaves the slice loading again.
- **Menu action creators** (`menu_actions.dfy`). These are the payload objects of
  `createActions`, including the `params = null` defaults.
- **List screen controllers** (`list_view.dfy` for the rules both screens share,
  `cities_list.dfy`, `restaurants_list.dfy`). They cover the query read on
  mount, edge-triggered toasts, pagination through the URL, filter accumulation,
  confirm-gated delete and the pagination guard. They also cover the one
  difference between the screens: Cities refetches on a URL change only when
  the query names a page. Finally they cover the Cities CSV import, the
  tile-image URL rule and the Restaurants categories column.

JavaScript values (payloads, API responses, errors) are the `Value` datatype of
`values.dfy`. It spells out truthiness, property reads (a missing property
reads as `undefined`) and `length`. `Thrown` is an `Error` instance. Dispatched
actions are `Store.Action`: item, category or menu actions, or an action of an
entity outside the model.

Action creators follow the redux-actions rule for a first argument that is an
`Error`: the Error becomes the payload itself and the action is flagged as an
error (`MenuActions.Create`, `Values.PayloadOf`). A reducer that destructures
`{ payload: { error } }` therefore reads `undefined` from such an action
(`Values.Carried`). This applies to every failure the handlers catch, API
rejections included, when the rejection is an `Error`.

Behaviour of the code worth knowing:

- On a URL change the Cities screen refetches only when the new query has a
  non-empty `page`. The Restaurants screen refetches on every change.
- After a successful item delete the slice is not settled. The handler puts
  `getItems({page: 1})` right after the success, which sets `loading` again
  (`Pipeline.DeleteLeavesListLoading`).
- `addItems` with a null or undefined list puts two failures. The guard puts
  the first but does not return; reading `items.length` then throws, and the
  `catch` puts the second. An empty array is not rejected: it succeeds with
  no API call.
- The list handler puts the whole API response (rows and paging data together)
  as `items`. The slice keeps no separate paging field.
- The item slice's default object spells its status key `messages`, so
  `message` is absent until the first transition writes it.

## Model

| member | source | states |
|---|---|---|
| `ItemReducer.Initial` | src/services/item/itemReducer.js:25-32 | items, error and current item are null; loading and success are false; only the `messages` key is defined, `message` is absent |
| `ItemReducer.Reduce` | src/services/item/itemReducer.js:34-243 | each action writes only the fields of its `Writes` entry. Intents set loading and clear error; outcomes end loading; mutation intents reset success and mutation successes set it. Failures store `payload.error`: the error argument, or undefined for an `Error` argument. Non-item actions change nothing |
| `ItemReducer.ReduceAll` | src/services/item/itemReducer.js:34-243 | a sequence of actions writes no field outside the union of their write sets, and never the `messages` key |
| `ItemReducer.GetItemsStartsFetch` | src/services/item/itemReducer.js:36-43 | `getItems` sets loading, clears error and shows 'Generating items list...'; success, items and current item are untouched |
| `ItemReducer.ListOutcomes` | src/services/item/itemReducer.js:44-67 | both list outcomes end loading. Succeed stores the items, failed stores `payload.error`; neither touches success or message |
| `ItemReducer.MutationIntent` | src/services/item/itemReducer.js:68-76 | addItem, addItems, deleteItem and updateItem (also lines 98-106, 128-141, 163-171) set loading, reset success, clear error and show their verb's text |
| `ItemReducer.MutationSuccess` | src/services/item/itemReducer.js:77-84 | each mutation's success (also lines 107-114, 142-149, 172-179) ends loading, sets success and shows its verb's success text, keeping the error |
| `ItemReducer.MutationFailure` | src/services/item/itemReducer.js:85-97 | each mutation's failure (also lines 115-127, 150-162, 180-192) ends loading, resets success, stores `payload.error` (undefined for an `Error` argument) and keeps the message; applying it twice equals applying it once |
| `ItemReducer.SingleItemIntent` | src/services/item/itemReducer.js:193-201 | getItem sets loading, resets success, clears error and shows 'Getting item info...'; the list and current item are untouched |
| `ItemReducer.SingleItemOutcomes` | src/services/item/itemReducer.js:202-229 | getItemSucceed stores the item, empties the message and keeps success; getItemFailed nulls the item, resets success and stores `payload.error` and the failure text |
| `ItemReducer.OtherActions` | src/services/item/itemReducer.js:230-243 | updateCurrentItem changes only the current item; an action the map has no handler for returns the state unchanged |
| `ItemReducer.Idempotent` | src/services/item/itemReducer.js:34-241 | every item transition applied twice gives the same state as applied once |
| `ItemReducer.ForeignSequence` | src/services/item/itemReducer.js:241-243 | any sequence of actions of other slices leaves the item slice unchanged |
| `CategoryReducer.Initial` | src/services/category/categoryReducer.js:22-29 | categories, error and current category are null; loading and success are false; message is the empty text |
| `CategoryReducer.Reduce` | src/services/category/categoryReducer.js:31-163 | each action writes only the fields of its `Writes` entry. Intents set loading and clear error; mutation successes set success; failures end loading, reset success and store `payload.error` (undefined for an `Error` argument) |
| `CategoryReducer.ListFetch` | src/services/category/categoryReducer.js:32-53 | getCategories sets loading, clears error and shows the list text; succeed ends loading and stores the categories; failed ends loading and stores `payload.error` |
| `CategoryReducer.MutationIntent` | src/services/category/categoryReducer.js:54-62 | add, delete and update (also lines 80-88, 105-113) set loading, reset success, clear error and show their verb's text |
| `CategoryReducer.MutationSuccesses` | src/services/category/categoryReducer.js:63-121 | only addCategorySucceed clears the error; the delete and update successes keep it; all three end loading and set success |
| `CategoryReducer.MutationFailure` | src/services/category/categoryReducer.js:72-79 | each mutation failure (also lines 97-104, 122-129) ends loading, resets success and stores `payload.error`, with the categories unchanged |
| `CategoryReducer.SingleCategoryIntent` | src/services/category/categoryReducer.js:130-138 | getCategory sets loading, resets success, clears error and shows 'Getting category info...'; the list and current category are untouched |
| `CategoryReducer.SingleCategory` | src/services/category/categoryReducer.js:139-162 | getCategorySucceed stores the category; getCategoryFailed nulls it and shows the failure text; updateCurrentCategory changes only the current category |
| `CategoryReducer.ForeignActions` | src/services/category/categoryReducer.js:31-163 | an action of another slice leaves the category slice unchanged |
| `ItemSaga.Route` | src/services/item/itemSaga.js:23-30 | a type string starts at most one handler, and each of the six handlers starts exactly on its own type |
| `ItemSaga.Dispatch` | src/services/item/itemSaga.js:23-30 | an item action starts a handler exactly when its type string is routed, and its trace is that of the routed handler run on the action's payload |
| `ItemSaga.GetItemsSaga` | src/services/item/itemSaga.js:32-40 | one call with the params, then exactly one put: succeed with the resolved value or failed with the rejection |
| `ItemSaga.AddItemSaga` | src/services/item/itemSaga.js:42-51 | on success it puts addItemSucceed then getMenus(params), in that order; on rejection it puts only addItemFailed |
| `ItemSaga.AddEach` | src/services/item/itemSaga.js:63-72 | the loop calls addItem for the elements in index order up to and including the first rejection, and reports that rejection's error |
| `ItemSaga.AddItemsSaga` | src/services/item/itemSaga.js:53-73 | null or undefined input makes no call and puts the guard failure then the TypeError failure. Otherwise the calls run up to the first rejection; all accepted means succeed then getMenus, else one failure |
| `ItemSaga.DeleteItemSaga` | src/services/item/itemSaga.js:75-85 | on success it puts deleteItemSucceed, getItems({page: 1}), getMenus(params) in exactly that order; on rejection only deleteItemFailed |
| `ItemSaga.UpdateItemSaga` | src/services/item/itemSaga.js:87-96 | calls the API with (id, item); on success puts updateItemSucceed then getMenus(params); on rejection only updateItemFailed |
| `ItemSaga.GetItemSaga` | src/services/item/itemSaga.js:98-107 | on success puts getItemSucceed(response.data); a null response is a caught TypeError; a rejection puts getItemFailed |
| `Pipeline.ListFetchSettles` | src/services/item/itemSaga.js:32-40 | after getItems and its outcome the item slice is not loading. It holds the fetched list, or the old list and the failure's `payload.error`: the rejection, or undefined when the rejection is an `Error` |
| `Pipeline.AddItemSettles` | src/services/item/itemSaga.js:42-51 | after addItem and the handler's puts, loading is false and success says whether the API accepted. The error is null, or the failure's `payload.error`: the rejection, or undefined when it is an `Error` |
| `Pipeline.UpdateItemSettles` | src/services/item/itemSaga.js:87-96 | after updateItem and the handler's puts, loading is false and success says whether the API accepted. The error is null, or the failure's `payload.error`: the rejection, or undefined when it is an `Error` |
| `Pipeline.DeleteLeavesListLoading` | src/services/item/itemSaga.js:75-85 | after a successful delete the slice is loading again with the list text and success still true; a rejected delete settles with the failure's `payload.error` (undefined when the rejection is an `Error`) |
| `Pipeline.SingleItemSettles` | src/services/item/itemSaga.js:98-107 | after getItem and its outcome the slice is settled. A non-null response leaves its `data` as current item with an empty message; a null response or a rejection nulls the current item and shows the failure text |
| `Pipeline.NullItemsFailTwice` | src/services/item/itemSaga.js:53-72 | addItems(null) makes no call and puts two failures. The second carries the TypeError, which becomes the payload, so the slice ends with an undefined error and the guard's message is lost |
| `Pipeline.EmptyItemsSucceed` | src/services/item/itemSaga.js:63-68 | an empty array makes zero calls and puts addItemsSucceed then getMenus(params) |
| `Pipeline.SecondOfThreeFails` | src/services/item/itemSaga.js:63-72 | for [A, B, C] with B rejected, A and B are called, C never is, and exactly one failure is put |
| `Pipeline.BulkIsPrefix` | src/services/item/itemSaga.js:63-72 | the calls are an order-preserving prefix of the elements; every call but a rejected last one was accepted, and nothing is undone |
| `MenuActions.GetMenus` | src/services/menu/menuActions.js:21 | the payload is exactly `{params}`; an `Error` argument is passed through as the payload |
| `MenuActions.GetMenusSucceed` | src/services/menu/menuActions.js:22 | the payload is exactly `{menus}`; an `Error` argument is passed through as the payload |
| `MenuActions.Failed` | src/services/menu/menuActions.js:23 | every `*_FAILED` creator (also lines 26, 29, 32, 35) carries exactly `{error}`; an `Error` argument becomes the payload itself, flagged as an error, so `payload.error` reads undefined |
| `MenuActions.DeleteMenu` | src/services/menu/menuActions.js:24 | the payload is `{id, params}`; params is never undefined, and equals the argument when one is passed; an `Error` first argument is passed through as the payload |
| `MenuActions.Succeeded` | src/services/menu/menuActions.js:25 | the delete, update and add successes (also lines 28, 31) carry an empty payload |
| `MenuActions.UpdateMenu` | src/services/menu/menuActions.js:27 | the payload is `{id, menu, params}`; params defaults to null; an `Error` first argument is passed through |
| `MenuActions.AddMenu` | src/services/menu/menuActions.js:30 | the payload is `{menu, params}`; params defaults to null; an `Error` first argument is passed through |
| `MenuActions.GetMenu` | src/services/menu/menuActions.js:33 | the payload is exactly `{id}`; an `Error` argument is passed through as the payload |
| `MenuActions.GetMenuSucceed` | src/services/menu/menuActions.js:34 | the payload is exactly `{menu}`; an `Error` argument is passed through as the payload |
| `MenuActions.UpdateCurrentMenu` | src/services/menu/menuActions.js:36 | the payload is exactly `{menu}`; an `Error` argument is passed through as the payload |
| `MenuActions.OmittedParamsAreNull` | src/services/menu/menuActions.js:24-30 | omitting params and passing null build the same deleteMenu, updateMenu and addMenu actions |
| `MenuActions.GetMenusKeepsUndefined` | src/services/menu/menuActions.js:21 | getMenus has no default: omitting params leaves it undefined, which differs from passing null |
| `MenuActions.TypeNamesDistinct` | src/services/menu/menuActions.js:20-37 | the sixteen action types carry pairwise distinct type strings |
| `ListView.Mount` | src/scenes/Home/scenes/Cities/scenes/List/List.js:67-76 | the active page becomes the query's page when it has one, else stays 1; the list is always fetched with the whole parsed query (Restaurants: lines 60-69) |
| `ListView.ToastsFor` | src/scenes/Home/scenes/Cities/scenes/List/List.js:78-89 | an error toast fires exactly when the error changed and is not null; a success toast exactly when success rose from false to true |
| `ListView.ToastsAreEdgeTriggered` | src/scenes/Home/scenes/Restaurants/scenes/List/List.js:71-82 | unchanged status fields show no toast, and success toasts never fire on two updates in a row |
| `ListView.WithPage` | src/scenes/Home/scenes/Cities/scenes/List/List.js:122-126 | the merged query has the page set and every other key unchanged |
| `ListView.OnPaginationSelect` | src/scenes/Home/scenes/Cities/scenes/List/List.js:121-133 | the pushed location keeps the pathname and carries the stringified merged query |
| `ListView.PaginationKeepsQuery` | src/scenes/Home/scenes/Restaurants/scenes/List/List.js:140-152 | with a round-tripping query library, the pushed search parses to the old query with only the page replaced |
| `ListView.OnFilterChange` | src/scenes/Home/scenes/Cities/scenes/List/List.js:104-109 | the changed field takes the new value; every other field is kept |
| `ListView.FilterKeys` | src/scenes/Home/scenes/Cities/scenes/List/List.js:104-109 | a field is in the accumulated filter exactly when some change event named it |
| `ListView.FilterKeepsLastValue` | src/scenes/Home/scenes/Cities/scenes/List/List.js:104-109 | a field's value is that of the last event naming it, so a later value overwrites an earlier one |
| `ListView.OnDelete` | src/scenes/Home/scenes/Cities/scenes/List/List.js:178-194 | the delete is dispatched, with the record's id, exactly when the confirmation result is truthy (Restaurants: lines 123-138) |
| `ListView.DeletesFollowConfirmations` | src/scenes/Home/scenes/Cities/scenes/List/List.js:178-194 | over a run of delete clicks, every dispatched delete names a confirmed record, every confirmed record is deleted, and dismissed dialogs dispatch nothing |
| `ListView.ShowPagination` | src/scenes/Home/scenes/Restaurants/scenes/List/List.js:293-309 | pagination is drawn exactly when the response is an object with a truthy meta and a non-empty data |
| `ListView.PaginationOnlyWithRows` | src/scenes/Home/scenes/Restaurants/scenes/List/List.js:154-158 | whenever pagination is drawn the table has rows; a response without meta has rows but no pagination |
| `CitiesList.DidUpdate` | src/scenes/Home/scenes/Cities/scenes/List/List.js:78-102 | toasts as above. It refetches with the whole query and moves the active page exactly when the search changed and the new query has a page; otherwise it dispatches nothing |
| `CitiesList.PaginationRefetches` | src/scenes/Home/scenes/Cities/scenes/List/List.js:91-101 | after a page selection the URL change refetches the old query with the new page and makes that page active |
| `CitiesList.CsvRecords` | src/scenes/Home/scenes/Cities/scenes/List/List.js:148-166 | one record per row after the first, in order. Each record holds name, order, image_url and is_open from cells 0-3 (missing cells undefined) and the row's two clock readings |
| `CitiesList.CsvKeepsRows` | src/scenes/Home/scenes/Cities/scenes/List/List.js:152-159 | reading a record's four columns back gives the first four cells of the row it was built from; later cells are ignored |
| `CitiesList.OnCsvLoaded` | src/scenes/Home/scenes/Cities/scenes/List/List.js:145-168 | submits exactly the mapped records with the current parsed query, always fewer records than rows unless there are none |
| `CitiesList.CsvSubmitsRows` | src/scenes/Home/scenes/Cities/scenes/List/List.js:145-168 | submitted record j reads back the first four cells of file row j+1: the data rows in file order, header dropped |
| `CitiesList.TileImageUrl` | src/scenes/Home/scenes/Cities/scenes/List/List.js:270-273 | the URL is kept when its first four characters are "http" and is prefixed with the base URL otherwise |
| `CitiesList.TileImageIdempotent` | src/scenes/Home/scenes/Cities/scenes/List/List.js:270-273 | with an http base URL every tile URL starts with "http", and applying the rule twice equals applying it once |
| `RestaurantsList.DidUpdate` | src/scenes/Home/scenes/Restaurants/scenes/List/List.js:71-94 | toasts as above. Any change of the search refetches with the whole query, with or without a page; the active page moves only when the query has one |
| `RestaurantsList.UpdatesAgreeWithMount` | src/scenes/Home/scenes/Restaurants/scenes/List/List.js:60-94 | whenever either screen refetches on an update, it fetches the query a mount on the new location would, and moves to the mount's page when the query names one |
| `RestaurantsList.RefetchPoliciesDiffer` | src/scenes/Home/scenes/Restaurants/scenes/List/List.js:84-93 | when Cities refetches, Restaurants does the same. Restaurants alone refetches exactly when the search changed to a query without a page |
| `RestaurantsList.Join` | src/scenes/Home/scenes/Restaurants/scenes/List/List.js:167 | joining n texts gives their summed length plus n-1 separators; no texts give the empty text |
| `RestaurantsList.JoinAppend` | src/scenes/Home/scenes/Restaurants/scenes/List/List.js:167 | joining one more name appends the separator and the name |
| `RestaurantsList.CategoriesColumn` | src/scenes/Home/scenes/Restaurants/scenes/List/List.js:160-167 | the empty text when categories is falsy; the names joined with ", " for an array of records. None exactly when rendering throws: a truthy non-array, or an array with a null or undefined element |
| `RestaurantsList.NameText` | src/scenes/Home/scenes/Restaurants/scenes/List/List.js:162-167 | a category contributes its text name; a null or missing name contributes the empty text, as `Array.join` renders it |
| `RestaurantsList.CategoriesColumnNames` | src/scenes/Home/scenes/Restaurants/scenes/List/List.js:160-167 | categories give exactly their names joined with ", ", a category whose name is null contributing the empty text |
| `RestaurantsList.EmptyColumn` | src/scenes/Home/scenes/Restaurants/scenes/List/List.js:167 | the joined column is empty exactly for no names or one empty name; two names always leave the separator |

## Left out

- Rendering: JSX, reactstrap layout, the loading and confirmation dialogs, and the
  toast calls. Confirmation is an input value; toasts are a returned decision.
- `onSearchClick` and `errorMsg`: src/services/utils.js is not part of this
  model. The same holds for `onEdit` and `showModal` (the modal conductor),
  `onViewModeChange` (local view state) and the hidden file input click.
- The item, category, city and restaurant action creators (`itemActions.js`,
  `categoryActions.js`, ...) are not part of this model. The item and category
  actions carry the payload fields the reducers and the saga read.
  `ItemActions.ItemAction.TypeName` assumes the same `createActions` naming as the
  menu creators. Only the six intent strings are written in the handlers.
- `ItemSaga.Run`: the handlers destructure the intent's creator arguments directly.
  An intent built with an `Error` as its first argument would reach a handler with
  that Error as the payload; no code dispatches such an intent.
- The item API (`itemApi.js`) and `menuApi.js`: HTTP calls, base64 file encoding
  and `wrapRequest`. The API is a scripted oracle of resolutions and rejections.
- redux-saga concurrency: `takeEvery` interleavings, concurrent identical requests
  and stale responses. Each handler run is a sequential function, and a
  `getItems` the delete handler puts starts a separate run.
- The query-string library: parse and stringify are function parameters. A query is
  a map from text to text, so keys without a value and repeated keys are not
  represented.
- csv-parse tokenising is not modelled: rows arrive parsed. FileReader is left out,
  and moment timestamps are readings of an opaque clock.
- `ListView.ToastsFor`: the source compares error objects by reference (`!==`); the
  model compares values, so two distinct but equal error objects count as unchanged.
- `ItemSaga.AddItemsSaga`: an object with its own numeric `length` property is
  treated like any other object without a length. The loop makes no call for it,
  while the source would index it from 0.
- `ItemSaga.GetItemSaga`: only null and undefined responses throw on `response.data`.
  Property reads on other primitives yield undefined, as in JavaScript.
- `CitiesList.TileImageUrl`: a city whose `image_url` is null would throw while
  rendering. URLs are texts here.
- Numbers are integers; there is no floating point and no NaN.
- `Values.Length` and `ItemSaga.Characters`: a string's length and its characters
  are Unicode scalar values, where JavaScript's `length` and indexing count UTF-16
  code units. They differ only for a string given to `addItems` that holds
  characters outside the Basic Multilingual Plane.
- `Values.Field`: a property read on an `Error` gives undefined, where JavaScript
  finds the inherited `name` and `message`. No modelled read reaches an `Error`.
- The Restaurants tile renderer prefixes `BASE_URL` unconditionally. It is
  rendering only and is not modelled.
- The Categories, Menu and MenuItems list screens repeat the Restaurants controller
  rules and are instances of `ListView` and `RestaurantsList.DidUpdate`.
  MenuTable (mutable per-instance buffers, floating-point prices) and TopNav
  (presentation) are not modelled.
- The menu reducer and menu saga are not part of this model. The menu actions the
  item handlers put are only constructed, and the item reducer ignores them.
