/** The item actions. Each constructor holds the arguments its creator was
    called with. The item action creators themselves
    (src/services/item/itemActions.js) are not part of this model: each is
    taken to be a `createActions` creator that wraps its arguments under the
    field names below, as the menu creators do. A reducer therefore reads a
    one-argument outcome's field through `Values.Carried`. */
module ItemActions {
  import opened Values

  datatype ItemAction =
    | GetItems(params: Value)
    | GetItemsSucceed(items: Value)
    | GetItemsFailed(error: Value)
    | AddItem(item: Value, params: Value)
    | AddItemSucceed
    | AddItemFailed(error: Value)
    | AddItems(items: Value, params: Value)
    | AddItemsSucceed
    | AddItemsFailed(error: Value)
    | DeleteItem(id: Value, params: Value)
    | DeleteItemSucceed
    | DeleteItemFailed(error: Value)
    | UpdateItem(id: Value, item: Value, params: Value)
    | UpdateItemSucceed
    | UpdateItemFailed(error: Value)
    | GetItem(id: Value)
    | GetItemSucceed(item: Value)
    | GetItemFailed(error: Value)
    | UpdateCurrentItem(item: Value)
  {
    /** The action's type string. The six intents carry the strings the item
        saga subscribes to; the outcome types follow the `createActions`
        naming of their creators. */
    function TypeName(): (name: string) {
      match this
      case GetItems(_) => "GET_ITEMS"
      case GetItemsSucceed(_) => "GET_ITEMS_SUCCEED"
      case GetItemsFailed(_) => "GET_ITEMS_FAILED"
      case AddItem(_, _) => "ADD_ITEM"
      case AddItemSucceed => "ADD_ITEM_SUCCEED"
      case AddItemFailed(_) => "ADD_ITEM_FAILED"
      case AddItems(_, _) => "ADD_ITEMS"
      case AddItemsSucceed => "ADD_ITEMS_SUCCEED"
      case AddItemsFailed(_) => "ADD_ITEMS_FAILED"
      case DeleteItem(_, _) => "DELETE_ITEM"
      case DeleteItemSucceed => "DELETE_ITEM_SUCCEED"
      case DeleteItemFailed(_) => "DELETE_ITEM_FAILED"
      case UpdateItem(_, _, _) => "UPDATE_ITEM"
      case UpdateItemSucceed => "UPDATE_ITEM_SUCCEED"
      case UpdateItemFailed(_) => "UPDATE_ITEM_FAILED"
      case GetItem(_) => "GET_ITEM"
      case GetItemSucceed(_) => "GET_ITEM_SUCCEED"
      case GetItemFailed(_) => "GET_ITEM_FAILED"
      case UpdateCurrentItem(_) => "UPDATE_CURRENT_ITEM"
    }
  }
}
