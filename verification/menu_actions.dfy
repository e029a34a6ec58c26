/** The menu action creators of `createActions`: each one builds the payload
    object of one action type from its arguments. A JavaScript default
    parameter `params = null` applies when the argument is omitted, which is
    the same as passing `undefined`; an argument is therefore a `Value` and
    `Undefined` stands for "not passed". */
module MenuActions {
  import opened Values

  /** The sixteen menu action types. */
  datatype MenuType =
    | GET_MENUS | GET_MENUS_SUCCEED | GET_MENUS_FAILED
    | DELETE_MENU | DELETE_MENU_SUCCEED | DELETE_MENU_FAILED
    | UPDATE_MENU | UPDATE_MENU_SUCCEED | UPDATE_MENU_FAILED
    | ADD_MENU | ADD_MENU_SUCCEED | ADD_MENU_FAILED
    | GET_MENU | GET_MENU_SUCCEED | GET_MENU_FAILED
    | UPDATE_CURRENT_MENU

  /** The type string an action of this type carries. */
  function TypeName(t: MenuType): (name: string) {
    match t
    case GET_MENUS => "GET_MENUS"
    case GET_MENUS_SUCCEED => "GET_MENUS_SUCCEED"
    case GET_MENUS_FAILED => "GET_MENUS_FAILED"
    case DELETE_MENU => "DELETE_MENU"
    case DELETE_MENU_SUCCEED => "DELETE_MENU_SUCCEED"
    case DELETE_MENU_FAILED => "DELETE_MENU_FAILED"
    case UPDATE_MENU => "UPDATE_MENU"
    case UPDATE_MENU_SUCCEED => "UPDATE_MENU_SUCCEED"
    case UPDATE_MENU_FAILED => "UPDATE_MENU_FAILED"
    case ADD_MENU => "ADD_MENU"
    case ADD_MENU_SUCCEED => "ADD_MENU_SUCCEED"
    case ADD_MENU_FAILED => "ADD_MENU_FAILED"
    case GET_MENU => "GET_MENU"
    case GET_MENU_SUCCEED => "GET_MENU_SUCCEED"
    case GET_MENU_FAILED => "GET_MENU_FAILED"
    case UPDATE_CURRENT_MENU => "UPDATE_CURRENT_MENU"
  }

  /** The outcome types that report a failure. */
  predicate IsFailedType(t: MenuType) {
    t == GET_MENUS_FAILED || t == DELETE_MENU_FAILED || t == UPDATE_MENU_FAILED
    || t == ADD_MENU_FAILED || t == GET_MENU_FAILED
  }

  /** A menu action: its type, its payload and the `error` flag that
      redux-actions sets on an action whose payload is an `Error`. */
  datatype MenuAction = MenuAction(kind: MenuType, payload: Value, error: bool)

  /** JavaScript's `param = null` default: only an omitted (undefined)
      argument is replaced. */
  function OrNull(arg: Value): (r: Value)
    ensures r != Undefined
    ensures arg != Undefined ==> r == arg
  {
    if arg == Undefined then Null else arg
  }

  /** `createActions` applying a payload creator: the creator builds the
      object `built`, unless the first argument is an `Error`, which is the
      payload itself and marks the action as an error. */
  function Create(t: MenuType, first: Value, built: map<string, Value>): (a: MenuAction) {
    if first.Thrown? then MenuAction(t, first, true) else MenuAction(t, Record(built), false)
  }

  /** The action carries exactly the object `{ keys... }` built by its
      payload creator. */
  predicate Builds(a: MenuAction, keys: set<string>) {
    !a.error && a.payload.Record? && a.payload.fields.Keys == keys
  }

  /** The action is the pass-through of the `Error` argument `e`. */
  predicate PassesThrough(a: MenuAction, e: Value) {
    a.error && a.payload == e
  }

  function GetMenus(params: Value): (a: MenuAction)
    ensures a.kind == GET_MENUS
    ensures !params.Thrown? ==> Builds(a, {"params"}) && Field(a.payload, "params") == params
    ensures params.Thrown? ==> PassesThrough(a, params)
  {
    Create(GET_MENUS, params, map["params" := params])
  }

  function GetMenusSucceed(menus: Value): (a: MenuAction)
    ensures a.kind == GET_MENUS_SUCCEED
    ensures !menus.Thrown? ==> Builds(a, {"menus"}) && Field(a.payload, "menus") == menus
    ensures menus.Thrown? ==> PassesThrough(a, menus)
  {
    Create(GET_MENUS_SUCCEED, menus, map["menus" := menus])
  }

  /** Every `*_FAILED` creator is `error => ({ error })`. An `Error` argument
      (a rejected request, say) is passed through instead, so a reducer that
      reads `payload.error` finds undefined. */
  function Failed(t: MenuType, error: Value): (a: MenuAction)
    requires IsFailedType(t)
    ensures a.kind == t
    ensures !error.Thrown? ==> Builds(a, {"error"}) && Field(a.payload, "error") == error
    ensures error.Thrown? ==> PassesThrough(a, error)
    ensures Field(a.payload, "error") == Carried(error, "error")
  {
    Create(t, error, map["error" := error])
  }

  /** The `*_SUCCEED` creators of the three mutations take no argument and
      build an empty payload. */
  function Succeeded(t: MenuType): (a: MenuAction)
    requires t == DELETE_MENU_SUCCEED || t == UPDATE_MENU_SUCCEED || t == ADD_MENU_SUCCEED
    ensures a.kind == t && Builds(a, {})
  {
    Create(t, Undefined, map[])
  }

  function DeleteMenu(id: Value, params: Value): (a: MenuAction)
    ensures a.kind == DELETE_MENU
    ensures !id.Thrown? ==> Builds(a, {"id", "params"}) && Field(a.payload, "id") == id
    ensures !id.Thrown? ==> Field(a.payload, "params") != Undefined
    ensures !id.Thrown? && params != Undefined ==> Field(a.payload, "params") == params
    ensures id.Thrown? ==> PassesThrough(a, id)
  {
    Create(DELETE_MENU, id, map["id" := id, "params" := OrNull(params)])
  }

  function UpdateMenu(id: Value, menu: Value, params: Value): (a: MenuAction)
    ensures a.kind == UPDATE_MENU
    ensures !id.Thrown? ==>
      Builds(a, {"id", "menu", "params"}) && Field(a.payload, "id") == id && Field(a.payload, "menu") == menu
    ensures !id.Thrown? ==> Field(a.payload, "params") != Undefined
    ensures !id.Thrown? && params != Undefined ==> Field(a.payload, "params") == params
    ensures id.Thrown? ==> PassesThrough(a, id)
  {
    Create(UPDATE_MENU, id, map["id" := id, "menu" := menu, "params" := OrNull(params)])
  }

  function AddMenu(menu: Value, params: Value): (a: MenuAction)
    ensures a.kind == ADD_MENU
    ensures !menu.Thrown? ==> Builds(a, {"menu", "params"}) && Field(a.payload, "menu") == menu
    ensures !menu.Thrown? ==> Field(a.payload, "params") != Undefined
    ensures !menu.Thrown? && params != Undefined ==> Field(a.payload, "params") == params
    ensures menu.Thrown? ==> PassesThrough(a, menu)
  {
    Create(ADD_MENU, menu, map["menu" := menu, "params" := OrNull(params)])
  }

  function GetMenu(id: Value): (a: MenuAction)
    ensures a.kind == GET_MENU
    ensures !id.Thrown? ==> Builds(a, {"id"}) && Field(a.payload, "id") == id
    ensures id.Thrown? ==> PassesThrough(a, id)
  {
    Create(GET_MENU, id, map["id" := id])
  }

  function GetMenuSucceed(menu: Value): (a: MenuAction)
    ensures a.kind == GET_MENU_SUCCEED
    ensures !menu.Thrown? ==> Builds(a, {"menu"}) && Field(a.payload, "menu") == menu
    ensures menu.Thrown? ==> PassesThrough(a, menu)
  {
    Create(GET_MENU_SUCCEED, menu, map["menu" := menu])
  }

  function UpdateCurrentMenu(menu: Value): (a: MenuAction)
    ensures a.kind == UPDATE_CURRENT_MENU
    ensures !menu.Thrown? ==> Builds(a, {"menu"}) && Field(a.payload, "menu") == menu
    ensures menu.Thrown? ==> PassesThrough(a, menu)
  {
    Create(UPDATE_CURRENT_MENU, menu, map["menu" := menu])
  }

  /** Omitting `params` and passing `null` build the same action, for each of
      the three creators that declare the default. */
  lemma OmittedParamsAreNull(id: Value, menu: Value)
    ensures DeleteMenu(id, Undefined) == DeleteMenu(id, Null)
    ensures UpdateMenu(id, menu, Undefined) == UpdateMenu(id, menu, Null)
    ensures AddMenu(menu, Undefined) == AddMenu(menu, Null)
  {
  }

  /** `getMenus` has no default: omitting its argument leaves `params`
      undefined in the payload rather than null. */
  lemma GetMenusKeepsUndefined()
    ensures "params" in GetMenus(Undefined).payload.fields
    ensures Field(GetMenus(Undefined).payload, "params") == Undefined
    ensures GetMenus(Undefined) != GetMenus(Null)
  {
  }

  /** Distinct types carry distinct type strings, so a type string names
      exactly one creator. */
  lemma TypeNamesDistinct(t: MenuType, u: MenuType)
    ensures TypeName(t) == TypeName(u) ==> t == u
  {
  }
}
