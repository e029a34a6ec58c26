/** Every action dispatched to the store reaches every slice reducer; a
    reducer acts on its own entity's actions and returns its slice unchanged
    for all others. */
module Store {
  import opened ItemActions
  import opened CategoryActions
  import opened MenuActions

  datatype Action =
    | Item(item: ItemAction)
    | Category(category: CategoryAction)
    | Menu(menu: MenuAction)
      /** An action of an entity this model does not cover (cities,
          restaurants, the modal conductor, ...), known only by its type.
          The reducers and `takeEvery` match on type strings; a foreign type
          string is taken to differ from every item, category and menu type
          string, so no item or category handler ever sees one. */
    | Foreign(typeName: string)
}
