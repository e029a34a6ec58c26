/** The category actions, with the creator arguments the category reducer
    reads; arguments it never reads are left out. The category action
    creators (src/services/category/categoryActions.js) are not part of this
    model; they are taken to be `createActions` creators like the menu ones,
    so the reducer reads a one-argument outcome's field through
    `Values.Carried`. */
module CategoryActions {
  import opened Values

  datatype CategoryAction =
    | GetCategories
    | GetCategoriesSucceed(categories: Value)
    | GetCategoriesFailed(error: Value)
    | AddCategory
    | AddCategorySucceed
    | AddCategoryFailed(error: Value)
    | DeleteCategory(id: Value)
    | DeleteCategorySucceed
    | DeleteCategoryFailed(error: Value)
    | UpdateCategory
    | UpdateCategorySucceed
    | UpdateCategoryFailed(error: Value)
    | GetCategory
    | GetCategorySucceed(category: Value)
    | GetCategoryFailed(error: Value)
    | UpdateCurrentCategory(category: Value)
}
