# Dietitian catalog: product-safety filtering and list bookkeeping

This project models the logic of a kitchen and dietitian tool. The tool keeps
a catalog of food products. Each product records its direct allergens, the
allergens it "may contain" as traces, and its texture (consistency) tags.
Three views filter that catalog against safety constraints:

- the inventory view, with a search box and the filter sidebar;
- the line-worker catalog;
- the meal builder, which sorts products into incompatible, compatible, and
  compatible-but-risky.

Each view also groups its products by sub-category. Around these filters sit
the in-memory lists and their handlers:

- products are added, edited and deleted;
- saved meals are upserted and deleted;
- the meal builder keeps a set of selected product ids;
- the product form toggles allergen and consistency chips.

Modules, one per source file plus shared helpers:

- `Common`: optional values, ASCII case folding, `includes`, set toggling,
  order-preserving `filter`, and the `Array.from(new Set(...))` round trip.
- `Catalog` (`src/constants.js`): the allergen and consistency enumerations,
  and the product and meal records.
- `Grouping`: the grouping loop that three components share.
- `App` (`src/App.jsx`): the inventory filter, the product and meal store
  (class `AppState`), and the inventory grouping.
- `MealBuilder` (`src/components/MealBuilder.jsx`): the status classifier,
  and class `MealBuilderState` for the selection, the constraints and the
  nutrition totals.
- `LineWorker` (`src/components/LineWorkerCatalog.jsx`): the line-worker
  filter and class `LineWorkerCatalog` for its toggles.
- `ProductManagement` (`src/components/ProductManagement.jsx`): the search,
  the form data and class `ProductManagementState`.
- `Sidebar` (`src/components/Sidebar.jsx`): the filter handlers, as methods
  on the application state.

Case folding is ASCII-only. Clock readings, `window.confirm` answers and the
nutrient-text parser are parameters.

## Model

| member | source | states |
|---|---|---|
| `Common.Toggle` | src/components/LineWorkerCatalog.jsx:9-14 | copy a Set and `delete` if present else `add`: the value's membership flips and every other value keeps its membership |
| `Common.ToggleTwice` | src/components/Sidebar.jsx:7-25 | toggling the same value twice gives back the original set |
| `Common.SubsequenceReflexive` | src/App.jsx:86-90 | a list is an order-preserving subsequence of itself (the unconfirmed delete keeps the list) |
| `Common.Filter` | src/App.jsx:94 | `Array.prototype.filter` keeps exactly the elements satisfying the predicate, each kept value as many times as it occurs, as an order-preserving subsequence, never longer |
| `Common.FilterKeepsNone` | src/App.jsx:131-132 | a filter that keeps no element returns the empty list (a category seen for the first time had no items before) |
| `Common.FilterAppend` | src/App.jsx:130-134 | filtering a list extended by one element extends the filtered list by that element exactly when it is kept |
| `Common.FilterKeepsAll` | src/App.jsx:94-122 | a filter whose predicate holds of every element returns the list unchanged |
| `Common.FilterCongruent` | src/components/LineWorkerCatalog.jsx:23-40 | two predicates that agree on the list's elements give the same filtered list |
| `Common.LowerStr` | src/App.jsx:96-99 | `toLowerCase` on ASCII: same length, no upper-case letter left, each upper-case letter becomes its lower-case letter, every other character kept |
| `Common.LowerStrIdempotent` | src/App.jsx:96-99 | lower-casing an already lower-cased string changes nothing |
| `Common.IncludesEmpty` | src/components/ProductManagement.jsx:35-38 | every string includes the empty string |
| `Common.Dedup` | src/components/ProductManagement.jsx:63-66 | `Array.from(new Set(xs))` is duplicate-free, has the same values as `xs`, lists them in the order of their first occurrence in `xs`, and is `xs` itself when `xs` had no duplicates |
| `Common.FirstIndexAppend` | src/components/ProductManagement.jsx:63-66 | appending to an array does not move the first occurrence of a value already in it, so a Set's insertion order is kept as the array grows |
| `Common.FilterOutPresent` | src/components/ProductManagement.jsx:64 | deleting a value from a duplicate-free array holding it shortens it by exactly one |
| `Common.FilterKeepsNoDuplicates` | src/components/ProductManagement.jsx:66 | filtering a duplicate-free array leaves it duplicate-free |
| `Common.ToggleItem` | src/components/ProductManagement.jsx:62-66 | the new array is duplicate-free; the value is present exactly when it was absent; every other value keeps its membership; an absent value is appended at the end; a present value is removed and the others keep their relative order |
| `Common.ToggleItemTwiceSameValues` | src/components/ProductManagement.jsx:62-66 | toggling the same value twice restores the same set of values |
| `Common.ToggleItemTwiceAbsent` | src/components/ProductManagement.jsx:62-66 | on a duplicate-free array without the value, toggling twice restores the exact array |
| `Common.ToggleItemTwicePresent` | src/components/ProductManagement.jsx:62-66 | on a duplicate-free array holding the value, toggling twice moves the value to the end, so only the set is restored |
| `Catalog.NamesAreDistinct` | src/constants.js:1-18 | distinct allergens and distinct consistencies have distinct display strings, so the enumerations stand for the compared strings |
| `Grouping.GroupByCategory` | src/App.jsx:130-134 | the `forEach`/`push` loop yields a map with a key for exactly the categories present (sub-category, or the fallback when empty), each holding that category's items in input order |
| `Grouping.Push` | src/App.jsx:131-133 | one step of the loop: the category's list is created empty when missing and the item pushed onto it, keeping the map a grouping of the items seen so far plus this one |
| `Grouping.GroupingStep` | src/App.jsx:131-133 | pushing one more item onto its category's list (creating it first) keeps the map a grouping of the longer list |
| `Grouping.GroupingPartitions` | src/App.jsx:126-139 | grouping is a partition: each item is in its own category's group, no other group holds it, no group is empty, and each group is an order-preserving subsequence of the input |
| `Grouping.EmptyInputNoGroups` | src/App.jsx:128 | empty input gives an empty map |
| `App.FilteredProducts` | src/App.jsx:93-123 | the inventory list holds exactly the visible products, as an order-preserving subsequence of `products` |
| `App.SearchMatchesEveryListed` | src/App.jsx:96-99 | with a non-empty query, every listed product's lowercased name includes the lowercased query |
| `App.EmptySearchExcludesNothing` | src/App.jsx:96-99 | with an empty query, visibility is decided by the allergen and consistency steps alone |
| `App.NothingSelectedListsAll` | src/App.jsx:93-123 | no query, no exclusions and no consistencies list every product in catalog order, whatever the trace flag |
| `App.DirectAllergenHides` | src/App.jsx:102-106 | a product with a direct allergen in the excluded set is hidden, whatever `showMayContain` and the query |
| `App.MayContainHidesWhenNotShown` | src/App.jsx:108-112 | with `showMayContain` false, a "may contain" hit in the excluded set hides the product |
| `App.MayContainIgnoredWhenShown` | src/App.jsx:108-112 | with `showMayContain` true, replacing the "may contain" list never changes visibility |
| `App.ConsistencyIsAnyMatch` | src/App.jsx:116-119 | the consistency step is an OR: one selected tag suffices, whatever the product's other tags |
| `App.FindMealIndex` | src/App.jsx:30 | `findIndex` returns -1 exactly when no meal has the id, else the first position holding it |
| `App.AppState.constructor` | src/App.jsx:16-19 | every seed product is kept in order, a missing timestamp replaced by the load time; no saved meals, empty filters, empty search |
| `App.AppState.HandleSaveMeal` | src/App.jsx:28-43 | an existing id replaces the first meal with that id in place and keeps the length; a new id prepends; the meal is saved afterwards; unique meal ids stay unique |
| `App.AppState.DeleteMeal` | src/App.jsx:45-47 | removes every meal with the id and keeps the others, in order |
| `App.AppState.HandleAddProduct` | src/App.jsx:70-76 | prepends the stamped product; the length grows by one |
| `App.AppState.HandleEditProduct` | src/App.jsx:78-84 | replaces, stamped, exactly the entries with the updated id; the length and every other entry are unchanged |
| `App.AppState.HandleDeleteProduct` | src/App.jsx:86-90 | when confirmed, the list is the old list filtered on a different id, so exactly the products with the id go and every other occurrence stays in order; unconfirmed, changes nothing |
| `App.AppState.GroupedProducts` | src/App.jsx:126-139 | the inventory groups partition the filtered list by sub-category, "Uncategorized" by default |
| `MealBuilder.GetProductStatus` | src/components/MealBuilder.jsx:23-52 | compatible iff the consistency check passes, no direct allergen is excluded, and strict mode meets no excluded trace; risky iff compatible with an excluded trace; risky implies a non-empty list; not risky implies an empty list; the list is `mayContain` filtered to the excluded set, every occurrence kept in order |
| `MealBuilder.ConsistencyMismatchIsIncompatible` | src/components/MealBuilder.jsx:25-28 | a consistency mismatch gives `{compatible:false, risky:false, riskyAllergens:[]}` before any allergen is looked at |
| `MealBuilder.DirectAllergenIsIncompatible` | src/components/MealBuilder.jsx:31-35 | an excluded direct allergen gives the incompatible record, in strict mode and out of it |
| `MealBuilder.StrictModeBlocksRisky` | src/components/MealBuilder.jsx:42-48 | strict mode turns exactly the risky results into incompatible and leaves every other result as it was |
| `MealBuilder.NoExclusionNeverRisky` | src/components/MealBuilder.jsx:31-51 | with no excluded allergen nothing is risky |
| `MealBuilder.DirectAllergenExcludedEverywhere` | src/components/MealBuilder.jsx:31-35 | an excluded direct allergen hides a product in the inventory view and makes it incompatible in the builder |
| `MealBuilder.ToggleProductTwice` | src/components/MealBuilder.jsx:54-62 | toggling the same product twice under the same constraints restores the selection |
| `MealBuilder.MealBuilderState.constructor` | src/components/MealBuilder.jsx:8-13 | nothing selected; no exclusions, no consistencies, strict mode off |
| `MealBuilder.MealBuilderState.ToggleProduct` | src/components/MealBuilder.jsx:54-62 | an incompatible product leaves the selection unchanged; otherwise only its id flips |
| `MealBuilder.MealBuilderState.RemoveProduct` | src/components/MealBuilder.jsx:64-68 | the id is absent afterwards and every other id is unchanged (so removing twice equals removing once) |
| `MealBuilder.MealBuilderState.ToggleConsistencyConstraint` | src/components/MealBuilder.jsx:185-190 | flips one allowed consistency, leaving the allergens and strict mode unchanged |
| `MealBuilder.MealBuilderState.ToggleAllergenConstraint` | src/components/MealBuilder.jsx:223-228 | flips one excluded allergen, leaving the consistencies and strict mode unchanged |
| `MealBuilder.MealBuilderState.SetBlockMayContain` | src/components/MealBuilder.jsx:208 | strict mode takes the checkbox's state and nothing else changes |
| `MealBuilder.MealBuilderState.SelectedProducts` | src/components/MealBuilder.jsx:71-73 | exactly the catalog products whose id is selected, in catalog order; none when nothing is selected |
| `MealBuilder.MealBuilderState.NutritionTotals` | src/components/MealBuilder.jsx:75-95 | the rounded sums of the selected products' nutrients; with nothing selected every total is 0 |
| `MealBuilder.MealBuilderState.GroupedProducts` | src/components/MealBuilder.jsx:97-105 | the whole, unfiltered catalog partitioned by sub-category, "Other" by default |
| `LineWorker.FilteredProducts` | src/components/LineWorkerCatalog.jsx:23-40 | the catalog list holds exactly the shown products, as an order-preserving subsequence |
| `LineWorker.DirectAllergenHides` | src/components/LineWorkerCatalog.jsx:25-30 | a product with a selected direct allergen is hidden |
| `LineWorker.MayContainNeverConsulted` | src/components/LineWorkerCatalog.jsx:24-39 | replacing the "may contain" list never changes visibility, so a trace-only hit stays visible |
| `LineWorker.ConsistencyNeedsOverlap` | src/components/LineWorkerCatalog.jsx:32-36 | with consistencies selected, a shown product has a selected tag |
| `LineWorker.NothingSelectedShowsAll` | src/components/LineWorkerCatalog.jsx:23-40 | with both selections empty every product is shown, in order |
| `LineWorker.AgreesWithInventory` | src/components/LineWorkerCatalog.jsx:23-40 | the list equals the inventory list for the same selections, an empty search and `showMayContain` true |
| `LineWorker.LineWorkerCatalog.constructor` | src/components/LineWorkerCatalog.jsx:6-7 | both selections start empty |
| `LineWorker.LineWorkerCatalog.ToggleAllergen` | src/components/LineWorkerCatalog.jsx:9-14 | flips membership of exactly the given allergen |
| `LineWorker.LineWorkerCatalog.ToggleConsistency` | src/components/LineWorkerCatalog.jsx:16-21 | flips membership of exactly the given consistency |
| `LineWorker.LineWorkerCatalog.GroupedProducts` | src/components/LineWorkerCatalog.jsx:42-52 | the groups partition the filtered list by sub-category, "Uncategorized" by default |
| `ProductManagement.CreateEmptyProduct` | src/components/ProductManagement.jsx:14-33 | a blank form: no id, no timestamp, empty name, empty allergen, may-contain and consistency lists, 0 calories |
| `ProductManagement.Overlay` | src/components/ProductManagement.jsx:55 | every field of the form wins; the id and timestamp come from the form when present, else from the edited product |
| `ProductManagement.WithId` | src/components/ProductManagement.jsx:57 | the added record is the form's fields with the supplied id |
| `ProductManagement.EditUnchangedIsIdentity` | src/components/ProductManagement.jsx:46-55 | opening a product and saving it unchanged yields a record equal to that product, id included |
| `ProductManagement.FilteredProducts` | src/components/ProductManagement.jsx:35-38 | a product is listed iff its lowercased name includes the lowercased query, or its non-empty code name does; the list is an order-preserving subsequence |
| `ProductManagement.EmptyQueryListsAll` | src/components/ProductManagement.jsx:35-38 | an empty query lists every product, in order |
| `ProductManagement.ProductManagementState.constructor` | src/components/ProductManagement.jsx:6-12 | modal closed, nothing being edited, empty search, blank form |
| `ProductManagement.ProductManagementState.HandleOpenAdd` | src/components/ProductManagement.jsx:40-44 | nothing being edited, a blank form, modal open |
| `ProductManagement.ProductManagementState.HandleOpenEdit` | src/components/ProductManagement.jsx:46-50 | the product is being edited, the form is its copy, modal open |
| `ProductManagement.ProductManagementState.HandleSave` | src/components/ProductManagement.jsx:52-60 | in edit mode requests an edit of the edited product overlaid with the form; in add mode requests an add of the form with the fresh id; the modal closes |
| `ProductManagement.ProductManagementState.ToggleArrayItem` | src/components/ProductManagement.jsx:62-66 | only the named array of the form changes, and it is toggled through a Set |
| `Sidebar.HandleAllergenChange` | src/components/Sidebar.jsx:7-15 | flips exactly the given allergen; `consistencies` and `showMayContain` are unchanged |
| `Sidebar.HandleConsistencyChange` | src/components/Sidebar.jsx:17-25 | flips exactly the given consistency; `allergens` and `showMayContain` are unchanged |
| `Sidebar.ToggleShowMayContain` | src/components/Sidebar.jsx:59 | negates `showMayContain` and nothing else |
| `Sidebar.AllergenChangeTwiceRestores` | src/components/Sidebar.jsx:7-15 | applying the allergen handler twice with the same allergen restores the original filters |
| `Sidebar.ConsistencyChangeTwiceRestores` | src/components/Sidebar.jsx:17-25 | applying the consistency handler twice with the same consistency restores the original filters |

## Left out

- Rendering, styling, icons and navigation are presentation only. This covers every card component, the product grid, the navigation menu, the saved-meals display, the product detail modal and the recharts chart.
- The text fields of the product form and the search boxes are plain `setState` assignments of the typed value. They are not modelled as operations.
- `alert` messages after saving a meal are not modelled. Neither are `window.confirm` dialogs, `Date.now()` ids or `toISOString()` timestamps; the confirmation answer, the fresh id and the timestamp are method parameters.
- Case folding covers ASCII letters only. Unicode `toLowerCase` is not modelled.
- `MealBuilder.MealBuilderState.NutritionTotals`: sums and rounds exact reals, not IEEE doubles. The regex and `parseFloat` extraction of a number from nutrient text is the caller-supplied `parse` function. The empty-text case gives 0, as the source does. The chart's array of labelled bars is not built.
- Key order of the grouping objects (insertion order, as `Object.entries` yields it) is not modelled. Groups are a map.
- Suggesting saved meals whose constraints equal the current filters, and building or saving a meal from the meal builder, are not in these files. The builder only receives the product list, so neither is modelled. The same goes for rejecting a save with no products.
- The seed product list is not part of this model. The application state starts from any given list.
- `startEditMeal` and `startDuplicateMeal` only hand a meal to the builder, which never reads it. They are not modelled.
- A missing optional text field (`chameleonName`, `subCategory`, `lastUpdated`) is the empty string. JavaScript treats `undefined` and `""` alike in every test modelled here. A form opened for adding has no timestamp, so the record it hands to the add handler carries `""`, which that handler replaces.
- Unlike `handleDeleteProduct` (src/App.jsx:86-90), `deleteMeal` (src/App.jsx:45-47) asks no confirmation, and the model follows that.
- Calories are integers, as the form's `parseInt` stores them. A seed product with fractional calories is not modelled.
