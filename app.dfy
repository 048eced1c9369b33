/** The top-level component `src/App.jsx`: the product and saved-meal lists
    with their add/edit/delete handlers, and the inventory view's filter
    (search, allergen exclusion, "may contain" policy, consistency match) and
    grouping. Clocks and `window.confirm` are parameters. */
module App {
  import opened Common
  import opened Catalog
  import opened Grouping

  /** The inventory filter state that the sidebar edits. */
  datatype Filters = Filters(allergens: set<Allergen>, consistencies: set<Consistency>, showMayContain: bool)

  const NoFilters := Filters({}, {}, false)

  const Uncategorized := "Uncategorized"

  // ---------------------------------------------------------------------------
  // Inventory filter

  /** Step 1: a non-empty search must occur, case-insensitively, in the name. */
  predicate MatchesSearch(p: Product, query: string) {
    query != "" ==> Includes(LowerStr(p.name), LowerStr(query))
  }

  /** Step 2: with allergens excluded, a direct allergen always hides the
      product; a "may contain" allergen hides it unless trace items are shown. */
  predicate PassesAllergens(p: Product, f: Filters) {
    |f.allergens| > 0 ==>
      && !Meets(p.allergens, f.allergens)
      && (!f.showMayContain ==> !Meets(p.mayContain, f.allergens))
  }

  /** Step 3: with consistencies selected, at least one tag must be selected. */
  predicate PassesConsistency(p: Product, f: Filters) {
    |f.consistencies| > 0 ==> Meets(p.consistency, f.consistencies)
  }

  /** The predicate handed to `products.filter` by the inventory view. */
  predicate IsVisible(p: Product, f: Filters, query: string) {
    MatchesSearch(p, query) && PassesAllergens(p, f) && PassesConsistency(p, f)
  }

  function Visible(f: Filters, query: string): Product -> bool {
    p => IsVisible(p, f, query)
  }

  /** The inventory's `filteredProducts`. */
  function FilteredProducts(products: seq<Product>, f: Filters, query: string): (r: seq<Product>)
    ensures IsSubsequence(r, products)
    ensures forall p :: p in r <==> p in products && IsVisible(p, f, query)
  {
    Filter(products, Visible(f, query))
  }

  /** With a non-empty query, every listed product's lowercased name contains
      the lowercased query. */
  lemma SearchMatchesEveryListed(products: seq<Product>, f: Filters, query: string)
    requires query != ""
    ensures forall p :: p in FilteredProducts(products, f, query) ==> Includes(LowerStr(p.name), LowerStr(query))
  {
  }

  /** With no search, no exclusions and no consistency selected, every
      product is listed, in catalog order. */
  lemma NothingSelectedListsAll(products: seq<Product>, showMayContain: bool)
    ensures FilteredProducts(products, Filters({}, {}, showMayContain), "") == products
  {
    FilterKeepsAll(products, Visible(Filters({}, {}, showMayContain), ""));
  }

  /** An empty query excludes nothing: visibility then depends on the
      allergen and consistency steps alone. */
  lemma EmptySearchExcludesNothing(p: Product, f: Filters)
    ensures IsVisible(p, f, "") <==> PassesAllergens(p, f) && PassesConsistency(p, f)
  {
  }

  /** A product containing an excluded allergen directly is hidden, whatever
      the "show may contain" flag and the search. */
  lemma DirectAllergenHides(products: seq<Product>, f: Filters, query: string, p: Product)
    requires Meets(p.allergens, f.allergens)
    ensures p !in FilteredProducts(products, f, query)
  {
    var i :| 0 <= i < |p.allergens| && p.allergens[i] in f.allergens;
  }

  /** While trace items are not shown, a "may contain" hit hides the product. */
  lemma MayContainHidesWhenNotShown(products: seq<Product>, f: Filters, query: string, p: Product)
    requires !f.showMayContain && Meets(p.mayContain, f.allergens)
    ensures p !in FilteredProducts(products, f, query)
  {
    var i :| 0 <= i < |p.mayContain| && p.mayContain[i] in f.allergens;
  }

  /** While trace items are shown, "may contain" never affects visibility. */
  lemma MayContainIgnoredWhenShown(p: Product, f: Filters, query: string, traces: seq<Allergen>)
    requires f.showMayContain
    ensures IsVisible(p.(mayContain := traces), f, query) == IsVisible(p, f, query)
  {
  }

  /** A consistency selection is an OR: a product passes it exactly when one
      of its tags is selected, even if its other tags are not. */
  lemma ConsistencyIsAnyMatch(p: Product, f: Filters, c: Consistency)
    requires c in f.consistencies && c in p.consistency
    ensures PassesConsistency(p, f)
  {
    var i :| 0 <= i < |p.consistency| && p.consistency[i] == c;
  }

  // ---------------------------------------------------------------------------
  // State

  /** `p.id !== id`, the predicate of `handleDeleteProduct`'s filter. */
  function ProductIdIsNot(id: ProductId): Product -> bool {
    (p: Product) => p.id != id
  }

  /** `m.id !== id`, the predicate of `deleteMeal`'s filter. */
  function MealIdIsNot(id: MealId): Meal -> bool {
    (m: Meal) => m.id != id
  }

  /** `savedMeals.findIndex(m => m.id === id)`: the first position holding
      that id, or -1. */
  function FindMealIndex(meals: seq<Meal>, id: MealId): (r: int)
    ensures -1 <= r < |meals|
    ensures r == -1 <==> forall m :: m in meals ==> m.id != id
    ensures r >= 0 ==> meals[r].id == id && forall j :: 0 <= j < r ==> meals[j].id != id
  {
    if meals == [] then -1
    else if meals[0].id == id then 0
    else
      var k := FindMealIndex(meals[1..], id);
      assert forall m :: m in meals ==> m == meals[0] || m in meals[1..];
      if k < 0 then -1 else k + 1
  }

  /** No two saved meals share an id. */
  ghost predicate UniqueMealIds(meals: seq<Meal>) {
    forall i, j :: 0 <= i < j < |meals| ==> meals[i].id != meals[j].id
  }

  /** Initial load: a seed product without a timestamp gets `now`. */
  function Stamped(p: Product, now: string): Product {
    p.(lastUpdated := if p.lastUpdated == "" then now else p.lastUpdated)
  }

  class AppState {
    var products: seq<Product>
    var savedMeals: seq<Meal>
    var filters: Filters
    var searchQuery: string

    constructor (initial: seq<Product>, now: string)
      ensures |products| == |initial|
      ensures forall i :: 0 <= i < |initial| ==> products[i] == Stamped(initial[i], now)
      ensures savedMeals == [] && filters == NoFilters && searchQuery == ""
    {
      products := seq(|initial|, i requires 0 <= i < |initial| => Stamped(initial[i], now));
      savedMeals := [];
      filters := NoFilters;
      searchQuery := "";
    }

    /** Upsert: a meal whose id is already saved replaces the first such
        entry in place; otherwise it goes to the front. */
    method HandleSaveMeal(mealData: Meal)
      modifies this`savedMeals
      ensures var i := FindMealIndex(old(savedMeals), mealData.id);
        if i >= 0 then savedMeals == old(savedMeals)[i := mealData]
        else savedMeals == [mealData] + old(savedMeals)
      ensures mealData in savedMeals
      ensures old(UniqueMealIds(savedMeals)) ==> UniqueMealIds(savedMeals)
    {
      var existingIndex := FindMealIndex(savedMeals, mealData.id);
      if existingIndex >= 0 {
        var updated := savedMeals;
        updated := updated[existingIndex := mealData];
        savedMeals := updated;
        assert savedMeals[existingIndex] == mealData;
      } else {
        savedMeals := [mealData] + savedMeals;
      }
    }

    /** Removes every meal with that id and keeps the rest in order. */
    method DeleteMeal(id: MealId)
      modifies this`savedMeals
      ensures savedMeals == Filter(old(savedMeals), MealIdIsNot(id))
      ensures forall m :: m in savedMeals <==> m in old(savedMeals) && m.id != id
      ensures IsSubsequence(savedMeals, old(savedMeals))
    {
      savedMeals := Filter(savedMeals, MealIdIsNot(id));
    }

    /** Prepends the new product, stamped with `now`. */
    method HandleAddProduct(newProduct: Product, now: string)
      modifies this`products
      ensures products == [newProduct.(lastUpdated := now)] + old(products)
      ensures |products| == |old(products)| + 1
    {
      var productWithTimestamp := newProduct.(lastUpdated := now);
      products := [productWithTimestamp] + products;
    }

    /** Replaces, stamped with `now`, exactly the products sharing the
        updated product's id; the length and every other entry are kept. */
    method HandleEditProduct(updatedProduct: Product, now: string)
      modifies this`products
      ensures |products| == |old(products)|
      ensures forall i :: 0 <= i < |products| ==>
        products[i] == if old(products)[i].id == updatedProduct.id
                       then updatedProduct.(lastUpdated := now) else old(products)[i]
    {
      var productWithTimestamp := updatedProduct.(lastUpdated := now);
      products := seq(|products|, i requires 0 <= i < |products| reads this =>
        if products[i].id == updatedProduct.id then productWithTimestamp else products[i]);
    }

    /** Behind the user's confirmation, removes exactly the products with
        that id, keeping the others in order; unconfirmed, changes nothing. */
    method HandleDeleteProduct(id: ProductId, confirmed: bool)
      modifies this`products
      ensures !confirmed ==> products == old(products)
      ensures confirmed ==> products == Filter(old(products), ProductIdIsNot(id))
      ensures confirmed ==> forall p :: p in products <==> p in old(products) && p.id != id
      ensures IsSubsequence(products, old(products))
    {
      if confirmed {
        products := Filter(products, ProductIdIsNot(id));
      } else {
        SubsequenceReflexive(products);
      }
    }

    /** The inventory's `groupedProducts`, over the filtered list. */
    method GroupedProducts() returns (groups: map<string, seq<Product>>)
      ensures IsGrouping(FilteredProducts(products, filters, searchQuery), Uncategorized, groups)
    {
      var filtered := FilteredProducts(products, filters, searchQuery);
      if |filtered| == 0 {
        return map[];
      }
      groups := GroupByCategory(filtered, Uncategorized);
    }
  }
}
