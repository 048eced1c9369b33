/** The line-worker catalog of `src/components/LineWorkerCatalog.jsx`: its
    own allergen and consistency selections, a filter that never looks at
    "may contain" and has no search, and the same grouping as the inventory. */
module LineWorker {
  import opened Common
  import opened Catalog
  import opened Grouping
  import App

  /** The predicate handed to `products.filter`. */
  predicate IsShown(p: Product, allergens: set<Allergen>, consistencies: set<Consistency>) {
    && (|allergens| > 0 ==> !Meets(p.allergens, allergens))
    && (|consistencies| > 0 ==> Meets(p.consistency, consistencies))
  }

  function Shown(allergens: set<Allergen>, consistencies: set<Consistency>): Product -> bool {
    p => IsShown(p, allergens, consistencies)
  }

  /** The catalog's `filteredProducts`. */
  function FilteredProducts(products: seq<Product>, allergens: set<Allergen>, consistencies: set<Consistency>): (r: seq<Product>)
    ensures IsSubsequence(r, products)
    ensures forall p :: p in r <==> p in products && IsShown(p, allergens, consistencies)
  {
    Filter(products, Shown(allergens, consistencies))
  }

  /** A product with a selected direct allergen is hidden. */
  lemma DirectAllergenHides(products: seq<Product>, allergens: set<Allergen>, consistencies: set<Consistency>, p: Product)
    requires Meets(p.allergens, allergens)
    ensures p !in FilteredProducts(products, allergens, consistencies)
  {
    var i :| 0 <= i < |p.allergens| && p.allergens[i] in allergens;
  }

  /** "May contain" is never consulted: a product hit only through its trace
      list stays exactly as visible as without that list. */
  lemma MayContainNeverConsulted(p: Product, traces: seq<Allergen>, allergens: set<Allergen>, consistencies: set<Consistency>)
    ensures IsShown(p.(mayContain := traces), allergens, consistencies) == IsShown(p, allergens, consistencies)
  {
  }

  /** A non-empty consistency selection needs at least one overlapping tag. */
  lemma ConsistencyNeedsOverlap(p: Product, allergens: set<Allergen>, consistencies: set<Consistency>)
    requires |consistencies| > 0 && IsShown(p, allergens, consistencies)
    ensures exists c :: c in p.consistency && c in consistencies
  {
    var i :| 0 <= i < |p.consistency| && p.consistency[i] in consistencies;
    assert p.consistency[i] in p.consistency;
  }

  /** With both selections empty every product is shown, in order. */
  lemma NothingSelectedShowsAll(products: seq<Product>)
    ensures FilteredProducts(products, {}, {}) == products
  {
    FilterKeepsAll(products, Shown({}, {}));
  }

  /** This filter is the inventory filter with an empty search and trace
      items shown. */
  lemma AgreesWithInventory(products: seq<Product>, allergens: set<Allergen>, consistencies: set<Consistency>)
    ensures FilteredProducts(products, allergens, consistencies)
         == App.FilteredProducts(products, App.Filters(allergens, consistencies, true), "")
  {
    FilterCongruent(products, Shown(allergens, consistencies), App.Visible(App.Filters(allergens, consistencies, true), ""));
  }

  /** The catalog's state: the two toggle sets. */
  class LineWorkerCatalog {
    var selectedAllergens: set<Allergen>
    var selectedConsistencies: set<Consistency>

    constructor ()
      ensures selectedAllergens == {} && selectedConsistencies == {}
    {
      selectedAllergens := {};
      selectedConsistencies := {};
    }

    /** `toggleAllergen`: flips exactly one allergen. */
    method ToggleAllergen(allergen: Allergen)
      modifies this`selectedAllergens
      ensures selectedAllergens == Toggle(old(selectedAllergens), allergen)
    {
      var next := selectedAllergens;
      if allergen in next {
        next := next - {allergen};
      } else {
        next := next + {allergen};
      }
      selectedAllergens := next;
    }

    /** `toggleConsistency`: flips exactly one consistency. */
    method ToggleConsistency(consistency: Consistency)
      modifies this`selectedConsistencies
      ensures selectedConsistencies == Toggle(old(selectedConsistencies), consistency)
    {
      var next := selectedConsistencies;
      if consistency in next {
        next := next - {consistency};
      } else {
        next := next + {consistency};
      }
      selectedConsistencies := next;
    }

    /** The catalog's `groupedProducts`, over the filtered list. */
    method GroupedProducts(products: seq<Product>) returns (groups: map<string, seq<Product>>)
      ensures IsGrouping(FilteredProducts(products, selectedAllergens, selectedConsistencies), App.Uncategorized, groups)
    {
      var filtered := FilteredProducts(products, selectedAllergens, selectedConsistencies);
      if |filtered| == 0 {
        return map[];
      }
      groups := GroupByCategory(filtered, App.Uncategorized);
    }
  }
}
