/** The meal builder of `src/components/MealBuilder.jsx`: the compatibility
    classifier (incompatible / compatible / compatible-but-risky), the set of
    selected product ids, the constraint toggles, the selected products and
    their nutrition totals, and the grouping of the whole catalog. */
module MealBuilder {
  import opened Common
  import opened Catalog
  import opened Grouping
  import App

  /** The builder's constraints: allergens to exclude, consistencies allowed,
      and strict mode, which blocks "may contain" items instead of warning. */
  datatype Constraints = Constraints(allergens: set<Allergen>, consistency: set<Consistency>, blockMayContain: bool)

  const NoConstraints := Constraints({}, {}, false)

  /** The record `getProductStatus` returns. */
  datatype Status = Status(compatible: bool, risky: bool, riskyAllergens: seq<Allergen>)

  const Incompatible := Status(false, false, [])
  const Compatible := Status(true, false, [])

  /** The grouping label of a product without a sub-category here. */
  const Other := "Other"

  function InSet(s: set<Allergen>): Allergen -> bool {
    a => a in s
  }

  predicate ConsistencyAllowed(p: Product, c: Constraints) {
    |c.consistency| > 0 ==> Meets(p.consistency, c.consistency)
  }

  /** `getProductStatus`. The consistency check comes first, then direct
      allergens, then the "may contain" list filtered to the excluded set. */
  function GetProductStatus(p: Product, c: Constraints): (r: Status)
    ensures r.risky ==> r.compatible && r.riskyAllergens != []
    ensures !r.risky ==> r.riskyAllergens == []
    ensures r.compatible <==>
      && ConsistencyAllowed(p, c)
      && !Meets(p.allergens, c.allergens)
      && !(c.blockMayContain && Meets(p.mayContain, c.allergens))
    ensures r.risky <==> r.compatible && Meets(p.mayContain, c.allergens)
    ensures forall a :: a in r.riskyAllergens <==> r.risky && a in p.mayContain && a in c.allergens
    ensures IsSubsequence(r.riskyAllergens, p.mayContain)
    ensures r.risky ==> r.riskyAllergens == Filter(p.mayContain, InSet(c.allergens))
  {
    if |c.consistency| > 0 && !Meets(p.consistency, c.consistency) then
      Incompatible
    else if |c.allergens| > 0 then
      if Meets(p.allergens, c.allergens) then
        Incompatible
      else if |p.mayContain| > 0 then
        var riskyAllergens := Filter(p.mayContain, InSet(c.allergens));
        assert |riskyAllergens| > 0 <==> Meets(p.mayContain, c.allergens) by {
          if Meets(p.mayContain, c.allergens) {
            var i :| 0 <= i < |p.mayContain| && p.mayContain[i] in c.allergens;
            assert p.mayContain[i] in riskyAllergens;
          }
          if |riskyAllergens| > 0 {
            var a := riskyAllergens[0];
            assert a in riskyAllergens;
            var i :| 0 <= i < |p.mayContain| && p.mayContain[i] == a;
          }
        }
        if |riskyAllergens| > 0 then
          if c.blockMayContain then Incompatible else Status(true, true, riskyAllergens)
        else
          Compatible
      else
        Compatible
    else
      Compatible
  }

  /** A product whose tags miss every allowed consistency is incompatible,
      whatever its allergens: this check comes before the allergen checks. */
  lemma ConsistencyMismatchIsIncompatible(p: Product, c: Constraints)
    requires |c.consistency| > 0 && !Meets(p.consistency, c.consistency)
    ensures GetProductStatus(p, c) == Incompatible
  {
  }

  /** A direct allergen in the excluded set makes a product incompatible and
      never merely risky, in strict mode or not. */
  lemma DirectAllergenIsIncompatible(p: Product, c: Constraints)
    requires Meets(p.allergens, c.allergens)
    ensures GetProductStatus(p, c) == Incompatible
    ensures GetProductStatus(p, c.(blockMayContain := !c.blockMayContain)) == Incompatible
  {
  }

  /** Strict mode turns exactly the risky results into incompatible ones and
      leaves every other classification as it was. */
  lemma StrictModeBlocksRisky(p: Product, c: Constraints)
    ensures var lenient := GetProductStatus(p, c.(blockMayContain := false));
      GetProductStatus(p, c.(blockMayContain := true)) == if lenient.risky then Incompatible else lenient
  {
  }

  /** With no allergen excluded, nothing is ever risky. */
  lemma NoExclusionNeverRisky(p: Product, c: Constraints)
    requires c.allergens == {}
    ensures !GetProductStatus(p, c).risky
  {
  }

  /** The inventory filter and the meal builder agree on direct allergens:
      a product containing an excluded allergen is hidden by the one and
      incompatible in the other. */
  lemma DirectAllergenExcludedEverywhere(p: Product, excluded: set<Allergen>,
                                         f: App.Filters, query: string, c: Constraints)
    requires Meets(p.allergens, excluded)
    requires f.allergens == excluded && c.allergens == excluded
    ensures !App.IsVisible(p, f, query)
    ensures !GetProductStatus(p, c).compatible
  {
    var i :| 0 <= i < |p.allergens| && p.allergens[i] in excluded;
  }

  // ---------------------------------------------------------------------------
  // Nutrition

  /** The six displayed totals. */
  datatype Totals = Totals(calories: real, protein: real, fat: real, carbs: real, sodium: real, sugar: real)

  const ZeroTotals := Totals(0.0, 0.0, 0.0, 0.0, 0.0, 0.0)

  /** `parseNutrient` on a text field: absent or empty is 0, otherwise the
      number the caller's `parse` extracts from the text. */
  function ParseNutrient(val: string, parse: string -> real): real {
    if val == "" then 0.0 else parse(val)
  }

  function Plus(t: Totals, p: Product, parse: string -> real): Totals {
    Totals(t.calories + p.calories as real,
           t.protein + ParseNutrient(p.protein, parse),
           t.fat + ParseNutrient(p.fat, parse),
           t.carbs + ParseNutrient(p.carbohydrates, parse),
           t.sodium + ParseNutrient(p.sodium, parse),
           t.sugar + ParseNutrient(p.sugar, parse))
  }

  /** The running sums before rounding, product by product in list order. */
  function SumTotals(ps: seq<Product>, parse: string -> real): Totals {
    if ps == [] then ZeroTotals
    else Plus(SumTotals(ps[..|ps| - 1], parse), ps[|ps| - 1], parse)
  }

  /** `Math.round(x * 10) / 10` on exact reals: round half up to a tenth. */
  function RoundTenth(x: real): real {
    (x * 10.0 + 0.5).Floor as real / 10.0
  }

  function Rounded(t: Totals): Totals {
    Totals(RoundTenth(t.calories), RoundTenth(t.protein), RoundTenth(t.fat),
           RoundTenth(t.carbs), RoundTenth(t.sodium), RoundTenth(t.sugar))
  }

  function IdIn(ids: set<ProductId>): Product -> bool {
    (p: Product) => p.id in ids
  }

  /** The builder's state: the selected product ids and the constraints. */
  class MealBuilderState {
    var selectedProductIds: set<ProductId>
    var constraints: Constraints

    constructor ()
      ensures selectedProductIds == {} && constraints == NoConstraints
    {
      selectedProductIds := {};
      constraints := NoConstraints;
    }

    /** `toggleProduct`: an incompatible product is refused; a compatible or
        risky one has its id flipped in the selection. */
    method ToggleProduct(product: Product)
      modifies this`selectedProductIds
      ensures selectedProductIds ==
        if GetProductStatus(product, constraints).compatible
        then Toggle(old(selectedProductIds), product.id)
        else old(selectedProductIds)
    {
      var status := GetProductStatus(product, constraints);
      if !status.compatible {
        return;
      }
      var next := selectedProductIds;
      if product.id in next {
        next := next - {product.id};
      } else {
        next := next + {product.id};
      }
      selectedProductIds := next;
    }

    /** `removeProduct`: the id is absent afterwards, every other id stays. */
    method RemoveProduct(id: ProductId)
      modifies this`selectedProductIds
      ensures selectedProductIds == old(selectedProductIds) - {id}
    {
      var next := selectedProductIds;
      next := next - {id};
      selectedProductIds := next;
    }

    /** The "Allowed Consistencies" checkbox: flips one consistency. */
    method ToggleConsistencyConstraint(cons: Consistency)
      modifies this`constraints
      ensures constraints == old(constraints).(consistency := Toggle(old(constraints.consistency), cons))
    {
      var next := constraints.consistency;
      if cons in next {
        next := next - {cons};
      } else {
        next := next + {cons};
      }
      constraints := constraints.(consistency := next);
    }

    /** The "Safety (Exclude)" checkbox: flips one excluded allergen. */
    method ToggleAllergenConstraint(allergen: Allergen)
      modifies this`constraints
      ensures constraints == old(constraints).(allergens := Toggle(old(constraints.allergens), allergen))
    {
      var next := constraints.allergens;
      if allergen in next {
        next := next - {allergen};
      } else {
        next := next + {allergen};
      }
      constraints := constraints.(allergens := next);
    }

    /** The strict-mode checkbox writes its new checked state. */
    method SetBlockMayContain(checked: bool)
      modifies this`constraints
      ensures constraints == old(constraints).(blockMayContain := checked)
    {
      constraints := constraints.(blockMayContain := checked);
    }

    /** `selectedProducts`: the catalog's products whose id is selected, in
        catalog order. */
    function SelectedProducts(products: seq<Product>): (r: seq<Product>)
      reads this
      ensures forall p :: p in r <==> p in products && p.id in selectedProductIds
      ensures IsSubsequence(r, products)
      ensures selectedProductIds == {} ==> r == []
    {
      Filter(products, IdIn(selectedProductIds))
    }

    /** `nutritionTotals`: sums the selected products' nutrients and rounds
        each total to one decimal; nothing selected gives all zeros. */
    method NutritionTotals(products: seq<Product>, parse: string -> real) returns (totals: Totals)
      ensures totals == Rounded(SumTotals(SelectedProducts(products), parse))
      ensures selectedProductIds == {} ==> totals == ZeroTotals
    {
      var selected := SelectedProducts(products);
      var total := ZeroTotals;
      for i := 0 to |selected|
        invariant total == SumTotals(selected[..i], parse)
      {
        assert selected[..i + 1][..i] == selected[..i];
        total := Plus(total, selected[i], parse);
      }
      assert selected[..|selected|] == selected;
      totals := Rounded(total);
      assert RoundTenth(0.0) == 0.0 by {
        assert (0.0 * 10.0 + 0.5).Floor == 0;
      }
    }

    /** The builder's `groupedProducts`: the whole catalog, unfiltered, by
        sub-category, with "Other" for a product without one. */
    method GroupedProducts(products: seq<Product>) returns (groups: map<string, seq<Product>>)
      ensures IsGrouping(products, Other, groups)
    {
      groups := GroupByCategory(products, Other);
    }
  }

  /** Toggling the same product twice under the same constraints restores
      the selection, whether or not the product is compatible. */
  lemma ToggleProductTwice(selected: set<ProductId>, p: Product, c: Constraints)
    ensures var once := if GetProductStatus(p, c).compatible then Toggle(selected, p.id) else selected;
      (if GetProductStatus(p, c).compatible then Toggle(once, p.id) else once) == selected
  {
    ToggleTwice(selected, p.id);
  }
}
