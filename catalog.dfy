/** The enumerations of `src/constants.js` and the records every view shares:
    a product of the catalog and a saved meal. */
module Catalog {

  /** The allergen names of `ALLERGENS`. */
  datatype Allergen = Gluten | Dairy | Eggs | Nuts | Soy | Fish | Shellfish

  /** The texture tags of `CONSISTENCIES`. */
  datatype Consistency = Regular | Soft | LiquidThin | LiquidThick | Pureed | Minced

  /** The display string each allergen is stored and shown as. */
  function AllergenName(a: Allergen): string {
    match a
    case Gluten => "Gluten"
    case Dairy => "Dairy"
    case Eggs => "Eggs"
    case Nuts => "Nuts"
    case Soy => "Soy"
    case Fish => "Fish"
    case Shellfish => "Shellfish"
  }

  /** The display string each consistency tag is stored and shown as. */
  function ConsistencyName(c: Consistency): string {
    match c
    case Regular => "Regular"
    case Soft => "Soft"
    case LiquidThin => "Liquid (Thin)"
    case LiquidThick => "Liquid (Thick)"
    case Pureed => "Pureed"
    case Minced => "Minced"
  }

  /** Distinct tags have distinct names, so the enumerations stand for the
      string values the program compares. */
  lemma NamesAreDistinct(a: Allergen, b: Allergen, c: Consistency, d: Consistency)
    ensures AllergenName(a) == AllergenName(b) ==> a == b
    ensures ConsistencyName(c) == ConsistencyName(d) ==> c == d
  {
  }

  type ProductId = int

  /** A catalog product. Optional text fields are the empty string when
      absent; the nutrient fields other than calories are free text such as
      "10g". */
  datatype Product = Product(
    id: ProductId,
    name: string,
    chameleonName: string,
    subCategory: string,
    iddsi: string,
    notes: string,
    allergens: seq<Allergen>,
    mayContain: seq<Allergen>,
    consistency: seq<Consistency>,
    calories: int,
    protein: string,
    fat: string,
    saturatedFat: string,
    carbohydrates: string,
    sugar: string,
    sodium: string,
    fiber: string,
    lastUpdated: string)

  type MealId = int

  /** The constraint lists stored with a saved meal. */
  datatype MealConstraints = MealConstraints(allergens: seq<Allergen>, consistency: seq<Consistency>)

  /** A saved meal: its product ids (duplicates allowed) and the constraints
      it was built under. */
  datatype Meal = Meal(
    id: MealId,
    date: string,
    notes: string,
    products: seq<ProductId>,
    constraints: MealConstraints)
}
