/** The product management screen of `src/components/ProductManagement.jsx`:
    the name/code search, the modal form's data, opening it for adding or
    editing, toggling an allergen or consistency in the form, and assembling
    the record handed to the add or edit handler on save. */
module ProductManagement {
  import opened Common
  import opened Catalog

  /** The form's data. It has every editable field of a product; the id and
      the timestamp are present only when the form was opened on an existing
      product. */
  datatype Draft = Draft(
    id: Option<ProductId>,
    lastUpdated: Option<string>,
    name: string,
    chameleonName: string,
    subCategory: string,
    iddsi: string,
    notes: string,
    allergens: seq<Allergen>,
    mayContain: seq<Allergen>,
    consistency: seq<Consistency>,
    calories: int,
    protein: string,
    fat: string,
    saturatedFat: string,
    carbohydrates: string,
    sugar: string,
    sodium: string,
    fiber: string)

  /** `createEmptyProduct`. */
  function CreateEmptyProduct(): (d: Draft)
    ensures d.id == None && d.lastUpdated == None
    ensures d.allergens == [] && d.mayContain == [] && d.consistency == []
    ensures d.calories == 0 && d.name == ""
  {
    Draft(None, None, "", "", "", "", "", [], [], [], 0,
          "0g", "0g", "0g", "0g", "0g", "0mg", "0g")
  }

  /** `{ ...product }`: a copy of a product as form data. */
  function DraftOf(p: Product): Draft {
    Draft(Some(p.id), Some(p.lastUpdated), p.name, p.chameleonName, p.subCategory, p.iddsi,
          p.notes, p.allergens, p.mayContain, p.consistency, p.calories, p.protein, p.fat,
          p.saturatedFat, p.carbohydrates, p.sugar, p.sodium, p.fiber)
  }

  /** `{ ...editingProduct, ...formData }`: every field the form holds wins;
      the id and timestamp fall back to the product being edited. */
  function Overlay(editing: Product, d: Draft): (r: Product)
    ensures DraftOf(r) == d.(id := Some(r.id), lastUpdated := Some(r.lastUpdated))
    ensures r.id == d.id.GetOr(editing.id)
    ensures r.lastUpdated == d.lastUpdated.GetOr(editing.lastUpdated)
  {
    Product(d.id.GetOr(editing.id), d.name, d.chameleonName, d.subCategory, d.iddsi, d.notes,
            d.allergens, d.mayContain, d.consistency, d.calories, d.protein, d.fat,
            d.saturatedFat, d.carbohydrates, d.sugar, d.sodium, d.fiber,
            d.lastUpdated.GetOr(editing.lastUpdated))
  }

  /** `{ ...formData, id: Date.now() }` with the clock reading as `id`. A form
      opened for adding has no timestamp; it is the empty string here, and
      the add handler stamps the product. */
  function WithId(d: Draft, id: ProductId): (r: Product)
    ensures r.id == id
    ensures DraftOf(r) == d.(id := Some(id), lastUpdated := Some(r.lastUpdated))
  {
    Product(id, d.name, d.chameleonName, d.subCategory, d.iddsi, d.notes,
            d.allergens, d.mayContain, d.consistency, d.calories, d.protein, d.fat,
            d.saturatedFat, d.carbohydrates, d.sugar, d.sodium, d.fiber,
            d.lastUpdated.GetOr(""))
  }

  /** Opening the form on a product and saving it unchanged hands back a
      record equal to that product, id included. */
  lemma EditUnchangedIsIdentity(p: Product)
    ensures Overlay(p, DraftOf(p)) == p
  {
  }

  /** The list search: the lowercased name includes the lowercased query, or
      a non-empty code name does. */
  predicate IsListed(p: Product, query: string) {
    || Includes(LowerStr(p.name), LowerStr(query))
    || (p.chameleonName != "" && Includes(LowerStr(p.chameleonName), LowerStr(query)))
  }

  function Listed(query: string): Product -> bool {
    p => IsListed(p, query)
  }

  /** The screen's `filteredProducts`. */
  function FilteredProducts(products: seq<Product>, query: string): (r: seq<Product>)
    ensures IsSubsequence(r, products)
    ensures forall p :: p in r <==> p in products && IsListed(p, query)
  {
    Filter(products, Listed(query))
  }

  /** An empty query lists every product, in order. */
  lemma EmptyQueryListsAll(products: seq<Product>)
    ensures FilteredProducts(products, "") == products
  {
    forall p | p in products ensures IsListed(p, "") {
      IncludesEmpty(LowerStr(p.name));
    }
    FilterKeepsAll(products, Listed(""));
  }

  /** Which array field a form chip toggles, and the value. */
  datatype ListToggle =
    | AllergenItem(allergen: Allergen)
    | MayContainItem(allergen: Allergen)
    | ConsistencyItem(consistency: Consistency)

  /** What `handleSave` hands to its caller. */
  datatype SaveRequest = OnAdd(product: Product) | OnEdit(product: Product)

  class ProductManagementState {
    var isModalOpen: bool
    var editingProduct: Option<Product>
    var searchQuery: string
    var formData: Draft

    constructor ()
      ensures !isModalOpen && editingProduct == None && searchQuery == ""
      ensures formData == CreateEmptyProduct()
    {
      isModalOpen := false;
      editingProduct := None;
      searchQuery := "";
      formData := CreateEmptyProduct();
    }

    /** `handleOpenAdd`: a blank form, not editing anything. */
    method HandleOpenAdd()
      modifies this`editingProduct, this`formData, this`isModalOpen
      ensures editingProduct == None && formData == CreateEmptyProduct() && isModalOpen
    {
      editingProduct := None;
      formData := CreateEmptyProduct();
      isModalOpen := true;
    }

    /** `handleOpenEdit`: the form holds a copy of the product. */
    method HandleOpenEdit(product: Product)
      modifies this`editingProduct, this`formData, this`isModalOpen
      ensures editingProduct == Some(product) && formData == DraftOf(product) && isModalOpen
    {
      editingProduct := Some(product);
      formData := DraftOf(product);
      isModalOpen := true;
    }

    /** `handleSave`: in edit mode the edited product overlaid with the form,
        in add mode the form with a fresh id (`now`); the modal closes. */
    method HandleSave(now: ProductId) returns (request: SaveRequest)
      modifies this`isModalOpen
      ensures request == match editingProduct
        case Some(editing) => OnEdit(Overlay(editing, formData))
        case None => OnAdd(WithId(formData, now))
      ensures !isModalOpen
    {
      if editingProduct.Some? {
        request := OnEdit(Overlay(editingProduct.value, formData));
      } else {
        request := OnAdd(WithId(formData, now));
      }
      isModalOpen := false;
    }

    /** `toggleArrayItem`: only the named array changes, through a Set. */
    method ToggleArrayItem(item: ListToggle)
      modifies this`formData
      ensures formData == match item
        case AllergenItem(a) => old(formData).(allergens := ToggleItem(old(formData.allergens), a))
        case MayContainItem(a) => old(formData).(mayContain := ToggleItem(old(formData.mayContain), a))
        case ConsistencyItem(c) => old(formData).(consistency := ToggleItem(old(formData.consistency), c))
    {
      match item {
        case AllergenItem(a) =>
          formData := formData.(allergens := ToggleItem(formData.allergens, a));
        case MayContainItem(a) =>
          formData := formData.(mayContain := ToggleItem(formData.mayContain, a));
        case ConsistencyItem(c) =>
          formData := formData.(consistency := ToggleItem(formData.consistency, c));
      }
    }
  }
}
