/** The inventory's filter sidebar, `src/components/Sidebar.jsx`: each
    handler copies one set of the filter record, adds or deletes one value,
    and writes the record back into the application's state. */
module Sidebar {
  import opened Common
  import opened Catalog
  import App

  /** `handleAllergenChange`: flips exactly one excluded allergen. */
  method HandleAllergenChange(app: App.AppState, allergen: Allergen)
    modifies app`filters
    ensures app.filters == old(app.filters).(allergens := Toggle(old(app.filters.allergens), allergen))
  {
    var newAllergens := app.filters.allergens;
    if allergen in newAllergens {
      newAllergens := newAllergens - {allergen};
    } else {
      newAllergens := newAllergens + {allergen};
    }
    app.filters := app.filters.(allergens := newAllergens);
  }

  /** `handleConsistencyChange`: flips exactly one selected consistency. */
  method HandleConsistencyChange(app: App.AppState, consistency: Consistency)
    modifies app`filters
    ensures app.filters == old(app.filters).(consistencies := Toggle(old(app.filters.consistencies), consistency))
  {
    var newConsistencies := app.filters.consistencies;
    if consistency in newConsistencies {
      newConsistencies := newConsistencies - {consistency};
    } else {
      newConsistencies := newConsistencies + {consistency};
    }
    app.filters := app.filters.(consistencies := newConsistencies);
  }

  /** The "Show may contain items" checkbox negates only that flag. */
  method ToggleShowMayContain(app: App.AppState)
    modifies app`filters
    ensures app.filters == old(app.filters).(showMayContain := !old(app.filters.showMayContain))
  {
    app.filters := app.filters.(showMayContain := !app.filters.showMayContain);
  }

  /** The allergen handler applied twice with the same value restores the
      filters. */
  method AllergenChangeTwiceRestores(app: App.AppState, allergen: Allergen)
    modifies app`filters
    ensures app.filters == old(app.filters)
  {
    HandleAllergenChange(app, allergen);
    HandleAllergenChange(app, allergen);
    ToggleTwice(old(app.filters.allergens), allergen);
  }

  /** The consistency handler applied twice with the same value restores the
      filters. */
  method ConsistencyChangeTwiceRestores(app: App.AppState, consistency: Consistency)
    modifies app`filters
    ensures app.filters == old(app.filters)
  {
    HandleConsistencyChange(app, consistency);
    HandleConsistencyChange(app, consistency);
    ToggleTwice(old(app.filters.consistencies), consistency);
  }
}
