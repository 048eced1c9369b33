/** The grouping loop the inventory, the line-worker catalog and the meal
    builder each run: every product is pushed onto the list of its
    sub-category, a product without one going to a fallback label. */
module Grouping {
  import opened Common
  import opened Catalog

  /** `product.subCategory || fallback`. */
  function CategoryOf(p: Product, fallback: string): string {
    if p.subCategory == "" then fallback else p.subCategory
  }

  function InCategory(k: string, fallback: string): Product -> bool {
    p => CategoryOf(p, fallback) == k
  }

  /** `groups` has a key for exactly the categories that occur in `items`,
      and each key holds that category's items in input order. */
  ghost predicate IsGrouping(items: seq<Product>, fallback: string, groups: map<string, seq<Product>>) {
    && (forall k :: k in groups <==> exists p :: p in items && CategoryOf(p, fallback) == k)
    && (forall k :: k in groups ==> groups[k] == Filter(items, InCategory(k, fallback)))
  }

  /** The `forEach` over the items, each pushed onto its category's list. */
  method GroupByCategory(items: seq<Product>, fallback: string) returns (groups: map<string, seq<Product>>)
    ensures IsGrouping(items, fallback, groups)
  {
    groups := map[];
    for i := 0 to |items|
      invariant IsGrouping(items[..i], fallback, groups)
    {
      groups := Push(items[..i], groups, items[i], fallback);
      assert items[..i + 1] == items[..i] + [items[i]];
    }
    assert items[..|items|] == items;
  }

  /** One step of the `forEach`: `groups[category]` is created empty the
      first time the category is seen, then the item is pushed onto it. */
  method Push(ghost items: seq<Product>, groups: map<string, seq<Product>>, p: Product, fallback: string)
    returns (grown: map<string, seq<Product>>)
    requires IsGrouping(items, fallback, groups)
    ensures IsGrouping(items + [p], fallback, grown)
  {
    var category := CategoryOf(p, fallback);
    var list := if category in groups then groups[category] else [];
    grown := groups[category := list + [p]];
    GroupingStep(items, p, fallback, groups, grown, items + [p]);
  }

  /** Pushing one more item keeps the map a grouping of the longer list. */
  lemma GroupingStep(items: seq<Product>, p: Product, fallback: string,
                     groups: map<string, seq<Product>>, grown: map<string, seq<Product>>,
                     longer: seq<Product>)
    requires IsGrouping(items, fallback, groups)
    requires var k := CategoryOf(p, fallback);
      grown == groups[k := (if k in groups then groups[k] else []) + [p]]
    requires longer == items + [p]
    ensures IsGrouping(longer, fallback, grown)
  {
    var category := CategoryOf(p, fallback);
    forall k ensures k in grown <==> exists q :: q in items + [p] && CategoryOf(q, fallback) == k {
      if k == category {
        assert p in items + [p];
      } else if k in grown {
        var q :| q in items && CategoryOf(q, fallback) == k;
        assert q in items + [p];
      }
    }
    forall k | k in grown ensures grown[k] == Filter(items + [p], InCategory(k, fallback)) {
      FilterAppend(items, p, InCategory(k, fallback));
      if k == category && category !in groups {
        forall q | q in items ensures !InCategory(k, fallback)(q) {}
        FilterKeepsNone(items, InCategory(k, fallback));
      }
    }
  }

  /** Grouping is a partition: every item lands in the group of its own
      category, that group is the only one holding it, and no group is
      empty. */
  lemma GroupingPartitions(items: seq<Product>, fallback: string, groups: map<string, seq<Product>>)
    requires IsGrouping(items, fallback, groups)
    ensures forall p :: p in items ==> CategoryOf(p, fallback) in groups && p in groups[CategoryOf(p, fallback)]
    ensures forall k, p :: k in groups && p in groups[k] ==> p in items && CategoryOf(p, fallback) == k
    ensures forall k :: k in groups ==> groups[k] != [] && IsSubsequence(groups[k], items)
  {
    forall k | k in groups ensures groups[k] != [] {
      var p :| p in items && CategoryOf(p, fallback) == k;
      assert p in groups[k];
    }
  }

  /** No items, no groups. */
  lemma EmptyInputNoGroups(fallback: string, groups: map<string, seq<Product>>)
    requires IsGrouping([], fallback, groups)
    ensures groups == map[]
  {
  }
}
