/** Generic helpers shared by every view: optional values, ASCII case folding,
    substring search, set toggling, order-preserving filtering and the
    `Array.from(new Set(...))` de-duplication used by the product form. */
module Common {

  datatype Option<T> = None | Some(value: T) {
    /** The value, or `default` when absent (the `x || default` idiom). */
    function GetOr(default: T): T {
      if Some? then value else default
    }
  }

  // ---------------------------------------------------------------------------
  // Text

  /** Case folding of one character; only ASCII letters are folded. */
  function Lower(c: char): char {
    if 'A' <= c <= 'Z' then (c as int + 32) as char else c
  }

  /** `String.prototype.toLowerCase`, restricted to ASCII: the result has
      no upper-case ASCII letter, each upper-case letter becomes the letter
      32 code points above it, and every other character is kept. */
  function LowerStr(s: string): (r: string)
    ensures |r| == |s|
    ensures forall i :: 0 <= i < |r| ==> !('A' <= r[i] <= 'Z')
    ensures forall i :: 0 <= i < |s| && !('A' <= s[i] <= 'Z') ==> r[i] == s[i]
    ensures forall i :: 0 <= i < |s| && 'A' <= s[i] <= 'Z' ==>
      'a' <= r[i] <= 'z' && r[i] as int == s[i] as int + 32
  {
    seq(|s|, i requires 0 <= i < |s| => Lower(s[i]))
  }

  /** Lower-casing twice is lower-casing once. */
  lemma LowerStrIdempotent(s: string)
    ensures LowerStr(LowerStr(s)) == LowerStr(s)
  {
    var once := LowerStr(s);
    assert forall i :: 0 <= i < |once| ==> LowerStr(once)[i] == once[i];
  }

  /** `String.prototype.includes`: `part` occurs in `text` at some offset. */
  predicate Includes(text: string, part: string) {
    exists i | 0 <= i <= |text| - |part| :: OccursAt(text, part, i)
  }

  predicate OccursAt(text: string, part: string, i: int)
    requires 0 <= i <= |text| - |part|
  {
    text[i..i + |part|] == part
  }

  /** Every string includes the empty string, so an empty search matches all. */
  lemma IncludesEmpty(text: string)
    ensures Includes(text, "")
  {
    assert OccursAt(text, "", 0);
  }

  // ---------------------------------------------------------------------------
  // Sets

  /** Some element of `xs` belongs to `s`: the early-return `for ... of` loops
      over `Set.has` and `Array.prototype.some(c => set.has(c))`. */
  predicate Meets<T>(xs: seq<T>, s: set<T>) {
    exists i | 0 <= i < |xs| :: xs[i] in s
  }

  /** Copy a set, then `delete` the value if present, else `add` it. */
  function Toggle<T(!new)>(s: set<T>, x: T): (r: set<T>)
    ensures x in r <==> x !in s
    ensures forall y :: y != x ==> (y in r <==> y in s)
  {
    if x in s then s - {x} else s + {x}
  }

  /** Toggling the same value twice gives back the original set. */
  lemma ToggleTwice<T(!new)>(s: set<T>, x: T)
    ensures Toggle(Toggle(s, x), x) == s
  {
  }

  // ---------------------------------------------------------------------------
  // Order-preserving filtering

  /** `a` is obtained from `b` by deleting elements, keeping the order. */
  ghost predicate IsSubsequence<T>(a: seq<T>, b: seq<T>)
    decreases |b|
  {
    a == [] ||
    (b != [] &&
     ((a[0] == b[0] && IsSubsequence(a[1..], b[1..])) || IsSubsequence(a, b[1..])))
  }

  /** Every list is a subsequence of itself. */
  lemma {:induction false} SubsequenceReflexive<T>(xs: seq<T>)
    ensures IsSubsequence(xs, xs)
  {
    if xs != [] {
      SubsequenceReflexive(xs[1..]);
    }
  }

  /** `Array.prototype.filter`: every occurrence of a kept element
      survives, in order, and nothing else does. */
  function Filter<T(!new)>(xs: seq<T>, keep: T -> bool): (r: seq<T>)
    ensures |r| <= |xs|
    ensures forall x :: x in r <==> x in xs && keep(x)
    ensures forall x {:trigger multiset(r)[x]} :: multiset(r)[x] == if keep(x) then multiset(xs)[x] else 0
    ensures IsSubsequence(r, xs)
  {
    if xs == [] then []
    else
      assert xs == [xs[0]] + xs[1..];
      if keep(xs[0]) then [xs[0]] + Filter(xs[1..], keep)
      else Filter(xs[1..], keep)
  }

  /** A filter that keeps no element of `xs` returns the empty list. */
  lemma {:induction false} FilterKeepsNone<T(!new)>(xs: seq<T>, keep: T -> bool)
    requires forall x :: x in xs ==> !keep(x)
    ensures Filter(xs, keep) == []
  {
    if xs != [] {
      assert xs[0] in xs;
      forall x | x in xs[1..] ensures !keep(x) {
        assert x in xs;
      }
      FilterKeepsNone(xs[1..], keep);
    }
  }

  /** Filtering distributes over appending one element at the end. */
  lemma {:induction false} FilterAppend<T(!new)>(xs: seq<T>, x: T, keep: T -> bool)
    ensures Filter(xs + [x], keep) == Filter(xs, keep) + (if keep(x) then [x] else [])
  {
    if xs == [] {
      assert xs + [x] == [x];
    } else {
      assert (xs + [x])[0] == xs[0];
      assert (xs + [x])[1..] == xs[1..] + [x];
      FilterAppend(xs[1..], x, keep);
    }
  }

  /** A filter that keeps every element returns the list unchanged. */
  lemma {:induction false} FilterKeepsAll<T(!new)>(xs: seq<T>, keep: T -> bool)
    requires forall x :: x in xs ==> keep(x)
    ensures Filter(xs, keep) == xs
  {
    if xs != [] {
      assert xs[0] in xs;
      forall x | x in xs[1..] ensures keep(x) {
        assert x in xs;
      }
      FilterKeepsAll(xs[1..], keep);
    }
  }

  /** Two predicates that agree on the elements of `xs` filter it alike. */
  lemma {:induction false} FilterCongruent<T(!new)>(xs: seq<T>, k1: T -> bool, k2: T -> bool)
    requires forall x :: x in xs ==> k1(x) == k2(x)
    ensures Filter(xs, k1) == Filter(xs, k2)
  {
    if xs != [] {
      assert xs[0] in xs;
      forall x | x in xs[1..] ensures k1(x) == k2(x) {
        assert x in xs;
      }
      FilterCongruent(xs[1..], k1, k2);
    }
  }

  // ---------------------------------------------------------------------------
  // Arrays passed through a Set

  predicate NoDuplicates<T(==)>(xs: seq<T>) {
    forall i, j :: 0 <= i < j < |xs| ==> xs[i] != xs[j]
  }

  /** The position of the first occurrence of `x` in `xs`. */
  function FirstIndex<T(==)>(xs: seq<T>, x: T): (r: nat)
    requires x in xs
    ensures r < |xs| && xs[r] == x
    ensures forall k :: 0 <= k < r ==> xs[k] != x
  {
    if xs[0] == x then 0 else 1 + FirstIndex(xs[1..], x)
  }

  /** Appending an element does not move a first occurrence already there. */
  lemma FirstIndexAppend<T>(xs: seq<T>, y: T, x: T)
    requires x in xs
    ensures FirstIndex(xs + [y], x) == FirstIndex(xs, x)
  {
    var i := FirstIndex(xs, x);
    var j := FirstIndex(xs + [y], x);
    assert (xs + [y])[i] == x;
    assert j <= i;
    assert xs[j] == (xs + [y])[j];
  }

  /** `Array.from(new Set(xs))`: each value once, ordered by where it first
      occurs in `xs`. */
  function Dedup<T(==,!new)>(xs: seq<T>): (r: seq<T>)
    ensures NoDuplicates(r)
    ensures forall x :: x in r <==> x in xs
    ensures forall i, j :: 0 <= i < j < |r| ==> FirstIndex(xs, r[i]) < FirstIndex(xs, r[j])
    ensures NoDuplicates(xs) ==> r == xs
  {
    if xs == [] then []
    else
      var init := xs[..|xs| - 1];
      var d := Dedup(init);
      var x := xs[|xs| - 1];
      assert xs == init + [x];
      forall y | y in init ensures FirstIndex(xs, y) == FirstIndex(init, y) {
        FirstIndexAppend(init, x, y);
      }
      if x in d then d
      else
        assert FirstIndex(xs, x) == |xs| - 1;
        d + [x]
  }

  function NotEqual<T(==,!new)>(v: T): T -> bool {
    x => x != v
  }

  /** Removing one value from a duplicate-free list that holds it shortens
      the list by exactly one. */
  lemma {:induction false} FilterOutPresent<T(!new)>(xs: seq<T>, v: T)
    requires NoDuplicates(xs) && v in xs
    ensures |Filter(xs, NotEqual(v))| == |xs| - 1
  {
    if xs[0] == v {
      assert v !in xs[1..] by {
        forall j | 0 <= j < |xs[1..]| ensures xs[1..][j] != v {
          assert xs[0] != xs[j + 1];
        }
      }
      FilterKeepsAll(xs[1..], NotEqual(v));
    } else {
      assert v in xs[1..];
      assert NoDuplicates(xs[1..]) by {
        forall i, j | 0 <= i < j < |xs[1..]| ensures xs[1..][i] != xs[1..][j] {
          assert xs[i + 1] != xs[j + 1];
        }
      }
      FilterOutPresent(xs[1..], v);
    }
  }

  /** The form's `toggleArrayItem`: the array goes through a Set, the value
      is deleted when present and added (at the end) when absent. */
  function ToggleItem<T(==,!new)>(xs: seq<T>, v: T): (r: seq<T>)
    ensures NoDuplicates(r)
    ensures v in r <==> v !in xs
    ensures forall y :: y != v ==> (y in r <==> y in xs)
    ensures v !in xs ==> r == Dedup(xs) + [v]
    ensures v in xs ==> IsSubsequence(r, Dedup(xs)) && |r| == |Dedup(xs)| - 1
  {
    var d := Dedup(xs);
    if v in d then
      FilterOutPresent(d, v);
      var r := Filter(d, NotEqual(v));
      assert NoDuplicates(r) by { FilterKeepsNoDuplicates(d, NotEqual(v)); }
      r
    else
      d + [v]
  }

  /** Filtering never introduces duplicates. */
  lemma {:induction false} FilterKeepsNoDuplicates<T(!new)>(xs: seq<T>, keep: T -> bool)
    requires NoDuplicates(xs)
    ensures NoDuplicates(Filter(xs, keep))
  {
    if xs != [] {
      assert NoDuplicates(xs[1..]) by {
        forall i, j | 0 <= i < j < |xs[1..]| ensures xs[1..][i] != xs[1..][j] {
          assert xs[i + 1] != xs[j + 1];
        }
      }
      FilterKeepsNoDuplicates(xs[1..], keep);
      assert xs[0] !in xs[1..] by {
        forall j | 0 <= j < |xs[1..]| ensures xs[1..][j] != xs[0] {
          assert xs[0] != xs[j + 1];
        }
      }
    }
  }

  /** Toggling a value twice restores the same set of values. */
  lemma ToggleItemTwiceSameValues<T(!new)>(xs: seq<T>, v: T)
    ensures forall y :: y in ToggleItem(ToggleItem(xs, v), v) <==> y in xs
  {
  }

  /** Toggling an absent value twice restores a duplicate-free list exactly:
      it is appended, then removed from the end. */
  lemma {:induction false} ToggleItemTwiceAbsent<T(!new)>(xs: seq<T>, v: T)
    requires NoDuplicates(xs) && v !in xs
    ensures ToggleItem(ToggleItem(xs, v), v) == xs
  {
    var once := ToggleItem(xs, v);
    assert once == xs + [v];
    assert Dedup(once) == once;
    FilterAppend(xs, v, NotEqual(v));
    FilterKeepsAll(xs, NotEqual(v));
  }

  /** Toggling a present value twice moves it to the end: the sequence is
      restored only up to order. */
  lemma {:induction false} ToggleItemTwicePresent<T(!new)>(xs: seq<T>, v: T)
    requires NoDuplicates(xs) && v in xs
    ensures ToggleItem(ToggleItem(xs, v), v) == Filter(xs, NotEqual(v)) + [v]
  {
    var once := ToggleItem(xs, v);
    assert once == Filter(xs, NotEqual(v));
    assert Dedup(once) == once;
  }
}
