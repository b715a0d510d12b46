/**
 * The sidebar filter of `draw_sidebar` (dashboard.py): a conjunction of a
 * category-membership test and four inclusive ranges, then, when the
 * first-floor box is ticked, a second selection on `floor == 1`.
 */
module FilterEngine {
  import opened Listing

  /** Boolean-mask selection `df[mask]`: the rows the mask keeps, in order. */
  function Where<T>(xs: seq<T>, keep: T -> bool): (r: seq<T>)
    ensures |r| <= |xs|
  {
    if xs == [] then []
    else (if keep(xs[0]) then [xs[0]] else []) + Where(xs[1..], keep)
  }

  /** `a` is obtained from `b` by deleting elements, keeping the order. */
  predicate IsSubsequence<T(==)>(a: seq<T>, b: seq<T>)
    decreases |b|
  {
    |a| <= |b| &&
    (a == [] || (a[0] == b[0] && IsSubsequence(a[1..], b[1..])) || IsSubsequence(a, b[1..]))
  }

  /** pandas `between(lo, hi)`: inclusive at both ends. */
  datatype IntRange = IntRange(lo: int, hi: int) {
    predicate Contains(x: int) { lo <= x <= hi }
  }

  datatype RealRange = RealRange(lo: real, hi: real) {
    predicate Contains(x: real) { lo <= x <= hi }
  }

  /** What the sidebar widgets hand to the filter. */
  datatype FilterSettings = FilterSettings(
    cats: set<string>,
    depositRange: IntRange,
    rentRange: IntRange,
    premiumRange: IntRange,
    sizeRange: RealRange,
    isFirstFloor: bool)

  /** The first mask: category membership and the four ranges. */
  predicate BaseMask(p: FilterSettings, n: NormalizedListing) {
    n.raw.businessLargeCodeName in p.cats &&
    p.depositRange.Contains(n.raw.deposit) &&
    p.rentRange.Contains(n.raw.monthlyRent) &&
    p.premiumRange.Contains(n.raw.premium) &&
    p.sizeRange.Contains(n.raw.size)
  }

  function BaseMaskOf(p: FilterSettings): NormalizedListing -> bool {
    n => BaseMask(p, n)
  }

  predicate OnFirstFloor(n: NormalizedListing) {
    n.raw.floor == 1
  }

  /** A row passes exactly when it meets every active condition. */
  predicate Selected(p: FilterSettings, n: NormalizedListing) {
    BaseMask(p, n) && (p.isFirstFloor ==> OnFirstFloor(n))
  }

  function SelectedOf(p: FilterSettings): NormalizedListing -> bool {
    n => Selected(p, n)
  }

  /**
   * The filter as the sidebar applies it: the first mask, then the floor
   * mask if asked. It keeps exactly the input rows that meet every active
   * condition, in their input order.
   */
  function SidebarFilter(rows: seq<NormalizedListing>, p: FilterSettings): (r: seq<NormalizedListing>)
    ensures forall n :: n in r <==> n in rows && Selected(p, n)
    ensures IsSubsequence(r, rows)
  {
    var baseSelection := Where(rows, BaseMaskOf(p));
    assert forall n :: n in baseSelection <==> n in rows && BaseMask(p, n) by {
      forall n ensures n in baseSelection <==> n in rows && BaseMask(p, n) {
        WhereMembers(rows, BaseMaskOf(p), n);
      }
    }
    WhereIsSubsequence(rows, BaseMaskOf(p));
    if p.isFirstFloor then
      assert forall n :: n in Where(baseSelection, OnFirstFloor) <==> n in baseSelection && OnFirstFloor(n) by {
        forall n ensures n in Where(baseSelection, OnFirstFloor) <==> n in baseSelection && OnFirstFloor(n) {
          WhereMembers(baseSelection, OnFirstFloor, n);
        }
      }
      WhereFusion(rows, BaseMaskOf(p), OnFirstFloor, SelectedOf(p));
      WhereIsSubsequence(rows, SelectedOf(p));
      Where(baseSelection, OnFirstFloor)
    else
      baseSelection
  }

  // ----- Boolean-mask selection -----

  /** Selection keeps exactly the elements the mask accepts. */
  lemma {:induction false} WhereMembers<T>(xs: seq<T>, keep: T -> bool, x: T)
    ensures x in Where(xs, keep) <==> x in xs && keep(x)
  {
    if xs != [] {
      WhereMembers(xs[1..], keep, x);
      assert xs == [xs[0]] + xs[1..];
    }
  }

  /** Selection keeps every copy of an accepted element and no copy of a rejected one. */
  lemma {:induction false} WhereMultiplicity<T>(xs: seq<T>, keep: T -> bool, x: T)
    ensures multiset(Where(xs, keep))[x] == if keep(x) then multiset(xs)[x] else 0
  {
    if xs != [] {
      WhereMultiplicity(xs[1..], keep, x);
      assert xs == [xs[0]] + xs[1..];
    }
  }

  /** Selection preserves order. */
  lemma {:induction false} WhereIsSubsequence<T>(xs: seq<T>, keep: T -> bool)
    ensures IsSubsequence(Where(xs, keep), xs)
  {
    if xs != [] {
      WhereIsSubsequence(xs[1..], keep);
      var rest := Where(xs[1..], keep);
      if keep(xs[0]) {
        assert Where(xs, keep) == [xs[0]] + rest;
        assert ([xs[0]] + rest)[1..] == rest;
      } else {
        assert Where(xs, keep) == [] + rest == rest;
      }
    }
  }

  /** Two selections in a row are one selection on the conjunction of their masks. */
  lemma {:induction false} WhereFusion<T>(xs: seq<T>, f: T -> bool, g: T -> bool, h: T -> bool)
    requires forall x :: h(x) == (f(x) && g(x))
    ensures Where(Where(xs, f), g) == Where(xs, h)
  {
    if xs != [] {
      WhereFusion(xs[1..], f, g, h);
      var rest := Where(xs[1..], f);
      if f(xs[0]) {
        assert Where(xs, f) == [xs[0]] + rest;
        WhereAppend([xs[0]], rest, g);
      } else {
        assert Where(xs, f) == [] + rest == rest;
      }
    }
  }

  lemma {:induction false} WhereAppend<T>(a: seq<T>, b: seq<T>, keep: T -> bool)
    ensures Where(a + b, keep) == Where(a, keep) + Where(b, keep)
  {
    if a == [] {
      assert a + b == b;
    } else {
      WhereAppend(a[1..], b, keep);
      var head := if keep(a[0]) then [a[0]] else [];
      assert (a + b)[0] == a[0];
      assert (a + b)[1..] == a[1..] + b;
      calc {
        Where(a + b, keep);
        head + Where(a[1..] + b, keep);
        head + (Where(a[1..], keep) + Where(b, keep));
        (head + Where(a[1..], keep)) + Where(b, keep);
      }
    }
  }

  /** Masks that agree everywhere select the same rows. */
  lemma {:induction false} WhereExtensional<T>(xs: seq<T>, f: T -> bool, g: T -> bool)
    requires forall x :: f(x) == g(x)
    ensures Where(xs, f) == Where(xs, g)
  {
    if xs != [] {
      WhereExtensional(xs[1..], f, g);
    }
  }

  /** A mask that rejects every element selects nothing. */
  lemma {:induction false} WhereNone<T>(xs: seq<T>, keep: T -> bool)
    requires forall i :: 0 <= i < |xs| ==> !keep(xs[i])
    ensures Where(xs, keep) == []
  {
    if xs != [] {
      WhereNone(xs[1..], keep);
    }
  }

  // ----- The sidebar filter -----

  /** Applying the masks one after the other is the same as one conjunctive mask. */
  lemma FilterIsConjunction(rows: seq<NormalizedListing>, p: FilterSettings)
    ensures SidebarFilter(rows, p) == Where(rows, SelectedOf(p))
  {
    if p.isFirstFloor {
      WhereFusion(rows, BaseMaskOf(p), OnFirstFloor, SelectedOf(p));
    } else {
      WhereFusion(rows, BaseMaskOf(p), _ => true, SelectedOf(p));
      AllPass(Where(rows, BaseMaskOf(p)));
    }
  }

  lemma {:induction false} AllPass(xs: seq<NormalizedListing>)
    ensures Where(xs, _ => true) == xs
  {
    if xs != [] {
      AllPass(xs[1..]);
    }
  }

  /**
   * Soundness and completeness: a row is in the result exactly when it is
   * in the input, its category is selected, it lies in all four ranges
   * (both ends included) and, when asked, it is on the first floor.
   */
  lemma FilterMembers(rows: seq<NormalizedListing>, p: FilterSettings, n: NormalizedListing)
    ensures n in SidebarFilter(rows, p) <==>
              n in rows &&
              n.raw.businessLargeCodeName in p.cats &&
              p.depositRange.lo <= n.raw.deposit <= p.depositRange.hi &&
              p.rentRange.lo <= n.raw.monthlyRent <= p.rentRange.hi &&
              p.premiumRange.lo <= n.raw.premium <= p.premiumRange.hi &&
              p.sizeRange.lo <= n.raw.size <= p.sizeRange.hi &&
              (p.isFirstFloor ==> n.raw.floor == 1)
  {
  }

  /** The result keeps the input's order, and every copy of a selected row. */
  lemma FilterOrderAndMultiplicity(rows: seq<NormalizedListing>, p: FilterSettings, n: NormalizedListing)
    ensures IsSubsequence(SidebarFilter(rows, p), rows)
    ensures multiset(SidebarFilter(rows, p))[n] ==
              if Selected(p, n) then multiset(rows)[n] else 0
  {
    FilterIsConjunction(rows, p);
    WhereIsSubsequence(rows, SelectedOf(p));
    WhereMultiplicity(rows, SelectedOf(p), n);
  }

  /** With no category selected nothing passes. */
  lemma EmptyCategoriesSelectNothing(rows: seq<NormalizedListing>, p: FilterSettings)
    requires p.cats == {}
    ensures SidebarFilter(rows, p) == []
  {
    FilterIsConjunction(rows, p);
    WhereNone(rows, SelectedOf(p));
  }

  /** A range whose lower end exceeds its upper end selects nothing; it is not an error. */
  lemma DegenerateRangeSelectsNothing(rows: seq<NormalizedListing>, p: FilterSettings)
    requires p.depositRange.lo > p.depositRange.hi || p.rentRange.lo > p.rentRange.hi ||
             p.premiumRange.lo > p.premiumRange.hi || p.sizeRange.lo > p.sizeRange.hi
    ensures SidebarFilter(rows, p) == []
  {
    FilterIsConjunction(rows, p);
    WhereNone(rows, SelectedOf(p));
  }

  /**
   * Ticking the first-floor box only removes rows: the result is the
   * first-floor rows of the unticked result, in the same order.
   */
  lemma FirstFloorOnlyNarrows(rows: seq<NormalizedListing>, p: FilterSettings)
    requires p.isFirstFloor
    ensures var unticked := SidebarFilter(rows, p.(isFirstFloor := false));
            SidebarFilter(rows, p) == Where(unticked, OnFirstFloor) &&
            IsSubsequence(SidebarFilter(rows, p), unticked)
  {
    var unticked := SidebarFilter(rows, p.(isFirstFloor := false));
    WhereExtensional(rows, BaseMaskOf(p.(isFirstFloor := false)), BaseMaskOf(p));
    WhereIsSubsequence(unticked, OnFirstFloor);
  }
}
