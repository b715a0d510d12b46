/**
 * Two computations of the listing explorer page (`page_explorer` in
 * dashboard.py): the rows shown before anything is searched, and the
 * start-up cost of a chosen listing.
 */
module Explorer {
  import opened Options
  import opened Payload
  import opened Listing
  import opened FilterEngine

  /** How many rows are shown when the search box is empty. */
  const DEFAULT_ROWS := 20

  /** `df.head(20)`: the first twenty rows, or all of them if there are fewer. */
  function DefaultResults(rows: seq<NormalizedListing>): (r: seq<NormalizedListing>)
    ensures |r| == if |rows| < DEFAULT_ROWS then |rows| else DEFAULT_ROWS
    ensures forall i :: 0 <= i < |r| ==> r[i] == rows[i]
  {
    if |rows| < DEFAULT_ROWS then rows else rows[..DEFAULT_ROWS]
  }

  /**
   * The explorer's result table. The text search itself (a pandas regular
   * expression match on the title or the identifier) is given as the
   * predicate `hit`; an empty search string shows the default rows.
   */
  function ExplorerResults(rows: seq<NormalizedListing>, search: string,
                           hit: NormalizedListing -> bool): (r: seq<NormalizedListing>)
    ensures search == "" ==> r == DefaultResults(rows)
    ensures search != "" ==> forall n :: n in r <==> n in rows && hit(n)
    ensures search != "" ==> IsSubsequence(r, rows)
    ensures search != "" ==> forall n :: multiset(r)[n] == if hit(n) then multiset(rows)[n] else 0
  {
    if search == "" then DefaultResults(rows)
    else
      assert forall n :: n in Where(rows, hit) <==> n in rows && hit(n) by {
        forall n ensures n in Where(rows, hit) <==> n in rows && hit(n) {
          WhereMembers(rows, hit, n);
        }
      }
      assert forall n :: multiset(Where(rows, hit))[n] == if hit(n) then multiset(rows)[n] else 0 by {
        forall n ensures multiset(Where(rows, hit))[n] == if hit(n) then multiset(rows)[n] else 0 {
          WhereMultiplicity(rows, hit, n);
        }
      }
      WhereIsSubsequence(rows, hit);
      Where(rows, hit)
  }

  /**
   * The estimated start-up cost: deposit and premium once, plus the
   * monthly total for each month of operation.
   */
  function StartCost(n: NormalizedListing, months: int): (cost: real)
    ensures months == 0 ==> cost == n.depositWon as real + n.premiumWon as real
    ensures months >= 0 && n.monthlyTotalCost >= 0.0 ==>
              cost >= n.depositWon as real + n.premiumWon as real
  {
    n.depositWon as real + n.premiumWon as real + n.monthlyTotalCost * months as real
  }

  /**
   * For a normalised row the start-up cost is the total initial cost plus
   * the months' monthly totals, that is the stored deposit, premium, rent
   * and payload maintenance fee, in manwon, scaled to won.
   */
  lemma StartCostInManwon(row: RawListing, currentYear: int, months: int)
    requires Normalize(row, currentYear).Some?
    ensures var n := Normalize(row, currentYear).value;
            var fee := AsNumber(n.aux.maintFeeRaw).value;
            StartCost(n, months) == n.totalInitialCost as real + n.monthlyTotalCost * months as real &&
            StartCost(n, months) ==
              (row.deposit as real + row.premium as real +
               (row.monthlyRent as real + fee) * months as real) * WON_PER_MANWON as real
  {
  }

  /** Each further month of operation adds exactly one monthly total. */
  lemma StartCostPerMonth(n: NormalizedListing, months: int)
    ensures StartCost(n, months + 1) == StartCost(n, months) + n.monthlyTotalCost
  {
  }
}
