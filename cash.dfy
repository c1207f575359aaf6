/**
 * Counting the cash drawer: the ten denomination inputs of `renderCashGrid`
 * and the `brut` accumulation of `refreshUI` (app.js:33, app.js:72-73).
 */
module Cash {
  import opened Amounts

  /** The denominations 100, 50, 20, 10, 5, 2, 1, 0.50, 0.20, 0.10 euros, in cents,
      in the order the inputs are rendered. */
  const Units: seq<int> := [10000, 5000, 2000, 1000, 500, 200, 100, 50, 20, 10]

  /** `parseInt(i.value) || 0` for every denomination input. */
  function Counts(cash: seq<Parsed>): seq<int>
  {
    seq(|cash|, k requires 0 <= k < |cash| => OrZero(cash[k]))
  }

  /** The value of `counts[k]` pieces of `units[k]` cents, summed over k. */
  function Value(units: seq<int>, counts: seq<int>): int
    requires |units| == |counts|
  {
    if |units| == 0 then 0
    else Value(units[..|units| - 1], counts[..|counts| - 1]) + units[|units| - 1] * counts[|counts| - 1]
  }

  /** Gross cash: the value of the counted pieces over all ten denominations. */
  function GrossCash(cash: seq<Parsed>): int
    requires |cash| == |Units|
  {
    Value(Units, Counts(cash))
  }

  /** The `forEach` loop over the denomination inputs, accumulating `brut`. */
  method CountCash(cash: seq<Parsed>) returns (brut: int)
    requires |cash| == |Units|
    ensures brut == GrossCash(cash)
  {
    brut := 0;
    var i := 0;
    while i < |cash|
      invariant 0 <= i <= |cash|
      invariant brut == Value(Units[..i], Counts(cash)[..i])
    {
      var count := OrZero(cash[i]);
      brut := brut + Units[i] * count;
      i := i + 1;
      assert Units[..i][..i - 1] == Units[..i - 1];
      assert Counts(cash)[..i][..i - 1] == Counts(cash)[..i - 1];
    }
    assert Units[..i] == Units;
    assert Counts(cash)[..i] == Counts(cash);
  }

  lemma {:induction false} ValueNonNegative(units: seq<int>, counts: seq<int>)
    requires |units| == |counts|
    requires forall k :: 0 <= k < |units| ==> units[k] > 0 && counts[k] >= 0
    ensures Value(units, counts) >= 0
  {
    if |units| > 0 {
      ValueNonNegative(units[..|units| - 1], counts[..|counts| - 1]);
    }
  }

  /** With no negative count entered, gross cash is never negative. */
  lemma GrossCashNonNegative(cash: seq<Parsed>)
    requires |cash| == |Units|
    requires forall k :: 0 <= k < |cash| ==> OrZero(cash[k]) >= 0
    ensures GrossCash(cash) >= 0
  {
    ValueNonNegative(Units, Counts(cash));
  }

  lemma {:induction false} ValueScales(units: seq<int>, scaled: seq<int>, counts: seq<int>, m: int)
    requires |units| == |scaled| == |counts|
    requires forall k :: 0 <= k < |units| ==> scaled[k] == m * units[k]
    ensures Value(scaled, counts) == m * Value(units, counts)
  {
    if |units| > 0 {
      var n := |units|;
      ValueScales(units[..n - 1], scaled[..n - 1], counts[..n - 1], m);
      assert scaled[n - 1] * counts[n - 1] == m * (units[n - 1] * counts[n - 1]);
    }
  }

  /** The smallest piece is 10 cents, so gross cash is a whole number of
      10-cent steps, whatever the counts. */
  lemma GrossCashInTenCents(cash: seq<Parsed>)
    requires |cash| == |Units|
    ensures GrossCash(cash) % 10 == 0
  {
    var tens := [1000, 500, 200, 100, 50, 20, 10, 5, 2, 1];
    ValueScales(tens, Units, Counts(cash), 10);
  }

  lemma {:induction false} ValueAddPieces(units: seq<int>, counts: seq<int>, i: nat, d: int)
    requires |units| == |counts| && i < |units|
    ensures Value(units, counts[i := counts[i] + d]) == Value(units, counts) + units[i] * d
  {
    var n := |units|;
    var counts' := counts[i := counts[i] + d];
    if i == n - 1 {
      assert counts'[..n - 1] == counts[..n - 1];
    } else {
      assert counts'[..n - 1] == counts[..n - 1][i := counts[i] + d];
      ValueAddPieces(units[..n - 1], counts[..n - 1], i, d);
    }
  }

  lemma {:induction false} ValueOfNothing(units: seq<int>, counts: seq<int>)
    requires |units| == |counts|
    requires forall k :: 0 <= k < |counts| ==> counts[k] == 0
    ensures Value(units, counts) == 0
  {
    if |units| > 0 {
      ValueOfNothing(units[..|units| - 1], counts[..|counts| - 1]);
    }
  }

  /** A drawer whose every denomination field is left empty (or unparsable)
      holds no cash. */
  lemma EmptyDrawerIsZero(cash: seq<Parsed>)
    requires |cash| == |Units|
    requires forall k :: 0 <= k < |cash| ==> cash[k].NaN?
    ensures GrossCash(cash) == 0
  {
    ValueOfNothing(Units, Counts(cash));
  }

  /** Entering `d` more pieces of denomination `i` changes gross cash by exactly
      `d` times that denomination, and leaves the other denominations' share alone. */
  lemma GrossCashAddPieces(cash: seq<Parsed>, i: nat, d: int)
    requires |cash| == |Units| && i < |Units|
    ensures GrossCash(cash[i := Num(OrZero(cash[i]) + d)]) == GrossCash(cash) + Units[i] * d
  {
    var cash' := cash[i := Num(OrZero(cash[i]) + d)];
    assert Counts(cash') == Counts(cash)[i := Counts(cash)[i] + d];
    ValueAddPieces(Units, Counts(cash), i, d);
  }
}
