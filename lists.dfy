/**
 * Sequence operations the page applies to its payment lists: the
 * `reduce((a, b) => a + b, 0)` sum and `Array.prototype.splice(idx, 1)`.
 */
module Lists {

  /** `s.reduce((a, b) => a + b, 0)`: a left fold, so it peels the last element. */
  function Sum(s: seq<int>): int
  {
    if |s| == 0 then 0 else Sum(s[..|s| - 1]) + s[|s| - 1]
  }

  /** Summing is additive over concatenation. */
  lemma {:induction false} SumConcat(a: seq<int>, b: seq<int>)
    ensures Sum(a + b) == Sum(a) + Sum(b)
  {
    if |b| == 0 {
      assert a + b == a;
    } else {
      var b' := b[..|b| - 1];
      assert (a + b)[..|a + b| - 1] == a + b';
      SumConcat(a, b');
    }
  }

  /** Appending an amount raises the sum by exactly that amount. */
  lemma SumAppend(s: seq<int>, x: int)
    ensures Sum(s + [x]) == Sum(s) + x
  {
    assert (s + [x])[..|s|] == s;
  }

  /** A list of strictly positive amounts sums to at least its length, so it sums
      to zero exactly when it is empty. */
  lemma {:induction false} SumOfPositives(s: seq<int>)
    requires forall k :: 0 <= k < |s| ==> s[k] > 0
    ensures Sum(s) >= |s|
    ensures Sum(s) == 0 <==> s == []
  {
    if |s| > 0 {
      SumOfPositives(s[..|s| - 1]);
    }
  }

  /** The list without its element at `i`; what `splice(i, 1)` leaves for an
      index within the list. */
  function RemoveAt<T>(s: seq<T>, i: nat): (r: seq<T>)
    requires i < |s|
    ensures |r| == |s| - 1
    ensures forall k :: 0 <= k < i ==> r[k] == s[k]
    ensures forall k :: i <= k < |r| ==> r[k] == s[k + 1]
    ensures multiset(r) + multiset{s[i]} == multiset(s)
  {
    assert s == s[..i] + [s[i]] + s[i + 1..];
    s[..i] + s[i + 1..]
  }

  /** Removing the element at `i` lowers the sum by exactly that element. */
  lemma {:induction false} RemoveAtSum(s: seq<int>, i: nat)
    requires i < |s|
    ensures Sum(RemoveAt(s, i)) == Sum(s) - s[i]
  {
    var n := |s|;
    if i < n - 1 {
      var init := s[..n - 1];
      RemoveAtSum(init, i);
      var r := RemoveAt(s, i);
      assert r[..|r| - 1] == RemoveAt(init, i);
    } else {
      assert RemoveAt(s, i) == s[..n - 1];
    }
  }

  /** The position `splice` starts at: a negative index counts back from the
      end (clamped to 0), a large one is clamped to the length. */
  function SpliceStart(len: nat, idx: int): nat
  {
    if idx < 0 then (if len + idx < 0 then 0 else len + idx)
    else if idx > len then len
    else idx
  }

  /** `s.splice(idx, 1)`: removes one element, or nothing when `idx` is past the end. */
  function SpliceOne<T>(s: seq<T>, idx: int): (r: seq<T>)
    ensures 0 <= idx < |s| ==> r == RemoveAt(s, idx)
    ensures idx >= |s| ==> r == s
    ensures -|s| <= idx < 0 ==> r == RemoveAt(s, |s| + idx)
    ensures idx < -|s| ==> r == (if s == [] then s else RemoveAt(s, 0))
  {
    var k := SpliceStart(|s|, idx);
    if k < |s| then RemoveAt(s, k) else s
  }

  /** Whatever the index, `splice(idx, 1)` keeps only elements already in the list. */
  lemma SpliceOneKeeps<T>(s: seq<T>, idx: int)
    ensures multiset(SpliceOne(s, idx)) <= multiset(s)
    ensures forall x :: x in SpliceOne(s, idx) ==> x in s
  {
    var k := SpliceStart(|s|, idx);
    if k < |s| {
      assert multiset(RemoveAt(s, k)) + multiset{s[k]} == multiset(s);
      forall x | x in SpliceOne(s, idx) ensures x in s {
        assert x in multiset(SpliceOne(s, idx));
      }
    }
  }
}
