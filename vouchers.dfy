/**
 * ANCV voucher entries and the two voucher totals of `refreshUI`
 * (app.js:78-79): the list is filtered by type and `val * qty` is summed.
 */
module Vouchers {
  import opened Amounts
  import Lists

  /** The two values the type radio buttons give. */
  const Paper: string := "paper"
  const Connect: string := "connect"

  /** `{val, qty, type}`: `val` is parsed without a zero fallback and may be NaN;
      `qty` has already been through `parseInt(...) || 0`. */
  datatype Voucher = Voucher(val: Parsed, qty: int, kind: string)

  /** `b.val * b.qty` */
  function LineValue(v: Voucher): Parsed
  {
    Times(v.val, v.qty)
  }

  /** `vs.filter(i => i.type === kind)` */
  function OfKind(vs: seq<Voucher>, kind: string): (r: seq<Voucher>)
    ensures |r| <= |vs|
    ensures forall k :: 0 <= k < |r| ==> r[k].kind == kind
  {
    if |vs| == 0 then []
    else
      var last := vs[|vs| - 1];
      OfKind(vs[..|vs| - 1], kind) + (if last.kind == kind then [last] else [])
  }

  /** The filter keeps exactly the entries of the given type. */
  lemma {:induction false} OfKindMembers(vs: seq<Voucher>, kind: string)
    ensures forall v :: v in OfKind(vs, kind) <==> v in vs && v.kind == kind
  {
    if |vs| > 0 {
      var init, last := vs[..|vs| - 1], vs[|vs| - 1];
      assert vs == init + [last];
      OfKindMembers(init, kind);
    }
  }

  /** `vs.reduce((a, b) => a + (b.val * b.qty), 0)` */
  function LinesTotal(vs: seq<Voucher>): Parsed
  {
    if |vs| == 0 then Num(0) else Plus(LinesTotal(vs[..|vs| - 1]), LineValue(vs[|vs| - 1]))
  }

  /** The cents of a list of voucher lines, reading an unparsed value as 0:
      the NaN-free reference for `LinesTotal`. */
  function LinesSum(vs: seq<Voucher>): int
  {
    if |vs| == 0 then 0 else LinesSum(vs[..|vs| - 1]) + OrZero(vs[|vs| - 1].val) * vs[|vs| - 1].qty
  }

  /** The reduction is NaN when some face value did not parse, and otherwise
      it is the cents of the lines. */
  lemma {:induction false} LinesTotalIsLinesSum(vs: seq<Voucher>)
    ensures LinesTotal(vs) == if exists k :: 0 <= k < |vs| && vs[k].val.NaN? then NaN else Num(LinesSum(vs))
  {
    LinesTotalNaN(vs);
    if |vs| > 0 && !exists k :: 0 <= k < |vs| && vs[k].val.NaN? {
      var init := vs[..|vs| - 1];
      assert !exists k :: 0 <= k < |init| && init[k].val.NaN? by {
        forall k | 0 <= k < |init| ensures init[k].val.Num? {
          assert init[k] == vs[k];
        }
      }
      LinesTotalIsLinesSum(init);
    }
  }

  /** The displayed total for one voucher type. */
  function KindTotal(vs: seq<Voucher>, kind: string): Parsed
  {
    LinesTotal(OfKind(vs, kind))
  }

  lemma {:induction false} OfKindConcat(a: seq<Voucher>, b: seq<Voucher>, kind: string)
    ensures OfKind(a + b, kind) == OfKind(a, kind) + OfKind(b, kind)
  {
    if |b| == 0 {
      assert a + b == a;
    } else {
      var b' := b[..|b| - 1];
      assert (a + b)[..|a + b| - 1] == a + b';
      OfKindConcat(a, b', kind);
    }
  }

  lemma {:induction false} LinesTotalConcat(a: seq<Voucher>, b: seq<Voucher>)
    ensures LinesTotal(a + b) == Plus(LinesTotal(a), LinesTotal(b))
  {
    if |b| == 0 {
      assert a + b == a;
    } else {
      var b' := b[..|b| - 1];
      assert (a + b)[..|a + b| - 1] == a + b';
      LinesTotalConcat(a, b');
      PlusLaws(LinesTotal(a), LinesTotal(b'), LineValue(b[|b| - 1]));
    }
  }

  /** Filtering a list that grows by one entry: the filtered list grows by
      that entry when it has the type, and not otherwise. */
  lemma OfKindAppend(vs: seq<Voucher>, v: Voucher, kind: string)
    ensures OfKind(vs + [v], kind) == OfKind(vs, kind) + (if v.kind == kind then [v] else [])
  {
    assert (vs + [v])[..|vs|] == vs;
  }

  lemma LinesTotalAppend(vs: seq<Voucher>, v: Voucher)
    ensures LinesTotal(vs + [v]) == Plus(LinesTotal(vs), LineValue(v))
  {
    assert (vs + [v])[..|vs|] == vs;
  }

  /** When every entry is paper or connect, the two type totals together are
      the value of the whole list: no voucher is lost or counted twice. */
  lemma {:induction false} KindTotalsPartition(vs: seq<Voucher>)
    requires forall k :: 0 <= k < |vs| ==> vs[k].kind == Paper || vs[k].kind == Connect
    ensures Plus(KindTotal(vs, Paper), KindTotal(vs, Connect)) == LinesTotal(vs)
  {
    if |vs| > 0 {
      var init, last := vs[..|vs| - 1], vs[|vs| - 1];
      assert vs == init + [last];
      assert Paper != Connect by { assert Paper[0] != Connect[0]; }
      KindTotalsPartition(init);
      AppendKindTotal(init, last, Paper);
      AppendKindTotal(init, last, Connect);
      LinesTotalAppend(init, last);
      var p, c, w := KindTotal(init, Paper), KindTotal(init, Connect), LineValue(last);
      PlusLaws(p, w, c);
      PlusLaws(w, c, p);
      PlusLaws(p, c, w);
    }
  }

  /** A list's value is NaN exactly when one of its entries has an unparsable value. */
  lemma {:induction false} LinesTotalNaN(vs: seq<Voucher>)
    ensures LinesTotal(vs).NaN? <==> exists k :: 0 <= k < |vs| && vs[k].val.NaN?
  {
    if |vs| > 0 {
      var init := vs[..|vs| - 1];
      LinesTotalNaN(init);
      if exists k :: 0 <= k < |init| && init[k].val.NaN? {
        var k :| 0 <= k < |init| && init[k].val.NaN?;
        assert vs[k].val.NaN?;
      }
      if exists k :: 0 <= k < |vs| && vs[k].val.NaN? {
        var k :| 0 <= k < |vs| && vs[k].val.NaN?;
        if k < |init| {
          assert init[k].val.NaN?;
        }
      }
    }
  }

  /** One type's total is NaN exactly when an entry of that type has an
      unparsable value; entries of the other type cannot spoil it. */
  lemma KindTotalNaN(vs: seq<Voucher>, kind: string)
    ensures KindTotal(vs, kind).NaN? <==> exists k :: 0 <= k < |vs| && vs[k].kind == kind && vs[k].val.NaN?
  {
    var r := OfKind(vs, kind);
    OfKindMembers(vs, kind);
    LinesTotalNaN(r);
    if exists k :: 0 <= k < |r| && r[k].val.NaN? {
      var k :| 0 <= k < |r| && r[k].val.NaN?;
      assert r[k] in vs;
      var j :| 0 <= j < |vs| && vs[j] == r[k];
      assert vs[j].kind == kind && vs[j].val.NaN?;
    }
    if exists k :: 0 <= k < |vs| && vs[k].kind == kind && vs[k].val.NaN? {
      var k :| 0 <= k < |vs| && vs[k].kind == kind && vs[k].val.NaN?;
      assert vs[k] in r;
      var j :| 0 <= j < |r| && r[j] == vs[k];
      assert r[j].val.NaN?;
    }
  }

  /** Vouchers of non-negative face value in positive quantities total a
      non-negative number of cents. */
  lemma {:induction false} LinesTotalNonNegative(vs: seq<Voucher>)
    requires forall k :: 0 <= k < |vs| ==> vs[k].val.Num? && vs[k].val.n >= 0 && vs[k].qty > 0
    ensures LinesTotal(vs).Num? && LinesTotal(vs).n >= 0
  {
    if |vs| > 0 {
      var last := vs[|vs| - 1];
      LinesTotalNonNegative(vs[..|vs| - 1]);
      assert last.val.n * last.qty >= 0;
    }
  }

  /** The same for the total of one type: the filter keeps only entries of
      the list, so their face values and quantities qualify too. */
  lemma KindTotalNonNegative(vs: seq<Voucher>, kind: string)
    requires forall k :: 0 <= k < |vs| ==> vs[k].val.Num? && vs[k].val.n >= 0 && vs[k].qty > 0
    ensures KindTotal(vs, kind).Num? && KindTotal(vs, kind).n >= 0
  {
    var r := OfKind(vs, kind);
    OfKindMembers(vs, kind);
    forall j | 0 <= j < |r| ensures r[j].val.Num? && r[j].val.n >= 0 && r[j].qty > 0 {
      assert r[j] in vs;
    }
    LinesTotalNonNegative(r);
  }

  /** What `addAncv` does to a type total: an entry of that type adds its
      `val * qty`, an entry of another type leaves it alone. */
  lemma AppendKindTotal(vs: seq<Voucher>, v: Voucher, kind: string)
    ensures KindTotal(vs + [v], kind)
         == if v.kind == kind then Plus(KindTotal(vs, kind), LineValue(v)) else KindTotal(vs, kind)
  {
    OfKindAppend(vs, v, kind);
    if v.kind == kind {
      LinesTotalAppend(OfKind(vs, kind), v);
    } else {
      assert OfKind(vs + [v], kind) == OfKind(vs, kind);
    }
  }

  /** What `removeAncv` does to a type total: adding the removed entry's value
      back (when it has that type) gives the old total. */
  lemma RemoveKindTotal(vs: seq<Voucher>, i: nat, kind: string)
    requires i < |vs|
    ensures Plus(KindTotal(Lists.RemoveAt(vs, i), kind), if vs[i].kind == kind then LineValue(vs[i]) else Num(0))
         == KindTotal(vs, kind)
  {
    var a, v, b := vs[..i], vs[i], vs[i + 1..];
    assert vs == a + [v] + b;
    assert Lists.RemoveAt(vs, i) == a + b;
    OfKindConcat(a + [v], b, kind);
    OfKindConcat(a, [v], kind);
    OfKindConcat(a, b, kind);
    var fa, fv, fb := OfKind(a, kind), OfKind([v], kind), OfKind(b, kind);
    assert fv == if v.kind == kind then [v] else [];
    LinesTotalConcat(fa + fv, fb);
    LinesTotalConcat(fa, fv);
    LinesTotalConcat(fa, fb);
    var ta, tv, tb := LinesTotal(fa), LinesTotal(fv), LinesTotal(fb);
    assert LinesTotal([v]) == Plus(Num(0), LineValue(v));
    PlusLaws(LineValue(v), Num(0), Num(0));
    assert tv == if v.kind == kind then LineValue(v) else Num(0);
    PlusLaws(ta, tb, tv);
    PlusLaws(ta, tv, tb);
    PlusLaws(tb, tv, ta);
  }
}
