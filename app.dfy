/**
 * `app.state`: the three payment lists the page grows with its "add"
 * buttons and shrinks with the per-line delete buttons (app.js:7-11,
 * app.js:44-62), and the `refreshUI` pass over them.
 */
module App {
  import opened Amounts
  import opened Lists
  import opened Vouchers
  import opened Cash
  import opened Totals

  class PaymentState {
    var ancv: seq<Voucher>
    var checks: seq<int>
    var mypos: seq<int>

    /** What the add guards keep true: every voucher line has a positive
        quantity, every cheque and MyPOS amount is positive. */
    ghost predicate Valid()
      reads this
    {
      && (forall k :: 0 <= k < |ancv| ==> ancv[k].qty > 0)
      && (forall k :: 0 <= k < |checks| ==> checks[k] > 0)
      && (forall k :: 0 <= k < |mypos| ==> mypos[k] > 0)
    }

    /** `state: { ancv: [], checks: [], mypos: [] }` */
    constructor ()
      ensures Valid()
      ensures ancv == [] && checks == [] && mypos == []
    {
      ancv, checks, mypos := [], [], [];
    }

    /** `addAncv`: the quantity goes through `parseInt(...) || 0`, the face
        value is kept as parsed; the entry is appended only for a positive
        quantity. `added` tells whether the page clears the quantity field
        and refreshes. */
    method AddAncv(val: Parsed, qty: Parsed, kind: string) returns (added: bool)
      requires Valid()
      modifies this
      ensures Valid()
      ensures added <==> OrZero(qty) > 0
      ensures ancv == if added then old(ancv) + [Voucher(val, OrZero(qty), kind)] else old(ancv)
      ensures checks == old(checks) && mypos == old(mypos)
    {
      var q := OrZero(qty);
      added := q > 0;
      if added {
        ancv := ancv + [Voucher(val, q, kind)];
      }
    }

    /** `removeAncv`: `ancv.splice(idx, 1)`. */
    method RemoveAncv(idx: int)
      requires Valid()
      modifies this
      ensures Valid()
      ensures ancv == SpliceOne(old(ancv), idx)
      ensures checks == old(checks) && mypos == old(mypos)
    {
      SpliceOneKeeps(ancv, idx);
      ancv := SpliceOne(ancv, idx);
    }

    /** `addCheck`: the amount goes through `parseFloat(...) || 0` and is
        appended only when positive. */
    method AddCheck(amt: Parsed) returns (added: bool)
      requires Valid()
      modifies this
      ensures Valid()
      ensures added <==> OrZero(amt) > 0
      ensures checks == if added then old(checks) + [OrZero(amt)] else old(checks)
      ensures ancv == old(ancv) && mypos == old(mypos)
    {
      var a := OrZero(amt);
      added := a > 0;
      if added {
        checks := checks + [a];
      }
    }

    /** `removeCheck`: `checks.splice(idx, 1)`. */
    method RemoveCheck(idx: int)
      requires Valid()
      modifies this
      ensures Valid()
      ensures checks == SpliceOne(old(checks), idx)
      ensures ancv == old(ancv) && mypos == old(mypos)
    {
      SpliceOneKeeps(checks, idx);
      checks := SpliceOne(checks, idx);
    }

    /** `addMyPos`: the amount goes through `parseFloat(...) || 0` and is
        appended only when positive. */
    method AddMyPos(amt: Parsed) returns (added: bool)
      requires Valid()
      modifies this
      ensures Valid()
      ensures added <==> OrZero(amt) > 0
      ensures mypos == if added then old(mypos) + [OrZero(amt)] else old(mypos)
      ensures ancv == old(ancv) && checks == old(checks)
    {
      var a := OrZero(amt);
      added := a > 0;
      if added {
        mypos := mypos + [a];
      }
    }

    /** `removeMyPos`: `mypos.splice(idx, 1)`. */
    method RemoveMyPos(idx: int)
      requires Valid()
      modifies this
      ensures Valid()
      ensures mypos == SpliceOne(old(mypos), idx)
      ensures ancv == old(ancv) && checks == old(checks)
    {
      SpliceOneKeeps(mypos, idx);
      mypos := SpliceOne(mypos, idx);
    }

    /** `refreshUI`: the subtotals for the current lists and form readings,
        with gross cash accumulated input by input. */
    method RefreshUI(f: Form) returns (d: Display)
      requires WellFormed(f)
      ensures d == Compute(ancv, checks, mypos, f)
      ensures Valid() ==> d.checks >= |checks| && d.mypos >= |mypos|
      ensures Valid() ==> (d.checks == 0 <==> checks == []) && (d.mypos == 0 <==> mypos == [])
      ensures Valid() && (forall k :: 0 <= k < |ancv| ==> ancv[k].val.Num? && ancv[k].val.n >= 0)
              ==> d.ancvPaper.Num? && d.ancvPaper.n >= 0 && d.ancvConnect.Num? && d.ancvConnect.n >= 0
    {
      if Valid() {
        ListTotalsPositive(ancv, checks, mypos, f);
        if forall k :: 0 <= k < |ancv| ==> ancv[k].val.Num? && ancv[k].val.n >= 0 {
          KindTotalNonNegative(ancv, Paper);
          KindTotalNonNegative(ancv, Connect);
        }
      }
      var brut := CountCash(f.cash);
      var offset := OrZero(f.cashOffset);
      d := Display(
        CardTotal(f.cbContact, f.cbContactless),
        CardTotal(f.trContact, f.trContactless),
        CardTotal(f.amexContact, f.amexContactless),
        brut, brut - offset,
        KindTotal(ancv, Paper), KindTotal(ancv, Connect),
        Sum(checks), Sum(mypos));
    }
  }

  /** A client of the class: after adding a cheque of 12.50 and a MyPOS sale
      of 8.00 to an empty state, the two list totals are exactly those amounts,
      and an attempt with an unparsable quantity adds nothing. */
  method AddThenRefresh(f: Form) returns (d: Display)
    requires WellFormed(f)
    ensures d.checks == 1250 && d.mypos == 800
    ensures d.ancvPaper == Num(0) && d.ancvConnect == Num(0)
  {
    var s := new PaymentState();
    var ok := s.AddCheck(Num(1250));
    ok := s.AddMyPos(Num(800));
    ok := s.AddAncv(Num(1000), NaN, Paper);
    assert s.ancv == [];
    assert s.checks == [1250] && s.mypos == [800];
    assert Sum([1250]) == 1250 by { assert [1250][..0] == []; }
    assert Sum([800]) == 800 by { assert [800][..0] == []; }
    d := s.RefreshUI(f);
  }
}
