/**
 * The subtotals `refreshUI` writes to the page (app.js:65-90), as a pure
 * function of the payment lists and of the form's field readings.
 */
module Totals {
  import opened Amounts
  import opened Lists
  import opened Vouchers
  import opened Cash

  /** The readings of the form's numeric fields, in cents (counts for the
      denomination inputs and for the pizza counter). */
  datatype Form = Form(
    cbContact: Parsed, cbContactless: Parsed,
    trContact: Parsed, trContactless: Parsed,
    amexContact: Parsed, amexContactless: Parsed,
    cashOffset: Parsed,
    cash: seq<Parsed>,
    posCash: Parsed, posPizzas: Parsed,
    tva5: Parsed, tva10: Parsed, tva20: Parsed)

  /** The page renders exactly one input per denomination. */
  predicate WellFormed(f: Form)
  {
    |f.cash| == |Units|
  }

  /** The subtotals shown on the page. Only the voucher totals can be NaN:
      every other reading goes through `|| 0`. */
  datatype Display = Display(
    cb: int, tr: int, amex: int,
    cashGross: int, cashNet: int,
    ancvPaper: Parsed, ancvConnect: Parsed,
    checks: int, mypos: int)

  /** `getSum(id1, id2)`: a card scheme's contact plus contactless takings. */
  function CardTotal(contact: Parsed, contactless: Parsed): int
  {
    OrZero(contact) + OrZero(contactless)
  }

  /** An empty or unparsable card field weighs exactly as a typed 0. */
  lemma CardTotalMissingIsZero(contact: Parsed, contactless: Parsed)
    ensures CardTotal(NaN, contactless) == CardTotal(Num(0), contactless)
    ensures CardTotal(contact, NaN) == CardTotal(contact, Num(0))
    ensures CardTotal(NaN, NaN) == 0
  {
  }

  /** Everything `refreshUI` computes. */
  function Compute(ancv: seq<Voucher>, checks: seq<int>, mypos: seq<int>, f: Form): Display
    requires WellFormed(f)
  {
    var brut := GrossCash(f.cash);
    Display(
      CardTotal(f.cbContact, f.cbContactless),
      CardTotal(f.trContact, f.trContactless),
      CardTotal(f.amexContact, f.amexContactless),
      brut, brut - OrZero(f.cashOffset),
      KindTotal(ancv, Paper), KindTotal(ancv, Connect),
      Sum(checks), Sum(mypos))
  }

  /** Net cash is gross cash less the float; with the float field empty it is
      gross cash itself. */
  lemma NetCashIsGrossLessFloat(ancv: seq<Voucher>, checks: seq<int>, mypos: seq<int>, f: Form)
    requires WellFormed(f)
    ensures Compute(ancv, checks, mypos, f).cashNet == GrossCash(f.cash) - OrZero(f.cashOffset)
    ensures f.cashOffset.NaN? ==> Compute(ancv, checks, mypos, f).cashNet == Compute(ancv, checks, mypos, f).cashGross
  {
  }

  /** Appending a cheque of `a` cents raises the cheque total by `a`; no other
      subtotal moves. */
  lemma AddCheckShift(ancv: seq<Voucher>, checks: seq<int>, mypos: seq<int>, f: Form, a: int)
    requires WellFormed(f)
    ensures var d := Compute(ancv, checks, mypos, f);
            Compute(ancv, checks + [a], mypos, f) == d.(checks := d.checks + a)
  {
    SumAppend(checks, a);
  }

  /** Removing cheque `i` lowers the cheque total by that cheque; no other
      subtotal moves. */
  lemma RemoveCheckShift(ancv: seq<Voucher>, checks: seq<int>, mypos: seq<int>, f: Form, i: nat)
    requires WellFormed(f) && i < |checks|
    ensures var d := Compute(ancv, checks, mypos, f);
            Compute(ancv, RemoveAt(checks, i), mypos, f) == d.(checks := d.checks - checks[i])
  {
    RemoveAtSum(checks, i);
  }

  /** Appending a MyPOS sale of `a` cents raises the MyPOS total by `a`; no
      other subtotal moves. */
  lemma AddMyPosShift(ancv: seq<Voucher>, checks: seq<int>, mypos: seq<int>, f: Form, a: int)
    requires WellFormed(f)
    ensures var d := Compute(ancv, checks, mypos, f);
            Compute(ancv, checks, mypos + [a], f) == d.(mypos := d.mypos + a)
  {
    SumAppend(mypos, a);
  }

  /** Removing MyPOS sale `i` lowers the MyPOS total by that sale; no other
      subtotal moves. */
  lemma RemoveMyPosShift(ancv: seq<Voucher>, checks: seq<int>, mypos: seq<int>, f: Form, i: nat)
    requires WellFormed(f) && i < |mypos|
    ensures var d := Compute(ancv, checks, mypos, f);
            Compute(ancv, checks, RemoveAt(mypos, i), f) == d.(mypos := d.mypos - mypos[i])
  {
    RemoveAtSum(mypos, i);
  }

  /** Appending a voucher entry adds its `val * qty` to the total of its own
      type only. */
  lemma AddAncvShift(ancv: seq<Voucher>, checks: seq<int>, mypos: seq<int>, f: Form, v: Voucher)
    requires WellFormed(f)
    ensures var d := Compute(ancv, checks, mypos, f);
            Compute(ancv + [v], checks, mypos, f)
            == d.(ancvPaper := if v.kind == Paper then Plus(d.ancvPaper, LineValue(v)) else d.ancvPaper,
                  ancvConnect := if v.kind == Connect then Plus(d.ancvConnect, LineValue(v)) else d.ancvConnect)
  {
    AppendKindTotal(ancv, v, Paper);
    AppendKindTotal(ancv, v, Connect);
  }

  /** The voucher list feeds the two voucher totals and nothing else. */
  lemma OnlyVoucherTotalsDependOnVouchers(a: seq<Voucher>, b: seq<Voucher>, checks: seq<int>, mypos: seq<int>, f: Form)
    requires WellFormed(f)
    ensures var d, d' := Compute(a, checks, mypos, f), Compute(b, checks, mypos, f);
            d'.(ancvPaper := d.ancvPaper, ancvConnect := d.ancvConnect) == d
  {
  }

  /** Removing voucher entry `i` takes its `val * qty` out of the total of its
      own type only: putting it back gives the old total. */
  lemma RemoveAncvShift(ancv: seq<Voucher>, checks: seq<int>, mypos: seq<int>, f: Form, i: nat)
    requires WellFormed(f) && i < |ancv|
    ensures var d, d' := Compute(ancv, checks, mypos, f), Compute(RemoveAt(ancv, i), checks, mypos, f);
            d'.(ancvPaper := d.ancvPaper, ancvConnect := d.ancvConnect) == d
    ensures var d, d' := Compute(ancv, checks, mypos, f), Compute(RemoveAt(ancv, i), checks, mypos, f);
            && Plus(d'.ancvPaper, if ancv[i].kind == Paper then LineValue(ancv[i]) else Num(0)) == d.ancvPaper
            && Plus(d'.ancvConnect, if ancv[i].kind == Connect then LineValue(ancv[i]) else Num(0)) == d.ancvConnect
  {
    var rest := RemoveAt(ancv, i);
    OnlyVoucherTotalsDependOnVouchers(ancv, rest, checks, mypos, f);
    var d, d' := Compute(ancv, checks, mypos, f), Compute(rest, checks, mypos, f);
    assert d'.ancvPaper == KindTotal(rest, Paper) && d.ancvPaper == KindTotal(ancv, Paper);
    assert d'.ancvConnect == KindTotal(rest, Connect) && d.ancvConnect == KindTotal(ancv, Connect);
    RemoveKindTotal(ancv, i, Paper);
    RemoveKindTotal(ancv, i, Connect);
  }

  /** Cheques and MyPOS sales are added only when positive, so their totals are
      at least one cent per entry, and zero only for an empty list. */
  lemma ListTotalsPositive(ancv: seq<Voucher>, checks: seq<int>, mypos: seq<int>, f: Form)
    requires WellFormed(f)
    requires forall k :: 0 <= k < |checks| ==> checks[k] > 0
    requires forall k :: 0 <= k < |mypos| ==> mypos[k] > 0
    ensures Compute(ancv, checks, mypos, f).checks >= |checks|
    ensures Compute(ancv, checks, mypos, f).mypos >= |mypos|
    ensures Compute(ancv, checks, mypos, f).checks == 0 <==> checks == []
    ensures Compute(ancv, checks, mypos, f).mypos == 0 <==> mypos == []
  {
    SumOfPositives(checks);
    SumOfPositives(mypos);
  }
}
