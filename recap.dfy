/**
 * The balance check of `openRecap` (app.js:105-163): the physical takings
 * are compared with the till software's VAT breakdown, and only a balanced
 * recap offers to archive the day.
 */
module Recap {
  import opened Amounts
  import opened Lists
  import opened Vouchers
  import opened Cash
  import opened Totals

  /** The accepted rounding gap, 0.05 euros. */
  const Tolerance: int := 5

  /** The acceptance rule: the two totals differ by less than the tolerance. */
  predicate WithinTolerance(physical: int, declared: int)
  {
    Abs(physical - declared) < Tolerance
  }

  /** `currentData`, the record that would be sent to the spreadsheet. */
  datatype Snapshot = Snapshot(
    cb: int, tr: int, mypos: int, amex: int,
    cashNet: int, ancvPaper: int, ancvConnect: int, checks: int,
    totalReal: int, posCash: int, deltaCash: int, pizzas: int,
    tva5: int, tva10: int, tva20: int)

  /** A balanced recap shows the archive button; an unbalanced one shows the
      signed gap and a disabled button. */
  datatype Verdict = Balanced | Mismatch(gap: int)

  datatype RecapView = RecapView(data: Snapshot, softwareTotal: int, verdict: Verdict)

  /** `openRecap`: subtotals are read back from the page with `parseFloat(...) || 0`,
      the field readings with the same fallback. */
  function OpenRecap(d: Display, f: Form): (r: RecapView)
    ensures r.verdict.Balanced? <==> WithinTolerance(r.data.totalReal, r.softwareTotal)
    ensures r.verdict.Mismatch? ==> r.verdict.gap == r.data.totalReal - r.softwareTotal
    ensures r.data.deltaCash == r.data.cashNet - r.data.posCash
    ensures r.data.cb == d.cb && r.data.tr == d.tr && r.data.amex == d.amex
    ensures r.data.mypos == d.mypos && r.data.checks == d.checks && r.data.cashNet == d.cashNet
    ensures r.data.ancvPaper == OrZero(d.ancvPaper) && r.data.ancvConnect == OrZero(d.ancvConnect)
    ensures r.data.totalReal
         == d.cb + d.tr + d.mypos + d.amex + d.cashNet + OrZero(d.ancvPaper) + OrZero(d.ancvConnect) + d.checks
    ensures r.data.posCash == OrZero(f.posCash) && r.data.pizzas == OrZero(f.posPizzas)
    ensures r.data.tva5 == OrZero(f.tva5) && r.data.tva10 == OrZero(f.tva10) && r.data.tva20 == OrZero(f.tva20)
    ensures r.softwareTotal == r.data.tva5 + r.data.tva10 + r.data.tva20
  {
    var paper, connect := OrZero(d.ancvPaper), OrZero(d.ancvConnect);
    var physical := d.cb + d.tr + d.mypos + d.amex + d.cashNet + paper + connect + d.checks;
    var posCash := OrZero(f.posCash);
    var tva5, tva10, tva20 := OrZero(f.tva5), OrZero(f.tva10), OrZero(f.tva20);
    var declared := tva5 + tva10 + tva20;
    var data := Snapshot(
      d.cb, d.tr, d.mypos, d.amex,
      d.cashNet, paper, connect, d.checks,
      physical, posCash, d.cashNet - posCash, OrZero(f.posPizzas),
      tva5, tva10, tva20);
    var gap := physical - declared;
    RecapView(data, declared, if Abs(gap) < Tolerance then Balanced else Mismatch(gap))
  }

  /** The recap of the page as `refreshUI` left it. */
  function RecapOf(ancv: seq<Voucher>, checks: seq<int>, mypos: seq<int>, f: Form): RecapView
    requires WellFormed(f)
  {
    OpenRecap(Compute(ancv, checks, mypos, f), f)
  }

  /** With every voucher parsed and typed paper or connect, the physical total
      counts every payment entered exactly once: the three card schemes, net
      cash, every voucher line, every cheque and every MyPOS sale; and the
      software total is the sum of the three VAT buckets. */
  lemma PhysicalTotalCountsEveryPayment(ancv: seq<Voucher>, checks: seq<int>, mypos: seq<int>, f: Form)
    requires WellFormed(f)
    requires forall k :: 0 <= k < |ancv| ==> ancv[k].val.Num?
    requires forall k :: 0 <= k < |ancv| ==> ancv[k].kind == Paper || ancv[k].kind == Connect
    ensures LinesTotal(ancv).Num?
    ensures RecapOf(ancv, checks, mypos, f).data.totalReal
         == CardTotal(f.cbContact, f.cbContactless) + CardTotal(f.trContact, f.trContactless)
          + CardTotal(f.amexContact, f.amexContactless)
          + GrossCash(f.cash) - OrZero(f.cashOffset)
          + LinesTotal(ancv).n + Sum(checks) + Sum(mypos)
    ensures RecapOf(ancv, checks, mypos, f).softwareTotal == OrZero(f.tva5) + OrZero(f.tva10) + OrZero(f.tva20)
  {
    LinesTotalNaN(ancv);
    KindTotalsPartition(ancv);
    KindTotalNaN(ancv, Paper);
    KindTotalNaN(ancv, Connect);
  }

  /** What one voucher type adds to the physical total: nothing at all once
      one of its face values did not parse, otherwise the cents of its lines. */
  function VoucherShare(ancv: seq<Voucher>, kind: string): int
  {
    if exists k :: 0 <= k < |ancv| && ancv[k].kind == kind && ancv[k].val.NaN? then 0
    else LinesSum(OfKind(ancv, kind))
  }

  /** For any payment lists, parsed or not, the physical total is the three
      card schemes, net cash, each voucher type's share, every cheque and
      every MyPOS sale. */
  lemma PhysicalTotalInGeneral(ancv: seq<Voucher>, checks: seq<int>, mypos: seq<int>, f: Form)
    requires WellFormed(f)
    ensures RecapOf(ancv, checks, mypos, f).data.totalReal
         == CardTotal(f.cbContact, f.cbContactless) + CardTotal(f.trContact, f.trContactless)
          + CardTotal(f.amexContact, f.amexContactless)
          + GrossCash(f.cash) - OrZero(f.cashOffset)
          + VoucherShare(ancv, Paper) + VoucherShare(ancv, Connect) + Sum(checks) + Sum(mypos)
  {
    KindShare(ancv, Paper);
    KindShare(ancv, Connect);
  }

  lemma KindShare(ancv: seq<Voucher>, kind: string)
    ensures OrZero(KindTotal(ancv, kind)) == VoucherShare(ancv, kind)
  {
    KindTotalNaN(ancv, kind);
    LinesTotalIsLinesSum(OfKind(ancv, kind));
  }

  /** The cash gap recorded for the till is the counted cash, less the float,
      less the cash the till software declares. */
  lemma DeltaCashIsCountedLessTill(ancv: seq<Voucher>, checks: seq<int>, mypos: seq<int>, f: Form)
    requires WellFormed(f)
    ensures RecapOf(ancv, checks, mypos, f).data.deltaCash
         == GrossCash(f.cash) - OrZero(f.cashOffset) - OrZero(f.posCash)
  {
  }

  /** A voucher of one type whose face value did not parse turns that type's
      displayed total into NaN, which the recap reads back as 0: every voucher
      of that type drops out of the physical total. */
  lemma UnparsedVoucherDropsItsType(ancv: seq<Voucher>, checks: seq<int>, mypos: seq<int>, f: Form, i: nat)
    requires WellFormed(f) && i < |ancv| && ancv[i].val.NaN?
    ensures ancv[i].kind == Paper ==> RecapOf(ancv, checks, mypos, f).data.ancvPaper == 0
    ensures ancv[i].kind == Connect ==> RecapOf(ancv, checks, mypos, f).data.ancvConnect == 0
  {
    KindTotalNaN(ancv, Paper);
    KindTotalNaN(ancv, Connect);
  }

  /** The till's declared cash and the pizza counter are recorded but do not
      take part in the balance check. */
  lemma VerdictIgnoresTillFields(d: Display, f: Form, posCash: Parsed, pizzas: Parsed)
    ensures OpenRecap(d, f.(posCash := posCash, posPizzas := pizzas)).verdict == OpenRecap(d, f).verdict
  {
  }

  /** The rule in both directions of the gap. */
  lemma WithinToleranceIsSymmetric(physical: int, declared: int)
    ensures WithinTolerance(physical, declared) <==> WithinTolerance(declared, physical)
    ensures WithinTolerance(physical, declared) <==> -Tolerance < physical - declared < Tolerance
  {
  }

  /** Two worked cases: 512.40 against 512.37 balances; 512.40 against 510.00
      shows a gap of 2.40 and no archive button. */
  lemma WorkedCases()
    ensures WithinTolerance(51240, 51237)
    ensures !WithinTolerance(51240, 51000)
  {
  }
}
