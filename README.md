# Caisse Dolus: end-of-shift cash reconciliation, modelled in Dafny

Caisse Dolus is a one-page point-of-sale reconciliation form. At the end of a shift the
cashier enters the takings of every payment channel:

- two card schemes (CB, Amex) and meal vouchers (TR), each as contact plus contactless;
- ANCV holiday vouchers as lines `{val, qty, type}`, where the type is `paper` or `connect`;
- individual cheques and individual MyPOS sales;
- a count of the cash drawer over ten denominations, less a cash float.

The page keeps its subtotals up to date (`refreshUI`). On request it compares the physical
takings with the VAT breakdown typed in from the till software (`openRecap`). It offers to
archive the day only when the two differ by less than 0.05 euros.

The model covers the logic in `app.js`:

- `app.state` is a class (`App.PaymentState`) with three `seq` fields. Its add methods are guarded and its remove methods follow `splice` exactly. Each method says exactly what its list becomes and that the other two lists do not change. `Valid()` is the invariant the add guards keep: positive quantities and positive amounts.
- The subtotals of `refreshUI` are the pure function `Totals.Compute`. It is built from the reductions in `Lists` (cheque and MyPOS sums), `Vouchers` (the filtered voucher totals) and `Cash` (gross cash). `App.PaymentState.RefreshUI` is the `refreshUI` pass itself. It runs the accumulation loop `Cash.CountCash`, which is proved against `Cash.GrossCash`.
- The balance check of `openRecap` is the function `Recap.OpenRecap`. It returns the record prepared for submission (`Snapshot`), the software (VAT) total, and a `Verdict`. The verdict is either `Balanced` (the archive button is offered) or `Mismatch(gap)` (the signed gap is shown and the button is disabled).

Conventions:

- Every amount is an integer number of cents. The denominations are 10000, 5000, 2000, 1000, 500, 200, 100, 50, 20 and 10 cents. The tolerance is 5 cents.
- Because cents are exact, the `toFixed(2)` display followed by its read-back with `parseFloat` is the identity. The only exception is NaN, which is described next.
- A field's reading is `Amounts.Parsed`: either `Num(n)` or `NaN`, which is what `parseFloat` and `parseInt` return. `Amounts.OrZero` is the `|| 0` fallback.
- The ANCV face value is parsed without that fallback (app.js:45). An entry whose value did not parse therefore makes its type's total NaN (the reduce at app.js:78-79). The page then shows "NaN", and `openRecap` reads that back as 0 (app.js:106). As a result, every voucher of that type drops out of the physical total. The model keeps this behaviour (`Vouchers.KindTotalNaN`, `Recap.UnparsedVoucherDropsItsType`).

Behaviour of the code worth noting:

- `splice(idx, 1)` removes the element at `idx` when it is within the list, does nothing for an index past the end, and counts a negative index back from the end (`Lists.SpliceOne`).
- The gap shown for an unbalanced recap is signed: `totalPhysique - tvaTotal` (app.js:147).
- Net cash is gross cash less the float (app.js:74-76). An empty float field counts as 0, and net cash may be negative.
- The physical total includes MyPOS and Amex (app.js:110-111). The voucher types are `paper` and `connect`.

## Model

| member | source | states |
|---|---|---|
| Amounts.OrZero | app.js:45-46 | definition: the `parse(...) \|\| 0` fallback, a NaN reading weighs 0 |
| Amounts.Plus | app.js:78-79 | definition: JavaScript `+` on numbers, NaN on either side gives NaN; its laws are `Amounts.PlusLaws` |
| Amounts.Times | app.js:78-79 | definition: JavaScript `val * qty` with an integer quantity, NaN stays NaN |
| Lists.Sum | app.js:80-81 | definition: `reduce((a, b) => a + b, 0)` as a left fold; its laws are `Lists.SumConcat`, `Lists.SumAppend`, `Lists.RemoveAtSum` |
| Amounts.PlusLaws | app.js:78-79 | JavaScript addition on possibly-NaN numbers is commutative and associative, has 0 as its unit, and NaN absorbs it |
| Lists.SumConcat | app.js:80-81 | the `reduce` sum of a concatenation is the sum of the two parts |
| Lists.SumAppend | app.js:80-81 | pushing an amount raises the list's sum by exactly that amount |
| Lists.SumOfPositives | app.js:52-62 | a list of positive amounts (what the add guards admit) sums to at least its length, and to 0 exactly when it is empty |
| Lists.RemoveAt | app.js:50-62 | removing index i leaves one element fewer; elements before i keep their place, later ones move down by one; the multiset loses exactly the removed element |
| Lists.RemoveAtSum | app.js:80-81 | removing index i lowers the sum by exactly the removed element |
| Lists.SpliceOne | app.js:50-62 | `splice(idx, 1)`: an index within the list removes that element; an index past the end changes nothing; a negative index counts from the end |
| Lists.SpliceOneKeeps | app.js:50-62 | whatever the index, splicing keeps only elements that were already in the list |
| Vouchers.LineValue | app.js:78-79 | definition: one entry's `b.val * b.qty` |
| Vouchers.LinesTotal | app.js:78-79 | definition: the `reduce((a, b) => a + (b.val * b.qty), 0)` over voucher lines; described by `Vouchers.LinesTotalIsLinesSum` and `Vouchers.LinesTotalNaN` |
| Vouchers.KindTotal | app.js:78-79 | definition: the displayed total of one type, the reduction of the filtered list; described by `Vouchers.KindTotalNaN` and `Vouchers.KindTotalsPartition` |
| Vouchers.LinesSum | app.js:78-79 | definition: the cents of voucher lines with an unparsed value read as 0, the NaN-free reference for the reduction |
| Vouchers.LinesTotalIsLinesSum | app.js:78-79 | the reduction is NaN when some face value did not parse, and otherwise exactly the cents of the lines |
| Vouchers.OfKind | app.js:78-79 | the type filter keeps at most the entries it is given, all of the requested type |
| Vouchers.OfKindMembers | app.js:78-79 | the type filter keeps exactly the entries of the requested type |
| Vouchers.OfKindConcat | app.js:78-79 | filtering distributes over concatenation |
| Vouchers.OfKindAppend | app.js:78-79 | filtering a list grown by one entry adds that entry exactly when it has the type |
| Vouchers.LinesTotalConcat | app.js:78-79 | the `val * qty` reduction of a concatenation is the sum of the two parts' reductions |
| Vouchers.LinesTotalAppend | app.js:78-79 | the reduction of a list grown by one entry grows by that entry's `val * qty` |
| Vouchers.KindTotalsPartition | app.js:78-79 | when every entry is paper or connect, the paper total plus the connect total is the `val * qty` total of the whole list |
| Vouchers.LinesTotalNaN | app.js:78-79 | a voucher total is NaN if and only if some entry's face value did not parse |
| Vouchers.KindTotalNaN | app.js:78-79 | one type's total is NaN if and only if an entry of that type has an unparsed face value; the other type cannot spoil it |
| Vouchers.LinesTotalNonNegative | app.js:78-79 | vouchers of non-negative face value in positive quantities total a non-negative amount |
| Vouchers.KindTotalNonNegative | app.js:78-79 | with non-negative face values in positive quantities, each type's total is a non-negative number, never NaN |
| Vouchers.AppendKindTotal | app.js:44-49 | appending an entry adds its `val * qty` to its own type's total and leaves the other type's total unchanged |
| Vouchers.RemoveKindTotal | app.js:50 | removing entry i takes its `val * qty` out of its own type's total only; adding it back restores the old total |
| Cash.Value | app.js:72-73 | definition: the value of `counts[k]` pieces of `units[k]` cents, summed over the denominations |
| Cash.GrossCash | app.js:72-73 | definition: `brut`, the value of the counted pieces over the ten denominations, each count read with `\|\| 0`; computed input by input by `Cash.CountCash` |
| Cash.CountCash | app.js:72-73 | the accumulation loop over the denomination inputs yields exactly the gross cash value |
| Cash.EmptyDrawerIsZero | app.js:72-73 | a drawer with every denomination field empty or unparsable holds 0 cents |
| Cash.ValueNonNegative | app.js:72-73 | positive denominations with non-negative counts have a non-negative value |
| Cash.GrossCashNonNegative | app.js:72-73 | with no negative count entered, gross cash is non-negative |
| Cash.ValueScales | app.js:33 | scaling every denomination by m scales the counted value by m |
| Cash.GrossCashInTenCents | app.js:33 | gross cash is always a multiple of 10 cents, the smallest denomination |
| Cash.ValueAddPieces | app.js:72-73 | adding d pieces of denomination i changes the counted value by exactly d times that denomination |
| Cash.GrossCashAddPieces | app.js:72-73 | entering d more pieces of one denomination changes gross cash by exactly d times its face value |
| Totals.CardTotal | app.js:66 | definition: `getSum`, a scheme's contact plus contactless takings, each read with `\|\| 0`; described by `Totals.CardTotalMissingIsZero` |
| Totals.Compute | app.js:65-81 | definition: every subtotal `refreshUI` writes; its behaviour under each list operation is given by the `Totals` lemmas and its link to the class by `App.PaymentState.RefreshUI` |
| Totals.CardTotalMissingIsZero | app.js:66-70 | an empty or unparsable card field counts exactly as a typed 0 |
| Totals.NetCashIsGrossLessFloat | app.js:74-76 | net cash is gross cash less the float; with the float field empty it equals gross cash |
| Totals.AddCheckShift | app.js:52-55 | appending a cheque of a cents raises the cheque total by a; no other subtotal changes |
| Totals.RemoveCheckShift | app.js:56 | removing cheque i lowers the cheque total by that cheque; no other subtotal changes |
| Totals.AddMyPosShift | app.js:58-61 | appending a MyPOS sale of a cents raises the MyPOS total by a; no other subtotal changes |
| Totals.RemoveMyPosShift | app.js:62 | removing MyPOS sale i lowers the MyPOS total by that sale; no other subtotal changes |
| Totals.AddAncvShift | app.js:44-49 | appending a voucher line changes only its own type's total, by its `val * qty` |
| Totals.OnlyVoucherTotalsDependOnVouchers | app.js:78-86 | the voucher list feeds the two voucher totals and no other subtotal |
| Totals.RemoveAncvShift | app.js:50 | removing voucher line i changes only its own type's total; putting its value back gives the old total |
| Totals.ListTotalsPositive | app.js:52-62 | with every cheque and MyPOS amount positive, each total is at least one cent per entry, and 0 only for an empty list |
| Recap.OpenRecap | app.js:105-158 | every subtotal is read back from the display with `\|\| 0`, so a NaN voucher total is 0; the physical total is the eight read-back subtotals, the software total the three VAT readings; the till cash, the pizza count and the VAT buckets are the form readings with `\|\| 0`; the cash delta is net cash less the till's cash; the recap is `Balanced` (archive offered) if and only if the two totals differ by less than 5 cents, and otherwise carries the signed gap |
| Recap.RecapOf | app.js:105-111 | definition: the recap of the page as `refreshUI` left it |
| Recap.PhysicalTotalCountsEveryPayment | app.js:110-117 | with every voucher parsed and typed, the physical total is the three card totals plus net cash plus every voucher line, cheque and MyPOS sale; the software total is the three VAT buckets |
| Recap.VoucherShare | app.js:106-111 | definition: what one voucher type adds to the physical total: 0 once one of its face values did not parse, otherwise the cents of its lines |
| Recap.KindShare | app.js:106 | a type total read back with `\|\| 0` is exactly that type's share |
| Recap.PhysicalTotalInGeneral | app.js:110-111 | for any lists, parsed or not, the physical total is the three card totals, net cash, each voucher type's share, every cheque and every MyPOS sale |
| Recap.DeltaCashIsCountedLessTill | app.js:113-124 | the recorded cash delta is gross cash less the float less the till's declared cash |
| Recap.UnparsedVoucherDropsItsType | app.js:106-111 | a voucher with an unparsed face value makes the recap read its type's total as 0 |
| Recap.VerdictIgnoresTillFields | app.js:113-142 | the till's declared cash and the pizza counter do not affect the verdict |
| Recap.WithinToleranceIsSymmetric | app.js:141-142 | the acceptance rule is symmetric and means a gap strictly between -5 and 5 cents |
| Recap.WorkedCases | app.js:141-142 | 512.40 against 512.37 balances; 512.40 against 510.00 does not |
| App.PaymentState.constructor | app.js:7-11 | the state starts with three empty lists |
| App.PaymentState.AddAncv | app.js:44-49 | appends `{val, qty, type}` at the end exactly when the parsed quantity is positive (an unparsable one counts as 0); the cheque and MyPOS lists are unchanged |
| App.PaymentState.RemoveAncv | app.js:50 | the voucher list becomes its `splice(idx, 1)`; the other lists are unchanged |
| App.PaymentState.AddCheck | app.js:52-55 | appends the parsed amount exactly when it is positive; the other lists are unchanged |
| App.PaymentState.RemoveCheck | app.js:56 | the cheque list becomes its `splice(idx, 1)`; the other lists are unchanged |
| App.PaymentState.AddMyPos | app.js:58-61 | appends the parsed amount exactly when it is positive; the other lists are unchanged |
| App.PaymentState.RemoveMyPos | app.js:62 | the MyPOS list becomes its `splice(idx, 1)`; the other lists are unchanged |
| App.PaymentState.RefreshUI | app.js:65-90 | the subtotals computed from the current lists and form readings are exactly `Totals.Compute`; in a valid state the cheque and MyPOS totals are at least one cent per entry, and 0 exactly when the list is empty; in a valid state where every face value is a non-negative number, both voucher totals are non-negative numbers |
| App.AddThenRefresh | app.js:44-81 | a cheque of 12.50 and a MyPOS sale of 8.00 added to a fresh state give those totals; a voucher with an unparsable quantity is not added |

## Left out

- DOM access and HTML templating (`renderCashGrid`, `renderRecaps`, the HTML built in `openRecap`, `showView`, `closeRecap`) are not modelled. These are presentation only. Field readings come in as a `Form` value, and what a recap offers is the `Verdict`.
- Clearing an input after a successful add is not modelled. The add methods return `added`, which says when the page clears the field and refreshes.
- `sendToGoogleSheet` is not modelled. It is a fire-and-forget POST whose response cannot be observed.
- `saveToStorage` and `loadFromStorage` (browser `localStorage` and JSON) are not modelled. The model therefore does not capture that JSON turns a NaN face value into `null`, which counts as 0 after a reload.
- `init`, `bindEvents` and event dispatch are not modelled.
- IEEE-754 doubles are not modelled. Amounts are exact cents, so amounts typed with more than two decimals and double rounding near the exact 5-cent boundary are outside the model.
- The text parsing of `parseFloat` and `parseInt` is not modelled. Readings arrive already parsed as `Num(n)` or `NaN`.
- The TypeError that `addAncv` would raise if no voucher-type radio button were checked is not modelled. The type is a parameter.
- A non-integer `splice` index is outside the model, because the page only passes rendered positions.
