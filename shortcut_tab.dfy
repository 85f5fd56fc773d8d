/**
  The client side of the quick-entry ("shortcut") screen
  (game-book-client/src/components/VendorDashboard/ShortcutTab.jsx): the
  per-customer drafts it keeps, the live totals cascade it computes for a
  draft, the pure editors of a draft's game rows, the receipt payload it
  sends when a draft is saved, and the drafts it loads from the receipts of
  a day.

  The screen's state `shortcutData` is a map from customer id to draft.
  Dates are millisecond timestamps; the formatting of a timestamp as a
  "YYYY-MM-DD" day, the clock and the network are parameters.
 */
module ShortcutTab {
  import opened Common
  import opened JsText
  import opened ReceiptModel
  import opened ReceiptController
  import ReceiptExpression
  import opened Sorting

  // ---------------------------------------------------------------------------
  // Drafts

  /** A JavaScript value held in a draft field: undefined, a number, or the text of an input. */
  datatype Scalar = Undefined | Num(n: real) | Text(s: string)

  /** `Number(v) || 0`: undefined and unreadable text are 0. */
  function ToNumber(v: Scalar): real
  {
    match v
    case Undefined => 0.0
    case Num(n) => n
    case Text(s) => NumberOr0(s)
  }

  /** One game row of a draft; the three pairs are always present on the client. */
  datatype DraftRow = DraftRow(
    rowType: string,
    income: string,
    o: string,
    jod: string,
    ko: string,
    multiplier: Scalar,
    pan: Pair,
    gun: Pair,
    special: Pair)

  /** What the screen holds for one customer; an absent text field is the empty string. */
  datatype Draft = Draft(
    open: string,
    close: string,
    jod: string,
    company: string,
    gameRows: seq<DraftRow>,
    jama: Scalar,
    chuk: Scalar,
    advanceAmount: Scalar,
    cuttingAmount: Scalar)

  /** `prev[customerId] || {}`. */
  const EmptyDraft := Draft("", "", "", "", [], Undefined, Undefined, Undefined, Undefined)

  type Drafts = map<string, Draft>

  function DraftOf(state: Drafts, customerId: string): Draft
  {
    if customerId in state then state[customerId] else EmptyDraft
  }

  const BlankPair := Pair("", "", None)

  /** The row `addGameRow` appends: every cell blank, multiplier 8 for 'आ.', 9 for 'कु.', none otherwise. */
  function NewRow(rowType: string): DraftRow
  {
    var m := if rowType == "आ." then Num(8.0) else if rowType == "कु." then Num(9.0) else Undefined;
    DraftRow(rowType, "", "", "", "", m, BlankPair, BlankPair, BlankPair)
  }

  /** The two rows a customer starts the day with. */
  const DefaultRows := [NewRow("आ."), NewRow("कु.")]

  // ---------------------------------------------------------------------------
  // The totals cascade (calculateCustomerTotals)

  datatype Totals = Totals(
    totalIncome: real,
    deduction: real,
    afterDeduction: real,
    payment: real,
    remainingBalance: real,
    totalDue: real,
    jamaTotal: real,
    chuk: real,
    finalTotalAfterChuk: real,
    finalTotal: real,
    oFinalTotal: real,
    jodFinalTotal: real,
    koFinalTotal: real,
    panFinalTotal: real,
    gunFinalTotal: real,
    specialFinalTotal: real)

  /**
    Real multiplication. Products are written through this function so that
    the solver relates two products by their factors instead of exploring
    the definitions of the parsers that produced them.
   */
  function Mul(x: real, y: real): real { x * y }

  /** `Number(row.multiplier)` when the multiplier is defined. */
  function Multiplier(row: DraftRow): Option<real>
  {
    if row.multiplier.Undefined? then None else Some(ToNumber(row.multiplier))
  }

  /** The o cell, read with `parseFloat(..) || 0`, times the multiplier when there is one. */
  function OPart(row: DraftRow): real
  {
    var o := ParseFloatOr0(row.o);
    match Multiplier(row)
    case None => o
    case Some(m) => Mul(o, m)
  }

  /** The jod cell times ten times the multiplier when there is one. */
  function JodPart(row: DraftRow): real
  {
    var jod := ParseFloatOr0(row.jod);
    match Multiplier(row)
    case None => jod
    case Some(m) => Mul(jod, m) * 10.0
  }

  /** The ko cell times the multiplier when there is one. */
  function KoPart(row: DraftRow): real
  {
    var ko := ParseFloatOr0(row.ko);
    match Multiplier(row)
    case None => ko
    case Some(m) => Mul(ko, m)
  }

  /** `(Number(p.val1) || 0) * (Number(p.val2) || 0)`. */
  function Product(p: Pair): real
  {
    Mul(NumberOr0(p.val1), NumberOr0(p.val2))
  }

  function PanPart(row: DraftRow): real { Product(row.pan) }

  function GunPart(row: DraftRow): real { Product(row.gun) }

  function SpecialPart(row: DraftRow): real { Product(row.special) }

  /** `Number(row.income) || 0`. */
  function IncomePart(row: DraftRow): real { NumberOr0(row.income) }

  /** The six category sums of a sequence of rows, in the order the screen lists them. */
  datatype Categories = Categories(o: real, jod: real, ko: real, pan: real, gun: real, special: real)
  {
    function Sum(): real { o + jod + ko + pan + gun + special }
  }

  const NoCategories := Categories(0.0, 0.0, 0.0, 0.0, 0.0, 0.0)

  /** Each category summed over the rows, one part per row. */
  function CategoriesOf(rows: seq<DraftRow>): Categories
  {
    Categories(SumOf(rows, OPart), SumOf(rows, JodPart), SumOf(rows, KoPart),
               SumOf(rows, PanPart), SumOf(rows, GunPart), SumOf(rows, SpecialPart))
  }

  /**
    The cascade of a draft: the six category sums over the rows, their sum
    the payment, a 10% deduction on the income, and then the running
    subtraction of payment, jama, chuk, advance and cutting. Nothing is
    rounded or clamped.
   */
  function TotalsOf(d: Draft): Totals
  {
    var c := CategoriesOf(d.gameRows);
    var totalIncome := SumOf(d.gameRows, IncomePart);
    var payment := c.Sum();
    var deduction := totalIncome * 0.1;
    var afterDeduction := totalIncome - deduction;
    var remainingBalance := afterDeduction - payment;
    var jamaTotal := remainingBalance - ToNumber(d.jama);
    var chuk := ToNumber(d.chuk);
    var finalTotalAfterChuk := jamaTotal - chuk;
    var finalTotal := finalTotalAfterChuk - ToNumber(d.advanceAmount) - ToNumber(d.cuttingAmount);
    Totals(totalIncome, deduction, afterDeduction, payment, remainingBalance, remainingBalance, jamaTotal, chuk,
           finalTotalAfterChuk, finalTotal, c.o, c.jod, c.ko, c.pan, c.gun, c.special)
  }

  /**
    The shown totals obey the cascade: the payment is the sum of the six
    category totals, the deduction 10% of the income, remainingBalance and
    totalDue the income after deduction less the payment, and then jama,
    chuk, advance and cutting are taken off in turn.
   */
  lemma TotalsCascade(d: Draft)
    ensures var t := TotalsOf(d);
      && t.payment == t.oFinalTotal + t.jodFinalTotal + t.koFinalTotal + t.panFinalTotal + t.gunFinalTotal
                      + t.specialFinalTotal
      && t.totalIncome == SumOf(d.gameRows, IncomePart)
      && t.deduction == t.totalIncome * 0.1
      && t.afterDeduction == t.totalIncome - t.deduction
      && t.remainingBalance == t.afterDeduction - t.payment && t.totalDue == t.remainingBalance
      && t.jamaTotal == t.totalDue - ToNumber(d.jama)
      && t.chuk == ToNumber(d.chuk)
      && t.finalTotalAfterChuk == t.jamaTotal - t.chuk
      && t.finalTotal == t.finalTotalAfterChuk - ToNumber(d.advanceAmount) - ToNumber(d.cuttingAmount)
  {
  }

  /**
    The body of the screen's `forEach` over the rows: o and ko times the
    multiplier and jod times ten times the multiplier when the row has one,
    unscaled otherwise, and each pair's product.
   */
  function AddRow(c: Categories, row: DraftRow): Categories
  {
    var oVal, jodVal, koVal := ParseFloatOr0(row.o), ParseFloatOr0(row.jod), ParseFloatOr0(row.ko);
    var pan := c.pan + Mul(NumberOr0(row.pan.val1), NumberOr0(row.pan.val2));
    var gun := c.gun + Mul(NumberOr0(row.gun.val1), NumberOr0(row.gun.val2));
    var special := c.special + Mul(NumberOr0(row.special.val1), NumberOr0(row.special.val2));
    if row.multiplier != Undefined then
      var m := ToNumber(row.multiplier);
      Categories(c.o + Mul(oVal, m), c.jod + Mul(jodVal, m) * 10.0, c.ko + Mul(koVal, m), pan, gun, special)
    else
      Categories(c.o + oVal, c.jod + jodVal, c.ko + koVal, pan, gun, special)
  }

  /** A row's contribution to each category is that row's part. */
  lemma AddRowParts(c: Categories, row: DraftRow)
    ensures var r := AddRow(c, row);
      r.o == c.o + OPart(row) && r.jod == c.jod + JodPart(row) && r.ko == c.ko + KoPart(row)
      && r.pan == c.pan + PanPart(row) && r.gun == c.gun + GunPart(row) && r.special == c.special + SpecialPart(row)
  {
  }

  /** Accumulating one more row keeps the o and jod totals equal to their sums over the rows so far. */
  lemma AddRowStepOJod(rows: seq<DraftRow>, i: nat)
    requires i < |rows|
    ensures var c' := AddRow(CategoriesOf(rows[..i]), rows[i]);
      CategoriesOf(rows[..i + 1]).o == c'.o && CategoriesOf(rows[..i + 1]).jod == c'.jod
  {
    SumOfStep(rows, i, OPart);
    SumOfStep(rows, i, JodPart);
    AddRowParts(CategoriesOf(rows[..i]), rows[i]);
  }

  /** The same for the ko and pan totals. */
  lemma AddRowStepKoPan(rows: seq<DraftRow>, i: nat)
    requires i < |rows|
    ensures var c' := AddRow(CategoriesOf(rows[..i]), rows[i]);
      CategoriesOf(rows[..i + 1]).ko == c'.ko && CategoriesOf(rows[..i + 1]).pan == c'.pan
  {
    SumOfStep(rows, i, KoPart);
    SumOfStep(rows, i, PanPart);
    AddRowParts(CategoriesOf(rows[..i]), rows[i]);
  }

  /** The same for the gun and special totals. */
  lemma AddRowStepGunSpecial(rows: seq<DraftRow>, i: nat)
    requires i < |rows|
    ensures var c' := AddRow(CategoriesOf(rows[..i]), rows[i]);
      CategoriesOf(rows[..i + 1]).gun == c'.gun && CategoriesOf(rows[..i + 1]).special == c'.special
  {
    SumOfStep(rows, i, GunPart);
    SumOfStep(rows, i, SpecialPart);
    AddRowParts(CategoriesOf(rows[..i]), rows[i]);
  }

  /** The `forEach` of `calculateCustomerTotals`: the six category totals in one pass over the rows. */
  method SumCategories(rows: seq<DraftRow>) returns (c: Categories)
    ensures c.o == CategoriesOf(rows).o && c.jod == CategoriesOf(rows).jod && c.ko == CategoriesOf(rows).ko
    ensures c.pan == CategoriesOf(rows).pan && c.gun == CategoriesOf(rows).gun
    ensures c.special == CategoriesOf(rows).special
  {
    c := NoCategories;
    for i := 0 to |rows|
      invariant c.o == CategoriesOf(rows[..i]).o && c.jod == CategoriesOf(rows[..i]).jod
      invariant c.ko == CategoriesOf(rows[..i]).ko && c.pan == CategoriesOf(rows[..i]).pan
      invariant c.gun == CategoriesOf(rows[..i]).gun && c.special == CategoriesOf(rows[..i]).special
    {
      AddRowStepOJod(rows, i);
      AddRowStepKoPan(rows, i);
      AddRowStepGunSpecial(rows, i);
      c := AddRow(c, rows[i]);
    }
    assert rows[..|rows|] == rows;
  }

  /** The `reduce` of `calculateCustomerTotals`: the income of every row. */
  method SumIncome(rows: seq<DraftRow>) returns (total: real)
    ensures total == SumOf(rows, IncomePart)
  {
    total := 0.0;
    for i := 0 to |rows|
      invariant total == SumOf(rows[..i], IncomePart)
    {
      SumOfStep(rows, i, IncomePart);
      total := total + NumberOr0(rows[i].income);
    }
    assert rows[..|rows|] == rows;
  }

  /** `calculateCustomerTotals`: the category totals, the income, and the cascade from them. */
  method CalculateCustomerTotals(d: Draft) returns (t: Totals)
    ensures t == TotalsOf(d)
  {
    var c := SumCategories(d.gameRows);
    var totalIncome := SumIncome(d.gameRows);
    var payment := c.o + c.jod + c.ko + c.pan + c.gun + c.special;
    var deduction := totalIncome * 0.1;
    var afterDeduction := totalIncome - deduction;
    var remainingBalance := afterDeduction - payment;
    var jama := ToNumber(d.jama);
    var totalDue := remainingBalance;
    var jamaTotal := totalDue - jama;
    var chuk := ToNumber(d.chuk);
    var finalTotalAfterChuk := jamaTotal - chuk;
    var finalTotal := finalTotalAfterChuk - ToNumber(d.advanceAmount) - ToNumber(d.cuttingAmount);
    t := Totals(totalIncome, deduction, afterDeduction, payment, remainingBalance, totalDue, jamaTotal, chuk,
                finalTotalAfterChuk, finalTotal, c.o, c.jod, c.ko, c.pan, c.gun, c.special);
  }

  /** Adding an empty row leaves every total unchanged: its cells all read as 0. */
  lemma NewRowPartsZero(rowType: string)
    ensures OPart(NewRow(rowType)) == 0.0 && JodPart(NewRow(rowType)) == 0.0 && KoPart(NewRow(rowType)) == 0.0
    ensures PanPart(NewRow(rowType)) == 0.0 && GunPart(NewRow(rowType)) == 0.0
    ensures SpecialPart(NewRow(rowType)) == 0.0 && IncomePart(NewRow(rowType)) == 0.0
  {
    EmptyReadsZero();
  }

  // ---------------------------------------------------------------------------
  // Row editing (handleGameRowChange, addGameRow, removeGameRow, initializeDefaultRows)

  datatype PairName = Pan | Gun | Special

  datatype Side = Val1 | Val2

  /** A text cell of a row, as the inputs name it: "type", "income", "o", "jod", "ko", "pan.val1", ... */
  datatype Cell = TypeCell | IncomeCell | OCell | JodCell | KoCell | PairCell(pair: PairName, side: Side)

  /** What one input writes into a row: text into a cell, or a JavaScript value into the multiplier. */
  datatype RowEdit = SetCell(cell: Cell, text: string) | SetMultiplier(value: Scalar)

  function PairOf(row: DraftRow, p: PairName): Pair
  {
    match p
    case Pan => row.pan
    case Gun => row.gun
    case Special => row.special
  }

  /** The text a cell of the row shows. */
  function CellOf(row: DraftRow, c: Cell): string
  {
    match c
    case TypeCell => row.rowType
    case IncomeCell => row.income
    case OCell => row.o
    case JodCell => row.jod
    case KoCell => row.ko
    case PairCell(p, side) => if side == Val1 then PairOf(row, p).val1 else PairOf(row, p).val2
  }

  function SetSide(q: Pair, side: Side, v: string): Pair
  {
    if side == Val1 then q.(val1 := v) else q.(val2 := v)
  }

  /** The row after one edit: the spread of the row with the named field (or the named side of a pair) replaced. */
  function EditRow(row: DraftRow, e: RowEdit): DraftRow
  {
    match e
    case SetMultiplier(v) => row.(multiplier := v)
    case SetCell(c, v) =>
      match c
      case TypeCell => row.(rowType := v)
      case IncomeCell => row.(income := v)
      case OCell => row.(o := v)
      case JodCell => row.(jod := v)
      case KoCell => row.(ko := v)
      case PairCell(Pan, side) => row.(pan := SetSide(row.pan, side, v))
      case PairCell(Gun, side) => row.(gun := SetSide(row.gun, side, v))
      case PairCell(Special, side) => row.(special := SetSide(row.special, side, v))
  }

  /**
    An edit changes exactly what it names: the edited cell reads back the
    new text, every other cell, every pair's type tag and (for a cell edit)
    the multiplier keep their values. These facts determine the whole row.
   */
  lemma EditRowOnlyNamedCell(row: DraftRow, e: RowEdit)
    ensures e.SetCell? ==> CellOf(EditRow(row, e), e.cell) == e.text
    ensures forall c :: e.SetMultiplier? || c != e.cell ==> CellOf(EditRow(row, e), c) == CellOf(row, c)
    ensures EditRow(row, e).multiplier == if e.SetMultiplier? then e.value else row.multiplier
    ensures forall p :: PairOf(EditRow(row, e), p).tag == PairOf(row, p).tag
  {
    var r := EditRow(row, e);
    forall c | e.SetMultiplier? || c != e.cell
      ensures CellOf(r, c) == CellOf(row, c)
    {
      if e.SetCell? && c.PairCell? && e.cell.PairCell? && c.pair == e.cell.pair {
        assert c.side != e.cell.side;
      }
    }
  }

  /**
    `handleGameRowChange`: the row at rowIndex of the customer's draft gets
    the edit; every other row, the draft's other fields and the other
    customers' drafts are unchanged. The inputs only ever name a row on
    screen, so rowIndex is in range.
   */
  function HandleGameRowChange(state: Drafts, customerId: string, rowIndex: nat, e: RowEdit): (r: Drafts)
    requires rowIndex < |DraftOf(state, customerId).gameRows|
    ensures customerId in state && r.Keys == state.Keys
    ensures forall c :: c in state && c != customerId ==> r[c] == state[c]
    ensures var d, d' := state[customerId], r[customerId];
      && d' == d.(gameRows := d'.gameRows)
      && |d'.gameRows| == |d.gameRows|
      && d'.gameRows[rowIndex] == EditRow(d.gameRows[rowIndex], e)
      && forall i :: 0 <= i < |d.gameRows| && i != rowIndex ==> d'.gameRows[i] == d.gameRows[i]
  {
    var d := DraftOf(state, customerId);
    state[customerId := d.(gameRows := d.gameRows[rowIndex := EditRow(d.gameRows[rowIndex], e)])]
  }

  /**
    `addGameRow`: the customer's rows (none for a customer without a draft)
    followed by one new empty row of the given type; nothing else changes.
   */
  function AddGameRow(state: Drafts, customerId: string, rowType: string): (r: Drafts)
    ensures r.Keys == state.Keys + {customerId}
    ensures forall c :: c in state && c != customerId ==> r[c] == state[c]
    ensures var d, d' := DraftOf(state, customerId), r[customerId];
      d' == d.(gameRows := d'.gameRows) && d'.gameRows == d.gameRows + [NewRow(rowType)]
  {
    var d := DraftOf(state, customerId);
    state[customerId := d.(gameRows := d.gameRows + [NewRow(rowType)])]
  }

  /**
    The appended row is empty: every cell blank, both sides of every pair
    blank, and the multiplier 8 for 'आ.', 9 for 'कु.' and undefined for any
    other type.
   */
  lemma NewRowIsEmpty(rowType: string)
    ensures forall c :: c != TypeCell ==> CellOf(NewRow(rowType), c) == ""
    ensures CellOf(NewRow(rowType), TypeCell) == rowType
    ensures NewRow(rowType).multiplier == Num(8.0) <==> rowType == "आ."
    ensures NewRow(rowType).multiplier == Num(9.0) <==> rowType == "कु."
    ensures NewRow(rowType).multiplier == Undefined <==> rowType != "आ." && rowType != "कु."
  {
  }

  /** Appending an empty row changes none of the category sums and not the income. */
  lemma {:induction false} AppendEmptyRowSums(rows: seq<DraftRow>, rowType: string)
    ensures CategoriesOf(rows + [NewRow(rowType)]) == CategoriesOf(rows)
    ensures SumOf(rows + [NewRow(rowType)], IncomePart) == SumOf(rows, IncomePart)
  {
    var row := NewRow(rowType);
    NewRowPartsZero(rowType);
    SumOfAppend(rows, [row], OPart);
    SumOfAppend(rows, [row], JodPart);
    SumOfAppend(rows, [row], KoPart);
    SumOfAppend(rows, [row], PanPart);
    SumOfAppend(rows, [row], GunPart);
    SumOfAppend(rows, [row], SpecialPart);
    SumOfAppend(rows, [row], IncomePart);
  }

  /** Appending an empty row changes none of the draft's totals. */
  lemma AddGameRowKeepsTotals(d: Draft, rowType: string)
    ensures TotalsOf(d.(gameRows := d.gameRows + [NewRow(rowType)])) == TotalsOf(d)
  {
    AppendEmptyRowSums(d.gameRows, rowType);
  }

  /** The sequence without its element at index k; the whole sequence when k is not an index. */
  function Without<T>(s: seq<T>, k: int): (r: seq<T>)
    ensures 0 <= k < |s| ==> |r| == |s| - 1
    ensures 0 <= k < |s| ==> forall i :: 0 <= i < |r| ==> r[i] == if i < k then s[i] else s[i + 1]
    ensures !(0 <= k < |s|) ==> r == s
  {
    if 0 <= k < |s| then s[..k] + s[k + 1..] else s
  }

  /** `removeGameRow`: the customer's rows without the one at rowIndex, in their order; nothing else changes. */
  function RemoveGameRow(state: Drafts, customerId: string, rowIndex: int): (r: Drafts)
    ensures r.Keys == state.Keys + {customerId}
    ensures forall c :: c in state && c != customerId ==> r[c] == state[c]
    ensures var d, d' := DraftOf(state, customerId), r[customerId];
      d' == d.(gameRows := Without(d.gameRows, rowIndex))
  {
    var d := DraftOf(state, customerId);
    state[customerId := d.(gameRows := Without(d.gameRows, rowIndex))]
  }

  /** Removing an element takes exactly its value out of a sum. */
  lemma {:induction false} SumOfWithout<T>(s: seq<T>, k: nat, f: T -> real)
    requires k < |s|
    ensures SumOf(Without(s, k), f) == SumOf(s, f) - f(s[k])
  {
    assert s == s[..k] + ([s[k]] + s[k + 1..]);
    SumOfAppend(s[..k], [s[k]] + s[k + 1..], f);
    SumOfAppend([s[k]], s[k + 1..], f);
    SumOfAppend(s[..k], s[k + 1..], f);
    assert SumOf([s[k]], f) == SumOf([s[k]][..0], f) + f(s[k]);
  }

  /** What one row adds to the payment: its six category parts. */
  function RowPart(row: DraftRow): real
  {
    OPart(row) + JodPart(row) + KoPart(row) + PanPart(row) + GunPart(row) + SpecialPart(row)
  }

  /** Removing a row lowers the payment by that row's parts and the income by that row's income. */
  lemma {:induction false} RemoveGameRowTotals(d: Draft, k: nat)
    requires k < |d.gameRows|
    ensures var t, t' := TotalsOf(d), TotalsOf(d.(gameRows := Without(d.gameRows, k)));
      && t'.payment == t.payment - RowPart(d.gameRows[k])
      && t'.totalIncome == t.totalIncome - IncomePart(d.gameRows[k])
  {
    var rows := d.gameRows;
    SumOfWithout(rows, k, OPart);
    SumOfWithout(rows, k, JodPart);
    SumOfWithout(rows, k, KoPart);
    SumOfWithout(rows, k, PanPart);
    SumOfWithout(rows, k, GunPart);
    SumOfWithout(rows, k, SpecialPart);
    SumOfWithout(rows, k, IncomePart);
  }

  /**
    `initializeDefaultRows`: a customer whose draft already has rows keeps
    the state as it is; otherwise the draft (empty if there was none) gets
    exactly the two default rows.
   */
  function InitializeDefaultRows(state: Drafts, customerId: string): (r: Drafts)
    ensures |DraftOf(state, customerId).gameRows| > 0 ==> r == state
    ensures |DraftOf(state, customerId).gameRows| == 0 ==>
      r == state[customerId := DraftOf(state, customerId).(gameRows := DefaultRows)]
  {
    var d := DraftOf(state, customerId);
    if |d.gameRows| > 0 then state else state[customerId := d.(gameRows := DefaultRows)]
  }

  /** Initialising twice is initialising once, and afterwards the customer has rows: 'आ.' (8) then 'कु.' (9). */
  lemma InitializeDefaultRowsIdempotent(state: Drafts, customerId: string)
    ensures var s := InitializeDefaultRows(state, customerId);
      && InitializeDefaultRows(s, customerId) == s
      && |DraftOf(s, customerId).gameRows| > 0
    ensures |DraftOf(state, customerId).gameRows| == 0 ==>
      var rows := DraftOf(InitializeDefaultRows(state, customerId), customerId).gameRows;
      |rows| == 2 && rows[0].rowType == "आ." && rows[0].multiplier == Num(8.0)
      && rows[1].rowType == "कु." && rows[1].multiplier == Num(9.0)
  {
  }

  // ---------------------------------------------------------------------------
  // The adjustments at the end of the cascade

  /**
    jama, chuk, advance and cutting are subtracted as they are, with nothing
    clamped: the final total is the total before any adjustment minus the
    four adjustments, and raising jama by delta lowers jamaTotal,
    finalTotalAfterChuk and finalTotal by exactly delta.
   */
  lemma AdjustmentsSubtract(d: Draft, delta: real)
    ensures var t, t0 := TotalsOf(d), TotalsOf(d.(jama := Undefined, chuk := Undefined,
                                                   advanceAmount := Undefined, cuttingAmount := Undefined));
      t.finalTotal == t0.finalTotal - ToNumber(d.jama) - ToNumber(d.chuk) - ToNumber(d.advanceAmount)
                        - ToNumber(d.cuttingAmount)
    ensures var t, t' := TotalsOf(d), TotalsOf(d.(jama := Num(ToNumber(d.jama) + delta)));
      && t'.jamaTotal == t.jamaTotal - delta
      && t'.finalTotalAfterChuk == t.finalTotalAfterChuk - delta
      && t'.finalTotal == t.finalTotal - delta
  {
  }

  // ---------------------------------------------------------------------------
  // The receipt payload (handleCreateReceipts, handleSaveCustomer)

  /** An entry of the screen's customer list. */
  datatype CustomerInfo = CustomerInfo(id: string, name: string, company: string)

  /** `customers.find(c => c._id === customerId)`: the first entry with that id. */
  function FindCustomer(customers: seq<CustomerInfo>, customerId: string): (r: Option<CustomerInfo>)
    ensures r.Some? ==> r.value in customers && r.value.id == customerId
    ensures r.None? <==> forall i :: 0 <= i < |customers| ==> customers[i].id != customerId
  {
    if customers == [] then None
    else if customers[0].id == customerId then Some(customers[0])
    else FindCustomer(customers[1..], customerId)
  }

  /** The body the screen posts (or puts) to the receipts API. */
  datatype Payload = Payload(
    customerId: string,
    customerName: string,
    customerCompany: string,
    businessName: string,
    date: int,
    day: string,
    openClose: OpenClose,
    gameRows: seq<StoredRow>,
    pendingAmount: real,
    jama: real,
    chuk: real,
    isChukEnabled: bool,
    advanceAmount: real,
    cuttingAmount: real,
    money: Money)

  /** A draft row as it is sent: numbered from the clock, the cells as they are, the multiplier dropped. */
  function SavedRow(row: DraftRow, id: int): StoredRow
  {
    StoredRow(Some(id), Some(row.rowType), row.income, row.o, row.jod, row.ko,
              Some(row.pan), Some(row.gun), Some(row.special), None)
  }

  function SavedRows(rows: seq<DraftRow>, now: int): seq<StoredRow>
  {
    seq(|rows|, i requires 0 <= i < |rows| => SavedRow(rows[i], now + i))
  }

  /**
    The payload for a draft. The income figures and jamaTotal,
    finalTotalAfterChuk and finalTotal come from the draft's cascade, but
    payment, pendingAmount and the six category totals are sent as 0 and
    remainingBalance and totalDue as afterDeduction. An empty business name
    falls back to "Game Book".
   */
  function BuildPayload(customerId: string, customerName: string, company: string, businessName: string,
                        date: int, day: string, d: Draft, now: int): Payload
  {
    var t := TotalsOf(d);
    var money := Money(t.totalIncome, t.deduction, t.afterDeduction, 0.0, t.afterDeduction, t.afterDeduction,
                       t.jamaTotal, t.finalTotalAfterChuk, t.finalTotal, 0.0, 0.0, 0.0, 0.0, 0.0, 0.0);
    Payload(customerId, customerName, company, if businessName == "" then "Game Book" else businessName,
            date, day, OpenClose(d.open, d.close, d.jod), SavedRows(d.gameRows, now),
            0.0, ToNumber(d.jama), ToNumber(d.chuk), false, ToNumber(d.advanceAmount), ToNumber(d.cuttingAmount),
            money)
  }

  /**
    Every saved row keeps the draft row's cells and pairs, carries the id
    now + its index, and has no multiplier.
   */
  lemma SavedRowsKeepCells(rows: seq<DraftRow>, now: int)
    ensures |SavedRows(rows, now)| == |rows|
    ensures forall i :: 0 <= i < |rows| ==>
      var row, saved := rows[i], SavedRows(rows, now)[i];
      && saved.id == Some(now + i) && saved.multiplier.None?
      && saved.rowType == Some(row.rowType) && saved.income == row.income
      && saved.o == row.o && saved.jod == row.jod && saved.ko == row.ko
      && saved.pan == Some(row.pan) && saved.gun == Some(row.gun) && saved.special == Some(row.special)
  {
  }

  /**
    What is sent differs from what the screen shows by exactly the payment:
    the sent remainingBalance is the shown one plus the payment, the sent
    category totals are 0 where the shown ones sum to the payment, and the
    sent jamaTotal is the shown one, which still has the payment taken off.
    The adjustment fields are the draft's own, read as numbers.
   */
  lemma PayloadMoney(customerId: string, customerName: string, company: string, businessName: string,
                     date: int, day: string, d: Draft, now: int)
    ensures var p, t := BuildPayload(customerId, customerName, company, businessName, date, day, d, now), TotalsOf(d);
      && p.gameRows == SavedRows(d.gameRows, now)
      && p.money.payment == 0.0
      && p.money.remainingBalance == t.remainingBalance + t.payment
      && p.money.totalDue == p.money.remainingBalance
      && p.money.oFinalTotal + p.money.jodFinalTotal + p.money.koFinalTotal
         + p.money.panFinalTotal + p.money.gunFinalTotal + p.money.specialFinalTotal == 0.0
      && t.oFinalTotal + t.jodFinalTotal + t.koFinalTotal + t.panFinalTotal + t.gunFinalTotal
         + t.specialFinalTotal == t.payment
      && p.money.jamaTotal == p.money.remainingBalance - p.jama - t.payment
      && p.jama == ToNumber(d.jama) && p.chuk == ToNumber(d.chuk)
      && p.advanceAmount == ToNumber(d.advanceAmount) && p.cuttingAmount == ToNumber(d.cuttingAmount)
      && p.businessName != []
  {
  }

  /**
    The sent money satisfies the receipt cascade exactly when the draft's
    rows have no payment; the last step (advance and cutting) always holds.
   */
  lemma PayloadCascadeIffNoPayment(customerId: string, customerName: string, company: string, businessName: string,
                                   date: int, day: string, d: Draft, now: int)
    ensures var p := BuildPayload(customerId, customerName, company, businessName, date, day, d, now);
      MoneyCascade(p.money, p.jama, p.chuk) <==> TotalsOf(d).payment == 0.0
    ensures var p := BuildPayload(customerId, customerName, company, businessName, date, day, d, now);
      MoneyFinalTotal(p.money, p.advanceAmount, p.cuttingAmount)
  {
    var p := BuildPayload(customerId, customerName, company, businessName, date, day, d, now);
    var t := TotalsOf(d);
    TotalsCascade(d);
    SentCascade(p.money, t, p.jama, p.chuk, p.advanceAmount, p.cuttingAmount);
  }

  /** The arithmetic behind PayloadCascadeIffNoPayment, on the sent money and the shown totals alone. */
  lemma SentCascade(m: Money, t: Totals, jama: real, chuk: real, advance: real, cutting: real)
    requires t.deduction == t.totalIncome * 0.1 && t.afterDeduction == t.totalIncome - t.deduction
    requires t.jamaTotal == t.afterDeduction - t.payment - jama && t.finalTotalAfterChuk == t.jamaTotal - chuk
    requires t.finalTotal == t.finalTotalAfterChuk - advance - cutting
    requires m.totalIncome == t.totalIncome && m.deduction == t.deduction && m.afterDeduction == t.afterDeduction
    requires m.payment == 0.0 && m.remainingBalance == t.afterDeduction && m.totalDue == t.afterDeduction
    requires m.jamaTotal == t.jamaTotal && m.finalTotalAfterChuk == t.finalTotalAfterChuk
    requires m.finalTotal == t.finalTotal
    ensures MoneyCascade(m, jama, chuk) <==> t.payment == 0.0
    ensures MoneyFinalTotal(m, advance, cutting)
  {
  }

  /**
    The server's daily totals read a saved row without its multiplier: the
    row's payment there is the same whatever the draft's multiplier was, and
    o, jod and ko count unscaled.
   */
  lemma SavedRowPaymentIgnoresMultiplier(row: DraftRow, m: Scalar, id: int)
    ensures RowPayment(SavedRow(row.(multiplier := m), id)) == RowPayment(SavedRow(row, id))
    ensures RowPayment(SavedRow(row, id))
         == ReceiptExpression.Evaluate(Some(row.o)) + ReceiptExpression.Evaluate(Some(row.jod))
            + ReceiptExpression.Evaluate(Some(row.ko))
            + PairProduct(Some(row.pan)) + PairProduct(Some(row.gun)) + PairProduct(Some(row.special))
  {
  }

  // ---------------------------------------------------------------------------
  // Saving one customer and creating receipts for all

  /** `data.open || data.close || (data.gameRows && data.gameRows.length > 0)`. */
  predicate HasContent(d: Draft)
  {
    d.open != "" || d.close != "" || |d.gameRows| > 0
  }

  /**
    The index of the first receipt with the largest key: what a stable sort
    by that key, newest first, puts at index 0.
   */
  function LatestIndex(rs: seq<Receipt>, key: Receipt -> int): (i: nat)
    requires rs != []
    ensures i < |rs|
    ensures forall j :: 0 <= j < |rs| ==> key(rs[j]) <= key(rs[i])
    ensures forall j :: 0 <= j < i ==> key(rs[j]) < key(rs[i])
  {
    if |rs| == 1 then 0
    else
      var k := LatestIndex(rs[..|rs| - 1], key);
      if key(rs[|rs| - 1]) > key(rs[k]) then |rs| - 1 else k
  }

  /** `new Date(r.updatedAt || r.createdAt)`: the server always sets updatedAt. */
  function UpdatedAt(r: Receipt): int { r.updatedAt }

  datatype SaveOutcome =
    | Warning(key: string)
    | Failed
    | Update(receiptId: nat, payload: Payload)
    | Create(payload: Payload)

  /**
    `handleSaveCustomer`: a draft without content gets the 'common.required'
    warning and one without a company the 'shortcuts.selectCompany' warning.
    Otherwise the receipts of the selected day for this customer and company
    are looked up: the most recently updated one is replaced, or a new
    receipt is created when there is none. A customer missing from the list
    makes the handler fail before any request (its name is read from
    undefined). dayOf formats a timestamp as the screen's "YYYY-MM-DD";
    date, day and now come from the clock.
   */
  function SaveCustomer(state: Drafts, customers: seq<CustomerInfo>, allReceipts: seq<Receipt>, customerId: string,
                        selectedDate: string, dayOf: int -> string, businessName: string,
                        date: int, day: string, now: int): SaveOutcome
  {
    if customerId !in state || !HasContent(state[customerId]) then Warning("common.required")
    else
      var d := state[customerId];
      if d.company == "" then Warning("shortcuts.selectCompany")
      else match FindCustomer(customers, customerId)
        case None => Failed
        case Some(c) =>
          var same := Filter(allReceipts, (r: Receipt) =>
                               dayOf(r.date) == selectedDate && r.customerId == customerId && r.customerCompany == d.company);
          var p := BuildPayload(customerId, c.name, d.company, businessName, date, day, d, now);
          if same == [] then Create(p) else Update(same[LatestIndex(same, UpdatedAt)].id, p)
  }

  /** The 'common.required' warning comes exactly for a customer without a draft with content. */
  lemma SaveCustomerRequiresContent(state: Drafts, customers: seq<CustomerInfo>, allReceipts: seq<Receipt>, customerId: string,
                            selectedDate: string, dayOf: int -> string, businessName: string,
                            date: int, day: string, now: int)
    ensures SaveCustomer(state, customers, allReceipts, customerId, selectedDate, dayOf, businessName, date, day, now) == Warning("common.required") <==> customerId !in state || !HasContent(state[customerId])
  {
  }

  /** A save that reaches the server sends the draft's rows under the draft's company. */
  lemma SaveCustomerPayload(state: Drafts, customers: seq<CustomerInfo>, allReceipts: seq<Receipt>, customerId: string,
                            selectedDate: string, dayOf: int -> string, businessName: string,
                            date: int, day: string, now: int)
    ensures var out := SaveCustomer(state, customers, allReceipts, customerId, selectedDate, dayOf, businessName, date, day, now);
      out.Update? || out.Create? ==>
        && customerId in state && state[customerId].company != ""
        && out.payload.customerCompany == state[customerId].company
        && out.payload.gameRows == SavedRows(state[customerId].gameRows, now)
  {
  }

  /** A receipt is created only when none of that day, customer and company exists. */
  lemma SaveCustomerCreatesOnlyWhenNone(state: Drafts, customers: seq<CustomerInfo>, allReceipts: seq<Receipt>, customerId: string,
                            selectedDate: string, dayOf: int -> string, businessName: string,
                            date: int, day: string, now: int)
    ensures SaveCustomer(state, customers, allReceipts, customerId, selectedDate, dayOf, businessName, date, day, now).Create? ==>
      forall r :: r in allReceipts ==>
        !(dayOf(r.date) == selectedDate && r.customerId == customerId && r.customerCompany == state[customerId].company)
  {
    if customerId in state && state[customerId].company != "" {
      var d := state[customerId];
      FilterMembers(allReceipts, (r: Receipt) =>
                      dayOf(r.date) == selectedDate && r.customerId == customerId && r.customerCompany == d.company);
    }
  }

  /**
    An update replaces a receipt of that day, customer and company updated
    no earlier than any other such receipt.
   */
  lemma SaveCustomerUpdatesLatest(state: Drafts, customers: seq<CustomerInfo>, allReceipts: seq<Receipt>, customerId: string,
                            selectedDate: string, dayOf: int -> string, businessName: string,
                            date: int, day: string, now: int)
    ensures var out := SaveCustomer(state, customers, allReceipts, customerId, selectedDate, dayOf, businessName, date, day, now);
      out.Update? ==>
        exists r :: r in allReceipts && r.id == out.receiptId
          && dayOf(r.date) == selectedDate && r.customerId == customerId
          && r.customerCompany == state[customerId].company
          && forall r' :: (r' in allReceipts && dayOf(r'.date) == selectedDate && r'.customerId == customerId
                           && r'.customerCompany == state[customerId].company) ==> r'.updatedAt <= r.updatedAt
  {
    if customerId in state && HasContent(state[customerId]) && state[customerId].company != ""
       && FindCustomer(customers, customerId).Some? {
      var d := state[customerId];
      var keep := (r: Receipt) =>
                    dayOf(r.date) == selectedDate && r.customerId == customerId && r.customerCompany == d.company;
      if Filter(allReceipts, keep) != [] {
        LatestOfFiltered(allReceipts, keep, UpdatedAt);
      }
    }
  }

  /** The latest of the receipts a filter keeps is kept, and no kept receipt has a larger key. */
  lemma LatestOfFiltered(rs: seq<Receipt>, keep: Receipt -> bool, key: Receipt -> int)
    requires Filter(rs, keep) != []
    ensures var same := Filter(rs, keep);
      var r := same[LatestIndex(same, key)];
      && r in rs && keep(r)
      && forall r' :: r' in rs && keep(r') ==> key(r') <= key(r)
  {
    var same := Filter(rs, keep);
    var k := LatestIndex(same, key);
    FilterMembers(rs, keep);
    forall r' | r' in rs && keep(r') ensures key(r') <= key(same[k]) {
      var j :| 0 <= j < |same| && same[j] == r';
    }
  }

  datatype CreateOutcome =
    | NothingToCreate
    | Cancelled
    | Created(payloads: map<string, Payload>, next: Drafts)

  /**
    `handleCreateReceipts`: the drafts with content are the ones to create;
    none gives the 'common.required' warning, and the user may cancel.
    Otherwise each such draft whose customer is in the list is sent with
    the listed company, and the drafts are cleared when at least one
    receipt was created (every request is taken to succeed).
   */
  function CreateReceipts(state: Drafts, customers: seq<CustomerInfo>, businessName: string,
                          now: int, day: string, confirmed: bool): CreateOutcome
  {
    if forall c :: c in state ==> !HasContent(state[c]) then NothingToCreate
    else if !confirmed then Cancelled
    else
      var payloads := map c | c in state && HasContent(state[c]) && FindCustomer(customers, c).Some? ::
        BuildPayload(c, FindCustomer(customers, c).value.name, FindCustomer(customers, c).value.company,
                     businessName, now, day, state[c], now);
      Created(payloads, if payloads == map[] then state else map[])
  }

  /**
    A receipt is sent for a customer exactly when its draft has content and
    it is in the customer list; the payload carries the listed company.
   */
  lemma CreateReceiptsSends(state: Drafts, customers: seq<CustomerInfo>, businessName: string,
                            now: int, day: string, customerId: string)
    requires exists c :: c in state && HasContent(state[c])
    ensures var out := CreateReceipts(state, customers, businessName, now, day, true);
      && out.Created?
      && (customerId in out.payloads <==>
            customerId in state && HasContent(state[customerId]) && FindCustomer(customers, customerId).Some?)
      && (customerId in out.payloads ==>
            out.payloads[customerId].customerCompany == FindCustomer(customers, customerId).value.company
            && out.payloads[customerId].gameRows == SavedRows(state[customerId].gameRows, now))
  {
  }

  // ---------------------------------------------------------------------------
  // Loading the drafts of a day (fetchReceiptsForDate)

  /** The multiplier fallback for an old row without one, as written: both tests name the same types. */
  function FallbackAsWritten(rowType: string): Scalar
  {
    if rowType == "ओ." || rowType == "को." then Num(8.0)
    else if rowType == "ओ." || rowType == "को." then Num(9.0)
    else Undefined
  }

  /** As written, the fallback never gives 9: an old 'को.' row is read with multiplier 8. */
  lemma FallbackAsWrittenNeverNine(rowType: string)
    ensures FallbackAsWritten(rowType) != Num(9.0)
    ensures FallbackAsWritten("को.") == Num(8.0)
  {
  }

  /**
    The fallback as intended: the old type names map to the multipliers of
    the new ones, 'ओ.' (now 'आ.') to 8 and 'को.' (now 'कु.') to 9.
   */
  function Fallback(rowType: string): Scalar
  {
    if rowType == "ओ." then Num(8.0)
    else if rowType == "को." then Num(9.0)
    else Undefined
  }

  /** The intended fallback agrees with the multipliers new rows of the renamed types get. */
  lemma FallbackMatchesNewRows(rowType: string)
    ensures Fallback("ओ.") == NewRow("आ.").multiplier && Fallback("को.") == NewRow("कु.").multiplier
    ensures Fallback(rowType) != Undefined <==> rowType == "ओ." || rowType == "को."
  {
  }

  /**
    A stored row's multiplier, or for a typed row without one the fallback of
    its type as the screen computes it (so an old 'को.' row gets 8).
   */
  function LoadedMultiplier(row: StoredRow): Scalar
  {
    match row.multiplier
    case Some(m) => Num(m)
    case None => if row.rowType.Some? && row.rowType.value != "" then FallbackAsWritten(row.rowType.value) else Undefined
  }

  function PairOr(p: Option<Pair>, default: Pair): Pair
  {
    match p
    case Some(q) => q
    case None => default
  }

  /** A stored row as the screen edits it; a missing pan or special gets the 'sp' or 'jackpot' tag. */
  function LoadedRow(row: StoredRow): DraftRow
  {
    DraftRow(if row.rowType.Some? then row.rowType.value else "", row.income, row.o, row.jod, row.ko,
             LoadedMultiplier(row), PairOr(row.pan, Pair("", "", Some("sp"))), PairOr(row.gun, BlankPair),
             PairOr(row.special, Pair("", "", Some("jackpot"))))
  }

  /**
    Saving a row and loading it back restores its type, cells and pairs;
    the multiplier is not restored but replaced by the fallback of the type as
    written (8 for both old types), so a row of a current type ('आ.' or 'कु.') comes back without one.
   */
  lemma SavedRowReloads(row: DraftRow, id: int)
    ensures LoadedRow(SavedRow(row, id)) == row.(multiplier := if row.rowType == "" then Undefined else FallbackAsWritten(row.rowType))
    ensures LoadedRow(SavedRow(NewRow("आ."), id)).multiplier == Undefined
    ensures LoadedRow(SavedRow(NewRow("कु."), id)).multiplier == Undefined
  {
  }

  /** The draft of a customer who has a receipt on the day, from the latest such receipt. */
  function LoadedDraft(r: Receipt): Draft
  {
    var oc := if r.openClose.Some? then r.openClose.value else OpenClose("", "", "");
    Draft(oc.open, oc.close, oc.jod, r.customerCompany, seq(|r.gameRows|, i requires 0 <= i < |r.gameRows| => LoadedRow(r.gameRows[i])),
          Num(r.jama), Num(r.chuk), Num(r.advanceAmount), Num(r.cuttingAmount))
  }

  /**
    The draft of a customer without a receipt on the day: the two default
    rows, jama carried over from the remaining balance of the customer's
    latest receipt and advance from its final total (0 without one).
   */
  function DefaultDraft(latest: Option<Receipt>): Draft
  {
    var balance := if latest.Some? then latest.value.money.remainingBalance else 0.0;
    var advance := if latest.Some? then latest.value.money.finalTotal else 0.0;
    Draft("", "", "", "", DefaultRows, Num(balance), Num(0.0), Num(advance), Num(0.0))
  }

  /** `(a, b) => new Date(b.date) - new Date(a.date)` as "comes no later than": newest first. */
  predicate NewerOrSame(a: Receipt, b: Receipt)
  {
    a.date >= b.date
  }

  /** The customers with a receipt on the day among the receipts s. */
  function DayCustomers(s: seq<Receipt>, date: string, dayOf: int -> string): set<string>
  {
    if s == [] then {}
    else
      var r := s[|s| - 1];
      DayCustomers(s[..|s| - 1], date, dayOf) + (if dayOf(r.date) == date then {r.customerId} else {})
  }

  /** The receipts of customer c on the day, in the order of s. */
  function DayGroup(s: seq<Receipt>, date: string, dayOf: int -> string, c: string): seq<Receipt>
  {
    if s == [] then []
    else
      var r := s[|s| - 1];
      DayGroup(s[..|s| - 1], date, dayOf, c) + (if dayOf(r.date) == date && r.customerId == c then [r] else [])
  }

  lemma {:induction false} DayGroupNonEmpty(s: seq<Receipt>, date: string, dayOf: int -> string, c: string)
    requires c in DayCustomers(s, date, dayOf)
    ensures DayGroup(s, date, dayOf, c) != []
  {
    var r := s[|s| - 1];
    if !(dayOf(r.date) == date && r.customerId == c) {
      DayGroupNonEmpty(s[..|s| - 1], date, dayOf, c);
    }
  }

  lemma {:induction false} DayGroupEmpty(s: seq<Receipt>, date: string, dayOf: int -> string, c: string)
    requires c !in DayCustomers(s, date, dayOf)
    ensures DayGroup(s, date, dayOf, c) == []
  {
    if s != [] {
      DayGroupEmpty(s[..|s| - 1], date, dayOf, c);
    }
  }

  /** The first receipt of customer c in s: `sortedReceipts.filter(..)[0]`. */
  function FirstFor(s: seq<Receipt>, c: string): (r: Option<Receipt>)
    ensures r.Some? ==> r.value in s && r.value.customerId == c
    ensures r.None? <==> forall i :: 0 <= i < |s| ==> s[i].customerId != c
    ensures r.Some? ==> exists k :: 0 <= k < |s| && s[k] == r.value && forall j :: 0 <= j < k ==> s[j].customerId != c
  {
    if s == [] then None
    else if s[0].customerId == c then Some(s[0])
    else FirstFor(s[1..], c)
  }

  function CustomerIds(customers: seq<CustomerInfo>): set<string>
  {
    set i | 0 <= i < |customers| :: customers[i].id
  }

  /** The draft of customer c from the day's group: the receipt updated last, as a stable sort would pick. */
  function LatestDraft(group: seq<Receipt>): Draft
    requires group != []
  {
    LoadedDraft(group[LatestIndex(group, UpdatedAt)])
  }

  lemma GroupStep(s: seq<Receipt>, i: nat, date: string, dayOf: int -> string)
    requires i < |s|
    ensures DayCustomers(s[..i + 1], date, dayOf)
         == DayCustomers(s[..i], date, dayOf) + (if dayOf(s[i].date) == date then {s[i].customerId} else {})
    ensures forall c ::
      DayGroup(s[..i + 1], date, dayOf, c)
      == DayGroup(s[..i], date, dayOf, c) + (if dayOf(s[i].date) == date && s[i].customerId == c then [s[i]] else [])
  {
    assert s[..i + 1][..i] == s[..i];
  }

  /** The grouping loop: the receipts of the day, per customer, in the order of s. */
  method GroupByDay(s: seq<Receipt>, date: string, dayOf: int -> string) returns (groups: map<string, seq<Receipt>>)
    ensures groups.Keys == DayCustomers(s, date, dayOf)
    ensures forall c :: c in groups ==> groups[c] == DayGroup(s, date, dayOf, c) && groups[c] != []
  {
    groups := map[];
    for i := 0 to |s|
      invariant groups.Keys == DayCustomers(s[..i], date, dayOf)
      invariant forall c :: c in groups ==> groups[c] == DayGroup(s[..i], date, dayOf, c) && groups[c] != []
    {
      GroupStep(s, i, date, dayOf);
      var r := s[i];
      if dayOf(r.date) == date {
        if r.customerId !in groups {
          DayGroupEmpty(s[..i], date, dayOf, r.customerId);
        }
        var g := if r.customerId in groups then groups[r.customerId] else [];
        groups := groups[r.customerId := g + [r]];
      }
    }
    assert s[..|s|] == s;
  }

  /** The loop over the groups: one draft per customer, from its latest receipt. */
  method LoadGroups(groups: map<string, seq<Receipt>>) returns (drafts: Drafts)
    requires forall c :: c in groups ==> groups[c] != []
    ensures drafts.Keys == groups.Keys
    ensures forall c :: c in drafts ==> drafts[c] == LatestDraft(groups[c])
  {
    drafts := map[];
    var pending := groups.Keys;
    while pending != {}
      invariant pending <= groups.Keys
      invariant drafts.Keys == groups.Keys - pending
      invariant forall c :: c in drafts ==> drafts[c] == LatestDraft(groups[c])
      decreases |pending|
    {
      var c :| c in pending;
      drafts := drafts[c := LatestDraft(groups[c])];
      pending := pending - {c};
    }
  }

  /** The loop over the customer list: a default draft for every customer without one. */
  method AddDefaults(loaded: Drafts, customers: seq<CustomerInfo>, sorted: seq<Receipt>) returns (drafts: Drafts)
    ensures drafts.Keys == loaded.Keys + CustomerIds(customers)
    ensures forall c :: c in loaded ==> drafts[c] == loaded[c]
    ensures forall c :: c in drafts && c !in loaded ==> drafts[c] == DefaultDraft(FirstFor(sorted, c))
  {
    drafts := loaded;
    for j := 0 to |customers|
      invariant drafts.Keys == loaded.Keys + CustomerIds(customers[..j])
      invariant forall c :: c in loaded ==> drafts[c] == loaded[c]
      invariant forall c :: c in drafts && c !in loaded ==> drafts[c] == DefaultDraft(FirstFor(sorted, c))
    {
      var c := customers[j].id;
      if c !in drafts {
        drafts := drafts[c := DefaultDraft(FirstFor(sorted, c))];
      }
      assert CustomerIds(customers[..j + 1]) == CustomerIds(customers[..j]) + {c} by {
        assert customers[..j + 1][j] == customers[j];
        assert forall k :: 0 <= k < j ==> customers[..j + 1][k] == customers[..j][k];
      }
    }
    assert customers[..|customers|] == customers;
  }

  /**
    `fetchReceiptsForDate`: the receipts are sorted newest first; those of
    the selected day are grouped by customer, and each such customer's draft
    is loaded from the receipt of its group updated last. Every listed
    customer without a receipt that day gets the default draft, carrying
    over the balance of its newest receipt of any day.
   */
  method LoadDrafts(receipts: seq<Receipt>, customers: seq<CustomerInfo>, date: string, dayOf: int -> string)
    returns (drafts: Drafts)
    ensures var sorted := SortBy(receipts, NewerOrSame);
      drafts.Keys == DayCustomers(sorted, date, dayOf) + CustomerIds(customers)
    ensures var sorted := SortBy(receipts, NewerOrSame);
      forall c :: c in DayCustomers(sorted, date, dayOf) ==>
        DayGroup(sorted, date, dayOf, c) != [] && drafts[c] == LatestDraft(DayGroup(sorted, date, dayOf, c))
    ensures var sorted := SortBy(receipts, NewerOrSame);
      forall c :: c in CustomerIds(customers) - DayCustomers(sorted, date, dayOf) ==>
        drafts[c] == DefaultDraft(FirstFor(sorted, c))
  {
    var sorted := SortBy(receipts, NewerOrSame);
    var groups := GroupByDay(sorted, date, dayOf);
    var loaded := LoadGroups(groups);
    drafts := AddDefaults(loaded, customers, sorted);
  }
}
