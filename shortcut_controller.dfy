/**
  Bulk manual incomes (game-book-server/controllers/shortcutController.js,
  saveManualIncomes): for every entry naming a known customer, up to two
  rows (an 'आ.' and a 'कु.' income) are pushed onto that customer's receipt
  for the day and the money fields are raised by a vector of increments;
  the day's receipt is created when there is none.

  The income values arrive as JSON and are taken in their text form: a
  missing value behaves as the empty string (`Number` of either is not
  positive and `|| 0` turns both into 0). The clock reading and the
  start and end of the current day are parameters.
 */
module ShortcutController {
  import opened Common
  import opened JsText
  import opened ReceiptModel
  import opened Database

  datatype IncomeEntry = IncomeEntry(customerId: string, aamdanIncome: string, kulanIncome: string)

  /** The status code and message of a reply. */
  datatype Reply = Reply(status: nat, message: string)

  const Aamdan := "आ."
  const Kulan := "कु."

  /** A pushed row: its id, type and income; the text cells take their default "". */
  function IncomeRow(id: int, rowType: string, income: string): (row: StoredRow)
    ensures row.id == Some(id) && row.rowType == Some(rowType) && row.income == income
    ensures row.o == "" && row.jod == "" && row.ko == ""
    ensures row.pan.None? && row.gun.None? && row.special.None? && row.multiplier.None?
  {
    StoredRow(Some(id), Some(rowType), income, "", "", "", None, None, None, None)
  }

  /** The rows an entry contributes, in push order. */
  function IncomeRows(e: IncomeEntry, timestamp: int): (rows: seq<StoredRow>)
    ensures |rows| <= 2
  {
    (if NumberOr0(e.aamdanIncome) > 0.0 then [IncomeRow(timestamp, Aamdan, e.aamdanIncome)] else [])
    + (if NumberOr0(e.kulanIncome) > 0.0 then [IncomeRow(timestamp + 1, Kulan, e.kulanIncome)] else [])
  }

  predicate HasRowType(rows: seq<StoredRow>, t: string)
  {
    exists i :: 0 <= i < |rows| && rows[i].rowType == Some(t)
  }

  /**
    An 'आ.' row is pushed iff the aamdan income is a positive number, and a
    'कु.' row iff the kulan income is; the 'आ.' row comes first, with id
    timestamp, and the 'कु.' row last, with id timestamp + 1.
   */
  lemma IncomeRowsShape(e: IncomeEntry, timestamp: int)
    ensures HasRowType(IncomeRows(e, timestamp), Aamdan) <==> NumberOr0(e.aamdanIncome) > 0.0
    ensures HasRowType(IncomeRows(e, timestamp), Kulan) <==> NumberOr0(e.kulanIncome) > 0.0
    ensures forall i :: 0 <= i < |IncomeRows(e, timestamp)| && IncomeRows(e, timestamp)[i].rowType == Some(Aamdan) ==>
      i == 0 && IncomeRows(e, timestamp)[i] == IncomeRow(timestamp, Aamdan, e.aamdanIncome)
    ensures forall i :: 0 <= i < |IncomeRows(e, timestamp)| && IncomeRows(e, timestamp)[i].rowType == Some(Kulan) ==>
      i == |IncomeRows(e, timestamp)| - 1 && IncomeRows(e, timestamp)[i] == IncomeRow(timestamp + 1, Kulan, e.kulanIncome)
  {
    var a := IncomeRow(timestamp, Aamdan, e.aamdanIncome);
    var k := IncomeRow(timestamp + 1, Kulan, e.kulanIncome);
    assert Aamdan != Kulan by { assert Aamdan[0] != Kulan[0]; }
    var rows := IncomeRows(e, timestamp);
    if NumberOr0(e.aamdanIncome) > 0.0 {
      assert rows[0] == a;
    }
    if NumberOr0(e.kulanIncome) > 0.0 {
      assert rows[|rows| - 1] == k;
    }
  }

  /** The three distinct `$inc` amounts: the new income, its 10% deduction and what remains. */
  datatype Increment = Increment(total: real, deduction: real, afterDeduction: real)

  function IncrementOf(e: IncomeEntry): (inc: Increment)
    ensures inc.deduction == inc.total * 0.1
    ensures inc.afterDeduction == inc.total - inc.deduction
  {
    var total := NumberOr0(e.aamdanIncome) + NumberOr0(e.kulanIncome);
    Increment(total, total * 0.1, total - total * 0.1)
  }

  function RowIncomeNumber(row: StoredRow): real
  {
    NumberOr0(row.income)
  }

  /**
    The increment counts both incomes, including one that added no row: it
    exceeds the income of the pushed rows by exactly the non-positive inputs.
   */
  lemma IncrementCountsSkippedIncome(e: IncomeEntry, timestamp: int)
    ensures IncrementOf(e).total
      == SumOf(IncomeRows(e, timestamp), RowIncomeNumber)
       + (if NumberOr0(e.aamdanIncome) > 0.0 then 0.0 else NumberOr0(e.aamdanIncome))
       + (if NumberOr0(e.kulanIncome) > 0.0 then 0.0 else NumberOr0(e.kulanIncome))
  {
    var a := IncomeRow(timestamp, Aamdan, e.aamdanIncome);
    var k := IncomeRow(timestamp + 1, Kulan, e.kulanIncome);
    SumOfAppend([a], [k], RowIncomeNumber);
    SumOfAppend([], [a], RowIncomeNumber);
    SumOfAppend([], [k], RowIncomeNumber);
  }

  /** `$inc`: the seven raised fields; payment, finalTotal and the category totals are not touched. */
  function ApplyIncrement(m: Money, inc: Increment): (m': Money)
    ensures m'.totalIncome == m.totalIncome + inc.total
    ensures m'.deduction == m.deduction + inc.deduction
    ensures m'.afterDeduction == m.afterDeduction + inc.afterDeduction
    ensures m'.remainingBalance == m.remainingBalance + inc.afterDeduction
    ensures m'.totalDue == m.totalDue + inc.afterDeduction
    ensures m'.jamaTotal == m.jamaTotal + inc.afterDeduction
    ensures m'.finalTotalAfterChuk == m.finalTotalAfterChuk + inc.afterDeduction
    ensures m'.(totalIncome := m.totalIncome, deduction := m.deduction, afterDeduction := m.afterDeduction,
                remainingBalance := m.remainingBalance, totalDue := m.totalDue, jamaTotal := m.jamaTotal,
                finalTotalAfterChuk := m.finalTotalAfterChuk) == m
  {
    m.(totalIncome := m.totalIncome + inc.total,
       deduction := m.deduction + inc.deduction,
       afterDeduction := m.afterDeduction + inc.afterDeduction,
       remainingBalance := m.remainingBalance + inc.afterDeduction,
       totalDue := m.totalDue + inc.afterDeduction,
       jamaTotal := m.jamaTotal + inc.afterDeduction,
       finalTotalAfterChuk := m.finalTotalAfterChuk + inc.afterDeduction)
  }

  /** An entry's increment keeps the receipt's cascade relations. */
  lemma IncrementKeepsCascade(m: Money, jama: real, chuk: real, e: IncomeEntry)
    requires MoneyCascade(m, jama, chuk)
    ensures MoneyCascade(ApplyIncrement(m, IncrementOf(e)), jama, chuk)
  {
    var inc := IncrementOf(e);
    var m' := ApplyIncrement(m, inc);
    assert m'.deduction == (m.totalIncome + inc.total) * 0.1;
  }

  /**
    finalTotal is not raised, so the last step of the cascade survives an
    increment only when nothing remains after the deduction.
   */
  lemma IncrementFinalTotal(m: Money, advance: real, cutting: real, e: IncomeEntry)
    requires MoneyFinalTotal(m, advance, cutting)
    ensures MoneyFinalTotal(ApplyIncrement(m, IncrementOf(e)), advance, cutting)
      <==> IncrementOf(e).afterDeduction == 0.0
  {
  }

  /**
    The day's receipt after the update: rows appended, money raised, and
    updatedAt stamped with the time of the update (the schema keeps
    timestamps); everything else kept.
   */
  function AddIncome(r: Receipt, rows: seq<StoredRow>, inc: Increment, now: int): (r': Receipt)
    ensures r'.gameRows == r.gameRows + rows
    ensures r'.money == ApplyIncrement(r.money, inc)
    ensures r'.updatedAt == now
    ensures r'.(gameRows := r.gameRows, money := r.money, updatedAt := r.updatedAt) == r
  {
    r.(gameRows := r.gameRows + rows, money := ApplyIncrement(r.money, inc), updatedAt := now)
  }

  /**
    The receipt the upsert inserts: the identity fields of `$setOnInsert`,
    the customerId from the query, schema defaults, and the pushed rows and
    increments applied to zero.
   */
  function Upserted(id: nat, vendorId: string, c: Customer, rows: seq<StoredRow>, inc: Increment, now: int)
    : (r: Receipt)
    ensures r.customerId == c.id && r.vendorId == vendorId && r.customerName == Trim(c.name)
    ensures r.businessName == "Default Business" && r.date == now && r.id == id
    ensures r.gameRows == rows && r.money == ApplyIncrement(ZeroMoney, inc)
    ensures vendorId != "" && c.id != "" && Trim(c.name) != "" ==> Storable(r)
  {
    TrimUnchanged("Default Business");
    NewReceipt(id, vendorId, c.id, "Default Business", c.name, now, ApplyIncrement(ZeroMoney, inc), now).(gameRows := rows)
  }

  /** A receipt created by the upsert satisfies the cascade. */
  lemma UpsertedKeepsCascade(id: nat, vendorId: string, c: Customer, e: IncomeEntry, now: int)
    ensures CascadeHolds(Upserted(id, vendorId, c, IncomeRows(e, now), IncrementOf(e), now))
  {
    var r := Upserted(id, vendorId, c, IncomeRows(e, now), IncrementOf(e), now);
    IncrementKeepsCascade(ZeroMoney, 0.0, 0.0, e);
    assert r.jama == 0.0 && r.chuk == 0.0;
  }

  /** The first receipt of the customer dated within the day (`findOneAndUpdate`'s match). */
  function DayReceipt(rs: seq<Receipt>, customerId: string, dayStart: int, dayEnd: int): (k: Option<nat>)
    ensures k.Some? ==>
      (k.value < |rs| && rs[k.value].customerId == customerId && dayStart <= rs[k.value].date <= dayEnd)
    ensures k.Some? ==> forall j :: 0 <= j < k.value ==>
      !(rs[j].customerId == customerId && dayStart <= rs[j].date <= dayEnd)
    ensures k.None? <==> forall j :: 0 <= j < |rs| ==>
      !(rs[j].customerId == customerId && dayStart <= rs[j].date <= dayEnd)
  {
    if rs == [] then None
    else if rs[0].customerId == customerId && dayStart <= rs[0].date <= dayEnd then Some(0)
    else match DayReceipt(rs[1..], customerId, dayStart, dayEnd)
      case None => None
      case Some(k) => Some(k + 1)
  }

  /** The receipts and next id after one entry. */
  datatype Receipts = Receipts(rs: seq<Receipt>, next: nat)

  function ApplyEntry(db: Receipts, customers: seq<Customer>, e: IncomeEntry, vendorId: string,
                      dayStart: int, dayEnd: int, now: int): (db': Receipts)
    ensures |db'.rs| == |db.rs| || |db'.rs| == |db.rs| + 1
    ensures (CustomerIndex(customers, e.customerId).None? || IncomeRows(e, now) == []) ==> db' == db
    ensures CustomerIndex(customers, e.customerId).Some? && IncomeRows(e, now) != []
            && DayReceipt(db.rs, e.customerId, dayStart, dayEnd).Some? ==>
      var k := DayReceipt(db.rs, e.customerId, dayStart, dayEnd).value;
      && db'.next == db.next && |db'.rs| == |db.rs|
      && db'.rs[k].gameRows == db.rs[k].gameRows + IncomeRows(e, now)
      && db'.rs[k].money == ApplyIncrement(db.rs[k].money, IncrementOf(e))
      && db'.rs[k].updatedAt == now
      && (forall j :: 0 <= j < |db.rs| && j != k ==> db'.rs[j] == db.rs[j])
    ensures CustomerIndex(customers, e.customerId).Some? && IncomeRows(e, now) != []
            && DayReceipt(db.rs, e.customerId, dayStart, dayEnd).None? ==>
      && db'.next == db.next + 1 && db'.rs[..|db.rs|] == db.rs && |db'.rs| == |db.rs| + 1
      && db'.rs[|db.rs|].id == db.next && db'.rs[|db.rs|].customerId == e.customerId
      && db'.rs[|db.rs|].gameRows == IncomeRows(e, now) && db'.rs[|db.rs|].updatedAt == now
  {
    match CustomerIndex(customers, e.customerId)
    case None => db
    case Some(ci) =>
      var rows := IncomeRows(e, now);
      if rows == [] then db
      else match DayReceipt(db.rs, e.customerId, dayStart, dayEnd)
        case Some(k) => db.(rs := db.rs[k := AddIncome(db.rs[k], rows, IncrementOf(e), now)])
        case None => Receipts(db.rs + [Upserted(db.next, vendorId, customers[ci], rows, IncrementOf(e), now)], db.next + 1)
  }

  /** The entries applied one after the other. */
  function ApplyEntries(db: Receipts, customers: seq<Customer>, es: seq<IncomeEntry>, vendorId: string,
                        dayStart: int, dayEnd: int, now: int): Receipts
  {
    if es == [] then db
    else ApplyEntry(ApplyEntries(db, customers, es[..|es| - 1], vendorId, dayStart, dayEnd, now),
                    customers, es[|es| - 1], vendorId, dayStart, dayEnd, now)
  }

  /** One more entry applied after the first i. */
  lemma ApplyEntriesStep(db: Receipts, customers: seq<Customer>, es: seq<IncomeEntry>, i: nat, vendorId: string,
                         dayStart: int, dayEnd: int, now: int)
    requires i < |es|
    ensures ApplyEntries(db, customers, es[..i + 1], vendorId, dayStart, dayEnd, now)
      == ApplyEntry(ApplyEntries(db, customers, es[..i], vendorId, dayStart, dayEnd, now),
                    customers, es[i], vendorId, dayStart, dayEnd, now)
  {
    assert es[..i + 1][..i] == es[..i];
  }

  /** What the store promises about its receipts, restated on a Receipts value. */
  predicate ReceiptsValid(db: Receipts)
  {
    StoredReceipts(db.rs, db.next)
  }

  predicate AllCascade(rs: seq<Receipt>)
  {
    forall i :: 0 <= i < |rs| ==> CascadeHolds(rs[i])
  }

  lemma ReplaceKeepsStored(rs: seq<Receipt>, next: nat, k: nat, r: Receipt)
    requires StoredReceipts(rs, next) && k < |rs| && r.id < next && Storable(r)
    ensures StoredReceipts(rs[k := r], next)
  {
  }

  lemma AppendKeepsStored(rs: seq<Receipt>, next: nat, r: Receipt)
    requires StoredReceipts(rs, next) && r.id == next && Storable(r)
    ensures StoredReceipts(rs + [r], next + 1)
  {
  }

  /** An entry keeps the receipts valid, and keeps the cascade of every receipt that had it. */
  lemma ApplyEntryKeeps(db: Receipts, customers: seq<Customer>, e: IncomeEntry, vendorId: string,
                        dayStart: int, dayEnd: int, now: int)
    requires ReceiptsValid(db) && vendorId != ""
    requires NamedCustomers(customers)
    ensures ReceiptsValid(ApplyEntry(db, customers, e, vendorId, dayStart, dayEnd, now))
    ensures AllCascade(db.rs) ==> AllCascade(ApplyEntry(db, customers, e, vendorId, dayStart, dayEnd, now).rs)
  {
    var db' := ApplyEntry(db, customers, e, vendorId, dayStart, dayEnd, now);
    var ci := CustomerIndex(customers, e.customerId);
    if ci.Some? && IncomeRows(e, now) != [] {
      var k := DayReceipt(db.rs, e.customerId, dayStart, dayEnd);
      if k.Some? {
        var r := db.rs[k.value];
        var r' := AddIncome(r, IncomeRows(e, now), IncrementOf(e), now);
        if CascadeHolds(r) {
          IncrementKeepsCascade(r.money, r.jama, r.chuk, e);
        }
        assert r'.id == r.id && r'.businessName == r.businessName && r'.customerName == r.customerName;
        ReplaceKeepsStored(db.rs, db.next, k.value, r');
        assert db'.rs == db.rs[k.value := r'];
      } else {
        var c := customers[ci.value];
        assert c.id != "" && Trim(c.name) != "";
        var u := Upserted(db.next, vendorId, c, IncomeRows(e, now), IncrementOf(e), now);
        UpsertedKeepsCascade(db.next, vendorId, c, e, now);
        AppendKeepsStored(db.rs, db.next, u);
        assert db'.rs == db.rs + [u];
      }
    }
  }

  /** Every receipt that satisfied the cascade still does after any batch of entries. */
  lemma {:induction false} ApplyEntriesKeeps(db: Receipts, customers: seq<Customer>, es: seq<IncomeEntry>,
                                             vendorId: string, dayStart: int, dayEnd: int, now: int)
    requires ReceiptsValid(db) && vendorId != ""
    requires NamedCustomers(customers)
    ensures ReceiptsValid(ApplyEntries(db, customers, es, vendorId, dayStart, dayEnd, now))
    ensures AllCascade(db.rs) ==> AllCascade(ApplyEntries(db, customers, es, vendorId, dayStart, dayEnd, now).rs)
    decreases |es|
  {
    if es != [] {
      ApplyEntriesKeeps(db, customers, es[..|es| - 1], vendorId, dayStart, dayEnd, now);
      ApplyEntryKeeps(ApplyEntries(db, customers, es[..|es| - 1], vendorId, dayStart, dayEnd, now),
                      customers, es[|es| - 1], vendorId, dayStart, dayEnd, now);
    }
  }

  /**
    POST saveManualIncomes. An empty vendorId is a request without a vendor,
    `None` a body that is not an array. The entries are applied in order.
   */
  method SaveManualIncomes(store: Store, vendorId: string, body: Option<seq<IncomeEntry>>,
                           dayStart: int, dayEnd: int, now: int)
    returns (reply: Reply)
    requires store.Valid()
    modifies store
    ensures store.Valid()
    ensures store.customers == old(store.customers)
    ensures vendorId == "" ==>
      reply == Reply(401, "Not authorized, vendor data missing from token.")
    ensures vendorId != "" && (body.None? || body.value == []) ==>
      reply == Reply(400, "Invalid data format.")
    ensures reply.status != 200 ==>
      store.receipts == old(store.receipts) && store.nextReceiptId == old(store.nextReceiptId)
    ensures vendorId != "" && body.Some? && body.value != [] ==>
      && reply == Reply(200, "Incomes added successfully!")
      && Receipts(store.receipts, store.nextReceiptId)
         == ApplyEntries(Receipts(old(store.receipts), old(store.nextReceiptId)), store.customers,
                         body.value, vendorId, dayStart, dayEnd, now)
  {
    if vendorId == "" {
      return Reply(401, "Not authorized, vendor data missing from token.");
    }
    if body.None? || body.value == [] {
      return Reply(400, "Invalid data format.");
    }
    var es := body.value;
    ghost var db0 := Receipts(store.receipts, store.nextReceiptId);
    var i := 0;
    while i < |es|
      invariant 0 <= i <= |es|
      invariant store.Valid() && store.customers == old(store.customers)
      invariant Receipts(store.receipts, store.nextReceiptId)
        == ApplyEntries(db0, store.customers, es[..i], vendorId, dayStart, dayEnd, now)
    {
      var e := es[i];
      ApplyEntriesStep(db0, store.customers, es, i, vendorId, dayStart, dayEnd, now);
      var db := ApplyEntry(Receipts(store.receipts, store.nextReceiptId), store.customers, e, vendorId,
                           dayStart, dayEnd, now);
      ApplyEntryKeeps(Receipts(store.receipts, store.nextReceiptId), store.customers, e, vendorId,
                      dayStart, dayEnd, now);
      store.receipts, store.nextReceiptId := db.rs, db.next;
      assert StoredReceipts(store.receipts, store.nextReceiptId);
      i := i + 1;
    }
    assert es[..|es|] == es;
    return Reply(200, "Incomes added successfully!");
  }
}
