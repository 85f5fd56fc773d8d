/**
  The vendor reports (game-book-server/controllers/reportController.js):
  income and profit over a period, the twelve-month trend, income by game
  type, payment statistics, the customer balance list, and the hidden
  health-status switch. The aggregation pipelines become sums over the
  vendor's receipts; the calendar (the start and end of a week, a month, a
  year, a month i months back, and its label) becomes parameters.
 */
module ReportController {
  import opened Common
  import opened ReceiptModel
  import opened Sorting
  import opened SysHealth
  import opened Database
  import ReceiptController
  import CustomerController

  /** Every report handler first answers 401 "Not authorized." to a request without a vendor. */
  datatype Gate<T> = NotAuthorized | Report(value: T)

  // ---------------------------------------------------------------------------
  // Income and profit over a period

  datatype Summary = Summary(totalIncome: real, totalProfit: real)

  predicate InPeriod(r: Receipt, vendorId: string, start: int, end: int)
  {
    r.vendorId == vendorId && start <= r.date <= end
  }

  /** The `$match` stage: the vendor's receipts dated within [start, end]. */
  function PeriodReceipts(rs: seq<Receipt>, vendorId: string, start: int, end: int): seq<Receipt>
  {
    Filter(rs, (r: Receipt) => InPeriod(r, vendorId, start, end))
  }

  function Income(r: Receipt): real { r.money.totalIncome }
  function Payment(r: Receipt): real { r.money.payment }
  function Profit(r: Receipt): real { Income(r) - Payment(r) }

  /**
    calculateSummary: the summed income, and the profit as income minus
    payment; {0, 0} when nothing matches.
   */
  function CalculateSummary(rs: seq<Receipt>, vendorId: string, start: int, end: int): (s: Summary)
    ensures PeriodReceipts(rs, vendorId, start, end) == [] ==> s == Summary(0.0, 0.0)
    ensures s.totalIncome == SumOf(PeriodReceipts(rs, vendorId, start, end), Income)
    ensures s.totalProfit == s.totalIncome - SumOf(PeriodReceipts(rs, vendorId, start, end), Payment)
  {
    var p := PeriodReceipts(rs, vendorId, start, end);
    if p == [] then Summary(0.0, 0.0)
    else
      var income := SumOf(p, Income);
      Summary(income, income - SumOf(p, Payment))
  }

  /** The profit is the sum of the receipts' own profits. */
  lemma SummaryProfitIsSumOfProfits(rs: seq<Receipt>, vendorId: string, start: int, end: int)
    ensures CalculateSummary(rs, vendorId, start, end).totalProfit
         == SumOf(PeriodReceipts(rs, vendorId, start, end), Profit)
  {
    SumOfDifference(PeriodReceipts(rs, vendorId, start, end), Income, Payment, Profit);
  }

  /**
    getWeeklySummary, getMonthlySummary and getYearlySummary: the same
    summary over the current week, month or year.
   */
  function GetSummary(vendorId: string, rs: seq<Receipt>, start: int, end: int): (g: Gate<Summary>)
    ensures g.NotAuthorized? <==> vendorId == ""
    ensures g.Report? ==> g.value == CalculateSummary(rs, vendorId, start, end)
  {
    if vendorId == "" then NotAuthorized else Report(CalculateSummary(rs, vendorId, start, end))
  }

  // ---------------------------------------------------------------------------
  // Twelve-month trend

  datatype Trend = Trend(month: string, income: real, profit: real)

  /** The trend entry of the month i months back. */
  function TrendOf(rs: seq<Receipt>, vendorId: string, monthStart: nat -> int, monthEnd: nat -> int,
                   monthLabel: nat -> string, i: nat): (t: Trend)
    ensures t.month == monthLabel(i)
    ensures t.income == CalculateSummary(rs, vendorId, monthStart(i), monthEnd(i)).totalIncome
    ensures t.profit == CalculateSummary(rs, vendorId, monthStart(i), monthEnd(i)).totalProfit
  {
    var s := CalculateSummary(rs, vendorId, monthStart(i), monthEnd(i));
    Trend(monthLabel(i), s.totalIncome, s.totalProfit)
  }

  /** getMonthlyTrends: twelve entries, the month eleven months back first and the current month last. */
  method GetMonthlyTrends(vendorId: string, rs: seq<Receipt>, monthStart: nat -> int, monthEnd: nat -> int,
                          monthLabel: nat -> string)
    returns (g: Gate<seq<Trend>>)
    ensures g.NotAuthorized? <==> vendorId == ""
    ensures g.Report? ==> |g.value| == 12
    ensures g.Report? ==> forall j :: 0 <= j < 12 ==>
      g.value[j] == TrendOf(rs, vendorId, monthStart, monthEnd, monthLabel, 11 - j)
  {
    if vendorId == "" {
      return NotAuthorized;
    }
    var trends: seq<Trend> := [];
    var i := 11;
    while i >= 0
      invariant -1 <= i <= 11
      invariant |trends| == 11 - i
      invariant forall j :: 0 <= j < |trends| ==> trends[j] == TrendOf(rs, vendorId, monthStart, monthEnd, monthLabel, 11 - j)
    {
      trends := trends + [TrendOf(rs, vendorId, monthStart, monthEnd, monthLabel, i)];
      i := i - 1;
    }
    return Report(trends);
  }

  /**
    The trend runs from oldest to newest: when each month's window ends before
    the next month's begins, every receipt counted in entry j of
    GetMonthlyTrends (the month 11 - j months back) is dated before every
    receipt counted in a later entry k.
   */
  lemma TrendsOldestFirst(rs: seq<Receipt>, vendorId: string, monthStart: nat -> int, monthEnd: nat -> int,
                          j: nat, k: nat, a: Receipt, b: Receipt)
    requires forall i: nat {:trigger monthStart(i)} :: monthStart(i) <= monthEnd(i) && monthEnd(i + 1) < monthStart(i)
    requires j < k < 12
    requires a in PeriodReceipts(rs, vendorId, monthStart(11 - j), monthEnd(11 - j))
    requires b in PeriodReceipts(rs, vendorId, monthStart(11 - k), monthEnd(11 - k))
    ensures monthEnd(11 - j) < monthStart(11 - k)
    ensures a.date < b.date
  {
    MonthsApart(monthStart, monthEnd, 11 - j, 11 - k);
    FilterMembers(rs, (r: Receipt) => InPeriod(r, vendorId, monthStart(11 - j), monthEnd(11 - j)));
    FilterMembers(rs, (r: Receipt) => InPeriod(r, vendorId, monthStart(11 - k), monthEnd(11 - k)));
  }

  /** A month further back ends before a later month starts. */
  lemma {:induction false} MonthsApart(monthStart: nat -> int, monthEnd: nat -> int, m: nat, n: nat)
    requires forall i: nat {:trigger monthStart(i)} :: monthStart(i) <= monthEnd(i) && monthEnd(i + 1) < monthStart(i)
    requires n < m
    ensures monthEnd(m) < monthStart(n)
    decreases m - n
  {
    if m > n + 1 {
      MonthsApart(monthStart, monthEnd, m - 1, n);
      assert monthEnd(m) < monthStart(m - 1) <= monthEnd(m - 1);
    }
  }

  // ---------------------------------------------------------------------------
  // Income by game type

  datatype TypeIncome = TypeIncome(gameType: string, income: real)

  /** `Receipt.find({ vendorId })`. */
  function VendorReceipts(rs: seq<Receipt>, vendorId: string): seq<Receipt>
  {
    Filter(rs, (r: Receipt) => r.vendorId == vendorId)
  }

  /** The game rows of the receipts, receipt after receipt. */
  function AllRows(rs: seq<Receipt>): seq<StoredRow>
  {
    if rs == [] then [] else AllRows(rs[..|rs| - 1]) + rs[|rs| - 1].gameRows
  }

  lemma AllRowsStep(rs: seq<Receipt>, i: nat)
    requires i < |rs|
    ensures AllRows(rs[..i + 1]) == AllRows(rs[..i]) + rs[i].gameRows
  {
    assert rs[..i + 1][..i] == rs[..i];
  }

  /** One entry per game type, in the order the types first occur, with the type's summed income. */
  function TypeTotals(rows: seq<StoredRow>): (ts: seq<TypeIncome>)
    ensures |ts| == |KeysInOrder(rows, ReceiptController.RowType)|
    ensures forall i :: 0 <= i < |ts| ==> ts[i].gameType == KeysInOrder(rows, ReceiptController.RowType)[i]
    ensures forall i :: 0 <= i < |ts| ==>
      ts[i].income == SumWhere(rows, ReceiptController.RowType, ts[i].gameType, ReceiptController.RowIncome)
  {
    var ks := KeysInOrder(rows, ReceiptController.RowType);
    seq(|ks|, i requires 0 <= i < |ks| =>
      TypeIncome(ks[i], SumWhere(rows, ReceiptController.RowType, ks[i], ReceiptController.RowIncome)))
  }

  /** `(a, b) => b.income - a.income` as an order: a may come before b. */
  predicate IncomeGe(a: TypeIncome, b: TypeIncome)
  {
    a.income >= b.income
  }

  /** The income-by-type report of a sequence of rows: the type totals, highest income first. */
  function IncomeByType(rows: seq<StoredRow>): (r: seq<TypeIncome>)
    ensures multiset(r) == multiset(TypeTotals(rows))
  {
    SortBy(TypeTotals(rows), IncomeGe)
  }

  /** The report is in non-increasing order of income. */
  lemma IncomeByTypeSorted(rows: seq<StoredRow>)
    ensures forall i, j :: 0 <= i < j < |IncomeByType(rows)| ==> IncomeByType(rows)[i].income >= IncomeByType(rows)[j].income
  {
    SortBySorted(TypeTotals(rows), IncomeGe);
  }

  /** Each entry of the report is one of the type totals. */
  lemma IncomeByTypeFromTotals(rows: seq<StoredRow>, i: nat)
    requires i < |IncomeByType(rows)|
    ensures exists a :: 0 <= a < |TypeTotals(rows)| && TypeTotals(rows)[a] == IncomeByType(rows)[i]
  {
    assert IncomeByType(rows)[i] in multiset(IncomeByType(rows));
  }

  /** Each game type appears once in the report. */
  lemma IncomeByTypeDistinct(rows: seq<StoredRow>)
    ensures forall i, j :: 0 <= i < j < |IncomeByType(rows)| ==>
      IncomeByType(rows)[i].gameType != IncomeByType(rows)[j].gameType
  {
    var ts := TypeTotals(rows);
    var r := IncomeByType(rows);
    assert Distinct(ts);
    DistinctPermutation(ts, r);
    forall i, j | 0 <= i < j < |r| ensures r[i].gameType != r[j].gameType {
      IncomeByTypeFromTotals(rows, i);
      IncomeByTypeFromTotals(rows, j);
      var a :| 0 <= a < |ts| && ts[a] == r[i];
      var b :| 0 <= b < |ts| && ts[b] == r[j];
      assert a != b;
    }
  }

  /**
    The report has exactly the types some row has ('Unknown' for a row
    without one), each with the summed income of its rows.
   */
  lemma IncomeByTypeEntries(rows: seq<StoredRow>)
    ensures forall i :: 0 <= i < |IncomeByType(rows)| ==>
      exists k :: 0 <= k < |rows| && ReceiptController.RowType(rows[k]) == IncomeByType(rows)[i].gameType
    ensures forall i :: 0 <= i < |IncomeByType(rows)| ==>
      IncomeByType(rows)[i].income
      == SumWhere(rows, ReceiptController.RowType, IncomeByType(rows)[i].gameType, ReceiptController.RowIncome)
  {
    var ts := TypeTotals(rows);
    var r := IncomeByType(rows);
    var ks := KeysInOrder(rows, ReceiptController.RowType);
    KeysInOrderMembers(rows, ReceiptController.RowType);
    forall i | 0 <= i < |r|
      ensures exists k :: 0 <= k < |rows| && ReceiptController.RowType(rows[k]) == r[i].gameType
      ensures r[i].income == SumWhere(rows, ReceiptController.RowType, r[i].gameType, ReceiptController.RowIncome)
    {
      IncomeByTypeFromTotals(rows, i);
      var a :| 0 <= a < |ts| && ts[a] == r[i];
      assert ks[a] in ks;
    }
  }

  /** Every row's type has an entry in the report. */
  lemma IncomeByTypeCovers(rows: seq<StoredRow>)
    ensures forall k :: 0 <= k < |rows| ==>
      exists i :: 0 <= i < |IncomeByType(rows)| && IncomeByType(rows)[i].gameType == ReceiptController.RowType(rows[k])
  {
    var ts := TypeTotals(rows);
    var r := IncomeByType(rows);
    var ks := KeysInOrder(rows, ReceiptController.RowType);
    KeysInOrderMembers(rows, ReceiptController.RowType);
    forall k | 0 <= k < |rows|
      ensures exists i :: 0 <= i < |r| && r[i].gameType == ReceiptController.RowType(rows[k])
    {
      var n :| 0 <= n < |ks| && ks[n] == ReceiptController.RowType(rows[k]);
      assert ts[n] in multiset(r);
    }
  }

  /** The incomes of the report add up to the income of all the rows. */
  lemma IncomeByTypeTotal(rows: seq<StoredRow>)
    ensures SumOf(IncomeByType(rows), (e: TypeIncome) => e.income) == SumOf(rows, ReceiptController.RowIncome)
  {
    var f := (e: TypeIncome) => e.income;
    var ks := KeysInOrder(rows, ReceiptController.RowType);
    SumOfPermutation(IncomeByType(rows), TypeTotals(rows), f);
    TypeTotalsSum(rows, ks);
    SumOverKeysPartition(rows, ReceiptController.RowType, ReceiptController.RowIncome);
  }

  lemma {:induction false} TypeTotalsSum(rows: seq<StoredRow>, ks: seq<string>)
    ensures SumOf(seq(|ks|, i requires 0 <= i < |ks| =>
                    TypeIncome(ks[i], SumWhere(rows, ReceiptController.RowType, ks[i], ReceiptController.RowIncome))),
                  (e: TypeIncome) => e.income)
         == SumOverKeys(ks, rows, ReceiptController.RowType, ReceiptController.RowIncome)
    decreases |ks|
  {
    if ks != [] {
      var ks' := ks[..|ks| - 1];
      TypeTotalsSum(rows, ks');
      var s := seq(|ks|, i requires 0 <= i < |ks| =>
                 TypeIncome(ks[i], SumWhere(rows, ReceiptController.RowType, ks[i], ReceiptController.RowIncome)));
      var s' := seq(|ks'|, i requires 0 <= i < |ks'| =>
                 TypeIncome(ks'[i], SumWhere(rows, ReceiptController.RowType, ks'[i], ReceiptController.RowIncome)));
      assert s[..|s| - 1] == s';
    }
  }

  /** What the two loops have accumulated after the rows seen: the per-type object and the order its keys arrived in. */
  ghost predicate Accumulated(acc: map<string, real>, order: seq<string>, seen: seq<StoredRow>)
  {
    && acc == GroupSums(seen, ReceiptController.RowType, ReceiptController.RowIncome)
    && order == KeysInOrder(seen, ReceiptController.RowType)
  }

  /**
    `gameTypeIncome[gameType] = (gameTypeIncome[gameType] || 0) + income` for
    one row, the type noted when it arrives first; stated for any key and
    value function, and used with the row's game type and parsed income.
   */
  method AddIncome<T, K>(acc0: map<K, real>, order0: seq<K>, ghost seen: seq<T>, row: T, key: T -> K, f: T -> real)
    returns (acc: map<K, real>, order: seq<K>)
    requires acc0 == GroupSums(seen, key, f) && order0 == KeysInOrder(seen, key)
    ensures acc == GroupSums(seen + [row], key, f) && order == KeysInOrder(seen + [row], key)
  {
    var t := key(row);
    GroupSumsSnoc(seen, row, key, f);
    acc, order := acc0, order0;
    if t !in acc {
      order := order + [t];
    }
    acc := acc[t := (if t in acc then acc[t] else 0.0) + f(row)];
  }

  /** The inner loop: one receipt's game rows added to the running totals. */
  method AccumulateRows(acc0: map<string, real>, order0: seq<string>, ghost seen: seq<StoredRow>, rows: seq<StoredRow>)
    returns (acc: map<string, real>, order: seq<string>)
    requires Accumulated(acc0, order0, seen)
    ensures Accumulated(acc, order, seen + rows)
  {
    acc, order := acc0, order0;
    assert seen + rows[..0] == seen;
    for j := 0 to |rows|
      invariant Accumulated(acc, order, seen + rows[..j])
    {
      acc, order := AddIncome(acc, order, seen + rows[..j], rows[j], ReceiptController.RowType, ReceiptController.RowIncome);
      PrefixStep(seen, rows, j);
    }
    assert rows[..|rows|] == rows;
  }

  /** Once every row is seen, the accumulated totals listed in first-seen order are the type totals. */
  lemma AccumulatedTotals(acc: map<string, real>, order: seq<string>, seen: seq<StoredRow>)
    requires Accumulated(acc, order, seen)
    ensures forall k :: 0 <= k < |order| ==> order[k] in acc
    ensures seq(|order|, k requires 0 <= k < |order| && order[k] in acc => TypeIncome(order[k], acc[order[k]]))
         == TypeTotals(seen)
  {
    GroupSumsTotals(seen, ReceiptController.RowType, ReceiptController.RowIncome);
    forall k | 0 <= k < |order| ensures order[k] in acc {
      assert order[k] in order;
    }
  }

  /** getIncomeByGameType: the two nested loops fill the per-type totals, which are then sorted. */
  method GetIncomeByGameType(vendorId: string, rs: seq<Receipt>) returns (g: Gate<seq<TypeIncome>>)
    ensures g.NotAuthorized? <==> vendorId == ""
    ensures g.Report? ==> g.value == IncomeByType(AllRows(VendorReceipts(rs, vendorId)))
  {
    if vendorId == "" {
      return NotAuthorized;
    }
    var receipts := VendorReceipts(rs, vendorId);
    var acc: map<string, real> := map[];
    var order: seq<string> := [];
    for i := 0 to |receipts|
      invariant Accumulated(acc, order, AllRows(receipts[..i]))
    {
      acc, order := AccumulateRows(acc, order, AllRows(receipts[..i]), receipts[i].gameRows);
      AllRowsStep(receipts, i);
    }
    assert receipts[..|receipts|] == receipts;
    AccumulatedTotals(acc, order, AllRows(receipts));
    var entries := seq(|order|, k requires 0 <= k < |order| && order[k] in acc => TypeIncome(order[k], acc[order[k]]));
    return Report(SortBy(entries, IncomeGe));
  }

  // ---------------------------------------------------------------------------
  // Payment statistics

  datatype PaymentStats = PaymentStats(
    totalIncome: real,
    totalDeductions: real,
    totalReceived: real,
    totalPending: real,
    netBalance: real,
    totalChuk: Option<real>)

  function Jama(r: Receipt): real { r.jama }
  function Chuk(r: Receipt): real { r.chuk }
  function Net(r: Receipt): real { Profit(r) - Jama(r) }

  /**
    getPaymentStats: payment counted as the deductions, jama as the money
    received, and the net balance (reported twice, as totalPending too) as
    income less both; all zeros, and no totalChuk, without receipts.
   */
  function CalculatePaymentStats(rs: seq<Receipt>, vendorId: string): (p: PaymentStats)
    ensures VendorReceipts(rs, vendorId) == [] ==> p == PaymentStats(0.0, 0.0, 0.0, 0.0, 0.0, None)
    ensures p.totalIncome == SumOf(VendorReceipts(rs, vendorId), Income)
    ensures p.totalDeductions == SumOf(VendorReceipts(rs, vendorId), Payment)
    ensures p.totalReceived == SumOf(VendorReceipts(rs, vendorId), Jama)
    ensures p.totalPending == p.netBalance == p.totalIncome - p.totalDeductions - p.totalReceived
    ensures VendorReceipts(rs, vendorId) != [] ==> p.totalChuk == Some(SumOf(VendorReceipts(rs, vendorId), Chuk))
  {
    var mine := VendorReceipts(rs, vendorId);
    if mine == [] then PaymentStats(0.0, 0.0, 0.0, 0.0, 0.0, None)
    else
      var income, deductions, received := SumOf(mine, Income), SumOf(mine, Payment), SumOf(mine, Jama);
      var net := income - deductions - received;
      PaymentStats(income, deductions, received, net, net, Some(SumOf(mine, Chuk)))
  }

  /** The net balance is the sum over receipts of income less payment less jama. */
  lemma NetBalanceIsSumOfNets(rs: seq<Receipt>, vendorId: string)
    ensures CalculatePaymentStats(rs, vendorId).netBalance == SumOf(VendorReceipts(rs, vendorId), Net)
  {
    var mine := VendorReceipts(rs, vendorId);
    SumOfDifference(mine, Income, Payment, Profit);
    SumOfDifference(mine, Profit, Jama, Net);
  }

  function JamaTotal(r: Receipt): real { r.money.jamaTotal }
  function Deduction(r: Receipt): real { r.money.deduction }

  /**
    On receipts that keep the cascade, the net balance is not the receipts'
    own jamaTotal: it exceeds their sum by exactly the 10% deductions, which
    the statistics never subtract.
   */
  lemma {:induction false} NetBalanceExceedsJamaTotals(rs: seq<Receipt>)
    requires forall i :: 0 <= i < |rs| ==> CascadeHolds(rs[i])
    ensures SumOf(rs, Net) == SumOf(rs, JamaTotal) + SumOf(rs, Deduction)
    decreases |rs|
  {
    if rs != [] {
      var r := rs[|rs| - 1];
      assert CascadeHolds(r);
      NetBalanceExceedsJamaTotals(rs[..|rs| - 1]);
    }
  }

  function GetPaymentStats(vendorId: string, rs: seq<Receipt>): (g: Gate<PaymentStats>)
    ensures g.NotAuthorized? <==> vendorId == ""
    ensures g.Report? ==> g.value == CalculatePaymentStats(rs, vendorId)
  {
    if vendorId == "" then NotAuthorized else Report(CalculatePaymentStats(rs, vendorId))
  }

  // ---------------------------------------------------------------------------
  // Customer balances

  /**
    getAllCustomerBalances: the customer listing of the customer book, but
    with advanceAmount read from the latest receipt's advanceAmount field.
   */
  function AllCustomerBalances(cs: seq<Customer>, rs: seq<Receipt>, vendorId: string)
    : (r: seq<CustomerController.CustomerBalance>)
    ensures |r| == |CustomerController.SortedCustomers(cs, vendorId)|
    ensures forall i :: 0 <= i < |r| ==> r[i].customer == CustomerController.SortedCustomers(cs, vendorId)[i]
    ensures forall i :: 0 <= i < |r| ==>
      match CustomerController.LatestReceipt(rs, r[i].customer.id, vendorId)
      case None => r[i].latestBalance == 0.0 && r[i].advanceAmount == 0.0
      case Some(k) => r[i].latestBalance == rs[k].money.finalTotalAfterChuk && r[i].advanceAmount == rs[k].advanceAmount
  {
    var sorted := CustomerController.SortedCustomers(cs, vendorId);
    seq(|sorted|, i requires 0 <= i < |sorted| =>
      match CustomerController.LatestReceipt(rs, sorted[i].id, vendorId)
      case None => CustomerController.CustomerBalance(sorted[i], 0.0, 0.0)
      case Some(k) => CustomerController.CustomerBalance(sorted[i], rs[k].money.finalTotalAfterChuk, rs[k].advanceAmount))
  }

  /**
    The two balance listings agree on the customers and their latest
    balance; their advanceAmount differs exactly where the latest receipt's
    advanceAmount differs from its finalTotal.
   */
  lemma BalanceListingsCompared(cs: seq<Customer>, rs: seq<Receipt>, vendorId: string, i: nat)
    requires i < |AllCustomerBalances(cs, rs, vendorId)|
    ensures i < |CustomerController.ListCustomers(cs, rs, vendorId)|
    ensures var a := AllCustomerBalances(cs, rs, vendorId)[i];
      var b := CustomerController.ListCustomers(cs, rs, vendorId)[i];
      && a.customer == b.customer && a.latestBalance == b.latestBalance
      && (a.advanceAmount != b.advanceAmount <==>
          exists k :: CustomerController.LatestReceipt(rs, a.customer.id, vendorId) == Some(k)
                      && rs[k].advanceAmount != rs[k].money.finalTotal)
  {
  }

  // ---------------------------------------------------------------------------
  // The health switch

  /** The reported status: 1 when enabled, 0 when not. */
  function StatusCode(enabled: bool): (code: int)
    ensures code == 1 <==> enabled
    ensures code == 0 <==> !enabled
  {
    if enabled then 1 else 0
  }

  datatype HealthStatus = HealthStatus(status: int, reason: string, timestamp: int)

  /** _getHealthStatus: the record, created enabled when there is none. */
  method GetHealthStatus(h: HealthStore, now: int) returns (s: HealthStatus)
    requires h.Valid()
    modifies h
    ensures h.Valid() && h.record.Some?
    ensures old(h.record).Some? ==> h.record == old(h.record)
    ensures old(h.record).None? ==> h.record == Some(HealthRecord(true, DefaultReason, now))
    ensures s == HealthStatus(StatusCode(h.record.value.isEnabled), h.record.value.reason, h.record.value.lastModified)
  {
    if h.record.None? {
      h.Create(true, None, now);
    }
    var r := h.record.value;
    return HealthStatus(StatusCode(r.isEnabled), r.reason, r.lastModified);
  }

  /** The body's status field: a JSON number, or anything else (a string "1" included). */
  datatype StatusValue = StatusNumber(n: real) | StatusOther

  const MaintenanceMessage := "App is currently under maintenance. Please try again later."

  /**
    _updateHealthStatus: enabled iff the status is the number 1; the reason
    changes only when a non-empty one is given (a new record gets the
    maintenance message instead). An absent reason is the empty string.
   */
  method UpdateHealthStatus(h: HealthStore, status: StatusValue, reason: string, now: int)
    returns (code: int, storedReason: string)
    requires h.Valid()
    modifies h
    ensures h.Valid() && h.record.Some?
    ensures h.record.value.isEnabled <==> status == StatusNumber(1.0)
    ensures h.record.value.lastModified == now
    ensures reason != "" ==> h.record.value.reason == reason
    ensures reason == "" && old(h.record).Some? ==> h.record.value.reason == old(h.record).value.reason
    ensures reason == "" && old(h.record).None? ==> h.record.value.reason == MaintenanceMessage
    ensures code == StatusCode(h.record.value.isEnabled) && storedReason == h.record.value.reason
  {
    var enabled := status == StatusNumber(1.0);
    if h.record.None? {
      h.Create(enabled, Some(if reason != "" then reason else MaintenanceMessage), now);
    } else {
      h.Save(enabled, if reason != "" then reason else h.record.value.reason, now);
    }
    return StatusCode(h.record.value.isEnabled), h.record.value.reason;
  }
}
