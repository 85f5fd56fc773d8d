/**
  The arithmetic of game-book-server/controllers/receiptController.js apart
  from the expression evaluator: the pagination of the receipt listing
  (getAllReceipts) and the daily totals (getDailyTotals), which group the
  day's receipts by company and their game rows by game type and recompute
  each row's payment.

  The database query becomes a parameter: the sequence of receipts it found.
 */
module ReceiptController {
  import opened Common
  import opened JsText
  import opened ReceiptModel
  import opened ReceiptExpression

  // ---------------------------------------------------------------------------
  // Pagination

  datatype Pagination = Pagination(
    currentPage: int,
    totalPages: int,
    totalReceipts: nat,
    limit: int,
    hasNextPage: bool,
    hasPrevPage: bool,
    skip: int)

  datatype PageResult = BadRequest(message: string) | Page(pagination: Pagination)

  /** `Math.ceil(total / limit)` for a positive limit. */
  function CeilDiv(total: nat, limit: int): (q: nat)
    requires limit >= 1
    ensures q * limit >= total
    ensures q == 0 || (q - 1) * limit < total
  {
    (total + limit - 1) / limit
  }

  /**
    The pagination block for `?page=..&limit=..` over a vendor with `total`
    receipts; a missing, non-numeric or zero parameter takes its default.
   */
  function Paginate(pageQ: Option<string>, limitQ: Option<string>, total: nat): (r: PageResult)
    ensures var page, limit := ParseIntOr(pageQ, 1), ParseIntOr(limitQ, 100);
      && (r.Page? <==> page >= 1 && 1 <= limit <= 100)
      && (page < 1 ==> r == BadRequest("Page number must be greater than 0"))
      && (page >= 1 && (limit < 1 || limit > 100) ==> r == BadRequest("Limit must be between 1 and 100"))
      && (r.Page? ==>
            && r.pagination.currentPage == page
            && r.pagination.limit == limit
            && r.pagination.totalReceipts == total
            && r.pagination.skip == (page - 1) * limit
            && r.pagination.totalPages * limit >= total
            && (r.pagination.totalPages == 0 || (r.pagination.totalPages - 1) * limit < total)
            && (r.pagination.hasNextPage <==> page < r.pagination.totalPages)
            && (r.pagination.hasPrevPage <==> page > 1))
  {
    var page := ParseIntOr(pageQ, 1);
    var limit := ParseIntOr(limitQ, 100);
    if page < 1 then BadRequest("Page number must be greater than 0")
    else if limit < 1 || limit > 100 then BadRequest("Limit must be between 1 and 100")
    else
      var totalPages := CeilDiv(total, limit);
      Page(Pagination(page, totalPages, total, limit, page < totalPages, page > 1, (page - 1) * limit))
  }

  /** Absent, non-numeric and zero parameters give page 1 and limit 100. */
  lemma PaginateDefaults(total: nat)
    ensures Paginate(None, None, total).Page?
    ensures Paginate(None, None, total).pagination.currentPage == 1
    ensures Paginate(None, None, total).pagination.limit == 100
    ensures Paginate(Some("0"), Some("abc"), total) == Paginate(None, None, total)
  {
    ParseZero();
    ParseNonNumeric();
  }

  lemma ParseZero()
    ensures ParseIntPrefix("0") == Some(0)
  {
    TrimUnchanged("0");
    assert DigitsEnd("0", 1) == 1;
    assert DigitsEnd("0", 0) == 1;
    assert "0"[0..1] == "0" && "0"[..0] == "";
    assert DigitsValue("0") == 0;
  }

  /** parseInt is called without a radix, so `?page=0x2` asks for page 2. */
  lemma PaginateHexPage(total: nat)
    ensures Paginate(Some("0x2"), None, total).Page?
    ensures Paginate(Some("0x2"), None, total).pagination.currentPage == 2
    ensures Paginate(Some("0x"), None, total) == Paginate(None, None, total)
  {
    ParseIntHex("2");
    assert "0x" + "2" == "0x2";
    assert HexValue("2") == 2 by {
      assert "2"[..0] == "";
    }
    ParseIntBareHexPrefix();
  }

  lemma ParseNonNumeric()
    ensures ParseIntPrefix("abc") == None
  {
    var s := "abc";
    assert !IsJsWhitespace(s[0]) && !IsJsWhitespace(s[2]) && !IsDigit(s[0]) && s[0] != '+' && s[0] != '-';
    TrimUnchanged(s);
    assert DigitsEnd(s, 0) == 0;
  }

  // ---------------------------------------------------------------------------
  // Daily totals: the value of one game row

  /** `receipt.customerCompany || "No Company"`. */
  function CompanyOf(r: Receipt): string
  {
    if r.customerCompany == [] then "No Company" else r.customerCompany
  }

  /** `row.type || 'Unknown'`. */
  function RowType(row: StoredRow): string
  {
    match row.rowType
    case None => "Unknown"
    case Some(t) => if t == [] then "Unknown" else t
  }

  /** `parseFloat(row.income) || 0`. */
  function RowIncome(row: StoredRow): real
  {
    ParseFloatOr0(row.income)
  }

  /** `(parseFloat(p?.val1) || 0) * (parseFloat(p?.val2) || 0)`: 0 for a missing pair. */
  function PairProduct(p: Option<Pair>): real
  {
    match p
    case None => 0.0
    case Some(q) => ParseFloatOr0(q.val1) * ParseFloatOr0(q.val2)
  }

  /**
    The payment of a stored game row: the evaluated o and ko times the
    multiplier and jod times ten times the multiplier, when the row has a
    multiplier (`Number(multiplier) || 1`, so 0 counts as 1); the plain sum of
    o, jod and ko when it has none; plus the three pair products.
   */
  function RowPayment(row: StoredRow): real
  {
    var o, jod, ko := Evaluate(Some(row.o)), Evaluate(Some(row.jod)), Evaluate(Some(row.ko));
    var base := match row.multiplier
      case None => o + jod + ko
      case Some(m) =>
        var mult := if m == 0.0 then 1.0 else m;
        o * mult + jod * mult * 10.0 + ko * mult;
    base + PairProduct(row.pan) + PairProduct(row.gun) + PairProduct(row.special)
  }

  /** A multiplier of 0 is read as 1. */
  lemma ZeroMultiplierCountsAsOne(row: StoredRow)
    ensures RowPayment(row.(multiplier := Some(0.0))) == RowPayment(row.(multiplier := Some(1.0)))
  {
  }

  /**
    A row with multiplier 1 differs from the same row without a multiplier by
    nine times its jod value: only a defined multiplier scales jod by ten.
   */
  lemma MultiplierOneScalesJod(row: StoredRow)
    ensures RowPayment(row.(multiplier := Some(1.0))) - RowPayment(row.(multiplier := None))
         == 9.0 * Evaluate(Some(row.jod))
  {
  }

  // ---------------------------------------------------------------------------
  // Daily totals: the specification of the grouping

  datatype TypeTotals = TypeTotals(income: real, payment: real, count: nat)

  const NoRows := TypeTotals(0.0, 0.0, 0)

  function Plus(a: TypeTotals, b: TypeTotals): TypeTotals
  {
    TypeTotals(a.income + b.income, a.payment + b.payment, a.count + b.count)
  }

  lemma PlusNoRows(x: TypeTotals)
    ensures Plus(x, NoRows) == x
  {
    assert Plus(x, NoRows) == TypeTotals(x.income, x.payment, x.count);
  }

  /** One game row's contribution to its type. */
  function RowTotals(row: StoredRow): TypeTotals
  {
    TypeTotals(RowIncome(row), RowPayment(row), 1)
  }

  /** The totals, by the valuation val, of the rows of type t. */
  function RowsTotals(rows: seq<StoredRow>, t: string, val: StoredRow -> TypeTotals): TypeTotals
  {
    if rows == [] then NoRows
    else
      var last := rows[|rows| - 1];
      Plus(RowsTotals(rows[..|rows| - 1], t, val), if RowType(last) == t then val(last) else NoRows)
  }

  /** The totals, by the valuation val, of the rows of type t over the receipts of company c. */
  function BreakdownSpec(rs: seq<Receipt>, c: string, t: string, val: StoredRow -> TypeTotals): TypeTotals
  {
    if rs == [] then NoRows
    else
      var last := rs[|rs| - 1];
      Plus(BreakdownSpec(rs[..|rs| - 1], c, t, val), if CompanyOf(last) == c then RowsTotals(last.gameRows, t, val) else NoRows)
  }

  function IncomeOf(r: Receipt): real { r.money.totalIncome }

  function PaymentOf(r: Receipt): real { r.money.payment }

  /** The distinct customer ids among the receipts of company c. */
  function CustomersIn(rs: seq<Receipt>, c: string): set<string>
  {
    if rs == [] then {}
    else
      var last := rs[|rs| - 1];
      CustomersIn(rs[..|rs| - 1], c) + (if CompanyOf(last) == c then {last.customerId} else {})
  }

  /** The distinct customer ids among all the receipts. */
  function AllCustomers(rs: seq<Receipt>): set<string>
  {
    if rs == [] then {} else AllCustomers(rs[..|rs| - 1]) + {rs[|rs| - 1].customerId}
  }

  lemma {:induction false} AllCustomersAreIds(rs: seq<Receipt>)
    ensures forall id :: id in AllCustomers(rs) <==> exists i :: 0 <= i < |rs| && rs[i].customerId == id
  {
    if rs != [] {
      var init := rs[..|rs| - 1];
      AllCustomersAreIds(init);
      assert forall i :: 0 <= i < |init| ==> init[i] == rs[i];
    }
  }

  /** A company with no receipt in rs has no totals of any type. */
  lemma {:induction false} BreakdownSpecAbsent(rs: seq<Receipt>, c: string, t: string, val: StoredRow -> TypeTotals)
    requires forall i :: 0 <= i < |rs| ==> CompanyOf(rs[i]) != c
    ensures BreakdownSpec(rs, c, t, val) == NoRows
  {
    if rs != [] {
      var init := rs[..|rs| - 1];
      assert forall i :: 0 <= i < |init| ==> init[i] == rs[i];
      BreakdownSpecAbsent(init, c, t, val);
    }
  }

  lemma {:induction false} CustomersInAbsent(rs: seq<Receipt>, c: string)
    requires forall i :: 0 <= i < |rs| ==> CompanyOf(rs[i]) != c
    ensures CustomersIn(rs, c) == {}
  {
    if rs != [] {
      var init := rs[..|rs| - 1];
      assert forall i :: 0 <= i < |init| ==> init[i] == rs[i];
      CustomersInAbsent(init, c);
    }
  }

  lemma {:induction false} CountWhereAbsent<T, K>(s: seq<T>, key: T -> K, k: K)
    requires forall i :: 0 <= i < |s| ==> key(s[i]) != k
    ensures CountWhere(s, key, k) == 0
  {
    if s != [] {
      var init := s[..|s| - 1];
      assert forall i :: 0 <= i < |init| ==> init[i] == s[i];
      CountWhereAbsent(init, key, k);
    }
  }

  /** The totals one company reports. */
  datatype CompanyTotals = CompanyTotals(
    totalIncome: real,
    totalPayment: real,
    customerCount: nat,
    receiptsCount: nat,
    gameTypeBreakdown: map<string, TypeTotals>)

  datatype GrandTotals = GrandTotals(totalIncome: real, totalPayment: real, totalCustomers: nat, totalReceipts: nat)

  /** What the loop keeps per company while it runs: the customer set is still a set. */
  datatype CompanyAcc = CompanyAcc(
    income: real,
    payment: real,
    receipts: nat,
    customers: set<string>,
    breakdown: map<string, TypeTotals>)

  const NewCompany := CompanyAcc(0.0, 0.0, 0, {}, map[])

  function Get(bd: map<string, TypeTotals>, t: string): TypeTotals
  {
    if t in bd then bd[t] else NoRows
  }

  // ---------------------------------------------------------------------------
  // Daily totals: the loops

  /** The inner loop: adds the rows of one receipt to its company's breakdown by type. */
  method AddRows(bd0: map<string, TypeTotals>, rows: seq<StoredRow>, val: StoredRow -> TypeTotals)
    returns (bd: map<string, TypeTotals>)
    requires forall row :: val(row).count > 0
    ensures forall t :: t in bd <==> t in bd0 || RowsTotals(rows, t, val).count > 0
    ensures forall t :: Get(bd, t) == Plus(Get(bd0, t), RowsTotals(rows, t, val))
  {
    bd := bd0;
    AddedNoRows(bd0, rows, val);
    for j := 0 to |rows|
      invariant AddedRows(bd, bd0, rows[..j], val)
    {
      var row := rows[j];
      var t := RowType(row);
      AddRowStep(bd, bd0, rows, j, val);
      bd := bd[t := Plus(Get(bd, t), val(row))];
    }
    assert rows[..|rows|] == rows;
  }

  /** The breakdown bd is bd0 with the rows added. */
  ghost predicate AddedRows(bd: map<string, TypeTotals>, bd0: map<string, TypeTotals>, rows: seq<StoredRow>,
                            val: StoredRow -> TypeTotals)
  {
    && (forall t :: t in bd <==> t in bd0 || RowsTotals(rows, t, val).count > 0)
    && (forall t :: Get(bd, t) == Plus(Get(bd0, t), RowsTotals(rows, t, val)))
  }

  lemma AddedNoRows(bd0: map<string, TypeTotals>, rows: seq<StoredRow>, val: StoredRow -> TypeTotals)
    ensures AddedRows(bd0, bd0, rows[..0], val)
  {
    assert rows[..0] == [];
    forall t ensures Get(bd0, t) == Plus(Get(bd0, t), RowsTotals(rows[..0], t, val)) {
      PlusNoRows(Get(bd0, t));
    }
  }

  lemma PlusAssociative(a: TypeTotals, b: TypeTotals, c: TypeTotals)
    ensures Plus(Plus(a, b), c) == Plus(a, Plus(b, c))
  {
  }

  lemma AddRowStep(bd: map<string, TypeTotals>, bd0: map<string, TypeTotals>, rows: seq<StoredRow>, j: nat,
                   val: StoredRow -> TypeTotals)
    requires j < |rows| && val(rows[j]).count > 0
    requires AddedRows(bd, bd0, rows[..j], val)
    ensures AddedRows(bd[RowType(rows[j]) := Plus(Get(bd, RowType(rows[j])), val(rows[j]))], bd0, rows[..j + 1], val)
  {
    var r, s := rows[j], rows[..j + 1];
    var u := RowType(r);
    var bd' := bd[u := Plus(Get(bd, u), val(r))];
    assert s[..|s| - 1] == rows[..j] && s[|s| - 1] == r;
    forall t ensures Get(bd', t) == Plus(Get(bd0, t), RowsTotals(s, t, val))
      && (t in bd' <==> t in bd0 || RowsTotals(s, t, val).count > 0)
    {
      var x := RowsTotals(rows[..j], t, val);
      if t == u {
        assert RowsTotals(s, t, val) == Plus(x, val(r));
        PlusAssociative(Get(bd0, t), x, val(r));
      } else {
        assert RowsTotals(s, t, val) == Plus(x, NoRows);
        PlusNoRows(x);
      }
    }
  }

  /**
    The grouping `getDailyTotals` performs, for any valuation of a game row
    that counts the row once: the totals of every company, in the order the
    companies first occur, and the grand totals. Customers are counted by
    distinct id.
   */
  method GroupTotals(rs: seq<Receipt>, val: StoredRow -> TypeTotals)
    returns (byCompany: map<string, CompanyTotals>, companies: seq<string>, grand: GrandTotals)
    requires forall row :: val(row).count > 0
    ensures companies == KeysInOrder(rs, CompanyOf)
    ensures forall c :: c in byCompany <==> c in companies
    ensures forall c :: c in byCompany ==>
      && byCompany[c].totalIncome == SumWhere(rs, CompanyOf, c, IncomeOf)
      && byCompany[c].totalPayment == SumWhere(rs, CompanyOf, c, PaymentOf)
      && byCompany[c].receiptsCount == CountWhere(rs, CompanyOf, c)
      && byCompany[c].customerCount == |CustomersIn(rs, c)|
    ensures forall c, t :: c in byCompany ==>
      (t in byCompany[c].gameTypeBreakdown <==> BreakdownSpec(rs, c, t, val).count > 0)
    ensures forall c, t :: c in byCompany && t in byCompany[c].gameTypeBreakdown ==>
      byCompany[c].gameTypeBreakdown[t] == BreakdownSpec(rs, c, t, val)
    ensures grand.totalIncome == SumOf(rs, IncomeOf)
    ensures grand.totalPayment == SumOf(rs, PaymentOf)
    ensures grand.totalReceipts == |rs|
    ensures grand.totalCustomers == |AllCustomers(rs)|
  {
    var acc, all;
    acc, companies, all := GroupByCompany(rs, val);
    assert Grouped(acc, companies, all, rs, val);
    byCompany := map c | c in acc :: Report(acc[c]);
    forall c, t | c in byCompany
      ensures (t in byCompany[c].gameTypeBreakdown <==> BreakdownSpec(rs, c, t, val).count > 0)
      ensures t in byCompany[c].gameTypeBreakdown ==> byCompany[c].gameTypeBreakdown[t] == BreakdownSpec(rs, c, t, val)
    {
      ReportBreakdown(acc[c], rs, c, t, val);
    }
    var totalIncome, totalPayment := SumCompanies(byCompany, companies, rs);
    grand := GrandTotals(totalIncome, totalPayment, |all|, |rs|);
  }

  /**
    `getDailyTotals` on the day's receipts: the grouping with the code's own
    row valuation, each row counting its income, its payment and once.
   */
  method DailyTotals(rs: seq<Receipt>)
    returns (byCompany: map<string, CompanyTotals>, companies: seq<string>, grand: GrandTotals)
    ensures companies == KeysInOrder(rs, CompanyOf)
    ensures forall c :: c in byCompany <==> c in companies
    ensures forall c :: c in byCompany ==>
      && byCompany[c].totalIncome == SumWhere(rs, CompanyOf, c, IncomeOf)
      && byCompany[c].totalPayment == SumWhere(rs, CompanyOf, c, PaymentOf)
      && byCompany[c].receiptsCount == CountWhere(rs, CompanyOf, c)
      && byCompany[c].customerCount == |CustomersIn(rs, c)|
    ensures forall c, t :: c in byCompany ==>
      (t in byCompany[c].gameTypeBreakdown <==> BreakdownSpec(rs, c, t, RowTotals).count > 0)
    ensures forall c, t :: c in byCompany && t in byCompany[c].gameTypeBreakdown ==>
      byCompany[c].gameTypeBreakdown[t] == BreakdownSpec(rs, c, t, RowTotals)
    ensures grand.totalIncome == SumOf(rs, IncomeOf)
    ensures grand.totalPayment == SumOf(rs, PaymentOf)
    ensures grand.totalReceipts == |rs|
    ensures grand.totalCustomers == |AllCustomers(rs)|
  {
    byCompany, companies, grand := GroupTotals(rs, RowTotals);
  }

  /** The totals a company reports, read off its accumulator. */
  function Report(a: CompanyAcc): CompanyTotals
  {
    CompanyTotals(a.income, a.payment, |a.customers|, a.receipts, a.breakdown)
  }

  lemma ReportBreakdown(a: CompanyAcc, rs: seq<Receipt>, c: string, t: string, val: StoredRow -> TypeTotals)
    requires AccHolds(a, rs, c, val)
    ensures t in Report(a).gameTypeBreakdown <==> BreakdownSpec(rs, c, t, val).count > 0
    ensures t in Report(a).gameTypeBreakdown ==> Report(a).gameTypeBreakdown[t] == BreakdownSpec(rs, c, t, val)
  {
    assert Get(a.breakdown, t) == BreakdownSpec(rs, c, t, val);
  }

  /** The first loop of `getDailyTotals`: one accumulator per company, created at its first receipt. */
  method GroupByCompany(rs: seq<Receipt>, val: StoredRow -> TypeTotals)
    returns (acc: map<string, CompanyAcc>, companies: seq<string>, all: set<string>)
    requires forall row :: val(row).count > 0
    ensures Grouped(acc, companies, all, rs, val)
  {
    acc, all, companies := map[], {}, [];
    assert rs[..0] == [];
    for i := 0 to |rs|
      invariant Grouped(acc, companies, all, rs[..i], val)
    {
      var r := rs[i];
      var c := CompanyOf(r);
      var cur := NewCompany;
      if c in acc {
        cur := acc[c];
      } else {
        KeysInOrderMembers(rs[..i], CompanyOf);
        NewCompanyHolds(rs[..i], c, val);
      }
      var bd := AddRows(cur.breakdown, r.gameRows, val);
      var next := CompanyAcc(cur.income + IncomeOf(r), cur.payment + PaymentOf(r), cur.receipts + 1,
                             cur.customers + {r.customerId}, bd);
      AccStep(cur, next, rs, i, val);
      GroupStep(acc, companies, all, rs, i, next, val);
      if c !in acc {
        companies := companies + [c];
      }
      acc := acc[c := next];
      all := all + {r.customerId};
    }
    assert rs[..|rs|] == rs;
  }

  /** What the first loop has built after the receipts rs. */
  ghost predicate Grouped(acc: map<string, CompanyAcc>, companies: seq<string>, all: set<string>, rs: seq<Receipt>,
                          val: StoredRow -> TypeTotals)
  {
    && companies == KeysInOrder(rs, CompanyOf)
    && (forall c :: c in acc <==> c in companies)
    && (forall c :: c in acc ==> AccHolds(acc[c], rs, c, val))
    && all == AllCustomers(rs)
  }

  lemma GroupStep(acc: map<string, CompanyAcc>, companies: seq<string>, all: set<string>, rs: seq<Receipt>, i: nat,
                  next: CompanyAcc, val: StoredRow -> TypeTotals)
    requires i < |rs|
    requires Grouped(acc, companies, all, rs[..i], val)
    requires AccHolds(next, rs[..i + 1], CompanyOf(rs[i]), val)
    ensures Grouped(acc[CompanyOf(rs[i]) := next],
                    if CompanyOf(rs[i]) in acc then companies else companies + [CompanyOf(rs[i])],
                    all + {rs[i].customerId}, rs[..i + 1], val)
  {
    var c, s := CompanyOf(rs[i]), rs[..i + 1];
    var acc', companies' := acc[c := next], if c in acc then companies else companies + [c];
    CompaniesStep(companies, rs, i);
    assert forall d :: d in acc' <==> d in companies';
    AccsStep(acc, rs, i, next, val);
    assert s[..|s| - 1] == rs[..i] && s[|s| - 1] == rs[i];
    assert all + {rs[i].customerId} == AllCustomers(s);
  }

  lemma CompaniesStep(companies: seq<string>, rs: seq<Receipt>, i: nat)
    requires i < |rs| && companies == KeysInOrder(rs[..i], CompanyOf)
    ensures KeysInOrder(rs[..i + 1], CompanyOf)
         == if CompanyOf(rs[i]) in companies then companies else companies + [CompanyOf(rs[i])]
  {
    var s := rs[..i + 1];
    assert s[..|s| - 1] == rs[..i] && s[|s| - 1] == rs[i];
  }

  lemma AccsStep(acc: map<string, CompanyAcc>, rs: seq<Receipt>, i: nat, next: CompanyAcc, val: StoredRow -> TypeTotals)
    requires i < |rs|
    requires forall d :: d in acc ==> AccHolds(acc[d], rs[..i], d, val)
    requires AccHolds(next, rs[..i + 1], CompanyOf(rs[i]), val)
    ensures var acc' := acc[CompanyOf(rs[i]) := next];
      forall d :: d in acc' ==> AccHolds(acc'[d], rs[..i + 1], d, val)
  {
    var c := CompanyOf(rs[i]);
    forall d | d in acc && d != c ensures AccHolds(acc[d], rs[..i + 1], d, val) {
      AccOther(acc[d], rs, i, d, val);
    }
  }

  /** The grand totals loop: the sum of the company totals, which is the sum over all receipts. */
  method SumCompanies(byCompany: map<string, CompanyTotals>, companies: seq<string>, rs: seq<Receipt>)
    returns (totalIncome: real, totalPayment: real)
    requires companies == KeysInOrder(rs, CompanyOf)
    requires forall c :: c in companies ==> c in byCompany
    requires forall c :: c in byCompany ==>
      && byCompany[c].totalIncome == SumWhere(rs, CompanyOf, c, IncomeOf)
      && byCompany[c].totalPayment == SumWhere(rs, CompanyOf, c, PaymentOf)
    ensures totalIncome == SumOf(rs, IncomeOf)
    ensures totalPayment == SumOf(rs, PaymentOf)
  {
    totalIncome, totalPayment := 0.0, 0.0;
    for k := 0 to |companies|
      invariant totalIncome == SumOverKeys(companies[..k], rs, CompanyOf, IncomeOf)
      invariant totalPayment == SumOverKeys(companies[..k], rs, CompanyOf, PaymentOf)
    {
      SumOverKeysStep(companies, k, rs, IncomeOf);
      SumOverKeysStep(companies, k, rs, PaymentOf);
      totalIncome := totalIncome + byCompany[companies[k]].totalIncome;
      totalPayment := totalPayment + byCompany[companies[k]].totalPayment;
    }
    assert companies[..|companies|] == companies;
    SumOverKeysPartition(rs, CompanyOf, IncomeOf);
    SumOverKeysPartition(rs, CompanyOf, PaymentOf);
  }

  lemma SumOverKeysStep(ks: seq<string>, k: nat, rs: seq<Receipt>, f: Receipt -> real)
    requires k < |ks|
    ensures SumOverKeys(ks[..k + 1], rs, CompanyOf, f) == SumOverKeys(ks[..k], rs, CompanyOf, f) + SumWhere(rs, CompanyOf, ks[k], f)
  {
    assert ks[..k + 1][..k] == ks[..k];
  }

  /** What the accumulator of company c holds after the receipts rs. */
  ghost predicate AccHolds(a: CompanyAcc, rs: seq<Receipt>, c: string, val: StoredRow -> TypeTotals)
  {
    && a.income == SumWhere(rs, CompanyOf, c, IncomeOf)
    && a.payment == SumWhere(rs, CompanyOf, c, PaymentOf)
    && a.receipts == CountWhere(rs, CompanyOf, c)
    && a.customers == CustomersIn(rs, c)
    && BreakdownHolds(a.breakdown, rs, c, val)
  }

  /** The breakdown by type of company c after the receipts rs. */
  ghost predicate BreakdownHolds(bd: map<string, TypeTotals>, rs: seq<Receipt>, c: string, val: StoredRow -> TypeTotals)
  {
    && (forall t :: t in bd <==> BreakdownSpec(rs, c, t, val).count > 0)
    && (forall t :: Get(bd, t) == BreakdownSpec(rs, c, t, val))
  }

  /** A company that has no receipt yet starts from zero. */
  lemma NewCompanyHolds(rs: seq<Receipt>, c: string, val: StoredRow -> TypeTotals)
    requires forall k :: 0 <= k < |rs| ==> CompanyOf(rs[k]) != c
    ensures AccHolds(NewCompany, rs, c, val)
  {
    SumWhereAbsent(rs, CompanyOf, c, IncomeOf);
    SumWhereAbsent(rs, CompanyOf, c, PaymentOf);
    CountWhereAbsent(rs, CompanyOf, c);
    CustomersInAbsent(rs, c);
    forall t ensures BreakdownSpec(rs, c, t, val) == NoRows {
      BreakdownSpecAbsent(rs, c, t, val);
    }
    assert forall t :: t in NewCompany.breakdown <==> BreakdownSpec(rs, c, t, val).count > 0;
    assert forall t :: Get(NewCompany.breakdown, t) == BreakdownSpec(rs, c, t, val);
  }
  /** Adding the receipt rs[i] to the accumulator of its own company. */
  lemma AccStep(cur: CompanyAcc, next: CompanyAcc, rs: seq<Receipt>, i: nat, val: StoredRow -> TypeTotals)
    requires i < |rs|
    requires AccHolds(cur, rs[..i], CompanyOf(rs[i]), val)
    requires next.income == cur.income + IncomeOf(rs[i])
    requires next.payment == cur.payment + PaymentOf(rs[i])
    requires next.receipts == cur.receipts + 1
    requires next.customers == cur.customers + {rs[i].customerId}
    requires forall t :: t in next.breakdown <==> t in cur.breakdown || RowsTotals(rs[i].gameRows, t, val).count > 0
    requires forall t :: Get(next.breakdown, t) == Plus(Get(cur.breakdown, t), RowsTotals(rs[i].gameRows, t, val))
    ensures AccHolds(next, rs[..i + 1], CompanyOf(rs[i]), val)
  {
    var s, c, r := rs[..i + 1], CompanyOf(rs[i]), rs[i];
    assert s[..|s| - 1] == rs[..i] && s[|s| - 1] == r;
    assert SumWhere(s, CompanyOf, c, IncomeOf) == cur.income + IncomeOf(r);
    assert SumWhere(s, CompanyOf, c, PaymentOf) == cur.payment + PaymentOf(r);
    assert CountWhere(s, CompanyOf, c) == cur.receipts + 1;
    assert CustomersIn(s, c) == cur.customers + {r.customerId};
    forall t ensures Get(next.breakdown, t) == BreakdownSpec(s, c, t, val) {
      assert BreakdownSpec(s, c, t, val) == Plus(BreakdownSpec(rs[..i], c, t, val), RowsTotals(r.gameRows, t, val));
    }
    forall t ensures t in next.breakdown <==> BreakdownSpec(s, c, t, val).count > 0 {
      assert BreakdownSpec(s, c, t, val) == Plus(BreakdownSpec(rs[..i], c, t, val), RowsTotals(r.gameRows, t, val));
    }
  }

  /** The receipt rs[i] leaves the accumulators of the other companies as they are. */
  lemma AccOther(a: CompanyAcc, rs: seq<Receipt>, i: nat, d: string, val: StoredRow -> TypeTotals)
    requires i < |rs| && CompanyOf(rs[i]) != d
    requires AccHolds(a, rs[..i], d, val)
    ensures AccHolds(a, rs[..i + 1], d, val)
  {
    var s := rs[..i + 1];
    assert s[..|s| - 1] == rs[..i] && s[|s| - 1] == rs[i];
    assert SumWhere(s, CompanyOf, d, IncomeOf) == SumWhere(rs[..i], CompanyOf, d, IncomeOf) + 0.0;
    assert SumWhere(s, CompanyOf, d, PaymentOf) == SumWhere(rs[..i], CompanyOf, d, PaymentOf) + 0.0;
    assert CountWhere(s, CompanyOf, d) == CountWhere(rs[..i], CompanyOf, d) + 0;
    var ids := CustomersIn(rs[..i], d);
    assert CustomersIn(s, d) == ids + {};
    assert ids + {} == ids;
    BreakdownOther(a.breakdown, rs, i, d, val);
  }

  lemma BreakdownOther(bd: map<string, TypeTotals>, rs: seq<Receipt>, i: nat, d: string, val: StoredRow -> TypeTotals)
    requires i < |rs| && CompanyOf(rs[i]) != d
    requires BreakdownHolds(bd, rs[..i], d, val)
    ensures BreakdownHolds(bd, rs[..i + 1], d, val)
  {
    var s := rs[..i + 1];
    assert s[..|s| - 1] == rs[..i] && s[|s| - 1] == rs[i];
    forall t ensures BreakdownSpec(s, d, t, val) == BreakdownSpec(rs[..i], d, t, val) {
      var x := BreakdownSpec(rs[..i], d, t, val);
      assert BreakdownSpec(s, d, t, val) == Plus(x, NoRows);
      PlusNoRows(x);
    }
    BreakdownTransfer(bd, rs[..i], s, d, val);
  }

  lemma BreakdownTransfer(bd: map<string, TypeTotals>, rs: seq<Receipt>, rs': seq<Receipt>, c: string,
                          val: StoredRow -> TypeTotals)
    requires BreakdownHolds(bd, rs, c, val)
    requires forall t :: BreakdownSpec(rs', c, t, val) == BreakdownSpec(rs, c, t, val)
    ensures BreakdownHolds(bd, rs', c, val)
  {
  }

  // ---------------------------------------------------------------------------
  // The customer counts as the code computes them

  /**
    `customers.add(receipt.customerId)` as written: the ids are database
    object ids, which a JavaScript Set compares by identity, and every
    receipt document carries its own id object; so the set grows by one per
    receipt and the count is the number of receipts.
   */
  function CustomerCountAsWritten(rs: seq<Receipt>, c: string): nat
  {
    CountWhere(rs, CompanyOf, c)
  }

  /** Two receipts of one customer in one company: the code reports 2 customers, there is 1. */
  lemma CustomerCountDiscrepancy(r: Receipt)
    ensures CustomerCountAsWritten([r, r], CompanyOf(r)) == 2
    ensures |CustomersIn([r, r], CompanyOf(r))| == 1
  {
    var c := CompanyOf(r);
    assert [r, r][..1] == [r] && [r][..0] == [];
    assert CountWhere([r], CompanyOf, c) == 1;
    assert CustomersIn([r], c) == {r.customerId};
  }
}
