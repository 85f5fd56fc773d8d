/**
  The stored documents the core reads and writes: a receipt with its game
  rows and money fields (game-book-server/models/Receipt.js), the same row
  shape reused by the market-details staging table
  (game-book-server/models/MarketDetails.js), and the money relations the
  client's cascade establishes.

  Conventions: an absent optional string is the empty string (every use in
  the core treats both as falsy and the schemas default them to ""); an
  absent nested object or number is None; dates are millisecond timestamps;
  money is exact.
 */
module ReceiptModel {
  import opened Common
  import opened JsText

  /** A {val1, val2} or {val1, val2, type} pair; tag is None for the untyped 'gun' pair. */
  datatype Pair = Pair(val1: string, val2: string, tag: Option<string>)

  /** One element of gameRows. The market-details copy of the shape has an optional id. */
  datatype StoredRow = StoredRow(
    id: Option<int>,
    rowType: Option<string>,
    income: string,
    o: string,
    jod: string,
    ko: string,
    pan: Option<Pair>,
    gun: Option<Pair>,
    special: Option<Pair>,
    multiplier: Option<real>)

  datatype OpenClose = OpenClose(open: string, close: string, jod: string)

  /** The calculation results a receipt stores (all default 0). */
  datatype Money = Money(
    totalIncome: real,
    deduction: real,
    afterDeduction: real,
    payment: real,
    remainingBalance: real,
    totalDue: real,
    jamaTotal: real,
    finalTotalAfterChuk: real,
    finalTotal: real,
    oFinalTotal: real,
    jodFinalTotal: real,
    koFinalTotal: real,
    panFinalTotal: real,
    gunFinalTotal: real,
    specialFinalTotal: real)

  const ZeroMoney := Money(0.0, 0.0, 0.0, 0.0, 0.0, 0.0, 0.0, 0.0, 0.0, 0.0, 0.0, 0.0, 0.0, 0.0, 0.0)

  datatype Receipt = Receipt(
    id: nat,
    vendorId: string,
    customerId: string,
    businessName: string,
    customerName: string,
    customerCompany: string,
    deductionRate: string,
    date: int,
    day: string,
    gameRows: seq<StoredRow>,
    openClose: Option<OpenClose>,
    pendingAmount: real,
    advanceAmount: real,
    cuttingAmount: real,
    jama: real,
    chuk: real,
    isChukEnabled: bool,
    chukPercentage: string,
    money: Money,
    createdAt: int,
    updatedAt: int)

  /**
    The fields the receipt schema marks required. A required string is
    missing when it is empty, as the database's validator decides; the two
    names are trimmed before that test, so a name of blanks only is missing.
   */
  predicate Storable(r: Receipt)
  {
    r.vendorId != [] && r.customerId != [] && Trim(r.businessName) != [] && Trim(r.customerName) != []
  }

  /**
    The cascade relations every receipt the client saves satisfies, stated
    on the money fields and the jama and chuk inputs: the 10% deduction, the
    balance after payment, and the running subtraction of jama and chuk.
   */
  predicate MoneyCascade(m: Money, jama: real, chuk: real)
  {
    && m.deduction == m.totalIncome * 0.1
    && m.afterDeduction == m.totalIncome - m.deduction
    && m.remainingBalance == m.afterDeduction - m.payment
    && m.totalDue == m.remainingBalance
    && m.jamaTotal == m.totalDue - jama
    && m.finalTotalAfterChuk == m.jamaTotal - chuk
  }

  /** The last step of the cascade, subtracting the advance and the cutting. */
  predicate MoneyFinalTotal(m: Money, advance: real, cutting: real)
  {
    m.finalTotal == m.finalTotalAfterChuk - advance - cutting
  }

  predicate CascadeHolds(r: Receipt)
  {
    MoneyCascade(r.money, r.jama, r.chuk)
  }

  predicate FinalTotalHolds(r: Receipt)
  {
    MoneyFinalTotal(r.money, r.advanceAmount, r.cuttingAmount)
  }

  /**
    A receipt created with only its references, date and money given: every
    other field takes the schema default (deductionRate and chukPercentage
    "10", amounts 0, chuk switched off, no rows); the two names are stored
    trimmed; createdAt and updatedAt are the creation time.
   */
  function NewReceipt(id: nat, vendorId: string, customerId: string, businessName: string,
                      customerName: string, date: int, money: Money, now: int): (r: Receipt)
    ensures r.money == money && r.gameRows == [] && r.openClose.None?
    ensures r.jama == 0.0 && r.chuk == 0.0 && r.advanceAmount == 0.0 && r.cuttingAmount == 0.0
    ensures money == ZeroMoney ==> CascadeHolds(r) && FinalTotalHolds(r)
    ensures r.businessName == Trim(businessName) && r.customerName == Trim(customerName)
    ensures Storable(r) <==> vendorId != [] && customerId != [] && Trim(businessName) != [] && Trim(customerName) != []
  {
    TrimIdempotent(businessName);
    TrimIdempotent(customerName);
    Receipt(id, vendorId, customerId, Trim(businessName), Trim(customerName), "", "10", date, "", [], None,
            0.0, 0.0, 0.0, 0.0, 0.0, false, "10", money, now, now)
  }
}
