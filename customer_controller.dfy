/**
  The vendor's customer book (game-book-server/controllers/customerController.js):
  creating a customer with the next serial number, listing the customers in
  serial order with the balance of their latest receipt, editing and deleting
  one, and setting a customer's balance by rewriting (or creating) the latest
  receipt. Every handler acts for the vendor the auth middleware loaded;
  ids the database would generate are parameters.
 */
module CustomerController {
  import opened Common
  import opened JsText
  import opened ReceiptModel
  import opened Database
  import opened Sorting

  /** The status code and message of a reply. */
  datatype Reply = Reply(status: nat, message: string)

  const ServerError := "Server error while creating customer"

  /** The highest srNo among the vendor's customers, if it has any. */
  function MaxSrNo(cs: seq<Customer>, vendorId: string): (m: Option<int>)
    ensures m.None? <==> forall i :: 0 <= i < |cs| ==> cs[i].vendorId != vendorId
    ensures m.Some? ==> exists i :: 0 <= i < |cs| && cs[i].vendorId == vendorId && cs[i].srNo == m.value
    ensures m.Some? ==> forall i :: 0 <= i < |cs| && cs[i].vendorId == vendorId ==> cs[i].srNo <= m.value
  {
    if cs == [] then None
    else
      var c := cs[|cs| - 1];
      var m := MaxSrNo(cs[..|cs| - 1], vendorId);
      if c.vendorId != vendorId then m
      else if m.None? || m.value < c.srNo then Some(c.srNo)
      else m
  }

  /** The serial number a new customer of the vendor gets: one past the highest, or 1. */
  function NextSrNo(cs: seq<Customer>, vendorId: string): (n: int)
    ensures forall i :: 0 <= i < |cs| && cs[i].vendorId == vendorId ==> cs[i].srNo < n
    ensures (forall i :: 0 <= i < |cs| ==> cs[i].vendorId != vendorId) ==> n == 1
  {
    match MaxSrNo(cs, vendorId)
    case None => 1
    case Some(m) => m + 1
  }

  /** A customer numbered by NextSrNo keeps the vendor's serial numbers unique. */
  lemma NextSrNoKeepsUnique(cs: seq<Customer>, c: Customer)
    requires SrNoUnique(cs) && c.srNo == NextSrNo(cs, c.vendorId)
    ensures SrNoUnique(cs + [c])
  {
    var cs' := cs + [c];
    forall i, j | 0 <= i < j < |cs'| && cs'[i].vendorId == cs'[j].vendorId ensures cs'[i].srNo != cs'[j].srNo {
      if j == |cs| {
        assert cs'[i] == cs[i];
      } else {
        assert cs'[i] == cs[i] && cs'[j] == cs[j];
      }
    }
  }

  predicate NameTaken(cs: seq<Customer>, name: string, vendorId: string)
  {
    exists i :: 0 <= i < |cs| && cs[i].name == name && cs[i].vendorId == vendorId
  }

  /** A name sent with padding is a duplicate of the stored, trimmed name. */
  lemma PaddedNameIsTaken(c: Customer)
    requires c.name == "Bob"
    ensures NameTaken([c], Trim(" Bob "), c.vendorId)
  {
    var s := " Bob ";
    assert SpaceEnd(s, 1) == 1;
    assert SpaceEnd(s, 0) == 1;
    var t := s[1..];
    assert t == "Bob ";
    assert SpaceStart(t, 3) == 3;
    assert SpaceStart(t, 4) == 3;
    assert t[..3] == "Bob";
    assert TrimStart(s) == t;
    assert Trim(s) == "Bob";
    assert [c][0].name == Trim(s);
  }

  /**
    POST /api/customers. The schema trims the name both in the duplicate
    check's query filter and on save, and a name that trims to nothing fails
    the required validator. The activity log entry is not modelled.
   */
  method CreateCustomer(store: Store, vendorId: string, name: string, address: string, newId: string)
    returns (reply: Reply, created: Option<Customer>)
    requires store.Valid()
    requires newId != ""
    modifies store
    ensures store.Valid()
    ensures store.receipts == old(store.receipts) && store.nextReceiptId == old(store.nextReceiptId)
    ensures name == "" ==> reply == Reply(400, "Customer name is required")
    ensures name != "" && NameTaken(old(store.customers), Trim(name), vendorId) ==>
      reply == Reply(400, "A customer with this name already exists")
    ensures name != "" && !NameTaken(old(store.customers), Trim(name), vendorId) && Trim(name) == "" ==>
      reply == Reply(500, ServerError)
    ensures reply.status != 201 ==> created.None? && store.customers == old(store.customers)
    ensures name != "" && !NameTaken(old(store.customers), Trim(name), vendorId) && Trim(name) != "" ==>
      && reply.status == 201
      && created == Some(Customer(newId, vendorId, NextSrNo(old(store.customers), vendorId), Trim(name), Trim(address)))
      && store.customers == old(store.customers) + [created.value]
    ensures reply.status == 201 ==> !NameTaken(old(store.customers), created.value.name, vendorId)
  {
    if name == "" {
      return Reply(400, "Customer name is required"), None;
    }
    if NameTaken(store.customers, Trim(name), vendorId) {
      return Reply(400, "A customer with this name already exists"), None;
    }
    var srNo := NextSrNo(store.customers, vendorId);
    if Trim(name) == "" {
      return Reply(500, ServerError), None;
    }
    var c := Customer(newId, vendorId, srNo, Trim(name), Trim(address));
    TrimIdempotent(name);
    NextSrNoKeepsUnique(store.customers, c);
    store.customers := store.customers + [c];
    return Reply(201, ""), Some(c);
  }

  /** A listed customer with the balance of its latest receipt. */
  datatype CustomerBalance = CustomerBalance(customer: Customer, latestBalance: real, advanceAmount: real)

  predicate OwnsReceipt(r: Receipt, customerId: string, vendorId: string)
  {
    r.customerId == customerId && r.vendorId == vendorId
  }

  /** The `sort({ date: -1, createdAt: -1 })` order: a is strictly ahead of b. */
  predicate Later(a: Receipt, b: Receipt)
  {
    a.date > b.date || (a.date == b.date && a.createdAt > b.createdAt)
  }

  /**
    The receipt `findOne({ customerId, vendorId }).sort({ date: -1, createdAt: -1 })`
    returns: no matching receipt is later, and it is the first of those that
    tie with it.
   */
  function LatestReceipt(rs: seq<Receipt>, customerId: string, vendorId: string): (k: Option<nat>)
    ensures k.None? <==> forall j :: 0 <= j < |rs| ==> !OwnsReceipt(rs[j], customerId, vendorId)
    ensures k.Some? ==> k.value < |rs| && OwnsReceipt(rs[k.value], customerId, vendorId)
    ensures k.Some? ==> forall j :: 0 <= j < |rs| && OwnsReceipt(rs[j], customerId, vendorId) ==> !Later(rs[j], rs[k.value])
    ensures k.Some? ==> forall j :: 0 <= j < k.value && OwnsReceipt(rs[j], customerId, vendorId) ==> Later(rs[k.value], rs[j])
  {
    if rs == [] then None
    else
      var k := LatestReceipt(rs[..|rs| - 1], customerId, vendorId);
      var r := rs[|rs| - 1];
      if !OwnsReceipt(r, customerId, vendorId) then k
      else if k.None? || Later(r, rs[k.value]) then Some(|rs| - 1)
      else k
  }

  /** The latest receipt is the only index with the three properties above. */
  lemma LatestReceiptUnique(rs: seq<Receipt>, customerId: string, vendorId: string, m: nat)
    requires m < |rs| && OwnsReceipt(rs[m], customerId, vendorId)
    requires forall j :: 0 <= j < |rs| && OwnsReceipt(rs[j], customerId, vendorId) ==> !Later(rs[j], rs[m])
    requires forall j :: 0 <= j < m && OwnsReceipt(rs[j], customerId, vendorId) ==> Later(rs[m], rs[j])
    ensures LatestReceipt(rs, customerId, vendorId) == Some(m)
  {
  }

  /** (latestBalance, advanceAmount) as the listing reports them: 0 without a receipt. */
  function BalanceOf(rs: seq<Receipt>, customerId: string, vendorId: string): (b: (real, real))
    ensures (forall j :: 0 <= j < |rs| ==> !OwnsReceipt(rs[j], customerId, vendorId)) ==> b == (0.0, 0.0)
    ensures LatestReceipt(rs, customerId, vendorId).Some? ==>
      var r := rs[LatestReceipt(rs, customerId, vendorId).value];
      b == (r.money.finalTotalAfterChuk, r.money.finalTotal)
  {
    match LatestReceipt(rs, customerId, vendorId)
    case None => (0.0, 0.0)
    case Some(k) => (rs[k].money.finalTotalAfterChuk, rs[k].money.finalTotal)
  }

  predicate SrNoLe(a: Customer, b: Customer)
  {
    a.srNo <= b.srNo
  }

  function VendorCustomers(cs: seq<Customer>, vendorId: string): seq<Customer>
  {
    Filter(cs, (c: Customer) => c.vendorId == vendorId)
  }

  /** The vendor's customers in `sort({ srNo: 1 })` order. */
  function SortedCustomers(cs: seq<Customer>, vendorId: string): (r: seq<Customer>)
    ensures multiset(r) == multiset(VendorCustomers(cs, vendorId))
  {
    SortBy(VendorCustomers(cs, vendorId), SrNoLe)
  }

  /** The sorted listing holds exactly the vendor's customers, in srNo order. */
  lemma SortedCustomersContents(cs: seq<Customer>, vendorId: string)
    ensures forall c :: c in SortedCustomers(cs, vendorId) <==> c in cs && c.vendorId == vendorId
    ensures forall i, j :: 0 <= i < j < |SortedCustomers(cs, vendorId)| ==>
      SortedCustomers(cs, vendorId)[i].srNo <= SortedCustomers(cs, vendorId)[j].srNo
  {
    var mine := VendorCustomers(cs, vendorId);
    SortByMembers(mine, SrNoLe);
    FilterMembers(cs, (c: Customer) => c.vendorId == vendorId);
    SortBySorted(mine, SrNoLe);
  }

  /** GET /api/customers: the vendor's customers by srNo, each with its latest balance. */
  function ListCustomers(cs: seq<Customer>, rs: seq<Receipt>, vendorId: string): (r: seq<CustomerBalance>)
    ensures |r| == |SortedCustomers(cs, vendorId)|
    ensures forall i :: 0 <= i < |r| ==> r[i].customer == SortedCustomers(cs, vendorId)[i]
    ensures forall i :: 0 <= i < |r| ==>
      (r[i].latestBalance, r[i].advanceAmount) == BalanceOf(rs, r[i].customer.id, vendorId)
  {
    var sorted := SortedCustomers(cs, vendorId);
    seq(|sorted|, i requires 0 <= i < |sorted| =>
      var b := BalanceOf(rs, sorted[i].id, vendorId);
      CustomerBalance(sorted[i], b.0, b.1))
  }

  /**
    PUT /api/customers/:id. An empty name or address keeps the stored one;
    a name that trims to nothing fails validation and nothing is saved.
   */
  method UpdateCustomer(store: Store, vendorId: string, id: string, name: string, address: string)
    returns (reply: Reply)
    requires store.Valid()
    modifies store
    ensures store.Valid()
    ensures store.receipts == old(store.receipts) && store.nextReceiptId == old(store.nextReceiptId)
    ensures OwnedCustomerIndex(old(store.customers), id, vendorId).None? ==>
      reply == Reply(404, "Customer not found") && store.customers == old(store.customers)
    ensures reply.status != 200 ==> store.customers == old(store.customers)
    ensures OwnedCustomerIndex(old(store.customers), id, vendorId).Some? ==>
      var k := OwnedCustomerIndex(old(store.customers), id, vendorId).value;
      var c := old(store.customers)[k];
      if name != "" && Trim(name) == "" then reply == Reply(500, "Server error while updating customer")
      else
        && reply.status == 200
        && store.customers == old(store.customers)[k := Edited(c, name, address)]
  {
    var k := OwnedCustomerIndex(store.customers, id, vendorId);
    if k.None? {
      return Reply(404, "Customer not found");
    }
    if name != "" && Trim(name) == "" {
      return Reply(500, "Server error while updating customer");
    }
    var c := store.customers[k.value];
    TrimIdempotent(name);
    store.customers := store.customers[k.value := Edited(c, name, address)];
    return Reply(200, "");
  }

  /** `customer.name = name || customer.name` and the same for the address, trimmed by the schema. */
  function Edited(c: Customer, name: string, address: string): (e: Customer)
    ensures e.id == c.id && e.vendorId == c.vendorId && e.srNo == c.srNo
    ensures name == "" ==> e.name == c.name
    ensures address == "" ==> e.address == c.address
    ensures name != "" ==> e.name == Trim(name)
    ensures address != "" ==> e.address == Trim(address)
  {
    c.(name := if name != "" then Trim(name) else c.name,
       address := if address != "" then Trim(address) else c.address)
  }

  /** An edit that sends neither field leaves the customer as it was. */
  lemma EditedNothingIsIdentity(c: Customer)
    ensures Edited(c, "", "") == c
  {
  }

  /** Removing one customer keeps the srNo index and the names of the others. */
  lemma RemoveKeepsCustomersValid(cs: seq<Customer>, k: nat)
    requires k < |cs| && SrNoUnique(cs) && NamedCustomers(cs)
    ensures SrNoUnique(cs[..k] + cs[k + 1..]) && NamedCustomers(cs[..k] + cs[k + 1..])
  {
    var ds := cs[..k] + cs[k + 1..];
    forall i | 0 <= i < |ds|
      ensures ds[i] == cs[if i < k then i else i + 1]
    {
    }
  }

  /** DELETE /api/customers/:id: removes the first matching customer; its receipts stay. */
  method DeleteCustomer(store: Store, vendorId: string, id: string) returns (reply: Reply)
    requires store.Valid()
    modifies store
    ensures store.Valid()
    ensures store.receipts == old(store.receipts) && store.nextReceiptId == old(store.nextReceiptId)
    ensures OwnedCustomerIndex(old(store.customers), id, vendorId).None? ==>
      reply == Reply(404, "Customer not found") && store.customers == old(store.customers)
    ensures OwnedCustomerIndex(old(store.customers), id, vendorId).Some? ==>
      var k := OwnedCustomerIndex(old(store.customers), id, vendorId).value;
      && reply == Reply(200, "Customer removed successfully")
      && store.customers == old(store.customers)[..k] + old(store.customers)[k + 1..]
  {
    var k := OwnedCustomerIndex(store.customers, id, vendorId);
    if k.None? {
      return Reply(404, "Customer not found");
    }
    var cs := store.customers;
    RemoveKeepsCustomersValid(cs, k.value);
    store.customers := cs[..k.value] + cs[k.value + 1..];
    return Reply(200, "Customer removed successfully");
  }

  /** The signed balance: what the customer owes (yene) is positive, what is owed to them (dene) negative. */
  function FinalBalance(yene: real, dene: real): (b: real)
    ensures b > 0.0 <==> yene > 0.0
    ensures b < 0.0 <==> yene <= 0.0 && dene > 0.0
    ensures b > 0.0 ==> b == yene
    ensures b < 0.0 ==> b == -dene
  {
    if yene > 0.0 then yene
    else if dene > 0.0 then -dene
    else 0.0
  }

  /** The latest receipt after the balance is written into it. */
  function WithBalance(r: Receipt, balance: real, advance: real, now: int): (w: Receipt)
    ensures w.money.finalTotalAfterChuk == balance && w.money.finalTotal == advance
    ensures w.(money := r.money, updatedAt := r.updatedAt) == r
    ensures w.id == r.id && w.date == r.date && w.createdAt == r.createdAt
    ensures OwnsReceipt(w, r.customerId, r.vendorId) && (Storable(w) <==> Storable(r))
  {
    r.(money := r.money.(finalTotalAfterChuk := balance, finalTotal := advance), updatedAt := now)
  }

  /** Zero money except the two balance fields. */
  function BalanceMoney(balance: real, advance: real): (m: Money)
    ensures m.finalTotalAfterChuk == balance && m.finalTotal == advance
  {
    ZeroMoney.(finalTotalAfterChuk := balance, finalTotal := advance)
  }

  /**
    The receipt created when the customer has none, as written: only the
    references, the date and the two balance fields are given (the other
    keys it passes are not in the schema and are dropped).
   */
  function BalanceReceiptAsWritten(id: nat, customerId: string, vendorId: string, balance: real,
                                   advance: real, now: int): (r: Receipt)
    ensures !Storable(r)
    ensures r.money.finalTotalAfterChuk == balance && r.money.finalTotal == advance
  {
    NewReceipt(id, vendorId, customerId, "", "", now, BalanceMoney(balance, advance), now)
  }

  /** The outcome of `Receipt.create`: the schema's required validator decides. */
  function CreateReply(r: Receipt): (reply: Reply)
    ensures reply.status == 200 <==> Storable(r)
    ensures reply.status != 200 ==> reply == Reply(500, "Server error while updating balance")
  {
    if Storable(r) then Reply(200, "Balance updated successfully")
    else Reply(500, "Server error while updating balance")
  }

  /** As written, a customer without receipts can never have a balance set: the request ends in a 500. */
  lemma NoReceiptAsWrittenFails(id: nat, customerId: string, vendorId: string, balance: real,
                                advance: real, now: int)
    ensures CreateReply(BalanceReceiptAsWritten(id, customerId, vendorId, balance, advance, now)).status == 500
  {
  }

  /**
    The receipt created when the customer has none, with the required
    names filled in from the customer and the vendor.
   */
  function BalanceReceipt(id: nat, c: Customer, businessName: string, balance: real, advance: real,
                          now: int): (r: Receipt)
    ensures c.vendorId != "" && c.id != "" && Trim(c.name) != "" && Trim(businessName) != "" ==> Storable(r)
    ensures r.businessName == Trim(businessName) && r.customerName == Trim(c.name)
    ensures OwnsReceipt(r, c.id, c.vendorId) && r.id == id
    ensures r.money.finalTotalAfterChuk == balance && r.money.finalTotal == advance
  {
    NewReceipt(id, c.vendorId, c.id, businessName, c.name, now, BalanceMoney(balance, advance), now)
  }

  /** With the names filled in, the create succeeds for every customer the store holds. */
  lemma NoReceiptCorrectedSucceeds(id: nat, c: Customer, businessName: string, balance: real,
                                   advance: real, now: int)
    requires c.vendorId != "" && c.id != "" && Trim(c.name) != "" && Trim(businessName) != ""
    ensures CreateReply(BalanceReceipt(id, c, businessName, balance, advance, now)).status == 200
  {
  }

  /** Rewriting the latest receipt makes its balance the customer's listed balance. */
  lemma BalanceAfterRewrite(rs: seq<Receipt>, customerId: string, vendorId: string, k: nat,
                            balance: real, advance: real, now: int)
    requires LatestReceipt(rs, customerId, vendorId) == Some(k)
    ensures BalanceOf(rs[k := WithBalance(rs[k], balance, advance, now)], customerId, vendorId) == (balance, advance)
  {
    var rs' := rs[k := WithBalance(rs[k], balance, advance, now)];
    assert forall j :: 0 <= j < |rs| ==>
      (rs'[j].date == rs[j].date && rs'[j].createdAt == rs[j].createdAt
       && (OwnsReceipt(rs'[j], customerId, vendorId) <==> OwnsReceipt(rs[j], customerId, vendorId)));
    LatestReceiptUnique(rs', customerId, vendorId, k);
  }

  /** A first receipt appended for the customer becomes its listed balance. */
  lemma BalanceAfterCreate(rs: seq<Receipt>, customerId: string, vendorId: string, r: Receipt)
    requires LatestReceipt(rs, customerId, vendorId).None?
    requires OwnsReceipt(r, customerId, vendorId)
    ensures BalanceOf(rs + [r], customerId, vendorId) == (r.money.finalTotalAfterChuk, r.money.finalTotal)
  {
    LatestReceiptUnique(rs + [r], customerId, vendorId, |rs|);
  }

  /**
    Writes the balance into the customer's latest receipt, or into a new
    receipt when it has none; either way it becomes the listed balance.
   */
  method WriteBalance(store: Store, c: Customer, businessName: string, balance: real, advance: real, now: int)
    requires store.Valid()
    requires c.vendorId != "" && c.id != "" && Trim(c.name) != "" && Trim(businessName) != ""
    modifies store
    ensures store.Valid()
    ensures store.customers == old(store.customers)
    ensures BalanceOf(store.receipts, c.id, c.vendorId) == (balance, advance)
    ensures LatestReceipt(old(store.receipts), c.id, c.vendorId).Some? ==>
      var k := LatestReceipt(old(store.receipts), c.id, c.vendorId).value;
      store.receipts == old(store.receipts)[k := WithBalance(old(store.receipts)[k], balance, advance, now)]
    ensures LatestReceipt(old(store.receipts), c.id, c.vendorId).None? ==>
      store.receipts == old(store.receipts) + [BalanceReceipt(old(store.nextReceiptId), c, businessName, balance, advance, now)]
  {
    var latest := LatestReceipt(store.receipts, c.id, c.vendorId);
    var rs := store.receipts;
    if latest.Some? {
      var k := latest.value;
      BalanceAfterRewrite(rs, c.id, c.vendorId, k, balance, advance, now);
      store.receipts := rs[k := WithBalance(rs[k], balance, advance, now)];
    } else {
      var r := BalanceReceipt(store.nextReceiptId, c, businessName, balance, advance, now);
      BalanceAfterCreate(rs, c.id, c.vendorId, r);
      store.receipts := rs + [r];
      store.nextReceiptId := store.nextReceiptId + 1;
    }
  }

  /**
    PUT /api/customers/:id/balance. Afterwards the customer's listed balance
    is the new one. The vendor's business name (required by its own schema)
    names the receipt created when there is none; the activity log entry is
    not modelled.
   */
  method UpdateCustomerBalance(store: Store, vendorId: string, businessName: string, id: string,
                               yene: string, dene: string, advance: string, now: int)
    returns (reply: Reply, balance: Option<(real, real)>)
    requires store.Valid()
    requires vendorId != "" && id != "" && Trim(businessName) != ""
    modifies store
    ensures store.Valid()
    ensures store.customers == old(store.customers)
    ensures OwnedCustomerIndex(store.customers, id, vendorId).None? ==>
      reply == Reply(404, "Customer not found") && balance.None? && store.receipts == old(store.receipts)
    ensures (OwnedCustomerIndex(store.customers, id, vendorId).Some? &&
      ParseFloatOr0(yene) > 0.0 && ParseFloatOr0(dene) > 0.0) ==>
      && reply == Reply(400, "Cannot set both येणे and देणे. Only one can have a value at a time.")
      && balance.None? && store.receipts == old(store.receipts)
    ensures (OwnedCustomerIndex(store.customers, id, vendorId).Some? &&
      !(ParseFloatOr0(yene) > 0.0 && ParseFloatOr0(dene) > 0.0)) ==>
      var b := (FinalBalance(ParseFloatOr0(yene), ParseFloatOr0(dene)), ParseFloatOr0(advance));
      && reply == Reply(200, "Balance updated successfully")
      && balance == Some(b)
      && BalanceOf(store.receipts, id, vendorId) == b
      && (LatestReceipt(old(store.receipts), id, vendorId).Some? ==>
            var k := LatestReceipt(old(store.receipts), id, vendorId).value;
            store.receipts == old(store.receipts)[k := WithBalance(old(store.receipts)[k], b.0, b.1, now)])
      && (LatestReceipt(old(store.receipts), id, vendorId).None? ==>
            var c := store.customers[OwnedCustomerIndex(store.customers, id, vendorId).value];
            store.receipts == old(store.receipts) + [BalanceReceipt(old(store.nextReceiptId), c, businessName, b.0, b.1, now)])
  {
    var ck := OwnedCustomerIndex(store.customers, id, vendorId);
    if ck.None? {
      return Reply(404, "Customer not found"), None;
    }
    var y, d, a := ParseFloatOr0(yene), ParseFloatOr0(dene), ParseFloatOr0(advance);
    if y > 0.0 && d > 0.0 {
      return Reply(400, "Cannot set both येणे and देणे. Only one can have a value at a time."), None;
    }
    var fb := FinalBalance(y, d);
    WriteBalance(store, store.customers[ck.value], businessName, fb, a, now);
    return Reply(200, "Balance updated successfully"), Some((fb, a));
  }
}
