/**
  The two collections the customer and bulk-income handlers of the server
  change in place: the customers (game-book-server/models/Customer.js) and
  the receipts (game-book-server/models/Receipt.js), held by one store
  object. Documents are kept in the collection's natural (insertion) order,
  which is the order `findOne` without a sort scans them in.
 */
module Database {
  import opened Common
  import opened JsText
  import opened ReceiptModel

  /** A customer document; srNo is the vendor-local serial number. */
  datatype Customer = Customer(id: string, vendorId: string, srNo: int, name: string, address: string)

  /** The (vendorId, srNo) unique index of the customers collection. */
  predicate SrNoUnique(cs: seq<Customer>)
  {
    forall i, j :: 0 <= i < j < |cs| && cs[i].vendorId == cs[j].vendorId ==> cs[i].srNo != cs[j].srNo
  }

  /** The index of the first customer with the given id, when there is one (`Customer.findById`). */
  function CustomerIndex(cs: seq<Customer>, id: string): (k: Option<nat>)
    ensures k.Some? ==> k.value < |cs| && cs[k.value].id == id
    ensures k.Some? ==> forall j :: 0 <= j < k.value ==> cs[j].id != id
    ensures k.None? <==> forall j :: 0 <= j < |cs| ==> cs[j].id != id
  {
    if cs == [] then None
    else if cs[0].id == id then Some(0)
    else match CustomerIndex(cs[1..], id)
      case None => None
      case Some(k) => Some(k + 1)
  }

  /** The customer with that id owned by that vendor (`Customer.findOne({ _id, vendorId })`). */
  function OwnedCustomerIndex(cs: seq<Customer>, id: string, vendorId: string): (k: Option<nat>)
    ensures k.Some? ==> k.value < |cs| && cs[k.value].id == id && cs[k.value].vendorId == vendorId
    ensures k.None? <==> forall j :: 0 <= j < |cs| ==> cs[j].id != id || cs[j].vendorId != vendorId
  {
    if cs == [] then None
    else if cs[0].id == id && cs[0].vendorId == vendorId then Some(0)
    else match OwnedCustomerIndex(cs[1..], id, vendorId)
      case None => None
      case Some(k) => Some(k + 1)
  }

  /** Every customer has an id and a name that is not blank (the schema trims the name and requires one). */
  predicate NamedCustomers(cs: seq<Customer>)
  {
    forall i :: 0 <= i < |cs| ==> cs[i].id != "" && Trim(cs[i].name) != ""
  }

  /** Every receipt passes the schema's validation and has an id below the next one to hand out. */
  predicate StoredReceipts(rs: seq<Receipt>, next: nat)
  {
    forall i :: 0 <= i < |rs| ==> rs[i].id < next && Storable(rs[i])
  }

  class Store {
    var customers: seq<Customer>
    var receipts: seq<Receipt>
    var nextReceiptId: nat

    /**
      What the collections guarantee: the srNo index holds, every customer
      is named, and every receipt is valid with an id below the next one.
     */
    ghost predicate Valid()
      reads this
    {
      && SrNoUnique(customers)
      && NamedCustomers(customers)
      && StoredReceipts(receipts, nextReceiptId)
    }

    constructor()
      ensures Valid() && customers == [] && receipts == [] && nextReceiptId == 0
    {
      customers := [];
      receipts := [];
      nextReceiptId := 0;
    }
  }
}
