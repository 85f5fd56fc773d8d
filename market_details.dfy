/**
  The market-details staging table (game-book-server/controllers/
  marketDetailsController.js over models/MarketDetails.js): one record per
  (vendor, customer, company, date), holding the open, close and jod values
  typed for that market and the two saved game rows. The table is a class
  whose record list the handlers change in place; the reads are functions
  of the record list.

  The schema trims companyName, open, close and jod, both when storing and
  when matching a filter, so the model trims them wherever the database
  would. Record ids are numbers handed out in order.
 */
module MarketDetails {
  import opened Common
  import opened JsText
  import opened Sorting
  import opened ReceiptModel

  /** The compound unique index (vendorId, customerId, companyName, date). */
  datatype Key = Key(vendorId: string, customerId: string, companyName: string, date: string)

  datatype Record = Record(
    id: nat,
    key: Key,
    open: string,
    close: string,
    jod: string,
    gameRowOpen: Option<StoredRow>,
    gameRowClose: Option<StoredRow>,
    createdAt: int,
    updatedAt: int)

  /** The optional part of the request body; None is a field left undefined. */
  datatype Fields = Fields(
    open: Option<string>,
    close: Option<string>,
    jod: Option<string>,
    gameRowOpen: Option<StoredRow>,
    gameRowClose: Option<StoredRow>)

  datatype MarketReply = MarketReply(status: nat, message: string, record: Option<Record>)

  const RequiredMessage := "customerId, companyName, and date are required"
  const NotFoundMessage := "Market details not found"
  const SavedMessage := "Market details saved successfully"
  const SaveErrorMessage := "Error saving market details"
  const DeletedMessage := "Market details deleted successfully"

  /** The key a request names, with the company name trimmed as the schema does. */
  function KeyOf(vendorId: string, customerId: string, companyName: string, date: string): (k: Key)
    ensures k.vendorId == vendorId && k.customerId == customerId && k.date == date
    ensures k.companyName == Trim(companyName)
  {
    Key(vendorId, customerId, Trim(companyName), date)
  }

  /** At most one record per key, and ids are distinct and below the next id. */
  predicate Indexed(rs: seq<Record>, nextId: nat)
  {
    && (forall i, j :: 0 <= i < j < |rs| ==> rs[i].key != rs[j].key && rs[i].id != rs[j].id)
    && (forall i :: 0 <= i < |rs| ==> rs[i].id < nextId)
  }

  /** The record with that key (`findOne` on the compound key). */
  function KeyIndex(rs: seq<Record>, key: Key): (k: Option<nat>)
    ensures k.Some? ==> k.value < |rs| && rs[k.value].key == key
    ensures k.None? <==> forall j :: 0 <= j < |rs| ==> rs[j].key != key
  {
    if rs == [] then None
    else if rs[0].key == key then Some(0)
    else match KeyIndex(rs[1..], key)
      case None => None
      case Some(k) => Some(k + 1)
  }

  /** The record with that id owned by that vendor (`{ _id: id, vendorId }`). */
  function OwnedIndex(rs: seq<Record>, id: nat, vendorId: string): (k: Option<nat>)
    ensures k.Some? ==> k.value < |rs| && rs[k.value].id == id && rs[k.value].key.vendorId == vendorId
    ensures k.None? <==> forall j :: 0 <= j < |rs| ==> rs[j].id != id || rs[j].key.vendorId != vendorId
  {
    if rs == [] then None
    else if rs[0].id == id && rs[0].key.vendorId == vendorId then Some(0)
    else match OwnedIndex(rs[1..], id, vendorId)
      case None => None
      case Some(k) => Some(k + 1)
  }

  /** Store a provided text field trimmed; keep the old value when it is undefined. */
  function Provided(given: Option<string>, stored: string): (v: string)
    ensures given.Some? ==> v == Trim(given.value)
    ensures given.None? ==> v == stored
  {
    if given.Some? then Trim(given.value) else stored
  }

  function ProvidedRow(given: Option<StoredRow>, stored: Option<StoredRow>): (v: Option<StoredRow>)
    ensures given.Some? ==> v == given
    ensures given.None? ==> v == stored
  {
    if given.Some? then given else stored
  }

  /** A new record: the provided fields, with "" for the text fields left undefined. */
  function Inserted(id: nat, key: Key, f: Fields, now: int): (r: Record)
    ensures r.id == id && r.key == key && r.createdAt == now && r.updatedAt == now
    ensures r.open == Provided(f.open, "") && r.close == Provided(f.close, "") && r.jod == Provided(f.jod, "")
    ensures r.gameRowOpen == f.gameRowOpen && r.gameRowClose == f.gameRowClose
  {
    Record(id, key, Provided(f.open, ""), Provided(f.close, ""), Provided(f.jod, ""),
           f.gameRowOpen, f.gameRowClose, now, now)
  }

  /** An existing record with the provided fields overwritten; the others keep their values. */
  function Merged(r: Record, f: Fields, now: int): (m: Record)
    ensures m.id == r.id && m.key == r.key && m.createdAt == r.createdAt && m.updatedAt == now
    ensures m.open == Provided(f.open, r.open) && m.close == Provided(f.close, r.close)
    ensures m.jod == Provided(f.jod, r.jod)
    ensures m.gameRowOpen == ProvidedRow(f.gameRowOpen, r.gameRowOpen)
    ensures m.gameRowClose == ProvidedRow(f.gameRowClose, r.gameRowClose)
  {
    r.(open := Provided(f.open, r.open), close := Provided(f.close, r.close), jod := Provided(f.jod, r.jod),
       gameRowOpen := ProvidedRow(f.gameRowOpen, r.gameRowOpen),
       gameRowClose := ProvidedRow(f.gameRowClose, r.gameRowClose), updatedAt := now)
  }

  /** A body with no optional field changes nothing but the update time. */
  lemma MergedNothing(r: Record, now: int)
    ensures Merged(r, Fields(None, None, None, None, None), now) == r.(updatedAt := now)
  {
  }

  /** Saving the same body twice is the same as saving it once (up to the update time). */
  lemma MergedIdempotent(r: Record, f: Fields, now: int, later: int)
    ensures Merged(Merged(r, f, now), f, later) == Merged(r, f, later)
  {
    TrimIdempotentOption(f.open);
    TrimIdempotentOption(f.close);
    TrimIdempotentOption(f.jod);
  }

  lemma TrimIdempotentOption(v: Option<string>)
    ensures v.Some? ==> Trim(Trim(v.value)) == Trim(v.value)
  {
    if v.Some? {
      TrimIdempotent(v.value);
    }
  }

  /** A record inserted with some fields equals an empty record merged with them. */
  lemma InsertedIsMergedIntoEmpty(id: nat, key: Key, f: Fields, now: int, earlier: int)
    ensures Inserted(id, key, f, now) == Merged(Record(id, key, "", "", "", None, None, now, earlier), f, now)
  {
  }

  // ---------------------------------------------------------------------------
  // Reads

  /** getMarketDetails: the keyed record, or 404. */
  function GetMarketDetails(rs: seq<Record>, vendorId: string, customerId: string, companyName: string,
                            date: string): (reply: MarketReply)
    ensures reply.status == 200 <==> exists k :: 0 <= k < |rs| && rs[k].key == KeyOf(vendorId, customerId, companyName, date)
    ensures reply.status == 200 ==>
      (reply.record.Some? && reply.record.value in rs
       && reply.record.value.key == KeyOf(vendorId, customerId, companyName, date))
    ensures reply.status != 200 ==> reply == MarketReply(404, NotFoundMessage, None)
  {
    match KeyIndex(rs, KeyOf(vendorId, customerId, companyName, date))
    case None => MarketReply(404, NotFoundMessage, None)
    case Some(k) => MarketReply(200, "", Some(rs[k]))
  }

  /** `.sort({ companyName: 1, customerId: 1 })`: a may come before b. */
  predicate CompanyThenCustomer(a: Record, b: Record)
  {
    StrLe(a.key.companyName, b.key.companyName)
    && (a.key.companyName == b.key.companyName ==> StrLe(a.key.customerId, b.key.customerId))
  }

  lemma CompanyThenCustomerPreorder(s: seq<Record>)
    ensures TotalPreorderOn(s, CompanyThenCustomer)
  {
    forall a, b | a in s && b in s ensures CompanyThenCustomer(a, b) || CompanyThenCustomer(b, a) {
      StrLeTotal(a.key.companyName, b.key.companyName);
      StrLeTotal(a.key.customerId, b.key.customerId);
      if StrLe(a.key.companyName, b.key.companyName) && StrLe(b.key.companyName, a.key.companyName) {
        StrLeAntisymmetric(a.key.companyName, b.key.companyName);
      }
    }
    forall a, b, c | CompanyThenCustomer(a, b) && CompanyThenCustomer(b, c) ensures CompanyThenCustomer(a, c) {
      StrLeTransitive(a.key.companyName, b.key.companyName, c.key.companyName);
      if a.key.companyName == c.key.companyName {
        StrLeAntisymmetric(a.key.companyName, b.key.companyName);
        StrLeTransitive(a.key.customerId, b.key.customerId, c.key.customerId);
      }
    }
  }

  predicate OnDate(r: Record, vendorId: string, date: string)
  {
    r.key.vendorId == vendorId && r.key.date == date
  }

  /** getMarketDetailsByDate: the vendor's records for that date, by company name and then customer. */
  function GetMarketDetailsByDate(rs: seq<Record>, vendorId: string, date: string): (r: seq<Record>)
    ensures multiset(r) == multiset(Filter(rs, (x: Record) => OnDate(x, vendorId, date)))
  {
    SortBy(Filter(rs, (x: Record) => OnDate(x, vendorId, date)), CompanyThenCustomer)
  }

  /** Exactly this vendor's records on that date, each once, in company-then-customer order. */
  lemma GetMarketDetailsByDateContents(rs: seq<Record>, vendorId: string, date: string)
    requires Distinct(rs)
    ensures forall x :: x in GetMarketDetailsByDate(rs, vendorId, date) <==> x in rs && OnDate(x, vendorId, date)
    ensures SortedBy(GetMarketDetailsByDate(rs, vendorId, date), CompanyThenCustomer)
    ensures Distinct(GetMarketDetailsByDate(rs, vendorId, date))
  {
    var f := Filter(rs, (x: Record) => OnDate(x, vendorId, date));
    var r := GetMarketDetailsByDate(rs, vendorId, date);
    forall x ensures x in r <==> x in f {
      assert x in r <==> x in multiset(r);
    }
    forall x | x in rs && OnDate(x, vendorId, date) ensures x in f {
      var i :| 0 <= i < |rs| && rs[i] == x;
    }
    CompanyThenCustomerPreorder(f);
    SortBySorted(f, CompanyThenCustomer);
    FilterDistinct(rs, (x: Record) => OnDate(x, vendorId, date));
    DistinctPermutation(f, r);
  }

  /** Distinct ids make distinct records. */
  lemma IndexedDistinct(rs: seq<Record>, nextId: nat)
    requires Indexed(rs, nextId)
    ensures Distinct(rs)
  {
  }

  /** `.sort({ date: -1, createdAt: -1 })`: a may come before b. */
  predicate NewerFirst(a: Record, b: Record)
  {
    StrLe(b.key.date, a.key.date) && (a.key.date == b.key.date ==> b.createdAt <= a.createdAt)
  }

  lemma NewerFirstPreorder(s: seq<Record>)
    ensures TotalPreorderOn(s, NewerFirst)
  {
    forall a, b | a in s && b in s ensures NewerFirst(a, b) || NewerFirst(b, a) {
      StrLeTotal(a.key.date, b.key.date);
      if StrLe(a.key.date, b.key.date) && StrLe(b.key.date, a.key.date) {
        StrLeAntisymmetric(a.key.date, b.key.date);
      }
    }
    forall a, b, c | NewerFirst(a, b) && NewerFirst(b, c) ensures NewerFirst(a, c) {
      StrLeTransitive(c.key.date, b.key.date, a.key.date);
      if a.key.date == c.key.date {
        StrLeAntisymmetric(a.key.date, b.key.date);
      }
    }
  }

  /** The optional `?date=` filter; "" is no filter. */
  predicate OfCustomer(r: Record, vendorId: string, customerId: string, date: string)
  {
    r.key.vendorId == vendorId && r.key.customerId == customerId && (date != "" ==> r.key.date == date)
  }

  /** getCustomerMarketDetails: the customer's records (of one date if given), newest date first. */
  function GetCustomerMarketDetails(rs: seq<Record>, vendorId: string, customerId: string, date: string)
    : (r: seq<Record>)
    ensures multiset(r) == multiset(Filter(rs, (x: Record) => OfCustomer(x, vendorId, customerId, date)))
  {
    SortBy(Filter(rs, (x: Record) => OfCustomer(x, vendorId, customerId, date)), NewerFirst)
  }

  lemma GetCustomerMarketDetailsContents(rs: seq<Record>, vendorId: string, customerId: string, date: string)
    ensures forall x :: (x in GetCustomerMarketDetails(rs, vendorId, customerId, date)
      <==> x in rs && OfCustomer(x, vendorId, customerId, date))
    ensures SortedBy(GetCustomerMarketDetails(rs, vendorId, customerId, date), NewerFirst)
  {
    var f := Filter(rs, (x: Record) => OfCustomer(x, vendorId, customerId, date));
    var r := GetCustomerMarketDetails(rs, vendorId, customerId, date);
    forall x ensures x in r <==> x in f {
      assert x in r <==> x in multiset(r);
    }
    forall x | x in rs && OfCustomer(x, vendorId, customerId, date) ensures x in f {
      var i :| 0 <= i < |rs| && rs[i] == x;
    }
    NewerFirstPreorder(f);
    SortBySorted(f, NewerFirst);
  }

  // ---------------------------------------------------------------------------
  // The table

  class MarketTable {
    var records: seq<Record>
    var nextId: nat

    ghost predicate Valid()
      reads this
    {
      Indexed(records, nextId)
    }

    constructor()
      ensures Valid() && records == [] && nextId == 0
    {
      records := [];
      nextId := 0;
    }

    /**
      createOrUpdateMarketDetails: 400 without customerId, companyName or
      date; otherwise the keyed record gets the provided fields, and is
      created (with "" for the text fields not provided) when absent. A
      company name of blanks only fails the schema's required check.
     */
    method Upsert(vendorId: string, customerId: string, companyName: string, date: string, f: Fields, now: int)
      returns (reply: MarketReply)
      requires Valid()
      modifies this
      ensures Valid()
      ensures customerId == "" || companyName == "" || date == "" ==>
        reply == MarketReply(400, RequiredMessage, None) && records == old(records) && nextId == old(nextId)
      ensures customerId != "" && companyName != "" && date != "" && Trim(companyName) == "" ==>
        reply == MarketReply(500, SaveErrorMessage, None) && records == old(records) && nextId == old(nextId)
      ensures customerId != "" && date != "" && Trim(companyName) != "" ==>
        (&& (records, nextId) == Upserted(old(records), old(nextId), KeyOf(vendorId, customerId, companyName, date), f, now)
         && KeyIndex(records, KeyOf(vendorId, customerId, companyName, date)).Some?
         && reply == MarketReply(200, SavedMessage,
                                 Some(records[KeyIndex(records, KeyOf(vendorId, customerId, companyName, date)).value])))
    {
      if customerId == "" || companyName == "" || date == "" {
        return MarketReply(400, RequiredMessage, None);
      }
      var key := KeyOf(vendorId, customerId, companyName, date);
      if key.companyName == "" {
        return MarketReply(500, SaveErrorMessage, None);
      }
      var t := Upserted(records, nextId, key, f, now);
      UpsertedIndexed(records, nextId, key, f, now);
      UpsertedFinds(records, nextId, key, f, now);
      records, nextId := t.0, t.1;
      return MarketReply(200, SavedMessage, Some(records[KeyIndex(records, key).value]));
    }

    /** deleteMarketDetails: only a record of this vendor with that id is removed; 404 otherwise. */
    method DeleteById(vendorId: string, id: nat) returns (reply: MarketReply)
      requires Valid()
      modifies this
      ensures Valid() && nextId == old(nextId)
      ensures reply.status == 404 <==> OwnedIndex(old(records), id, vendorId).None?
      ensures reply.status == 404 ==> reply == MarketReply(404, NotFoundMessage, None) && records == old(records)
      ensures reply.status != 404 ==> var k := OwnedIndex(old(records), id, vendorId).value;
        && reply == MarketReply(200, DeletedMessage, Some(old(records)[k]))
        && records == old(records)[..k] + old(records)[k + 1..]
    {
      match OwnedIndex(records, id, vendorId)
      case None =>
        return MarketReply(404, NotFoundMessage, None);
      case Some(k) =>
        var r := records[k];
        RemovePreservesIndexed(records, nextId, k);
        records := records[..k] + records[k + 1..];
        return MarketReply(200, DeletedMessage, Some(r));
    }

    /** deleteMarketDetailsByParams: 400 without the three fields, 404 when the keyed record is absent. */
    method DeleteByKey(vendorId: string, customerId: string, companyName: string, date: string)
      returns (reply: MarketReply)
      requires Valid()
      modifies this
      ensures Valid() && nextId == old(nextId)
      ensures customerId == "" || companyName == "" || date == "" ==>
        reply == MarketReply(400, RequiredMessage, None) && records == old(records)
      ensures reply.status == 404 ==> reply == MarketReply(404, NotFoundMessage, None) && records == old(records)
      ensures customerId != "" && companyName != "" && date != "" ==>
        (reply.status == 404 <==> KeyIndex(old(records), KeyOf(vendorId, customerId, companyName, date)).None?)
      ensures reply.status == 200 ==> var k := KeyIndex(old(records), KeyOf(vendorId, customerId, companyName, date)).value;
        && reply == MarketReply(200, DeletedMessage, Some(old(records)[k]))
        && records == old(records)[..k] + old(records)[k + 1..]
      ensures reply.status == 200 ==> KeyIndex(records, KeyOf(vendorId, customerId, companyName, date)).None?
      ensures reply.status in {200, 400, 404}
    {
      if customerId == "" || companyName == "" || date == "" {
        return MarketReply(400, RequiredMessage, None);
      }
      var key := KeyOf(vendorId, customerId, companyName, date);
      match KeyIndex(records, key)
      case None =>
        return MarketReply(404, NotFoundMessage, None);
      case Some(k) =>
        var r := records[k];
        RemovePreservesIndexed(records, nextId, k);
        RemoveKeyGone(records, nextId, k);
        records := records[..k] + records[k + 1..];
        return MarketReply(200, DeletedMessage, Some(r));
    }

    /**
      clearMarketDetailsByDate: every record of this vendor on that date is
      removed, every other record stays in place, and the count removed is
      reported.
     */
    method ClearByDate(vendorId: string, date: string) returns (deletedCount: nat)
      requires Valid()
      modifies this
      ensures Valid() && nextId == old(nextId)
      ensures records == Filter(old(records), (r: Record) => !OnDate(r, vendorId, date))
      ensures deletedCount == |old(records)| - |records|
      ensures deletedCount == CountWhere(old(records), (r: Record) => OnDate(r, vendorId, date), true)
    {
      var keep := (r: Record) => !OnDate(r, vendorId, date);
      var kept := Filter(records, keep);
      FilterCount(records, keep);
      ClearCount(records, vendorId, date);
      IndexedDistinct(records, nextId);
      FilterDistinct(records, keep);
      FilterPreservesIndexed(records, nextId, keep);
      deletedCount := |records| - |kept|;
      records := kept;
    }
  }

  /** The removed records are counted either way round. */
  lemma {:induction false} ClearCount(rs: seq<Record>, vendorId: string, date: string)
    ensures CountWhere(rs, (r: Record) => !OnDate(r, vendorId, date), false)
         == CountWhere(rs, (r: Record) => OnDate(r, vendorId, date), true)
  {
    if rs != [] {
      ClearCount(rs[..|rs| - 1], vendorId, date);
    }
  }

  /** After the clear, no record of that vendor and date is left, and every other one is. */
  lemma ClearByDateEffect(rs: seq<Record>, vendorId: string, date: string)
    ensures forall x :: (x in Filter(rs, (r: Record) => !OnDate(r, vendorId, date))
      <==> x in rs && !OnDate(x, vendorId, date))
  {
    var f := Filter(rs, (r: Record) => !OnDate(r, vendorId, date));
    forall x | x in rs && !OnDate(x, vendorId, date) ensures x in f {
      var i :| 0 <= i < |rs| && rs[i] == x;
    }
  }

  /**
    The table after saving a body under a key: the keyed record merged with
    the provided fields, or a new record appended under the next id.
   */
  function Upserted(rs: seq<Record>, nextId: nat, key: Key, f: Fields, now: int): (seq<Record>, nat)
  {
    match KeyIndex(rs, key)
    case None => (rs + [Inserted(nextId, key, f, now)], nextId + 1)
    case Some(k) => (rs[k := Merged(rs[k], f, now)], nextId)
  }

  /** Saving keeps one record per key and distinct ids below the next id. */
  lemma UpsertedIndexed(rs: seq<Record>, nextId: nat, key: Key, f: Fields, now: int)
    requires Indexed(rs, nextId)
    ensures Indexed(Upserted(rs, nextId, key, f, now).0, Upserted(rs, nextId, key, f, now).1)
  {
    match KeyIndex(rs, key)
    case None =>
    case Some(k) =>
      var s := rs[k := Merged(rs[k], f, now)];
      forall i, j | 0 <= i < j < |s| ensures s[i].key != s[j].key && s[i].id != s[j].id {
        assert s[i].key == rs[i].key && s[i].id == rs[i].id;
        assert s[j].key == rs[j].key && s[j].id == rs[j].id;
      }
  }

  /**
    After saving, the key finds the merged record, or the new one with the
    next id when the key was absent; the table grows only in that case.
   */
  lemma UpsertedFinds(rs: seq<Record>, nextId: nat, key: Key, f: Fields, now: int)
    requires Indexed(rs, nextId)
    ensures var (s, n) := Upserted(rs, nextId, key, f, now);
      && KeyIndex(s, key).Some?
      && match KeyIndex(rs, key)
         case None => s[KeyIndex(s, key).value] == Inserted(nextId, key, f, now) && |s| == |rs| + 1 && n == nextId + 1
         case Some(k) => s[KeyIndex(s, key).value] == Merged(rs[k], f, now) && |s| == |rs| && n == nextId
  {
    var s := Upserted(rs, nextId, key, f, now).0;
    match KeyIndex(rs, key)
    case None =>
      assert s[|rs|].key == key;
    case Some(k) =>
      assert s[k].key == key;
  }

  /** Saving under one key leaves every record under another key where it was. */
  lemma UpsertedKeepsOthers(rs: seq<Record>, nextId: nat, key: Key, f: Fields, now: int, other: Key)
    requires other != key
    ensures var s := Upserted(rs, nextId, key, f, now).0;
      forall i :: 0 <= i < |s| && s[i].key == other ==> i < |rs| && s[i] == rs[i]
    ensures var s := Upserted(rs, nextId, key, f, now).0;
      forall i :: 0 <= i < |rs| && rs[i].key == other ==> s[i] == rs[i]
  {
  }

  lemma RemovePreservesIndexed(rs: seq<Record>, nextId: nat, k: nat)
    requires Indexed(rs, nextId) && k < |rs|
    ensures Indexed(rs[..k] + rs[k + 1..], nextId)
  {
    var r := rs[..k] + rs[k + 1..];
    forall i | 0 <= i < |r| ensures r[i] == rs[if i < k then i else i + 1] {
    }
  }

  lemma RemoveKeyGone(rs: seq<Record>, nextId: nat, k: nat)
    requires Indexed(rs, nextId) && k < |rs|
    ensures KeyIndex(rs[..k] + rs[k + 1..], rs[k].key).None?
  {
    var r := rs[..k] + rs[k + 1..];
    forall i | 0 <= i < |r| ensures r[i].key != rs[k].key {
      assert r[i] == rs[if i < k then i else i + 1];
    }
  }

  lemma FilterPreservesIndexed(rs: seq<Record>, nextId: nat, p: Record -> bool)
    requires Indexed(rs, nextId) && Distinct(Filter(rs, p))
    ensures Indexed(Filter(rs, p), nextId)
  {
    var f := Filter(rs, p);
    forall i, j | 0 <= i < j < |f| ensures f[i].key != f[j].key && f[i].id != f[j].id {
      var a :| 0 <= a < |rs| && rs[a] == f[i];
      var b :| 0 <= b < |rs| && rs[b] == f[j];
    }
  }
}
