/**
  The per-day global values of a vendor (game-book-server/controllers/
  dailyGlobalValuesController.js over models/DailyGlobalValues.js): the
  open, close and jod values that apply to every market on a date. The
  unique (vendorId, date) index makes the collection a map from that key to
  the record, which the handlers change in place. The schema trims the
  date and the three values, when storing and when matching a filter.
 */
module DailyGlobalValues {
  import opened Common
  import opened JsText

  datatype DayKey = DayKey(vendorId: string, date: string)

  datatype DayValues = DayValues(open: string, close: string, jod: string, createdAt: int, updatedAt: int)

  datatype DayReply = DayReply(status: nat, message: string, values: Option<DayValues>)

  const DateRequired := "Date is required"
  const SavedMessage := "Daily global values saved successfully"
  const NoValuesMessage := "No global values found for this date"
  const NotFoundMessage := "Daily global values not found"
  const DeletedMessage := "Daily global values deleted successfully"

  function KeyOf(vendorId: string, date: string): (k: DayKey)
    ensures k.vendorId == vendorId && k.date == Trim(date)
  {
    DayKey(vendorId, Trim(date))
  }

  /** Every stored text is already trimmed. */
  predicate Trimmed(v: DayValues)
  {
    Trim(v.open) == v.open && Trim(v.close) == v.close && Trim(v.jod) == v.jod
  }

  /**
    The record a save leaves: the three values as given (a missing one, sent
    as "", stored as ""), keeping only the creation time of a previous
    record.
   */
  function Saved(previous: Option<DayValues>, open: string, close: string, jod: string, now: int): (v: DayValues)
    ensures Trimmed(v)
    ensures v.open == Trim(open) && v.close == Trim(close) && v.jod == Trim(jod) && v.updatedAt == now
    ensures v.createdAt == if previous.Some? then previous.value.createdAt else now
  {
    TrimIdempotent(open);
    TrimIdempotent(close);
    TrimIdempotent(jod);
    DayValues(Trim(open), Trim(close), Trim(jod), if previous.Some? then previous.value.createdAt else now, now)
  }

  /** A save is a full overwrite: what was stored before does not show through, apart from the creation time. */
  lemma SavedIgnoresPrevious(p: Option<DayValues>, q: Option<DayValues>, open: string, close: string, jod: string, now: int)
    ensures Saved(p, open, close, jod, now).(createdAt := 0) == Saved(q, open, close, jod, now).(createdAt := 0)
  {
  }

  /** A value left out of the body clears the stored one. */
  lemma MissingValueClears(p: DayValues, close: string, jod: string, now: int)
    ensures Saved(Some(p), "", close, jod, now).open == ""
  {
    TrimUnchanged("");
  }

  /** getDailyGlobalValues: success either way; the values are null when none are stored. */
  function GetDailyGlobalValues(table: map<DayKey, DayValues>, vendorId: string, date: string): (reply: DayReply)
    ensures reply.status == 200
    ensures reply.values.Some? <==> KeyOf(vendorId, date) in table
    ensures reply.values.Some? ==> reply.values.value == table[KeyOf(vendorId, date)]
    ensures reply.values.None? ==> reply.message == NoValuesMessage
  {
    var key := KeyOf(vendorId, date);
    if key in table then DayReply(200, "", Some(table[key])) else DayReply(200, NoValuesMessage, None)
  }

  class DailyTable {
    var table: map<DayKey, DayValues>

    ghost predicate Valid()
      reads this
    {
      AllTrimmed(table)
    }

    constructor()
      ensures Valid() && table == map[]
    {
      table := map[];
    }

    /**
      createOrUpdateDailyGlobalValues: 400 without a date; otherwise the
      (vendor, date) record is created or overwritten in full.
     */
    method Upsert(vendorId: string, date: string, open: string, close: string, jod: string, now: int)
      returns (reply: DayReply)
      requires Valid()
      modifies this
      ensures Valid()
      ensures date == "" ==> reply == DayReply(400, DateRequired, None) && table == old(table)
      ensures date != "" ==>
        (var key := KeyOf(vendorId, date);
         var v := Saved(if key in old(table) then Some(old(table)[key]) else None, open, close, jod, now);
         && table == old(table)[key := v]
         && reply == DayReply(200, SavedMessage, Some(v)))
    {
      if date == "" {
        return DayReply(400, DateRequired, None);
      }
      var key := KeyOf(vendorId, date);
      var v := Saved(if key in table then Some(table[key]) else None, open, close, jod, now);
      StoreTrimmed(table, key, v);
      table := table[key := v];
      return DayReply(200, SavedMessage, Some(v));
    }

    /** deleteDailyGlobalValues: the keyed record is removed, or 404 when there is none. */
    method Delete(vendorId: string, date: string) returns (reply: DayReply)
      requires Valid()
      modifies this
      ensures Valid()
      ensures KeyOf(vendorId, date) !in old(table) ==> reply == DayReply(404, NotFoundMessage, None) && table == old(table)
      ensures KeyOf(vendorId, date) in old(table) ==>
        && reply == DayReply(200, DeletedMessage, Some(old(table)[KeyOf(vendorId, date)]))
        && table == old(table) - {KeyOf(vendorId, date)}
    {
      var key := KeyOf(vendorId, date);
      if key !in table {
        return DayReply(404, NotFoundMessage, None);
      }
      var v := table[key];
      table := table - {key};
      return DayReply(200, DeletedMessage, Some(v));
    }
  }

  predicate AllTrimmed(table: map<DayKey, DayValues>)
  {
    forall k :: k in table ==> Trimmed(table[k])
  }

  lemma StoreTrimmed(table: map<DayKey, DayValues>, key: DayKey, v: DayValues)
    requires AllTrimmed(table) && Trimmed(v)
    ensures AllTrimmed(table[key := v])
  {
  }

  /** After a save, a read of the same vendor and date returns exactly what was saved. */
  lemma ReadAfterSave(table: map<DayKey, DayValues>, vendorId: string, date: string, v: DayValues)
    ensures GetDailyGlobalValues(table[KeyOf(vendorId, date) := v], vendorId, date) == DayReply(200, "", Some(v))
  {
  }

  /** After a delete, a read of the same vendor and date finds nothing; other keys are untouched. */
  lemma ReadAfterDelete(table: map<DayKey, DayValues>, vendorId: string, date: string, other: DayKey)
    ensures GetDailyGlobalValues(table - {KeyOf(vendorId, date)}, vendorId, date).values.None?
    ensures other != KeyOf(vendorId, date) && other in table ==>
      other in table - {KeyOf(vendorId, date)} && (table - {KeyOf(vendorId, date)})[other] == table[other]
  {
  }
}
