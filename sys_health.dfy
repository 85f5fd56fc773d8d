/**
  The hidden system-health switch (game-book-server/models/Counter.js,
  the SysHealth model): a single record saying whether the app is enabled
  and why not. The collection holds at most one record; `findOne` returns
  it. Every save, the creating one included, stamps lastModified.
 */
module SysHealth {
  import opened Common

  datatype HealthRecord = HealthRecord(isEnabled: bool, reason: string, lastModified: int)

  /** The schema default of reason. */
  const DefaultReason := ".."

  class HealthStore {
    var record: Option<HealthRecord>

    /** A stored reason is never empty: it starts as the default and is only replaced by a non-empty one. */
    ghost predicate Valid()
      reads this
    {
      record.Some? ==> record.value.reason != ""
    }

    constructor()
      ensures Valid() && record.None?
    {
      record := None;
    }

    /**
      `SysHealth.create({ isEnabled, reason })`: an absent reason takes the
      default; the pre-save hook sets lastModified to now. Every caller
      passes either no reason or a non-empty one.
     */
    method Create(isEnabled: bool, reason: Option<string>, now: int)
      requires Valid() && record.None?
      requires reason.Some? ==> reason.value != ""
      modifies this
      ensures Valid()
      ensures record == Some(HealthRecord(isEnabled, if reason.None? then DefaultReason else reason.value, now))
    {
      record := Some(HealthRecord(isEnabled, if reason.None? then DefaultReason else reason.value, now));
    }

    /** `sysHealth.save()` after changing the flag and possibly the reason. */
    method Save(isEnabled: bool, reason: string, now: int)
      requires Valid() && record.Some? && reason != ""
      modifies this
      ensures Valid()
      ensures record == Some(HealthRecord(isEnabled, reason, now))
    {
      record := Some(HealthRecord(isEnabled, reason, now));
    }
  }
}
