/** The per-account failure counter: what each call does to one entry, and the counter itself. */
module LoginAttempts {
  import opened Base

  /** Configured, not checked: neither number has to be positive, or whole. */
  datatype Limits = Limits(maxFailures: real, lockoutMs: real)

  datatype Entry = Entry(count: nat, lockedUntil: real)

  /** The entry as read: one whose lockout has run out is dropped. */
  function LiveEntry(entry: Option<Entry>, now: Time): Option<Entry> {
    if entry.Some? && entry.value.lockedUntil != 0.0 && entry.value.lockedUntil <= now as real then None
    else entry
  }

  predicate Locked(entry: Option<Entry>, now: Time) {
    var live := LiveEntry(entry, now);
    live.Some? && live.value.lockedUntil > now as real
  }

  function Counted(limits: Limits, entry: Option<Entry>, now: Time): Entry {
    var before := LiveEntry(entry, now).GetOr(Entry(0, 0.0));
    var count := before.count + 1;
    Entry(count, if count as real >= limits.maxFailures then now as real + limits.lockoutMs else before.lockedUntil)
  }

  class Counter {
    const limits: Limits
    var failures: map<Id, Entry>

    constructor (limits: Limits)
      ensures this.limits == limits && failures == map[]
    {
      this.limits := limits;
      failures := map[];
    }

    function EntryOf(account: Id): Option<Entry>
      reads this
    {
      if account in failures then Some(failures[account]) else None
    }

    /** Reads an entry and drops it when its lockout has run out. */
    method Live(account: Id, now: Time) returns (entry: Option<Entry>)
      modifies this
      ensures entry == LiveEntry(old(EntryOf(account)), now) == EntryOf(account)
      ensures failures - {account} == old(failures) - {account}
    {
      if account !in failures {
        return None;
      }
      entry := Some(failures[account]);
      if entry.value.lockedUntil != 0.0 && entry.value.lockedUntil <= now as real {
        failures := failures - {account};
        entry := None;
      }
    }

    method IsLocked(account: Id, now: Time) returns (locked: bool)
      modifies this
      ensures locked == Locked(old(EntryOf(account)), now)
      ensures EntryOf(account) == LiveEntry(old(EntryOf(account)), now)
      ensures failures - {account} == old(failures) - {account}
    {
      var entry := Live(account, now);
      locked := entry.Some? && entry.value.lockedUntil > now as real;
    }

    method RecordFailure(account: Id, now: Time)
      modifies this
      ensures EntryOf(account) == Some(Counted(limits, old(EntryOf(account)), now))
      ensures failures - {account} == old(failures) - {account}
    {
      var live := Live(account, now);
      var entry := live.GetOr(Entry(0, 0.0));
      entry := entry.(count := entry.count + 1);
      if entry.count as real >= limits.maxFailures {
        entry := entry.(lockedUntil := now as real + limits.lockoutMs);
      }
      failures := failures[account := entry];
    }

    method Clear(account: Id)
      modifies this
      ensures EntryOf(account) == None
      ensures failures - {account} == old(failures) - {account}
    {
      failures := failures - {account};
    }
  }
}
