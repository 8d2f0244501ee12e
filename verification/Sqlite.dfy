/**
 The shared file and one process's connection to it. SQLite itself is reduced to
 three rules: one writer at a time, a writer that gets the lock sees the latest
 committed content, and commit publishes everything at once.
 */
module Sqlite {
  import opened Wrappers
  import opened HashChain

  /** An embedding, as the bytes stored for it. */
  datatype Vector = Vector(weights: seq<real>)

  datatype Fact = Fact(value: string, source: string, updatedAt: string)

  datatype Database = Database(facts: map<string, Fact>, vectors: map<string, Vector>, events: Table)

  /** `content` is what this connection sees; `committed` is what a rollback returns to. */
  class Connection {
    var content: Database
    var committed: Database
    var inTransaction: bool

    ghost predicate Valid()
      reads this
    {
      && TableOk(content.events)
      && TableOk(committed.events)
      && (!inTransaction ==> content == committed)
    }

    constructor (stored: Database)
      requires TableOk(stored.events)
      ensures Valid() && !inTransaction && content == stored
    {
      content, committed, inTransaction := stored, stored, false;
    }

    /** Takes the write lock and sees `latest`; None means another process kept the lock too long. */
    method Begin(latest: Option<Database>) returns (ok: bool)
      requires Valid() && !inTransaction
      requires latest.Some? ==> TableOk(latest.value.events)
      modifies this
      ensures Valid() && ok == latest.Some? && inTransaction == ok
      ensures content == committed == if ok then latest.value else old(content)
    {
      ok := latest.Some?;
      if ok {
        content, committed, inTransaction := latest.value, latest.value, true;
      }
    }

    method Commit()
      requires Valid()
      modifies this
      ensures Valid() && !inTransaction && content == old(content)
    {
      committed, inTransaction := content, false;
    }

    method Rollback()
      requires Valid()
      modifies this
      ensures Valid() && !inTransaction && content == old(committed)
    {
      content, inTransaction := committed, false;
    }

    /** A read outside any transaction sees what is committed at that moment. */
    method Refresh(latest: Database)
      requires Valid() && !inTransaction && TableOk(latest.events)
      modifies this
      ensures Valid() && !inTransaction && content == latest
    {
      content, committed := latest, latest;
    }

    method SetEvents(events: Table)
      requires Valid() && inTransaction && TableOk(events)
      modifies `content
      ensures Valid() && content == old(content).(events := events)
    {
      content := content.(events := events);
    }
  }
}
