/** `migrate`, `append` and `verify` as the server runs them, on one connection. */
module Audit {
  import opened Wrappers
  import opened EventPayload
  import opened HashChain
  import opened Sqlite

  /** Stores both hashes in every row with this id. */
  function SetLinks(rows: seq<Row>, id: int, prev: string, hash: string): (r: seq<Row>)
    ensures |r| == |rows|
  {
    seq(|rows|, i requires 0 <= i < |rows| =>
      if rows[i].event.id == id then Row(rows[i].event, Some(prev), Some(hash)) else rows[i])
  }

  lemma SetLinksChangesOneRow(rows: seq<Row>, i: nat, prev: string, hash: string)
    requires Ordered(rows) && i < |rows|
    ensures SetLinks(rows, rows[i].event.id, prev, hash) == rows[i := Row(rows[i].event, Some(prev), Some(hash))]
  {
    var r := SetLinks(rows, rows[i].event.id, prev, hash);
    forall j | 0 <= j < |rows|
      ensures r[j] == rows[i := Row(rows[i].event, Some(prev), Some(hash))][j]
    {
      if j < i {
        assert rows[j].event.id < rows[i].event.id;
      } else if i < j {
        assert rows[i].event.id < rows[j].event.id;
      }
    }
  }

  /** The first `n` rows are sealed, the others still as they were. */
  ghost predicate Resealed(h: Hasher, legacy: seq<Row>, rows: seq<Row>, n: nat) {
    && n <= |legacy| == |rows|
    && Ordered(rows)
    && (forall j | 0 <= j < |rows| :: rows[j].event == legacy[j].event)
    && rows[..n] == SealRows(h, legacy[..n])
  }

  lemma ResealNext(h: Hasher, legacy: seq<Row>, rows: seq<Row>, n: nat, previous: string)
    requires Resealed(h, legacy, rows, n) && n < |legacy| && Some(previous) == Head(rows[..n])
    ensures
      var digest := Digest(h, Some(previous), legacy[n].event);
      var next := SetLinks(rows, legacy[n].event.id, previous, digest);
      Resealed(h, legacy, next, n + 1) && Head(next[..n + 1]) == Some(digest)
  {
    var digest := Digest(h, Some(previous), legacy[n].event);
    var next := SetLinks(rows, legacy[n].event.id, previous, digest);
    SetLinksChangesOneRow(rows, n, previous, digest);
    assert legacy[..n + 1][..n] == legacy[..n];
    assert next[..n + 1] == rows[..n] + [next[n]];
  }

  /** The table after `n` turns of the loop, which then holds `previous`. */
  ghost predicate Sealing(h: Hasher, legacy: Table, events: Table, n: nat, previous: string) {
    && events == legacy.(columns := legacy.columns + {PREV_HASH, EVENT_HASH}, rows := events.rows)
    && Resealed(h, legacy.rows, events.rows, n)
    && Some(previous) == Head(events.rows[..n])
  }

  lemma SealingTableOk(h: Hasher, legacy: Table, events: Table, n: nat, previous: string)
    requires TableOk(legacy) && Sealing(h, legacy, events, n, previous)
    ensures TableOk(events)
  {
  }

  lemma SealingNext(h: Hasher, legacy: Table, events: Table, n: nat, previous: string)
    requires TableOk(legacy) && Sealing(h, legacy, events, n, previous) && n < |legacy.rows|
    ensures
      var digest := Digest(h, Some(previous), legacy.rows[n].event);
      var next := events.(rows := SetLinks(events.rows, legacy.rows[n].event.id, previous, digest));
      Sealing(h, legacy, next, n + 1, digest) && TableOk(next)
  {
    var digest := Digest(h, Some(previous), legacy.rows[n].event);
    var next := events.(rows := SetLinks(events.rows, legacy.rows[n].event.id, previous, digest));
    ResealNext(h, legacy.rows, events.rows, n, previous);
    SealingTableOk(h, legacy, next, n + 1, digest);
  }

  lemma SealingEnds(h: Hasher, legacy: Table, events: Table, previous: string)
    requires Sealing(h, legacy, events, |legacy.rows|, previous)
    ensures events == legacy.(columns := legacy.columns + {PREV_HASH, EVENT_HASH}, rows := SealRows(h, legacy.rows))
  {
    assert legacy.rows[..|legacy.rows|] == legacy.rows;
    assert events.rows[..|legacy.rows|] == events.rows;
  }

  /** The loop: walks the rows in id order, gives each its link and carries its hash to the next. */
  method SealEach(h: Hasher, db: Connection, legacy: Table)
    requires db.Valid() && db.inTransaction && TableOk(legacy)
    requires db.content.events == legacy.(columns := legacy.columns + {PREV_HASH, EVENT_HASH})
    modifies db`content
    ensures db.Valid()
    ensures db.content == old(db.content).(events := old(db.content).events.(rows := SealRows(h, legacy.rows)))
  {
    var previous := GENESIS;
    for i := 0 to |legacy.rows|
      invariant db.Valid() && db.content == old(db.content).(events := db.content.events)
      invariant Sealing(h, legacy, db.content.events, i, previous)
    {
      var events := db.content.events;
      var event := legacy.rows[i].event;
      var digest := Digest(h, Some(previous), event);
      SealingNext(h, legacy, events, i, previous);
      db.SetEvents(events.(rows := SetLinks(events.rows, event.id, previous, digest)));
      previous := digest;
    }
    SealingEnds(h, legacy, db.content.events, previous);
  }

  /**
   Seals legacy events once. `latest` is the content the write lock finds, which
   another migrator may have sealed since `db` last looked.
   */
  method Migrate(h: Hasher, db: Connection, latest: Option<Database>) returns (error: Option<SqlError>)
    requires db.Valid() && !db.inTransaction
    requires latest.Some? ==> TableOk(latest.value.events)
    modifies db
    ensures db.Valid() && !db.inTransaction
    ensures old(HasChain(db.content.events)) ==> error.None? && db.content == old(db.content)
    ensures !old(HasChain(db.content.events)) && latest.None? ==> error == Some(Locked) && db.content == old(db.content)
    ensures !old(HasChain(db.content.events)) && latest.Some? ==>
              var t := latest.value.events;
              if HasChain(t) then error.None? && db.content == latest.value
              else if PREV_HASH in t.columns || EVENT_HASH in t.columns then error == Some(DuplicateColumn) && db.content == latest.value
              else if t.guarded then error == Some(DuplicateTrigger) && db.content == latest.value
              else error.None? && db.content == latest.value.(events := SealTable(h, t))
  {
    error := None;
    if HasChain(db.content.events) {
      return;
    }
    var locked := db.Begin(latest);
    if !locked {
      return Some(Locked);
    }
    var legacy := db.content.events;
    if HasChain(legacy) {
      db.Commit();
      return;
    }
    if PREV_HASH in legacy.columns || EVENT_HASH in legacy.columns {
      db.Rollback();
      return Some(DuplicateColumn);
    }
    var columns := legacy.columns + {PREV_HASH, EVENT_HASH};
    db.SetEvents(legacy.(columns := columns));
    SealEach(h, db, legacy);
    var sealed := db.content.events;
    if sealed.guarded {
      db.Rollback();
      return Some(DuplicateTrigger);
    }
    SealingKeepsEvents(h, legacy);
    db.SetEvents(sealed.(guarded := true));
    db.Commit();
  }

  /**
   Migrating again, alone or after losing a race to another migrator: whenever the first attempt
   succeeded the second succeeds too, and changes nothing.
   */
  method MigrateAgain(h: Hasher, db: Connection, first: Option<Database>, second: Option<Database>)
    returns (failed: Option<SqlError>, again: Option<SqlError>, between: Database)
    requires db.Valid() && !db.inTransaction
    requires first.Some? ==> TableOk(first.value.events)
    requires second.Some? ==> TableOk(second.value.events)
    modifies db
    ensures db.Valid() && !db.inTransaction && db.content == between
    ensures failed.None? ==> again.None? && HasChain(between.events)
    ensures old(HasChain(db.content.events)) ==> failed.None? && between == old(db.content)
    ensures !old(HasChain(db.content.events)) && first.Some? ==>
              var t := first.value.events;
              && (Legacy(t) ==> failed.None? && between == first.value.(events := SealTable(h, t)) && Sealed(h, between.events))
              && (HasChain(t) ==> failed.None? && between == first.value)
              && (failed.None? ==> HasChain(t) || Legacy(t))
    ensures !old(HasChain(db.content.events)) && first.None? ==> failed == Some(Locked) && between == old(db.content)
  {
    failed := Migrate(h, db, first);
    between := db.content;
    again := None;
    if failed.None? {
      if first.Some? {
        SealingKeepsEvents(h, first.value.events);
      }
      again := Migrate(h, db, second);
    }
  }

  /**
   Appends one event under the write lock, taking it first if the caller has not.
   The caller commits or rolls back; on error the content is what it was.
   */
  method Append(h: Hasher, db: Connection, latest: Option<Database>, timestamp: string, client: string, action: string,
                key: Option<string>, value: Option<string>)
    returns (error: Option<SqlError>)
    requires db.Valid()
    requires latest.Some? ==> TableOk(latest.value.events)
    modifies db
    ensures db.Valid()
    ensures !old(db.inTransaction) && latest.None? ==>
              error == Some(Locked) && !db.inTransaction && db.content == old(db.content) && db.committed == old(db.committed)
    ensures old(db.inTransaction) || latest.Some? ==>
              var base := if old(db.inTransaction) then old(db.content) else latest.value;
              && db.inTransaction
              && db.committed == (if old(db.inTransaction) then old(db.committed) else latest.value)
              && match AppendEvent(h, base.events, timestamp, client, action, key, value)
                 case Ok(t) => error.None? && db.content == base.(events := t)
                 case Err(e) => error == Some(e) && db.content == base
  {
    if !db.inTransaction {
      var locked := db.Begin(latest);
      if !locked {
        return Some(Locked);
      }
    }
    var events := db.content.events;
    if EVENT_HASH !in events.columns {
      return Some(NoSuchColumn);
    }
    var previous := if events.rows != [] then events.rows[|events.rows| - 1].hash else Some(GENESIS);
    var id := if events.issued.Some? then events.issued.value + 1 else 1;
    var event := Event(id, timestamp, client, action, key, value);
    if PREV_HASH !in events.columns {
      return Some(NoSuchColumn);
    }
    var row := Row(event, previous, Some(Digest(h, previous, event)));
    var inserted := InsertRow(events, row);
    if inserted.Err? {
      return Some(inserted.error);
    }
    InsertKeepsTable(events, row);
    db.SetEvents(inserted.value);
    error := None;
  }

  /** Walks the table once and answers what `Verdict` demands, changing nothing. */
  method Verify(h: Hasher, events: Table, expected: Option<string>) returns (r: Result<(nat, string), VerifyError>)
    ensures r == Verdict(h, events, expected)
    ensures r.Ok? <==> HasChain(events) && Linked(h, events.rows) && (expected.None? || expected == Head(events.rows))
    ensures r.Ok? ==> r.value.0 == |events.rows| && Some(r.value.1) == Head(events.rows)
    ensures r == Err(MissingChain) <==> !("prev_hash" in events.columns && "event_hash" in events.columns)
    ensures r.Err? && r.error.HeadMismatch? ==>
              Linked(h, events.rows) && Some(r.error.expected) == expected && Some(r.error.found) == Head(events.rows) != expected
  {
    if !HasChain(events) {
      return Err(MissingChain);
    }
    var previous := GENESIS;
    var count := 0;
    while count < |events.rows|
      invariant count <= |events.rows|
      invariant Some(previous) == HashBefore(events.rows, count)
      invariant forall j | 0 <= j < count :: LinkAt(h, events.rows, j)
    {
      var row := events.rows[count];
      var digest := Digest(h, Some(previous), row.event);
      if row.prev != Some(previous) || row.hash != Some(digest) {
        assert !LinkAt(h, events.rows, count);
        ghost var k := FirstBad(h, events.rows, 0);
        assert k == count;
        return Err(Mismatch(row.event.id));
      }
      previous := digest;
      count := count + 1;
    }
    if expected.Some? && previous != expected.value {
      return Err(HeadMismatch(expected.value, previous));
    }
    return Ok((count, previous));
  }
}
