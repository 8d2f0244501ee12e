/**
 What every transaction keeps of the store: `facts` is what the events say,
 vectors follow facts, and the event table only grows.
 */
module Replay {
  import opened Wrappers
  import opened EventPayload
  import opened HashChain
  import opened Sqlite
  import opened MemoryTools

  /** Value and attribution per key. */
  type Shown = map<string, (string, string)>

  function Show(facts: map<string, Fact>): Shown {
    map k | k in facts :: (facts[k].value, facts[k].source)
  }

  /** The effect of one event on what is shown; other actions have none. */
  function ReplayEvent(s: Shown, e: Event): Shown {
    if e.action == SET && e.key.Some? && e.value.Some? then s[e.key.value := (e.value.value, e.client)]
    else if e.action == DELETE && e.key.Some? then s - {e.key.value}
    else s
  }

  /** All events in id order, from nothing. */
  function ReplayRows(rows: seq<Row>): Shown {
    if rows == [] then map[]
    else ReplayEvent(ReplayRows(rows[..|rows| - 1]), rows[|rows| - 1].event)
  }

  /** The audit trail explains the store. */
  ghost predicate Explained(db: Database) {
    Show(db.facts) == ReplayRows(db.events.rows)
  }

  ghost predicate SameEvents(a: seq<Row>, b: seq<Row>) {
    |a| == |b| && forall i | 0 <= i < |a| :: a[i].event == b[i].event
  }

  lemma {:induction false} ReplayReadsEventsOnly(a: seq<Row>, b: seq<Row>)
    requires SameEvents(a, b)
    ensures ReplayRows(a) == ReplayRows(b)
  {
    if a != [] {
      ReplayReadsEventsOnly(a[..|a| - 1], b[..|b| - 1]);
    }
  }

  /** A committed transaction adds exactly one event, at the end, and touches no older row. */
  lemma ApplyAddsOneEvent(w: World, db: Database, x: Txn)
    requires Apply(w, db, x).Ok?
    ensures
      var next := Apply(w, db, x).value;
      && next.events.rows == db.events.rows + [RowOf(w, x, Loses(db.facts, x.op), Head(db.events.rows), NextId(db.events))]
      && next.events.columns == db.events.columns && next.events.guarded == db.events.guarded
  {
  }

  /** What the one event of a committed transaction says, for every kind of call. */
  lemma EventSays(w: World, db: Database, x: Txn)
    requires Apply(w, db, x).Ok?
    ensures
      var next := Apply(w, db, x).value.events;
      match x.op
      case Store(key, value, _) =>
        if Loses(db.facts, x.op).None? then AddsEvent(db.events, next, x.eventTime, x.client, "set", key, Some(value))
        else AddsEvent(db.events, next, x.eventTime, x.client, "cas_fail", key, Some(w.describe(Loses(db.facts, x.op).value)))
      case Remove(key) => AddsEvent(db.events, next, x.eventTime, x.client, "delete", key, None)
      case NoteGet(key) => AddsEvent(db.events, next, x.eventTime, x.client, "get", key, None)
      case NoteSearch(key, note) => AddsEvent(db.events, next, x.eventTime, x.client, "search", key, Some(note))
  {
    ApplyAddsOneEvent(w, db, x);
  }

  /** What a committed transaction leaves in the two other tables. */
  lemma TablesSay(w: World, db: Database, x: Txn)
    requires Apply(w, db, x).Ok?
    ensures
      var next := Apply(w, db, x).value;
      match x.op
      case Store(key, value, _) =>
        if Loses(db.facts, x.op).Some? then next.facts == db.facts && next.vectors == db.vectors
        else
          && next.facts == db.facts[key := Fact(value, x.client, x.factTime)]
          && next.vectors == if x.embeds then db.vectors[key := w.embed(key + ": " + value)] else db.vectors
      case Remove(key) => next.facts == db.facts - {key} && next.vectors == db.vectors - {key}
      case _ => next.facts == db.facts && next.vectors == db.vectors
  {
  }

  /** Value and attribution of every key stay the in-order replay of the `set` and `delete` events. */
  lemma ApplyKeepsExplained(w: World, db: Database, x: Txn)
    requires Apply(w, db, x).Ok? && Explained(db)
    ensures Explained(Apply(w, db, x).value)
  {
    ActionsDiffer();
    ApplyAddsOneEvent(w, db, x);
    var next := Apply(w, db, x).value;
    var n := |db.events.rows|;
    assert next.events.rows[..n] == db.events.rows;
    var e := next.events.rows[n].event;
    assert Show(next.facts) == ReplayEvent(Show(db.facts), e);
  }

  /** A lost write, a logged read or a logged search leaves facts and vectors exactly as they were. */
  lemma OnlySetAndDeleteChangeTheStore(w: World, db: Database, x: Txn)
    requires Apply(w, db, x).Ok?
    ensures
      var next := Apply(w, db, x).value;
      var e := next.events.rows[|db.events.rows|].event;
      && (e.action == CAS_FAIL || e.action == GET || e.action == SEARCH ==> next.facts == db.facts && next.vectors == db.vectors)
      && (Loses(db.facts, x.op).Some? <==> e.action == CAS_FAIL)
      && (forall k | k != x.op.key ::
            (k in next.facts <==> k in db.facts) && (k in db.facts ==> next.facts[k] == db.facts[k]))
      && (forall k | k != x.op.key ::
            (k in next.vectors <==> k in db.vectors) && (k in db.vectors ==> next.vectors[k] == db.vectors[k]))
  {
    ActionsDiffer();
    ApplyAddsOneEvent(w, db, x);
  }

  // ---------------------------------------------------------------- one key's history

  /** The rows `memory_history` and `memory_get(include_events)` show for a key when reads are left out. */
  function History(rows: seq<Row>, key: string): seq<Event> {
    if rows == [] then []
    else
      var e := rows[|rows| - 1].event;
      History(rows[..|rows| - 1], key)
      + if e.key == Some(key) && (e.action == SET || e.action == DELETE || e.action == CAS_FAIL) then [e] else []
  }

  /** An event that belongs to a key's write history. */
  predicate InHistory(e: Event, key: string) {
    e.key == Some(key) && (e.action == "set" || e.action == "delete" || e.action == "cas_fail")
  }

  /** `places` picks exactly the rows of the key's write history, in order, and `history` shows their events. */
  ghost predicate Picks(rows: seq<Row>, key: string, history: seq<Event>, places: seq<nat>) {
    && |places| == |history|
    && (forall j | 0 <= j < |places| ::
          places[j] < |rows| && rows[places[j]].event == history[j] && InHistory(rows[places[j]].event, key))
    && (forall a, b | 0 <= a < b < |places| :: places[a] < places[b])
    && (forall i | 0 <= i < |rows| && InHistory(rows[i].event, key) :: i in places)
  }

  /** A key's history is exactly its set, delete and cas_fail events, each once and in id order. */
  lemma {:induction false} HistoryListsTheWrites(rows: seq<Row>, key: string) returns (places: seq<nat>)
    ensures Picks(rows, key, History(rows, key), places)
  {
    places := [];
    if rows != [] {
      var n := |rows| - 1;
      var earlier := HistoryListsTheWrites(rows[..n], key);
      var front := History(rows[..n], key);
      PicksNext(rows, key, front, earlier);
      if InHistory(rows[n].event, key) {
        places := earlier + [n];
      } else {
        places := earlier;
        assert front + [] == front;
      }
    }
  }

  lemma PicksNext(rows: seq<Row>, key: string, history: seq<Event>, places: seq<nat>)
    requires rows != [] && Picks(rows[..|rows| - 1], key, history, places)
    ensures InHistory(rows[|rows| - 1].event, key) ==>
              Picks(rows, key, history + [rows[|rows| - 1].event], places + [|rows| - 1])
    ensures !InHistory(rows[|rows| - 1].event, key) ==> Picks(rows, key, history, places)
  {
    var n := |rows| - 1;
    forall i | 0 <= i < n && InHistory(rows[i].event, key)
      ensures i in places
    {
      assert rows[..n][i] == rows[i];
    }
    var more := places + [n];
    assert forall i | i in places :: i in more;
    assert more[|places|] == n;
  }

  /** The last entry of a history that is not a failed attempt, if any. */
  function LastChange(history: seq<Event>): Option<Event> {
    if history == [] then None
    else if history[|history| - 1].action == CAS_FAIL then LastChange(history[..|history| - 1])
    else Some(history[|history| - 1])
  }

  /** The history's last change says what `shown` holds for the key. */
  ghost predicate Explains(history: seq<Event>, shown: Shown, key: string) {
    var last := LastChange(history);
    && (key in shown <==> last.Some? && last.value.action == SET)
    && (key in shown ==> last.value.value.Some? && shown[key] == (last.value.value.value, last.value.client))
  }

  lemma ExplainsNext(history: seq<Event>, shown: Shown, key: string, e: Event)
    requires Explains(history, shown, key) && e.key == Some(key)
    requires e.action == SET || e.action == DELETE || e.action == CAS_FAIL
    requires e.action == SET ==> e.value.Some?
    ensures Explains(history + [e], ReplayEvent(shown, e), key)
  {
    ActionsDiffer();
    assert (history + [e])[..|history|] == history;
  }

  /**
   One key's history alone explains its current value and source: the last entry that
   is not a failed attempt is the `set` that wrote it, or there is none or a `delete`.
   */
  lemma {:induction false} HistoryExplainsFact(rows: seq<Row>, key: string)
    requires forall i | 0 <= i < |rows| :: rows[i].event.action == SET ==> rows[i].event.value.Some?
    ensures Explains(History(rows, key), ReplayRows(rows), key)
  {
    if rows != [] {
      var n := |rows| - 1;
      HistoryExplainsFact(rows[..n], key);
      var e := rows[n].event;
      var front := History(rows[..n], key);
      if e.key == Some(key) && (e.action == SET || e.action == DELETE || e.action == CAS_FAIL) {
        ExplainsNext(front, ReplayRows(rows[..n]), key, e);
      } else {
        assert front + [] == front;
      }
    }
  }

  // ---------------------------------------------------------------- vectors

  /** Every vector belongs to a live fact. */
  ghost predicate Covered(db: Database) {
    db.vectors.Keys <= db.facts.Keys
  }

  /** Every live fact has a vector, and it is the embedding of its current text. */
  ghost predicate Fresh(w: World, db: Database) {
    && db.vectors.Keys == db.facts.Keys
    && forall k | k in db.vectors :: db.vectors[k] == w.embed(k + ": " + db.facts[k].value)
  }

  lemma ApplyKeepsVectors(w: World, db: Database, x: Txn)
    requires Apply(w, db, x).Ok? && Covered(db)
    ensures Covered(Apply(w, db, x).value)
    ensures Fresh(w, db) && (x.op.Store? ==> x.embeds) ==> Fresh(w, Apply(w, db, x).value)
  {
  }

  /**
   A server with embeddings off keeps the vectors fresh exactly when its write loses, or
   overwrites a fact with a text of the same embedding.
   */
  lemma LeanWriteKeepsFreshIff(w: World, db: Database, x: Txn)
    requires Apply(w, db, x).Ok? && Fresh(w, db) && x.op.Store? && !x.embeds
    ensures Fresh(w, Apply(w, db, x).value)
       <==> Loses(db.facts, x.op).Some?
            || (x.op.key in db.facts
                && w.embed(EmbeddedText(x.op.key, x.op.value)) == w.embed(EmbeddedText(x.op.key, db.facts[x.op.key].value)))
  {
    var next := Apply(w, db, x).value;
    if Loses(db.facts, x.op).None? {
      assert next.vectors == db.vectors;
      assert x.op.key in next.facts && next.facts[x.op.key].value == x.op.value;
      if x.op.key in db.facts {
        assert x.op.key in db.vectors;
      } else {
        assert x.op.key !in next.vectors.Keys && x.op.key in next.facts.Keys;
      }
    }
  }
}
