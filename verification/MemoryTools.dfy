/**
 What one tool transaction does to the shared store, as a function of the content
 the write lock finds: the fact statement, the vector statement and one event.
 */
module MemoryTools {
  import opened Wrappers
  import opened EventPayload
  import opened HashChain
  import opened Sqlite

  const SET := "set"
  const GET := "get"
  const DELETE := "delete"
  const SEARCH := "search"
  const CAS_FAIL := "cas_fail"

  /** Why a compare-and-swap or create-only write lost. */
  datatype Conflict = Exists(current: string) | Differs(expected: string, actual: Option<string>)

  /** The parts of the outside world the store depends on, all arbitrary: hash, model, similarity and message texts. */
  datatype World = World(hasher: Hasher, embed: string -> Vector, score: (Vector, Vector) -> real,
                         describe: Conflict -> string, scoreNote: (string, real) -> string)

  datatype Mode = Overwrite | Swap(expected: string) | Create

  datatype Op =
    | Store(key: string, value: string, mode: Mode)
    | Remove(key: string)
    | NoteGet(key: string)
    | NoteSearch(key: string, note: string)

  /**
   A write transaction: the operation, its attribution, whether this server embeds and whether it
   chains its events (older servers do not), and its two clock readings.
   */
  datatype Txn = Txn(op: Op, client: string, embeds: bool, chained: bool, factTime: string, eventTime: string)

  function EmbeddedText(key: string, value: string): string {
    key + ": " + value
  }

  /** Why the operation loses against these facts, if it does. */
  function Loses(facts: map<string, Fact>, op: Op): Option<Conflict> {
    match op
    case Store(key, _, Create) =>
      if key in facts then Some(Exists(facts[key].value)) else None
    case Store(key, _, Swap(expected)) =>
      if key in facts && facts[key].value == expected then None
      else Some(Differs(expected, if key in facts then Some(facts[key].value) else None))
    case _ => None
  }

  /** A conflict names what the key really holds, and which kind of attempt met it. */
  predicate TellsCurrent(facts: map<string, Fact>, key: string, mode: Mode, conflict: Conflict) {
    match conflict
    case Exists(current) => mode.Create? && key in facts && facts[key].value == current
    case Differs(expected, Some(actual)) =>
      mode == Swap(expected) && key in facts && facts[key].value == actual && actual != expected
    case Differs(expected, None) => mode == Swap(expected) && key !in facts
  }

  /** The attempt that a caller makes after it was told of this conflict. */
  function RetryOf(conflict: Conflict): Mode {
    match conflict
    case Exists(current) => Swap(current)
    case Differs(_, Some(actual)) => Swap(actual)
    case Differs(_, None) => Create
  }

  /** What a loser is told is the current state of the key, so that its retry wins if nothing changes meanwhile. */
  lemma LoserCanRetry(facts: map<string, Fact>, key: string, value: string, mode: Mode, other: string)
    requires Loses(facts, Store(key, value, mode)).Some?
    ensures
      var conflict := Loses(facts, Store(key, value, mode)).value;
      TellsCurrent(facts, key, mode, conflict) && Loses(facts, Store(key, other, RetryOf(conflict))).None?
  {
  }

  /** Only conditional writes lose, and exactly when their condition does not hold. */
  lemma LosesIff(facts: map<string, Fact>, key: string, value: string, mode: Mode)
    ensures Loses(facts, Store(key, value, mode)).Some?
       <==> (mode.Create? && key in facts)
            || (mode.Swap? && !(key in facts && facts[key].value == mode.expected))
    ensures Loses(facts, Remove(key)).None? && Loses(facts, NoteGet(key)).None? && Loses(facts, NoteSearch(key, value)).None?
  {
  }

  function ChangeFacts(facts: map<string, Fact>, x: Txn): map<string, Fact> {
    match x.op
    case Store(key, value, _) =>
      if Loses(facts, x.op).Some? then facts else facts[key := Fact(value, x.client, x.factTime)]
    case Remove(key) => facts - {key}
    case _ => facts
  }

  /** The vector statement, which runs only if the fact statement met no conflict. */
  function VectorStatement(w: World, vectors: map<string, Vector>, x: Txn, conflict: Option<Conflict>): map<string, Vector> {
    match x.op
    case Store(key, value, _) =>
      if conflict.None? && x.embeds then vectors[key := w.embed(EmbeddedText(key, value))] else vectors
    case Remove(key) => vectors - {key}
    case _ => vectors
  }

  function ActionOf(op: Op, conflict: Option<Conflict>): string {
    match op
    case Store(_, _, _) => if conflict.None? then SET else CAS_FAIL
    case Remove(_) => DELETE
    case NoteGet(_) => GET
    case NoteSearch(_, _) => SEARCH
  }

  function ValueOf(w: World, op: Op, conflict: Option<Conflict>): Option<string> {
    match op
    case Store(_, value, _) => if conflict.None? then Some(value) else Some(w.describe(conflict.value))
    case NoteSearch(_, note) => Some(note)
    case _ => None
  }

  /** The event the transaction logs when its id is `id` and its fact statement ended in `conflict`. */
  function EventOf(w: World, x: Txn, conflict: Option<Conflict>, id: int): Event {
    Event(id, x.eventTime, x.client, ActionOf(x.op, conflict), Some(x.op.key), ValueOf(w, x.op, conflict))
  }

  /** The row a server inserts; an older server leaves the hash cells empty. */
  function RowOf(w: World, x: Txn, conflict: Option<Conflict>, previous: Option<string>, id: int): Row {
    var e := EventOf(w, x, conflict, id);
    if x.chained then LinkRow(w.hasher, previous, e) else Row(e, None, None)
  }

  function LogEvent(w: World, t: Table, x: Txn, conflict: Option<Conflict>): Result<Table, SqlError> {
    if x.chained && !HasChain(t) then Err(NoSuchColumn)
    else InsertRow(t, RowOf(w, x, conflict, Head(t.rows), NextId(t)))
  }

  /** `after` is `before` with one more event at the end, under the next id. */
  ghost predicate AddsEvent(before: Table, after: Table, timestamp: string, client: string, action: string,
                            key: string, value: Option<string>)
  {
    var id := if before.issued.Some? then before.issued.value + 1 else 1;
    && |after.rows| == |before.rows| + 1 && after.rows[..|before.rows|] == before.rows
    && after.rows[|before.rows|].event == Event(id, timestamp, client, action, Some(key), value)
  }

  /** The whole transaction; an error means rollback. */
  function Apply(w: World, db: Database, x: Txn): Result<Database, SqlError> {
    match LogEvent(w, db.events, x, Loses(db.facts, x.op))
    case Err(e) => Err(e)
    case Ok(t) => Ok(Database(ChangeFacts(db.facts, x), VectorStatement(w, db.vectors, x, Loses(db.facts, x.op)), t))
  }

  /** The keys a search can find: live facts with a vector. */
  function Joined(db: Database): set<string> {
    db.facts.Keys * db.vectors.Keys
  }

  function ScoreOf(w: World, db: Database, query: string, key: string): real
    requires key in db.vectors
  {
    w.score(w.embed(query), db.vectors[key])
  }

  /** `best` is a live fact with a vector, and no live fact with a vector scores higher. */
  ghost predicate BestHit(w: World, db: Database, query: string, best: string) {
    && best in Joined(db)
    && forall k | k in Joined(db) :: ScoreOf(w, db, query, k) <= ScoreOf(w, db, query, best)
  }

  ghost predicate Descending(w: World, db: Database, query: string, hits: seq<string>) {
    && (forall i | 0 <= i < |hits| :: hits[i] in db.vectors)
    && forall i, j | 0 <= i < j < |hits| :: ScoreOf(w, db, query, hits[j]) <= ScoreOf(w, db, query, hits[i])
  }

  /** `hits` lists the set `keys`, each key once. */
  ghost predicate Lists(hits: seq<string>, keys: set<string>) {
    && (forall i | 0 <= i < |hits| :: hits[i] in keys)
    && (forall k | k in keys :: k in hits)
    && (forall i, j | 0 <= i < j < |hits| :: hits[i] != hits[j])
  }

  /** All keys a search can find but those of `rest`, each once, best first. */
  ghost predicate RankedSoFar(w: World, db: Database, query: string, hits: seq<string>, rest: set<string>) {
    Lists(hits, Joined(db) - rest) && Descending(w, db, query, hits)
  }

  ghost predicate Ranked(w: World, db: Database, query: string, hits: seq<string>) {
    RankedSoFar(w, db, query, hits, {})
  }

  function InsertAt(hits: seq<string>, i: nat, key: string): (r: seq<string>)
    requires i <= |hits|
    ensures |r| == |hits| + 1 && r[i] == key
    ensures forall j | 0 <= j < i :: r[j] == hits[j]
    ensures forall j | i < j < |r| :: r[j] == hits[j - 1]
  {
    hits[..i] + [key] + hits[i..]
  }

  lemma ListOneMore(hits: seq<string>, keys: set<string>, i: nat, key: string)
    requires Lists(hits, keys) && key !in keys && i <= |hits|
    ensures Lists(InsertAt(hits, i, key), keys + {key})
  {
    var more := InsertAt(hits, i, key);
    forall k | k in keys + {key}
      ensures k in more
    {
      if k != key {
        var j :| 0 <= j < |hits| && hits[j] == k;
        assert more[if j < i then j else j + 1] == k;
      }
    }
  }

  lemma DescendOneMore(w: World, db: Database, query: string, hits: seq<string>, i: nat, key: string)
    requires Descending(w, db, query, hits) && i <= |hits| && key in db.vectors
    requires forall j | i <= j < |hits| :: ScoreOf(w, db, query, hits[j]) <= ScoreOf(w, db, query, key)
    requires i > 0 ==> ScoreOf(w, db, query, key) <= ScoreOf(w, db, query, hits[i - 1])
    ensures Descending(w, db, query, InsertAt(hits, i, key))
  {
    forall j | 0 <= j < i
      ensures ScoreOf(w, db, query, key) <= ScoreOf(w, db, query, hits[j])
    {
      assert j < i - 1 ==> ScoreOf(w, db, query, hits[i - 1]) <= ScoreOf(w, db, query, hits[j]);
    }
  }

  lemma RankOneMore(w: World, db: Database, query: string, hits: seq<string>, rest: set<string>, key: string, i: nat)
    requires RankedSoFar(w, db, query, hits, rest) && key in rest && key in Joined(db) && i <= |hits|
    requires forall j | i <= j < |hits| :: ScoreOf(w, db, query, hits[j]) <= ScoreOf(w, db, query, key)
    requires i > 0 ==> ScoreOf(w, db, query, key) <= ScoreOf(w, db, query, hits[i - 1])
    ensures RankedSoFar(w, db, query, InsertAt(hits, i, key), rest - {key})
  {
    ListOneMore(hits, Joined(db) - rest, i, key);
    DescendOneMore(w, db, query, hits, i, key);
    assert Joined(db) - (rest - {key}) == Joined(db) - rest + {key};
  }

  lemma {:induction false} ListLength(hits: seq<string>, keys: set<string>)
    requires Lists(hits, keys)
    ensures |hits| == |keys|
  {
    if hits == [] {
      assert keys == {};
    } else {
      var n := |hits| - 1;
      var front, rest := hits[..n], keys - {hits[n]};
      forall k | k in rest
        ensures k in front
      {
        var i :| 0 <= i < |hits| && hits[i] == k;
        assert front[i] == k;
      }
      ListLength(front, rest);
    }
  }

  lemma RankingIsNotEmpty(w: World, db: Database, query: string, hits: seq<string>)
    requires Ranked(w, db, query, hits) && Joined(db) != {}
    ensures hits != [] && BestHit(w, db, query, hits[0]) && |hits| == |Joined(db)|
  {
    ListLength(hits, Joined(db) - {});
    assert Joined(db) - {} == Joined(db);
    var k :| k in Joined(db);
    assert k in hits;
  }

  lemma ActionsDiffer()
    ensures SET != GET && SET != DELETE && SET != SEARCH && SET != CAS_FAIL
    ensures DELETE != GET && DELETE != SEARCH && DELETE != CAS_FAIL
  {
    assert SET[0] == 's' && GET[0] == 'g' && DELETE[0] == 'd' && CAS_FAIL[0] == 'c' && SEARCH[0] == 's';
    assert |SET| == 3 && |SEARCH| == 6;
  }

  /** `append` is what a chaining server's logging step is. */
  lemma LogEventIsAppend(w: World, t: Table, x: Txn, conflict: Option<Conflict>)
    requires x.chained
    ensures LogEvent(w, t, x, conflict) == AppendEvent(w.hasher, t, x.eventTime, x.client, ActionOf(x.op, conflict),
                                                       Some(x.op.key), ValueOf(w, x.op, conflict))
  {
  }

  lemma ApplyKeepsTable(w: World, db: Database, x: Txn)
    requires TableOk(db.events) && Apply(w, db, x).Ok?
    requires !x.chained ==> Legacy(db.events)
    ensures TableOk(Apply(w, db, x).value.events)
  {
    InsertKeepsTable(db.events, RowOf(w, x, Loses(db.facts, x.op), Head(db.events.rows), NextId(db.events)));
  }
}
