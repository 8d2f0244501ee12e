/** The tools of one server process, statement by statement, on its connection. */
module MemoryServer {
  import opened Wrappers
  import opened EventPayload
  import opened HashChain
  import opened Sqlite
  import opened Audit
  import opened MemoryTools
  import opened Replay

  datatype ToolError =
    | Exclusive
    | BadKey
    | ValueTooLong
    | LockedOut
    | CasFailed(conflict: Conflict)
    | NoFact
    | NotSearchable
    | SearchDisabled
    | NoModel
    | Sql(error: SqlError)

  datatype Config = Config(embeddings: bool, logReads: bool, maxKey: nat, maxValue: nat)

  predicate ValidKey(c: Config, key: string) {
    key != "" && |key| <= c.maxKey
  }

  function ModeOf(expected: Option<string>, requireAbsent: bool): Mode {
    if requireAbsent then Create else if expected.Some? then Swap(expected.value) else Overwrite
  }

  /** The rejections `memory_set` makes before it opens a transaction. */
  function SetRefusal(c: Config, key: string, value: string, expected: Option<string>, requireAbsent: bool): Option<ToolError> {
    if requireAbsent && expected.Some? then Some(Exclusive)
    else if !ValidKey(c, key) then Some(BadKey)
    else if |value| > c.maxValue then Some(ValueTooLong)
    else None
  }

  /** How many of `n` hits are shown: as many as asked for and there are, but never none of some. */
  function TopCount(topK: int, n: nat): (shown: nat)
    ensures shown <= n && (topK >= n ==> shown == n) && (1 <= topK <= n ==> shown == topK)
    ensures topK < 1 && n > 0 ==> shown == 1
  {
    var wanted := if topK < 1 then 1 else topK;
    if wanted < n then wanted else n
  }

  /** What a successful `memory_set` leaves: the fact, its vector if the server embeds, and a `set` event. */
  ghost predicate WriteWon(w: World, c: Config, before: Database, after: Database, key: string, value: string, cid: string,
                           expected: Option<string>, requireAbsent: bool, factTime: string, eventTime: string)
  {
    && after.facts == before.facts[key := Fact(value, cid, factTime)]
    && (requireAbsent ==> key !in before.facts)
    && (expected.Some? ==> key in before.facts && before.facts[key].value == expected.value)
    && after.vectors == (if c.embeddings then before.vectors[key := w.embed(key + ": " + value)] else before.vectors)
    && AddsEvent(before.events, after.events, eventTime, cid, "set", key, Some(value))
  }

  /** What a losing one leaves: facts and vectors as they were, and a `cas_fail` event that tells what the key holds. */
  ghost predicate WriteLost(w: World, before: Database, after: Database, key: string, cid: string,
                            expected: Option<string>, requireAbsent: bool, eventTime: string, conflict: Conflict)
  {
    && after.facts == before.facts && after.vectors == before.vectors
    && (requireAbsent || expected.Some?)
    && TellsCurrent(before.facts, key, if requireAbsent then Create else Swap(expected.value), conflict)
    && AddsEvent(before.events, after.events, eventTime, cid, "cas_fail", key, Some(w.describe(conflict)))
  }

  lemma SetSays(w: World, c: Config, before: Database, key: string, value: string, cid: string,
                expected: Option<string>, requireAbsent: bool, factTime: string, eventTime: string)
    requires !(requireAbsent && expected.Some?)
    requires Apply(w, before, Txn(Store(key, value, ModeOf(expected, requireAbsent)), cid, c.embeddings, true, factTime, eventTime)).Ok?
    ensures
      var x := Txn(Store(key, value, ModeOf(expected, requireAbsent)), cid, c.embeddings, true, factTime, eventTime);
      var after := Apply(w, before, x).value;
      match Loses(before.facts, x.op)
      case None => WriteWon(w, c, before, after, key, value, cid, expected, requireAbsent, factTime, eventTime)
      case Some(conflict) => WriteLost(w, before, after, key, cid, expected, requireAbsent, eventTime, conflict)
  {
    var x := Txn(Store(key, value, ModeOf(expected, requireAbsent)), cid, c.embeddings, true, factTime, eventTime);
    EventSays(w, before, x);
    TablesSay(w, before, x);
    if Loses(before.facts, x.op).Some? {
      LoserCanRetry(before.facts, key, value, x.op.mode, value);
    }
  }

  class Server {
    const world: World
    const config: Config
    const db: Connection

    constructor (world: World, config: Config, db: Connection)
      ensures this.world == world && this.config == config && this.db == db
    {
      this.world, this.config, this.db := world, config, db;
    }

    ghost predicate Ready()
      reads db
    {
      db.Valid() && !db.inTransaction
    }

    function SetTxn(key: string, value: string, cid: string, expected: Option<string>, requireAbsent: bool,
                    factTime: string, eventTime: string): Txn
    {
      Txn(Store(key, value, ModeOf(expected, requireAbsent)), cid, config.embeddings, true, factTime, eventTime)
    }

    /**
     `memory_set`. The statements and the event commit together or not at all, and a
     losing compare-and-swap or create-only call still commits its event before it raises, and is
     told what the key holds, which is also what the event says. The
     model is asked before the lock is taken, so a model that cannot be loaded changes nothing.
     */
    method GuardedSet(key: string, value: string, cid: string, expected: Option<string>, requireAbsent: bool,
                      modelWorks: bool, latest: Option<Database>, factTime: string, eventTime: string)
      returns (error: Option<ToolError>)
      requires Ready()
      requires latest.Some? ==> TableOk(latest.value.events)
      modifies db
      ensures Ready()
      ensures
        var refusal := SetRefusal(config, key, value, expected, requireAbsent);
        var x := SetTxn(key, value, cid, expected, requireAbsent, factTime, eventTime);
        if refusal.Some? then error == refusal && db.content == old(db.content)
        else if config.embeddings && !modelWorks then error == Some(NoModel) && db.content == old(db.content)
        else if latest.None? then error == Some(LockedOut) && db.content == old(db.content)
        else
          match Apply(world, latest.value, x)
          case Err(e) => error == Some(Sql(e)) && db.content == latest.value
          case Ok(next) =>
            && db.content == next
            && error == match Loses(latest.value.facts, x.op)
                        case None => None
                        case Some(c) => Some(CasFailed(c))
      ensures error.None? ==>
                latest.Some? && WriteWon(world, config, latest.value, db.content, key, value, cid, expected, requireAbsent, factTime, eventTime)
      ensures error == Some(Exclusive) <==> requireAbsent && expected.Some?
      ensures error == Some(BadKey) <==> !(requireAbsent && expected.Some?) && (key == "" || |key| > config.maxKey)
      ensures error == Some(ValueTooLong) <==>
                !(requireAbsent && expected.Some?) && key != "" && |key| <= config.maxKey && |value| > config.maxValue
      ensures error.Some? && error.value.CasFailed? ==>
                latest.Some? && WriteLost(world, latest.value, db.content, key, cid, expected, requireAbsent, eventTime, error.value.conflict)
    {
      if requireAbsent && expected.Some? {
        return Some(Exclusive);
      }
      if !ValidKey(config, key) {
        return Some(BadKey);
      }
      if |value| > config.maxValue {
        return Some(ValueTooLong);
      }
      if config.embeddings && !modelWorks {
        return Some(NoModel);
      }
      var embedding := if config.embeddings then Some(world.embed(EmbeddedText(key, value))) else None;
      var casFailure: Option<Conflict> := None;
      var locked := db.Begin(latest);
      if !locked {
        return Some(LockedOut);
      }
      casFailure := WriteFact(key, value, cid, expected, requireAbsent, factTime);
      ghost var x := SetTxn(key, value, cid, expected, requireAbsent, factTime, eventTime);
      if Apply(world, latest.value, x).Ok? {
        SetSays(world, config, latest.value, key, value, cid, expected, requireAbsent, factTime, eventTime);
      }
      error := FinishSet(key, value, cid, casFailure, embedding, eventTime, latest.value, x);
    }

    /** The rest of the transaction after the fact statement: the vector statement, the event and the commit. */
    method FinishSet(key: string, value: string, cid: string, casFailure: Option<Conflict>, embedding: Option<Vector>,
                     eventTime: string, ghost before: Database, ghost x: Txn)
      returns (error: Option<ToolError>)
      requires db.Valid() && db.inTransaction && db.committed == before
      requires x.op.Store? && x.op.key == key && x.op.value == value
      requires x.client == cid && x.chained && x.eventTime == eventTime
      requires embedding == if x.embeds then Some(world.embed(EmbeddedText(key, value))) else None
      requires casFailure == Loses(before.facts, x.op)
      requires db.content == before.(facts := ChangeFacts(before.facts, x))
      modifies db
      ensures Ready()
      ensures
        match Apply(world, before, x)
        case Err(e) => error == Some(Sql(e)) && db.content == before
        case Ok(next) =>
          db.content == next && error == if casFailure.Some? then Some(CasFailed(casFailure.value)) else None
    {
      if casFailure.None? && embedding.Some? {
        SetVectors(db.content.vectors[key := embedding.value]);
      }
      assert db.content == Database(ChangeFacts(before.facts, x), VectorStatement(world, before.vectors, x, casFailure), before.events);
      LogEventIsAppend(world, before.events, x, casFailure);
      var failed: Option<SqlError>;
      if casFailure.None? {
        failed := LogAndFinish(SET, key, Some(value), cid, eventTime);
      } else {
        failed := LogAndFinish(CAS_FAIL, key, Some(world.describe(casFailure.value)), cid, eventTime);
      }
      if failed.Some? {
        return Some(Sql(failed.value));
      }
      if casFailure.Some? {
        return Some(CasFailed(casFailure.value));
      }
      return None;
    }

    /** The event and the end of the `with` block: commit, or roll everything back if the insert fails. */
    method LogAndFinish(action: string, key: string, value: Option<string>, cid: string, eventTime: string)
      returns (failed: Option<SqlError>)
      requires db.Valid() && db.inTransaction
      modifies db
      ensures Ready()
      ensures
        match AppendEvent(world.hasher, old(db.content).events, eventTime, cid, action, Some(key), value)
        case Ok(t) => failed.None? && db.content == old(db.content).(events := t)
        case Err(e) => failed == Some(e) && db.content == old(db.committed)
    {
      failed := Append(world.hasher, db, None, eventTime, cid, action, Some(key), value);
      if failed.Some? {
        db.Rollback();
      } else {
        db.Commit();
      }
    }

    /** The one statement of `memory_set` that touches `facts`: INSERT, conditional UPDATE or upsert. */
    method WriteFact(key: string, value: string, cid: string, expected: Option<string>, requireAbsent: bool, factTime: string)
      returns (casFailure: Option<Conflict>)
      requires db.Valid() && db.inTransaction
      modifies db`content
      ensures db.Valid()
      ensures casFailure == Loses(old(db.content).facts, Store(key, value, ModeOf(expected, requireAbsent)))
      ensures casFailure.Some? ==> db.content == old(db.content)
      ensures casFailure.None? ==>
                db.content == old(db.content).(facts := old(db.content).facts[key := Fact(value, cid, factTime)])
    {
      casFailure := None;
      var facts := db.content.facts;
      if requireAbsent {
        if key in facts {
          casFailure := Some(Exists(facts[key].value));
        } else {
          SetFacts(facts[key := Fact(value, cid, factTime)]);
        }
      } else if expected.Some? {
        if key in facts && facts[key].value == expected.value {
          SetFacts(facts[key := Fact(value, cid, factTime)]);
        } else {
          casFailure := Some(Differs(expected.value, if key in facts then Some(facts[key].value) else None));
        }
      } else {
        SetFacts(facts[key := Fact(value, cid, factTime)]);
      }
    }

    method SetFacts(facts: map<string, Fact>)
      requires db.Valid() && db.inTransaction
      modifies db`content
      ensures db.Valid() && db.content == old(db.content).(facts := facts)
    {
      db.content := db.content.(facts := facts);
    }

    method SetVectors(vectors: map<string, Vector>)
      requires db.Valid() && db.inTransaction
      modifies db`content
      ensures db.Valid() && db.content == old(db.content).(vectors := vectors)
    {
      db.content := db.content.(vectors := vectors);
    }

    /** `memory_delete`: deletes fact and vector together and logs the call even if there was nothing to delete. */
    method Delete(key: string, cid: string, latest: Option<Database>, eventTime: string)
      returns (r: Result<bool, ToolError>)
      requires Ready()
      requires latest.Some? ==> TableOk(latest.value.events)
      modifies db
      ensures Ready()
      ensures
        var x := Txn(Remove(key), cid, config.embeddings, true, "", eventTime);
        if !ValidKey(config, key) then r == Err(BadKey) && db.content == old(db.content)
        else if latest.None? then r == Err(LockedOut) && db.content == old(db.content)
        else
          match Apply(world, latest.value, x)
          case Err(e) => r == Err(Sql(e)) && db.content == latest.value
          case Ok(next) => db.content == next && r == Ok(key in latest.value.facts)
      ensures r.Ok? ==>
                && db.content.facts == latest.value.facts - {key} && db.content.vectors == latest.value.vectors - {key}
                && AddsEvent(latest.value.events, db.content.events, eventTime, cid, "delete", key, None)
    {
      if !ValidKey(config, key) {
        return Err(BadKey);
      }
      var locked := db.Begin(latest);
      if !locked {
        return Err(LockedOut);
      }
      ghost var x := Txn(Remove(key), cid, config.embeddings, true, "", eventTime);
      LogEventIsAppend(world, latest.value.events, x, None);
      if Apply(world, latest.value, x).Ok? {
        EventSays(world, latest.value, x);
        TablesSay(world, latest.value, x);
      }
      var found := key in db.content.facts;
      SetFacts(db.content.facts - {key});
      SetVectors(db.content.vectors - {key});
      var failed := LogAndFinish(DELETE, key, None, cid, eventTime);
      if failed.Some? {
        return Err(Sql(failed.value));
      }
      return Ok(found);
    }

    /** The logging half of a read: its own transaction, after the row was read. */
    method LogRead(op: Op, cid: string, latest: Option<Database>, eventTime: string)
      returns (error: Option<ToolError>)
      requires Ready()
      requires op.NoteGet? || op.NoteSearch?
      requires latest.Some? ==> TableOk(latest.value.events)
      modifies db
      ensures Ready()
      ensures
        if latest.None? then error == Some(LockedOut) && db.content == old(db.content)
        else
          match Apply(world, latest.value, Txn(op, cid, config.embeddings, true, "", eventTime))
          case Err(e) => error == Some(Sql(e)) && db.content == latest.value
          case Ok(next) => error.None? && db.content == next
      ensures error.None? ==>
                && db.content.facts == latest.value.facts && db.content.vectors == latest.value.vectors
                && AddsEvent(latest.value.events, db.content.events, eventTime, cid, if op.NoteGet? then "get" else "search",
                             op.key, if op.NoteGet? then None else Some(op.note))
    {
      ghost var x := Txn(op, cid, config.embeddings, true, "", eventTime);
      var action, value := GET, None;
      if op.NoteSearch? {
        action, value := SEARCH, Some(op.note);
      }
      var failed := Append(world.hasher, db, latest, eventTime, cid, action, Some(op.key), value);
      if latest.Some? {
        LogEventIsAppend(world, latest.value.events, x, None);
        if Apply(world, latest.value, x).Ok? {
          EventSays(world, latest.value, x);
          TablesSay(world, latest.value, x);
        }
      }
      if failed.Some? {
        if db.inTransaction {
          db.Rollback();
        }
        return Some(if latest.None? then LockedOut else Sql(failed.value));
      }
      db.Commit();
      return None;
    }

    /**
     `memory_get`. The answer is the row this connection saw when the call began; the event is
     logged afterwards in a transaction that may find newer content, and the key's history, if asked
     for, is read after that from content that may be newer still.
     */
    method Get(key: string, includeEvents: bool, cid: string, latest: Option<Database>, eventTime: string, later: Database)
      returns (r: Result<(Fact, Option<seq<Event>>), ToolError>)
      requires Ready() && TableOk(later.events)
      requires latest.Some? ==> TableOk(latest.value.events)
      modifies db
      ensures Ready()
      ensures !ValidKey(config, key) ==> r == Err(BadKey) && db.content == old(db.content)
      ensures ValidKey(config, key) && config.logReads && latest.None? ==>
                r == Err(LockedOut) && db.content == old(db.content)
      ensures ValidKey(config, key) && (config.logReads ==> latest.Some?) ==>
                var logged := if config.logReads then
                                Apply(world, latest.value, Txn(NoteGet(key), cid, config.embeddings, true, "", eventTime))
                              else Ok(old(db.content));
                match logged
                case Err(e) => r == Err(Sql(e)) && db.content == latest.value
                case Ok(next) =>
                  if key !in old(db.content.facts) then r == Err(NoFact) && db.content == next
                  else
                    && r.Ok? && r.value.0 == old(db.content.facts)[key]
                    && db.content == (if includeEvents then later else next)
                    && r.value.1 == (if includeEvents then Some(History(later.events.rows, key)) else None)
      ensures config.logReads && (r == Err(NoFact) || (r.Ok? && !includeEvents)) ==>
                latest.Some? && AddsEvent(latest.value.events, db.content.events, eventTime, cid, "get", key, None)
    {
      if !ValidKey(config, key) {
        return Err(BadKey);
      }
      var row := if key in db.content.facts then Some(db.content.facts[key]) else None;
      if config.logReads {
        var error := LogRead(NoteGet(key), cid, latest, eventTime);
        if error.Some? {
          return Err(error.value);
        }
      }
      if row.None? {
        return Err(NoFact);
      }
      if includeEvents {
        db.Refresh(later);
        return Ok((row.value, Some(History(db.content.events.rows, key))));
      }
      return Ok((row.value, None));
    }

    /** Scores every row of the SELECT and sorts them, best first. */
    method Rank(query: string) returns (hits: seq<string>)
      ensures Ranked(world, db.content, query, hits)
    {
      var content := db.content;
      var queryVector := world.embed(query);
      var rest := content.facts.Keys * content.vectors.Keys;
      hits := [];
      while rest != {}
        invariant rest <= content.facts.Keys * content.vectors.Keys
        invariant RankedSoFar(world, content, query, hits, rest)
        decreases |rest|
      {
        var key :| key in rest;
        var i := |hits|;
        while i > 0 && world.score(queryVector, content.vectors[hits[i - 1]]) < world.score(queryVector, content.vectors[key])
          invariant 0 <= i <= |hits|
          invariant forall j | i <= j < |hits| :: ScoreOf(world, content, query, hits[j]) <= ScoreOf(world, content, query, key)
        {
          i := i - 1;
        }
        RankOneMore(world, content, query, hits, rest, key, i);
        hits := InsertAt(hits, i, key);
        rest := rest - {key};
      }
    }

    /**
     `memory_search`. Ranks exactly the facts that have a vector, as one SELECT saw them, shows the
     first `topK` of them, at least one, and logs the best afterwards.
     */
    method Search(query: string, topK: int, cid: string, modelWorks: bool, latest: Option<Database>, eventTime: string)
      returns (r: Result<seq<string>, ToolError>, ghost ranking: seq<string>)
      requires Ready()
      requires latest.Some? ==> TableOk(latest.value.events)
      modifies db
      ensures Ready()
      ensures !config.embeddings ==> r == Err(SearchDisabled) && db.content == old(db.content)
      ensures config.embeddings && Joined(old(db.content)) == {} ==> r == Ok([]) && db.content == old(db.content)
      ensures config.embeddings && Joined(old(db.content)) != {} ==>
                if !modelWorks then r == Err(NoModel) && db.content == old(db.content)
                else if latest.None? then r == Err(LockedOut) && db.content == old(db.content)
                else
                  match AppendEvent(world.hasher, latest.value.events, eventTime, cid, SEARCH, None, None)
                  case Err(e) => r == Err(Sql(e)) && db.content == latest.value
                  case Ok(_) =>
                    && r.Ok? && Ranked(world, old(db.content), query, ranking) && ranking != []
                    && r.value == ranking[..TopCount(topK, |ranking|)]
                    && var note := world.scoreNote(query, ScoreOf(world, old(db.content), query, ranking[0]));
                       Apply(world, latest.value, Txn(NoteSearch(ranking[0], note), cid, true, true, "", eventTime)) == Ok(db.content)
      ensures r.Ok? && r.value != [] ==>
                && latest.Some? && r.value[0] in old(db.content).vectors
                && var score := world.score(world.embed(query), old(db.content).vectors[r.value[0]]);
                   AddsEvent(latest.value.events, db.content.events, eventTime, cid, "search", r.value[0],
                             Some(world.scoreNote(query, score)))
      ensures r.Ok? ==>
                var found := |Joined(old(db.content))|;
                |r.value| == if found == 0 then 0 else if topK < 1 then 1 else if topK < found then topK else found
    {
      ranking := [];
      if !config.embeddings {
        r := Err(SearchDisabled);
        return;
      }
      var content := db.content;
      if content.facts.Keys * content.vectors.Keys == {} {
        r := Ok([]);
        return;
      }
      if !modelWorks {
        r := Err(NoModel);
        return;
      }
      var hits := Rank(query);
      ranking := hits;
      RankingIsNotEmpty(world, content, query, hits);
      var best := hits[0];
      var note := world.scoreNote(query, world.score(world.embed(query), content.vectors[best]));
      var error := LogRead(NoteSearch(best, note), cid, latest, eventTime);
      if error.Some? {
        r := Err(error.value);
        return;
      }
      r := Ok(hits[..TopCount(topK, |hits|)]);
    }
  }
}
