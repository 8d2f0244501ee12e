/** What holds in every state of every run of the processes, from any well-formed store. */
module Runs {
  import opened Wrappers
  import opened EventPayload
  import opened HashChain
  import opened Sqlite
  import opened MemoryTools
  import opened Auth
  import opened Replay
  import opened Protocol
  import opened Refinement

  ghost predicate StepAt(w: World, states: seq<State>, steps: seq<Step>, i: nat)
    requires i < |steps| < |states|
  {
    Enabled(w, states[i], steps[i]) && states[i + 1] == Perform(w, states[i], steps[i])
  }

  /** A run: some number of steps of some number of processes, in any order. */
  ghost predicate Run(w: World, states: seq<State>, steps: seq<Step>) {
    && |states| == |steps| + 1
    && Initial(w, states[0])
    && forall i | 0 <= i < |steps| :: StepAt(w, states, steps, i)
  }

  lemma {:induction false} RunKeepsServers(w: World, states: seq<State>, steps: seq<Step>, i: nat)
    requires Run(w, states, steps) && i < |states|
    ensures ServersOf(states[i].procs) == ServersOf(states[0].procs)
  {
    if i > 0 {
      RunKeepsServers(w, states, steps, i - 1);
      assert StepAt(w, states, steps, i - 1);
      StepKeepsServers(w, states[i - 1], steps[i - 1]);
    }
  }

  lemma {:induction false} RunKeepsInv(w: World, states: seq<State>, steps: seq<Step>, i: nat)
    requires Run(w, states, steps) && i < |states|
    ensures Inv(w, states[0].committed, states[i])
  {
    if i > 0 {
      RunKeepsInv(w, states, steps, i - 1);
      assert StepAt(w, states, steps, i - 1);
      StepKeepsInv(w, states[0].committed, states[i - 1], steps[i - 1]);
    }
  }

  lemma RunInv(w: World, states: seq<State>, steps: seq<Step>, i: nat)
    requires Run(w, states, steps) && i < |states|
    ensures Inv(w, states[0].committed, states[i])
    ensures ServersOf(states[i].procs) == ServersOf(states[0].procs)
  {
    RunKeepsInv(w, states, steps, i);
    RunKeepsServers(w, states, steps, i);
  }

  lemma {:induction false} RunExtends(w: World, states: seq<State>, steps: seq<Step>, i: nat, j: nat)
    requires Run(w, states, steps) && i <= j < |states|
    ensures IsPrefix(states[i].log, states[j].log)
  {
    if i < j {
      RunExtends(w, states, steps, i, j - 1);
      assert StepAt(w, states, steps, j - 1);
      LogGrows(w, states[j - 1], steps[j - 1]);
      PrefixTransitive(states[i].log, states[j - 1].log, states[j].log);
    }
  }

  /**
   The refinement: at every moment of every run the committed content is the result of
   running the committed operations one after another, each of which succeeds on what it
   finds, and every answered call was told what its operation yields at its place in that
   order, a place inside the call; a read was told what was committed at a moment inside
   the call.
   */
  lemma EveryRunIsSerial(w: World, states: seq<State>, steps: seq<Step>, i: nat)
    requires Run(w, states, steps) && i < |states|
    ensures
      var init, s := states[0].committed, states[i];
      && s.committed == At(w, init, s.log, |s.log|)
      && LogOk(w, init, ServersOf(states[0].procs), s.log)
      && RepliesOk(w, init, s.log, s.replies)
  {
    RunInv(w, states, steps, i);
  }

  /** Replies come in order of finishing, and whoever was answered before a call began had finished by then. */
  lemma RunOrdersReplies(w: World, states: seq<State>, steps: seq<Step>, i: nat)
    requires Run(w, states, steps) && i < |states|
    ensures FinishOk(states[i].replies)
    ensures forall r | 0 <= r < |states[i].replies| :: BeganAfter(states[i].replies, states[i].replies[r].call)
  {
    RunInv(w, states, steps, i);
  }

  /** The place of a write in the log, or of a read between two entries. */
  function Place(r: Reply): Option<int> {
    match r.outcome
    case Wrote(_, _, at) => Some(2 * at + 1)
    case Answered(seen) => if seen.SawFact? then Some(2 * seen.at) else None
    case NothingStored(at) => Some(2 * at)
    case Failed => None
  }

  /** The earliest thing a reply depends on: what its read saw, or the write itself. */
  function Earliest(r: Reply): Option<int> {
    match r.outcome
    case Wrote(_, seen, at) => Some(if seen.Unread? then 2 * at + 1 else 2 * seen.at)
    case _ => Place(r)
  }

  /** A reply's place lies between the beginning and the end of its call. */
  lemma PlacedInsideTheCall(w: World, init: Database, log: seq<Entry>, r: Reply)
    requires ReplyOk(w, init, log, r)
    ensures Earliest(r).Some? ==> 2 * r.call.start <= Earliest(r).value
    ensures Place(r).Some? ==> Place(r).value <= 2 * r.finish
  {
  }

  lemma RepliesRespectRealTime(w: World, init: Database, log: seq<Entry>, replies: seq<Reply>, a: nat, b: nat)
    requires RepliesOk(w, init, log, replies) && a < |replies| && b < |replies|
    requires a < replies[b].call.answered && BeganAfter(replies, replies[b].call)
    ensures
      var first, second := Place(replies[a]), Earliest(replies[b]);
      first.Some? && second.Some? ==> first.value <= second.value && (first.value % 2 == 1 ==> first.value < second.value)
  {
    PlacedInsideTheCall(w, init, log, replies[a]);
    PlacedInsideTheCall(w, init, log, replies[b]);
  }

  /**
   The serial order respects real time: if one call was answered before another began,
   everything the later call saw or wrote comes after the earlier call's place.
   */
  lemma SerialOrderRespectsRealTime(w: World, states: seq<State>, steps: seq<Step>, i: nat, a: nat, b: nat)
    requires Run(w, states, steps) && i < |states| && a < |states[i].replies| && b < |states[i].replies|
    requires a < states[i].replies[b].call.answered
    ensures
      var first, second := Place(states[i].replies[a]), Earliest(states[i].replies[b]);
      first.Some? && second.Some? ==> first.value <= second.value && (first.value % 2 == 1 ==> first.value < second.value)
  {
    EveryRunIsSerial(w, states, steps, i);
    RunOrdersReplies(w, states, steps, i);
    RepliesRespectRealTime(w, states[0].committed, states[i].log, states[i].replies, a, b);
  }

  /** The log grows by at most one entry a step, so every length it passed was its length at some moment. */
  lemma {:induction false} EveryLengthWasReached(w: World, states: seq<State>, steps: seq<Step>, i: nat, n: nat) returns (m: nat)
    requires Run(w, states, steps) && i < |states| && n <= |states[i].log|
    ensures m <= i && |states[m].log| == n
  {
    m := i;
    if |states[i].log| > n {
      assert StepAt(w, states, steps, i - 1);
      LogGrows(w, states[i - 1], steps[i - 1]);
      m := EveryLengthWasReached(w, states, steps, i - 1, n);
    }
  }

  /** So the result of every prefix of the log was the committed content at some moment. */
  lemma EveryPrefixWasCommitted(w: World, states: seq<State>, steps: seq<Step>, i: nat, n: nat) returns (m: nat)
    requires Run(w, states, steps) && i < |states| && n <= |states[i].log|
    ensures m <= i && |states[m].log| == n
    ensures states[m].committed == At(w, states[0].committed, states[i].log, n)
  {
    m := EveryLengthWasReached(w, states, steps, i, n);
    RunExtends(w, states, steps, m, i);
    EveryRunIsSerial(w, states, steps, m);
    AtPrefix(w, states[0].committed, states[m].log, states[i].log, n);
  }

  /** What the caller of a `memory_get` was told. */
  function ReadBy(r: Reply): Option<Seen> {
    match r.outcome
    case Wrote(_, seen, _) => Some(seen)
    case Answered(seen) => Some(seen)
    case _ => None
  }

  /**
   Every answered get returned what was committed at one moment `m` of the run, after the call
   began and before it was answered, though its event may come many commits later.
   */
  lemma GetReturnsACommittedValue(w: World, states: seq<State>, steps: seq<Step>, i: nat, r: nat) returns (m: nat)
    requires Run(w, states, steps) && i < |states| && r < |states[i].replies|
    requires states[i].replies[r].call.tool.GetCall? && ReadBy(states[i].replies[r]).Some?
    ensures m <= i
    ensures
      var reply := states[i].replies[r];
      && ReadBy(reply).value.SawFact?
      && ReadBy(reply).value.fact == FindFact(states[m].committed, reply.call.tool.key)
      && reply.call.start <= |states[m].log| <= reply.finish
  {
    EveryRunIsSerial(w, states, steps, i);
    var reply := states[i].replies[r];
    assert ReplyOk(w, states[0].committed, states[i].log, reply);
    m := EveryPrefixWasCommitted(w, states, steps, i, ReadBy(reply).value.at);
  }

  // ---------------------------------------------------------------- facts and events

  /** In every run from a store its events explain (the empty one, say), they go on explaining it. */
  lemma FactsAreTheReplayOfEvents(w: World, states: seq<State>, steps: seq<Step>, i: nat)
    requires Run(w, states, steps) && i < |states|
    requires Explained(states[0].committed)
    ensures Explained(states[i].committed)
  {
    EveryRunIsSerial(w, states, steps, i);
    LogKeepsExplained(w, states[0].committed, ServersOf(states[0].procs), states[i].log, |states[i].log|);
  }

  lemma {:induction false} LogKeepsExplained(w: World, init: Database, servers: seq<Server>, log: seq<Entry>, n: nat)
    requires LogOk(w, init, servers, log) && n <= |log|
    requires Explained(init)
    ensures Explained(At(w, init, log, n))
  {
    if n > 0 {
      LogKeepsExplained(w, init, servers, log, n - 1);
      assert EntryAt(w, init, servers, log, n - 1);
      var before := At(w, init, log, n - 1);
      match log[n - 1]
      case Migration =>
        SealedRowsLinked(w.hasher, before.events.rows);
        ReplayReadsEventsOnly(before.events.rows, SealRows(w.hasher, before.events.rows));
      case Committed(_, _, x) =>
        ApplyKeepsExplained(w, before, x);
    }
  }

  ghost predicate SetsCarryValues(rows: seq<Row>) {
    forall i | 0 <= i < |rows| :: rows[i].event.action == SET ==> rows[i].event.value.Some?
  }

  lemma {:induction false} LogKeepsSetValues(w: World, init: Database, servers: seq<Server>, log: seq<Entry>, n: nat)
    requires LogOk(w, init, servers, log) && n <= |log|
    requires SetsCarryValues(init.events.rows)
    ensures SetsCarryValues(At(w, init, log, n).events.rows)
  {
    ActionsDiffer();
    if n > 0 {
      LogKeepsSetValues(w, init, servers, log, n - 1);
      assert EntryAt(w, init, servers, log, n - 1);
      var before := At(w, init, log, n - 1);
      match log[n - 1]
      case Migration => SealedRowsLinked(w.hasher, before.events.rows);
      case Committed(_, _, x) => ApplyAddsOneEvent(w, before, x);
    }
  }

  /**
   `memory_history` of a key explains the key in every reachable state: its last entry that is
   not a failed attempt is the write that gave the current value and source, or the key is gone.
   */
  lemma HistoryExplainsEveryFact(w: World, states: seq<State>, steps: seq<Step>, i: nat, key: string)
    requires Run(w, states, steps) && i < |states|
    requires Explained(states[0].committed) && SetsCarryValues(states[0].committed.events.rows)
    ensures
      var db := states[i].committed;
      var last := LastChange(History(db.events.rows, key));
      && (key in db.facts <==> last.Some? && last.value.action == SET)
      && (key in db.facts ==> last.value.value == Some(db.facts[key].value) && last.value.client == db.facts[key].source)
  {
    EveryRunIsSerial(w, states, steps, i);
    var db := states[i].committed;
    FactsAreTheReplayOfEvents(w, states, steps, i);
    LogKeepsSetValues(w, states[0].committed, ServersOf(states[0].procs), states[i].log, |states[i].log|);
    HistoryExplainsFact(db.events.rows, key);
    assert key in db.facts <==> key in Show(db.facts);
    if key in db.facts {
      assert Show(db.facts)[key] == (db.facts[key].value, db.facts[key].source);
    }
  }

  // ---------------------------------------------------------------- the chain over a run

  ghost predicate SameEventsUpTo(a: seq<Row>, b: seq<Row>) {
    |a| <= |b| && forall i | 0 <= i < |a| :: a[i].event == b[i].event
  }

  lemma {:induction false} RowsGrow(w: World, init: Database, servers: seq<Server>, log: seq<Entry>, m: nat, n: nat)
    requires LogOk(w, init, servers, log) && m <= n <= |log|
    ensures SameEventsUpTo(At(w, init, log, m).events.rows, At(w, init, log, n).events.rows)
    ensures HasChain(At(w, init, log, m).events) ==>
              HasChain(At(w, init, log, n).events) && IsPrefix(At(w, init, log, m).events.rows, At(w, init, log, n).events.rows)
  {
    if m < n {
      RowsGrow(w, init, servers, log, m, n - 1);
      assert EntryAt(w, init, servers, log, n - 1);
      var before, after := At(w, init, log, n - 1), At(w, init, log, n);
      match log[n - 1]
      case Migration => SealedRowsLinked(w.hasher, before.events.rows);
      case Committed(_, _, x) => ApplyAddsOneEvent(w, before, x);
      if HasChain(At(w, init, log, m).events) {
        assert IsPrefix(before.events.rows, after.events.rows);
        PrefixTransitive(At(w, init, log, m).events.rows, before.events.rows, after.events.rows);
      }
    }
  }

  /**
   In any run that mixes old servers, new servers and racing migrators: no event is ever lost
   or altered, and once the chain columns exist every committed table verifies, holds no
   unhashed row, and has each earlier table as a prefix of its rows, so an old head is still
   the head of that prefix.
   */
  lemma ChainHoldsFromMigrationOn(w: World, states: seq<State>, steps: seq<Step>, i: nat, j: nat)
    requires Run(w, states, steps) && i <= j < |states|
    ensures
      var a, b := states[i].committed.events, states[j].committed.events;
      && SameEventsUpTo(a.rows, b.rows) && TableOk(b)
      && (HasChain(a) ==>
            && HasChain(b) && b.guarded
            && Verdict(w.hasher, b, None).Ok?
            && (forall k | 0 <= k < |b.rows| :: b.rows[k].prev.Some? && b.rows[k].hash.Some?)
            && IsPrefix(a.rows, b.rows)
            && Verdict(w.hasher, b.(rows := b.rows[..|a.rows|]), Head(a.rows)).Ok?)
  {
    RunInv(w, states, steps, i);
    RunInv(w, states, steps, j);
    RunExtends(w, states, steps, i, j);
    var init, log := states[0].committed, states[j].log;
    AtPrefix(w, init, states[i].log, log, |states[i].log|);
    RowsGrow(w, init, ServersOf(states[j].procs), log, |states[i].log|, |log|);
    var a, b := states[i].committed.events, states[j].committed.events;
    if HasChain(a) {
      assert Sealed(w.hasher, b) && Sealed(w.hasher, a);
      LinkedHead(w.hasher, a.rows);
      assert b.rows[..|a.rows|] == a.rows;
      forall k | 0 <= k < |b.rows|
        ensures b.rows[k].prev.Some? && b.rows[k].hash.Some?
      {
        assert LinkAt(w.hasher, b.rows, k);
      }
    }
  }

  /** A chaining server that is ready to serve has the chain under it; its logging step cannot be refused. */
  lemma ReadyServersNeverLackTheChain(w: World, states: seq<State>, steps: seq<Step>, i: nat, p: nat)
    requires Run(w, states, steps) && i < |states| && p < |states[i].procs|
    requires states[i].procs[p].ready && states[i].procs[p].server.chained && states[i].procs[p].pc.SequenceRead?
    ensures Enabled(w, states[i], Insert(p))
  {
    RunInv(w, states, steps, i);
    var s := states[i];
    assert ProcOk(w, states[0].committed, s.log, |s.replies|, s.procs[p]);
    assert s.writer == Some(p);
    LinkedHead(w.hasher, s.committed.events.rows);
  }

  // ---------------------------------------------------------------- vectors

  lemma {:induction false} LogKeepsVectors(w: World, init: Database, servers: seq<Server>, log: seq<Entry>, n: nat)
    requires LogOk(w, init, servers, log) && n <= |log| && Covered(init)
    ensures Covered(At(w, init, log, n))
    ensures Fresh(w, init) && (forall p | 0 <= p < |servers| :: servers[p].embeds) ==> Fresh(w, At(w, init, log, n))
  {
    if n > 0 {
      LogKeepsVectors(w, init, servers, log, n - 1);
      assert EntryAt(w, init, servers, log, n - 1);
      if log[n - 1].Committed? {
        ApplyKeepsVectors(w, At(w, init, log, n - 1), log[n - 1].x);
      }
    }
  }

  /** In every reachable state vectors belong to live facts; if every server embeds, they are those facts' embeddings. */
  lemma VectorsFollowFacts(w: World, states: seq<State>, steps: seq<Step>, i: nat)
    requires Run(w, states, steps) && i < |states| && Covered(states[0].committed)
    ensures Covered(states[i].committed)
    ensures Fresh(w, states[0].committed) && (forall p | 0 <= p < |states[0].procs| :: states[0].procs[p].server.embeds) ==>
              Fresh(w, states[i].committed)
  {
    EveryRunIsSerial(w, states, steps, i);
    var servers := ServersOf(states[0].procs);
    LogKeepsVectors(w, states[0].committed, servers, states[i].log, |states[i].log|);
    if forall p | 0 <= p < |states[0].procs| :: states[0].procs[p].server.embeds {
      assert forall p | 0 <= p < |servers| :: servers[p].embeds;
    }
  }

  /** Where vectors are fresh the best hit is the fact whose text is closest. */
  lemma BestOfFresh(w: World, db: Database, query: string, best: string)
    requires Fresh(w, db) && BestHit(w, db, query, best)
    ensures best in db.facts
    ensures forall k | k in db.facts ::
              w.score(w.embed(query), w.embed(EmbeddedText(k, db.facts[k].value)))
              <= w.score(w.embed(query), w.embed(EmbeddedText(best, db.facts[best].value)))
  {
    forall k | k in db.facts
      ensures k in Joined(db)
      ensures ScoreOf(w, db, query, k) == w.score(w.embed(query), w.embed(EmbeddedText(k, db.facts[k].value)))
    {
      assert k in db.vectors.Keys;
    }
  }

  /**
   A search answers with a fact that was live at a moment inside the call, and logs it with its
   score then; if every server embeds, no live fact's current text was then closer to the query.
   */
  lemma SearchRanksLiveFacts(w: World, states: seq<State>, steps: seq<Step>, i: nat, r: nat)
    requires Run(w, states, steps) && i < |states| && r < |states[i].replies|
    requires states[i].replies[r].call.tool.SearchCall? && states[i].replies[r].outcome.Wrote?
    ensures
      var reply, log := states[i].replies[r], states[i].log;
      && reply.outcome.seen.SawBest? && reply.call.start <= reply.outcome.seen.at <= reply.finish <= |log|
      && var db, best := At(w, states[0].committed, log, reply.outcome.seen.at), reply.outcome.seen.best;
         && best in db.facts && best in db.vectors
         && reply.outcome.at < |log| && log[reply.outcome.at].Committed?
         && log[reply.outcome.at].x.op
            == NoteSearch(best, w.scoreNote(reply.call.tool.query, w.score(w.embed(reply.call.tool.query), db.vectors[best])))
         && (Fresh(w, states[0].committed) && (forall p | 0 <= p < |states[0].procs| :: states[0].procs[p].server.embeds) ==>
               forall k | k in db.facts ::
                 w.score(w.embed(reply.call.tool.query), w.embed(EmbeddedText(k, db.facts[k].value)))
                 <= w.score(w.embed(reply.call.tool.query), w.embed(EmbeddedText(best, db.facts[best].value))))
  {
    EveryRunIsSerial(w, states, steps, i);
    var s, servers := states[i], ServersOf(states[0].procs);
    var reply := s.replies[r];
    assert ReplyOk(w, states[0].committed, s.log, reply);
    var db := At(w, states[0].committed, s.log, reply.outcome.seen.at);
    if Fresh(w, states[0].committed) && forall p | 0 <= p < |states[0].procs| :: states[0].procs[p].server.embeds {
      assert forall p | 0 <= p < |servers| :: servers[p].embeds;
      LogKeepsVectors(w, states[0].committed, servers, s.log, reply.outcome.seen.at);
      BestOfFresh(w, db, reply.call.tool.query, reply.outcome.seen.best);
    }
  }

  // ---------------------------------------------------------------- attribution

  /** How many of the first `n` entries are tool transactions. */
  function Writes(log: seq<Entry>, n: nat): (c: nat)
    requires n <= |log|
  {
    if n == 0 then 0 else Writes(log, n - 1) + if log[n - 1].Committed? then 1 else 0
  }

  /** The event that entry `i` logged. */
  function EventOfEntry(w: World, init: Database, log: seq<Entry>, i: nat): Event
    requires i < |log| && log[i].Committed?
  {
    var before := At(w, init, log, i);
    EventOf(w, log[i].x, Loses(before.facts, log[i].x.op), NextId(before.events))
  }

  /**
   Every committed tool transaction owns exactly one event row, in commit order, and no other
   rows appear: a lost compare-and-swap, a read and a no-op delete count like any other.
   */
  lemma {:induction false} EachCommitOwnsOneEvent(w: World, init: Database, servers: seq<Server>, log: seq<Entry>, n: nat)
    requires LogOk(w, init, servers, log) && n <= |log|
    ensures |At(w, init, log, n).events.rows| == |init.events.rows| + Writes(log, n)
    ensures forall i | 0 <= i < n && log[i].Committed? ::
              Writes(log, i) < Writes(log, n)
              && At(w, init, log, n).events.rows[|init.events.rows| + Writes(log, i)].event == EventOfEntry(w, init, log, i)
  {
    if n > 0 {
      EachCommitOwnsOneEvent(w, init, servers, log, n - 1);
      assert EntryAt(w, init, servers, log, n - 1);
      var before := At(w, init, log, n - 1);
      match log[n - 1]
      case Migration => SealedRowsLinked(w.hasher, before.events.rows);
      case Committed(_, _, x) => ApplyAddsOneEvent(w, before, x);
    }
  }

  /** Entry `i` stored the fact that `key` has now. */
  ghost predicate StoredBy(w: World, init: Database, log: seq<Entry>, i: nat, key: string, fact: Fact)
    requires i < |log|
  {
    && log[i].Committed?
    && log[i].x.op.Store? && log[i].x.op.key == key && Loses(At(w, init, log, i).facts, log[i].x.op).None?
    && fact == Fact(log[i].x.op.value, log[i].x.client, log[i].x.factTime)
  }

  lemma {:induction false} EveryFactHasItsWriter(w: World, init: Database, servers: seq<Server>, log: seq<Entry>, n: nat, key: string)
    requires LogOk(w, init, servers, log) && n <= |log| && key in At(w, init, log, n).facts
    ensures (key in init.facts && At(w, init, log, n).facts[key] == init.facts[key])
            || exists i :: 0 <= i < n && StoredBy(w, init, log, i, key, At(w, init, log, n).facts[key])
  {
    if n > 0 {
      assert EntryAt(w, init, servers, log, n - 1);
      var before, db := At(w, init, log, n - 1), At(w, init, log, n);
      if key in before.facts && before.facts[key] == db.facts[key] {
        EveryFactHasItsWriter(w, init, servers, log, n - 1, key);
      } else {
        assert StoredBy(w, init, log, n - 1, key, db.facts[key]);
      }
    }
  }

  /** The call carried exactly one authorization header, and it held `client`'s token. */
  ghost predicate HeldTokenOf(items: seq<(string, Token)>, origin: Origin, client: string) {
    origin.isHttp && exists m :: 0 <= m < |items| && items[m].0 == client && items[m].1.Text?
                              && Authorizations(origin.headers) == [HeaderOf(items[m].1)]
  }

  /** The process that committed entry `k` is a server with this token table. */
  predicate ByPerClientServer(servers: seq<Server>, log: seq<Entry>, k: nat, table: map<string, string>)
    requires k < |log| && log[k].Committed?
  {
    log[k].p < |servers| && servers[log[k].p].login == PerClient(table)
  }

  lemma EntryHeldToken(w: World, init: Database, servers: seq<Server>, log: seq<Entry>, k: nat,
                       items: seq<(string, Token)>, table: map<string, string>)
    requires DistinctIds(items) && Tabulates(items, |items|, table)
    requires LogOk(w, init, servers, log) && k < |log| && log[k].Committed? && ByPerClientServer(servers, log, k, table)
    ensures HeldTokenOf(items, log[k].call.origin, log[k].x.client)
  {
    assert EntryAt(w, init, servers, log, k);
    IdentityIsTheTokenHolder(items, table, log[k].call.origin, log[k].x.client);
  }

  /** Row of entry `k`, once the run has committed it. */
  ghost predicate RowHeldToken(init: Database, db: Database, log: seq<Entry>, k: nat, items: seq<(string, Token)>)
    requires k < |log| && log[k].Committed?
  {
    var row := |init.events.rows| + Writes(log, k);
    row < |db.events.rows| && HeldTokenOf(items, log[k].call.origin, db.events.rows[row].event.client)
  }

  /** Whichever entry of a server with this table stored this fact, the fact's source held its token. */
  ghost predicate FactHeldToken(w: World, init: Database, servers: seq<Server>, log: seq<Entry>, key: string, fact: Fact,
                                items: seq<(string, Token)>, table: map<string, string>)
  {
    forall k | 0 <= k < |log| && log[k].Committed? ::
      StoredBy(w, init, log, k, key, fact) && ByPerClientServer(servers, log, k, table) ==>
        HeldTokenOf(items, log[k].call.origin, fact.source)
  }

  lemma RowsHeldTokens(w: World, init: Database, servers: seq<Server>, log: seq<Entry>, k: nat,
                       items: seq<(string, Token)>, table: map<string, string>)
    requires DistinctIds(items) && Tabulates(items, |items|, table)
    requires LogOk(w, init, servers, log) && k < |log| && log[k].Committed? && ByPerClientServer(servers, log, k, table)
    ensures RowHeldToken(init, At(w, init, log, |log|), log, k, items)
  {
    EachCommitOwnsOneEvent(w, init, servers, log, |log|);
    EntryHeldToken(w, init, servers, log, k, items, table);
  }

  lemma FactsHeldTokens(w: World, init: Database, servers: seq<Server>, log: seq<Entry>, key: string, fact: Fact,
                        items: seq<(string, Token)>, table: map<string, string>)
    requires DistinctIds(items) && Tabulates(items, |items|, table)
    requires LogOk(w, init, servers, log)
    ensures FactHeldToken(w, init, servers, log, key, fact, items, table)
  {
    forall k | 0 <= k < |log| && log[k].Committed? && StoredBy(w, init, log, k, key, fact) && ByPerClientServer(servers, log, k, table)
      ensures HeldTokenOf(items, log[k].call.origin, fact.source)
    {
      EntryHeldToken(w, init, servers, log, k, items, table);
    }
  }

  /**
   Attribution with per-client tokens, whatever other servers share the file: the event of every
   call that such a server committed names the client whose token the call's one authorization
   header held, and so does the source of every fact that it stored, whatever `client_id` the caller
   claimed. Every fact a run wrote was stored by such an entry or by another server's.
   */
  lemma AttributionIsTheTokenHolder(w: World, states: seq<State>, steps: seq<Step>, i: nat,
                                    items: seq<(string, Token)>, table: map<string, string>)
    requires Run(w, states, steps) && i < |states|
    requires DistinctIds(items) && Tabulates(items, |items|, table)
    ensures
      var init, db, log, servers := states[0].committed, states[i].committed, states[i].log, ServersOf(states[0].procs);
      && (forall k | 0 <= k < |log| && log[k].Committed? && ByPerClientServer(servers, log, k, table) ::
            RowHeldToken(init, db, log, k, items))
      && (forall key | key in db.facts :: FactHeldToken(w, init, servers, log, key, db.facts[key], items, table))
      && (forall key | key in db.facts ::
            (key in init.facts && db.facts[key] == init.facts[key])
            || exists k :: 0 <= k < |log| && StoredBy(w, init, log, k, key, db.facts[key]))
  {
    EveryRunIsSerial(w, states, steps, i);
    var init, db, log, servers := states[0].committed, states[i].committed, states[i].log, ServersOf(states[0].procs);
    forall k | 0 <= k < |log| && log[k].Committed? && ByPerClientServer(servers, log, k, table)
      ensures RowHeldToken(init, db, log, k, items)
    {
      RowsHeldTokens(w, init, servers, log, k, items, table);
    }
    forall key | key in db.facts
      ensures FactHeldToken(w, init, servers, log, key, db.facts[key], items, table)
      ensures (key in init.facts && db.facts[key] == init.facts[key])
              || exists k :: 0 <= k < |log| && StoredBy(w, init, log, k, key, db.facts[key])
    {
      FactsHeldTokens(w, init, servers, log, key, db.facts[key], items, table);
      EveryFactHasItsWriter(w, init, servers, log, |log|, key);
    }
  }
}
