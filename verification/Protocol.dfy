/**
 Many server processes on one file, as a transition system. A tool call is split
 into the steps another process can come between: the read, the lock, each
 statement, the tail read, the sequence read, the insert, the commit and the answer,
 with failures and crashes anywhere. `log`, `replies` and `lost` are history variables.
 */
module Protocol {
  import opened Wrappers
  import opened HashChain
  import opened Sqlite
  import opened MemoryTools
  import opened Auth

  /** A server process: whether it embeds, chains its events, logs its reads, and how it names its callers. */
  datatype Server = Server(embeds: bool, chained: bool, logReads: bool, login: Login)

  datatype ToolCall =
    | SetCall(key: string, value: string, mode: Mode)
    | DeleteCall(key: string)
    | GetCall(key: string)
    | SearchCall(query: string)

  /**
   A call in progress: who it acts for, how long the log was and how many calls had been
   answered when it began.
   */
  datatype Call = Call(tool: ToolCall, origin: Origin, client: string, start: nat, answered: nat)

  /** What a read saw, and how long the log was when it looked. */
  datatype Seen = Unread | SawFact(fact: Option<Fact>, at: nat) | SawBest(best: string, at: nat)

  /** What the fact statement reported: the conflict it ran into, and whether the key was there. */
  datatype Report = Report(conflict: Option<Conflict>, existed: bool)

  datatype Pc =
    | Idle
    | WaitingToMigrate
    | Migrating
    | Migrated
    | Reading(call: Call)
    | Waiting(call: Call, op: Op, seen: Seen)
    | InTransaction(call: Call, op: Op, seen: Seen)
    | FactsChanged(call: Call, x: Txn, seen: Seen, report: Report)
    | VectorsChanged(call: Call, x: Txn, seen: Seen, report: Report)
    | TailRead(call: Call, x: Txn, seen: Seen, report: Report, previous: Option<string>)
    | SequenceRead(call: Call, x: Txn, seen: Seen, report: Report, previous: Option<string>, id: int)
    | Logged(call: Call, x: Txn, seen: Seen, report: Report)
    | Answering(call: Call, outcome: Outcome)

  /**
   One worker: a server process, or one of its threads. Threads of a process are workers with equal
   servers; the process's own lock only orders their steps.
   */
  datatype Process = Process(server: Server, ready: bool, pc: Pc)

  /** A commit: process `p` committed a tool transaction, or a migration. */
  datatype Entry = Committed(p: nat, call: Call, x: Txn) | Migration

  datatype Outcome =
    | Wrote(report: Report, seen: Seen, at: nat)
    | Answered(seen: Seen)
    | NothingStored(at: nat)
    | Failed

  datatype Reply = Reply(call: Call, outcome: Outcome, finish: nat)

  /**
   `replies` is what callers were told, in that order; `lost` holds the answers that were due but
   never given, because the process died or failed with the call already decided.
   */
  datatype State = State(committed: Database, working: Database, writer: Option<nat>,
                         procs: seq<Process>, log: seq<Entry>, replies: seq<Reply>, lost: seq<Reply>)

  datatype Step =
    | OpenSealed(p: nat)
    | OpenLegacy(p: nat)
    | LockToMigrate(p: nat)
    | Seal(p: nat)
    | CommitMigration(p: nat)
    | Start(p: nat, tool: ToolCall, origin: Origin)
    | Read(p: nat, best: string)
    | Lock(p: nat)
    | ChangeFact(p: nat, factTime: string)
    | ChangeVector(p: nat, eventTime: string)
    | ReadTail(p: nat)
    | ReadSequence(p: nat)
    | Insert(p: nat)
    | Commit(p: nat)
    | Tell(p: nat)
    | Fail(p: nat)
    | Crash(p: nat)

  predicate Holds(pc: Pc) {
    pc.Migrating? || pc.Migrated? || pc.InTransaction? || pc.FactsChanged? || pc.VectorsChanged? || pc.TailRead?
    || pc.SequenceRead? || pc.Logged?
  }

  function FindFact(db: Database, key: string): Option<Fact> {
    if key in db.facts then Some(db.facts[key]) else None
  }

  /** The one INSERT: a chaining server supplies id and hashes, an older one lets SQLite number the row. */
  function InsertResult(w: World, working: Database, pc: Pc): Result<Table, SqlError> {
    match pc
    case SequenceRead(_, x, _, report, previous, id) =>
      if HasChain(working.events) then InsertRow(working.events, RowOf(w, x, report.conflict, previous, id)) else Err(NoSuchColumn)
    case VectorsChanged(_, x, _, report) =>
      InsertRow(working.events, RowOf(w, x, report.conflict, None, NextId(working.events)))
    case _ => Err(NoSuchColumn)
  }

  ghost predicate Enabled(w: World, s: State, t: Step) {
    && t.p < |s.procs|
    && var me := s.procs[t.p];
       match t
       case OpenSealed(_) => me.pc.Idle? && !me.ready && (!me.server.chained || HasChain(s.committed.events))
       case OpenLegacy(_) => me.pc.Idle? && !me.ready && me.server.chained && !HasChain(s.committed.events)
       case LockToMigrate(_) => me.pc.WaitingToMigrate? && s.writer.None?
       case Seal(_) => me.pc.Migrating? && (HasChain(s.working.events) || Legacy(s.working.events))
       case CommitMigration(_) => me.pc.Migrated?
       case Start(_, tool, origin) =>
         && me.pc.Idle? && me.ready && Identify(me.server.login, origin).Some?
         // the reading tools take no client_id argument
         && (tool.GetCall? || tool.SearchCall? ==> origin.claimed.None?)
       case Read(_, best) =>
         && me.pc.Reading?
         && (me.pc.call.tool.SearchCall? ==> me.server.embeds)
         && (me.pc.call.tool.SearchCall? && Joined(s.committed) != {} ==> BestHit(w, s.committed, me.pc.call.tool.query, best))
       case Lock(_) => me.pc.Waiting? && s.writer.None?
       case ChangeFact(_, _) => me.pc.InTransaction?
       case ChangeVector(_, _) => me.pc.FactsChanged?
       case ReadTail(_) => me.pc.VectorsChanged? && me.server.chained
       case ReadSequence(_) => me.pc.TailRead?
       case Insert(_) => (me.pc.SequenceRead? || (me.pc.VectorsChanged? && !me.server.chained)) && InsertResult(w, s.working, me.pc).Ok?
       case Commit(_) => me.pc.Logged?
       case Tell(_) => me.pc.Answering?
       case Fail(_) => !me.pc.Idle?
       case Crash(_) => true
  }

  function Move(s: State, p: nat, pc: Pc): State
    requires p < |s.procs|
  {
    s.(procs := s.procs[p := s.procs[p].(pc := pc)])
  }

  function Answer(s: State, p: nat, call: Call, outcome: Outcome): State
    requires p < |s.procs|
  {
    var reply := Reply(call, outcome, |s.log|);
    Move(s, p, Idle).(replies := s.replies + [reply])
  }

  function WriteOp(tool: ToolCall): Op
    requires tool.SetCall? || tool.DeleteCall?
  {
    match tool
    case SetCall(key, value, mode) => Store(key, value, mode)
    case DeleteCall(key) => Remove(key)
  }

  function PerformRead(w: World, s: State, p: nat, best: string): State
    requires p < |s.procs| && s.procs[p].pc.Reading?
  {
    var call := s.procs[p].pc.call;
    match call.tool
    case GetCall(key) =>
      var seen := SawFact(FindFact(s.committed, key), |s.log|);
      Move(s, p, if s.procs[p].server.logReads then Waiting(call, NoteGet(key), seen) else Answering(call, Answered(seen)))
    case SearchCall(query) =>
      if best !in s.committed.facts || best !in s.committed.vectors then Move(s, p, Answering(call, NothingStored(|s.log|)))
      else
        var note := w.scoreNote(query, w.score(w.embed(query), s.committed.vectors[best]));
        Move(s, p, Waiting(call, NoteSearch(best, note), SawBest(best, |s.log|)))
    case _ => s
  }

  function CallOf(pc: Pc): Option<Call> {
    match pc
    case Reading(call) => Some(call)
    case Waiting(call, _, _) => Some(call)
    case InTransaction(call, _, _) => Some(call)
    case FactsChanged(call, _, _, _) => Some(call)
    case VectorsChanged(call, _, _, _) => Some(call)
    case TailRead(call, _, _, _, _) => Some(call)
    case SequenceRead(call, _, _, _, _, _) => Some(call)
    case Logged(call, _, _, _) => Some(call)
    case Answering(call, _) => Some(call)
    case _ => None
  }

  /**
   Failure, lock timeout and crash all roll the working copy back by forgetting it. What is
   committed already stays, but the answer that was due is lost.
   */
  function Abandon(s: State, p: nat): State
    requires p < |s.procs|
  {
    match s.procs[p].pc
    case Answering(call, outcome) =>
      var reply := Reply(call, outcome, |s.log|);
      s.(lost := s.lost + [reply])
    case pc => if Holds(pc) then s.(writer := None) else s
  }

  function Perform(w: World, s: State, t: Step): State
    requires Enabled(w, s, t)
  {
    var me := s.procs[t.p];
    match t
    case OpenSealed(p) => s.(procs := s.procs[p := me.(ready := true)])
    case OpenLegacy(p) => Move(s, p, WaitingToMigrate)
    case LockToMigrate(p) => Move(s, p, Migrating).(writer := Some(p), working := s.committed)
    case Seal(p) =>
      Move(s, p, Migrated).(working :=
        if HasChain(s.working.events) then s.working
        else s.working.(events := SealTable(w.hasher, s.working.events)))
    case CommitMigration(p) =>
      s.(committed := s.working, writer := None, log := s.log + [Migration],
         procs := s.procs[p := me.(ready := true, pc := Idle)])
    case Start(p, tool, origin) =>
      var call := Call(tool, origin, Identify(me.server.login, origin).value, |s.log|, |s.replies|);
      Move(s, p, if tool.GetCall? || tool.SearchCall? then Reading(call) else Waiting(call, WriteOp(tool), Unread))
    case Read(p, best) => PerformRead(w, s, p, best)
    case Lock(p) =>
      Move(s, p, InTransaction(me.pc.call, me.pc.op, me.pc.seen)).(writer := Some(p), working := s.committed)
    case ChangeFact(p, factTime) =>
      var x := Txn(me.pc.op, me.pc.call.client, me.server.embeds, me.server.chained, factTime, "");
      var report := Report(Loses(s.working.facts, x.op), x.op.key in s.working.facts);
      Move(s, p, FactsChanged(me.pc.call, x, me.pc.seen, report)).(working := s.working.(facts := ChangeFacts(s.working.facts, x)))
    case ChangeVector(p, eventTime) =>
      var x := me.pc.x.(eventTime := eventTime);
      Move(s, p, VectorsChanged(me.pc.call, x, me.pc.seen, me.pc.report)).(working :=
        s.working.(vectors := VectorStatement(w, s.working.vectors, x, me.pc.report.conflict)))
    case ReadTail(p) =>
      Move(s, p, TailRead(me.pc.call, me.pc.x, me.pc.seen, me.pc.report, Head(s.working.events.rows)))
    case ReadSequence(p) =>
      Move(s, p, SequenceRead(me.pc.call, me.pc.x, me.pc.seen, me.pc.report, me.pc.previous, NextId(s.working.events)))
    case Insert(p) =>
      Move(s, p, Logged(me.pc.call, me.pc.x, me.pc.seen, me.pc.report)).(working :=
        s.working.(events := InsertResult(w, s.working, me.pc).value))
    case Commit(p) =>
      Move(s, p, Answering(me.pc.call, Wrote(me.pc.report, me.pc.seen, |s.log|))).(
        committed := s.working, writer := None, log := s.log + [Committed(p, me.pc.call, me.pc.x)])
    case Tell(p) => Answer(s, p, me.pc.call, me.pc.outcome)
    case Fail(p) =>
      var call := CallOf(me.pc);
      if call.Some? then Answer(Abandon(s, p), p, call.value, Failed) else Move(Abandon(s, p), p, Idle)
    case Crash(p) =>
      Abandon(s, p).(procs := s.procs[p := me.(ready := false, pc := Idle)])
  }

  // ---------------------------------------------------------------- the sequential store

  /** One log entry as one atomic operation. */
  function ApplyEntry(w: World, db: Database, e: Entry): Database {
    match e
    case Migration => if HasChain(db.events) then db else db.(events := SealTable(w.hasher, db.events))
    case Committed(_, _, x) =>
      match Apply(w, db, x)
      case Ok(next) => next
      case Err(_) => db
  }

  /** The store after the first `n` entries, run one after another from `init`. */
  function At(w: World, init: Database, log: seq<Entry>, n: nat): Database
    requires n <= |log|
  {
    if n == 0 then init else ApplyEntry(w, At(w, init, log, n - 1), log[n - 1])
  }

  lemma {:induction false} AtPrefix(w: World, init: Database, log: seq<Entry>, more: seq<Entry>, n: nat)
    requires n <= |log| && IsPrefix(log, more)
    ensures At(w, init, log, n) == At(w, init, more, n)
  {
    if n > 0 {
      AtPrefix(w, init, log, more, n - 1);
      assert more[..|log|][n - 1] == log[n - 1];
    }
  }
}
