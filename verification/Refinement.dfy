/**
 Every interleaving of the processes is one sequential run of atomic operations in
 commit order: the invariant, its proof step by step, and what callers are told.
 */
module Refinement {
  import opened Wrappers
  import opened HashChain
  import opened Sqlite
  import opened MemoryTools
  import opened Auth
  import opened Protocol

  // ---------------------------------------------------------------- the invariant

  ghost predicate StoreOk(w: World, db: Database) {
    TableOk(db.events) && (Legacy(db.events) || Sealed(w.hasher, db.events))
  }

  /** Exactly the process named by `writer` is inside a transaction. */
  ghost predicate LockOk(s: State) {
    && (s.writer.Some? ==> s.writer.value < |s.procs|)
    && forall p | 0 <= p < |s.procs| :: Holds(s.procs[p].pc) <==> s.writer == Some(p)
  }

  function ReportOf(db: Database, op: Op): Report {
    Report(Loses(db.facts, op), op.key in db.facts)
  }

  function Changed(w: World, db: Database, x: Txn): Database {
    Database(ChangeFacts(db.facts, x), VectorStatement(w, db.vectors, x, Loses(db.facts, x.op)), db.events)
  }

  /** The lock holder's working copy is the committed content plus exactly the statements it has run. */
  ghost predicate WorkOk(w: World, db: Database, working: Database, pc: Pc) {
    match pc
    case Migrating => working == db
    case Migrated => working == ApplyEntry(w, db, Migration)
    case InTransaction(_, _, _) => working == db
    case FactsChanged(_, x, _, report) =>
      report == ReportOf(db, x.op) && working == db.(facts := ChangeFacts(db.facts, x))
    case VectorsChanged(_, x, _, report) =>
      report == ReportOf(db, x.op) && working == Changed(w, db, x)
    case TailRead(_, x, _, report, previous) =>
      report == ReportOf(db, x.op) && working == Changed(w, db, x) && x.chained && previous == Head(db.events.rows)
    case SequenceRead(_, x, _, report, previous, id) =>
      && report == ReportOf(db, x.op) && working == Changed(w, db, x) && x.chained
      && previous == Head(db.events.rows) && id == NextId(db.events)
    case Logged(_, x, _, report) =>
      report == ReportOf(db, x.op) && Apply(w, db, x) == Ok(working)
    case _ => true
  }

  /** The transaction is the one this server makes of this call. */
  ghost predicate Fits(server: Server, call: Call, x: Txn) {
    && Identify(server.login, call.origin) == Some(call.client)
    && x.client == call.client && x.chained == server.chained && x.embeds == server.embeds
  }

  ghost predicate EntryOk(w: World, servers: seq<Server>, before: Database, e: Entry) {
    match e
    case Migration => true
    case Committed(p, call, x) => p < |servers| && Fits(servers[p], call, x) && Apply(w, before, x).Ok?
  }

  ghost predicate EntryAt(w: World, init: Database, servers: seq<Server>, log: seq<Entry>, i: nat)
    requires i < |log|
  {
    EntryOk(w, servers, At(w, init, log, i), log[i])
  }

  ghost predicate LogOk(w: World, init: Database, servers: seq<Server>, log: seq<Entry>) {
    forall i | 0 <= i < |log| :: EntryAt(w, init, servers, log, i)
  }

  /** What a read saw was committed at a moment after the call began, and decides what is logged. */
  ghost predicate SeenOk(w: World, init: Database, log: seq<Entry>, call: Call, op: Op, seen: Seen) {
    match call.tool
    case GetCall(key) =>
      && seen.SawFact? && call.start <= seen.at <= |log|
      && seen.fact == FindFact(At(w, init, log, seen.at), key)
      && op == NoteGet(key)
    case SearchCall(query) =>
      && seen.SawBest? && call.start <= seen.at <= |log|
      && BestHit(w, At(w, init, log, seen.at), query, seen.best)
      && op == NoteSearch(seen.best, w.scoreNote(query, w.score(w.embed(query), At(w, init, log, seen.at).vectors[seen.best])))
    case _ => seen.Unread? && op == WriteOp(call.tool)
  }

  ghost predicate CallOk(server: Server, log: seq<Entry>, answered: nat, call: Call) {
    call.start <= |log| && call.answered <= answered && Identify(server.login, call.origin) == Some(call.client)
  }

  /**
   What a call came to, told or not: what its atomic operation yields at its place in the log, a
   place after the call began; or what was committed at a moment after the call began.
   */
  ghost predicate OutcomeOk(w: World, init: Database, log: seq<Entry>, call: Call, outcome: Outcome) {
    match outcome
    case Wrote(report, seen, at) =>
      && call.start <= at < |log|
      && log[at].Committed? && log[at].call == call
      && report == ReportOf(At(w, init, log, at), log[at].x.op)
      && SeenOk(w, init, log, call, log[at].x.op, seen)
      && (!seen.Unread? ==> seen.at <= at)
    case Answered(seen) => call.tool.GetCall? && SeenOk(w, init, log, call, NoteGet(call.tool.key), seen)
    case NothingStored(at) => call.tool.SearchCall? && call.start <= at <= |log| && Joined(At(w, init, log, at)) == {}
    case Failed => true
  }

  /** Everything the outcome depends on was committed when the log was `n` long. */
  predicate DecidedBy(outcome: Outcome, n: nat) {
    match outcome
    case Wrote(_, _, at) => at < n
    case Answered(seen) => seen.SawFact? ==> seen.at <= n
    case NothingStored(at) => at <= n
    case Failed => true
  }

  /** A process is in the middle of a call it was given, with what it read still accounted for. */
  ghost predicate ProcOk(w: World, init: Database, log: seq<Entry>, answered: nat, me: Process) {
    && (CallOf(me.pc).Some? ==> CallOk(me.server, log, answered, CallOf(me.pc).value))
    && match me.pc
       case Reading(call) => call.tool.GetCall? || call.tool.SearchCall?
       case Waiting(call, op, seen) => SeenOk(w, init, log, call, op, seen)
       case InTransaction(call, op, seen) => SeenOk(w, init, log, call, op, seen)
       case FactsChanged(call, x, seen, _) => SeenOk(w, init, log, call, x.op, seen) && Fits(me.server, call, x)
       case VectorsChanged(call, x, seen, _) => SeenOk(w, init, log, call, x.op, seen) && Fits(me.server, call, x)
       case TailRead(call, x, seen, _, _) => SeenOk(w, init, log, call, x.op, seen) && Fits(me.server, call, x)
       case SequenceRead(call, x, seen, _, _, _) => SeenOk(w, init, log, call, x.op, seen) && Fits(me.server, call, x)
       case Logged(call, x, seen, _) => SeenOk(w, init, log, call, x.op, seen) && Fits(me.server, call, x)
       case Answering(call, outcome) => OutcomeOk(w, init, log, call, outcome)
       case _ => true
  }

  /** An outcome that was decided inside the call. */
  ghost predicate ReplyOk(w: World, init: Database, log: seq<Entry>, r: Reply) {
    && r.call.start <= r.finish <= |log|
    && OutcomeOk(w, init, log, r.call, r.outcome) && DecidedBy(r.outcome, r.finish)
  }

  ghost predicate RepliesOk(w: World, init: Database, log: seq<Entry>, replies: seq<Reply>) {
    forall i | 0 <= i < |replies| :: ReplyOk(w, init, log, replies[i]) && replies[i].call.answered <= i
  }

  /** Replies are in order of finishing. */
  ghost predicate FinishOk(replies: seq<Reply>) {
    forall i, j | 0 <= i < j < |replies| :: replies[i].finish <= replies[j].finish
  }

  /** Whoever was answered before a call began had finished by the time it began. */
  ghost predicate BeganAfter(replies: seq<Reply>, call: Call) {
    forall i | 0 <= i < call.answered && i < |replies| :: replies[i].finish <= call.start
  }

  ghost predicate OrderOk(s: State) {
    && (forall p | 0 <= p < |s.procs| :: CallOf(s.procs[p].pc).Some? ==> BeganAfter(s.replies, CallOf(s.procs[p].pc).value))
    && (forall i | 0 <= i < |s.replies| :: BeganAfter(s.replies, s.replies[i].call))
  }

  ghost predicate ProcsOk(w: World, init: Database, s: State) {
    forall p | 0 <= p < |s.procs| :: ProcOk(w, init, s.log, |s.replies|, s.procs[p])
  }

  ghost predicate ReadyOk(s: State) {
    forall p | 0 <= p < |s.procs| :: s.procs[p].ready && s.procs[p].server.chained ==> HasChain(s.committed.events)
  }

  function ServersOf(procs: seq<Process>): seq<Server> {
    seq(|procs|, p requires 0 <= p < |procs| => procs[p].server)
  }

  ghost predicate Inv(w: World, init: Database, s: State) {
    && LockOk(s)
    && WriterOk(w, s)
    && s.committed == At(w, init, s.log, |s.log|)
    && LogOk(w, init, ServersOf(s.procs), s.log)
    && ProcsOk(w, init, s)
    && RepliesOk(w, init, s.log, s.replies)
    && OrderOk(s)
    && FinishOk(s.replies)
    && StoreOk(w, s.committed)
    && ReadyOk(s)
  }

  ghost predicate Initial(w: World, s: State) {
    && s.writer.None? && s.log == [] && s.replies == [] && s.lost == []
    && StoreOk(w, s.committed)
    && forall p | 0 <= p < |s.procs| :: s.procs[p].pc.Idle? && !s.procs[p].ready
  }

  // ---------------------------------------------------------------- facts about extending the log

  lemma SeenKept(w: World, init: Database, log: seq<Entry>, more: seq<Entry>, call: Call, op: Op, seen: Seen)
    requires IsPrefix(log, more) && SeenOk(w, init, log, call, op, seen)
    ensures SeenOk(w, init, more, call, op, seen)
  {
    if !seen.Unread? {
      AtPrefix(w, init, log, more, seen.at);
    }
  }

  lemma ProcKept(w: World, init: Database, log: seq<Entry>, more: seq<Entry>, m: nat, n: nat, me: Process)
    requires IsPrefix(log, more) && m <= n && ProcOk(w, init, log, m, me)
    ensures ProcOk(w, init, more, n, me)
  {
    match me.pc
    case Waiting(call, op, seen) => SeenKept(w, init, log, more, call, op, seen);
    case InTransaction(call, op, seen) => SeenKept(w, init, log, more, call, op, seen);
    case FactsChanged(call, x, seen, _) => SeenKept(w, init, log, more, call, x.op, seen);
    case VectorsChanged(call, x, seen, _) => SeenKept(w, init, log, more, call, x.op, seen);
    case TailRead(call, x, seen, _, _) => SeenKept(w, init, log, more, call, x.op, seen);
    case SequenceRead(call, x, seen, _, _, _) => SeenKept(w, init, log, more, call, x.op, seen);
    case Logged(call, x, seen, _) => SeenKept(w, init, log, more, call, x.op, seen);
    case Answering(call, outcome) => OutcomeKept(w, init, log, more, call, outcome);
    case _ =>
  }

  lemma OutcomeKept(w: World, init: Database, log: seq<Entry>, more: seq<Entry>, call: Call, outcome: Outcome)
    requires IsPrefix(log, more) && OutcomeOk(w, init, log, call, outcome)
    ensures OutcomeOk(w, init, more, call, outcome)
  {
    match outcome
    case Wrote(report, seen, at) =>
      assert more[..|log|][at] == log[at];
      AtPrefix(w, init, log, more, at);
      SeenKept(w, init, log, more, call, log[at].x.op, seen);
    case Answered(seen) =>
      SeenKept(w, init, log, more, call, NoteGet(call.tool.key), seen);
    case NothingStored(at) =>
      AtPrefix(w, init, log, more, at);
    case Failed =>
  }

  lemma ReplyKept(w: World, init: Database, log: seq<Entry>, more: seq<Entry>, r: Reply)
    requires IsPrefix(log, more) && ReplyOk(w, init, log, r)
    ensures ReplyOk(w, init, more, r)
  {
    OutcomeKept(w, init, log, more, r.call, r.outcome);
  }

  lemma LogExtended(w: World, init: Database, servers: seq<Server>, log: seq<Entry>, e: Entry)
    requires LogOk(w, init, servers, log) && EntryOk(w, servers, At(w, init, log, |log|), e)
    ensures LogOk(w, init, servers, log + [e])
    ensures At(w, init, log + [e], |log| + 1) == ApplyEntry(w, At(w, init, log, |log|), e)
  {
    var more := log + [e];
    assert IsPrefix(log, more);
    forall i | 0 <= i < |more|
      ensures EntryAt(w, init, servers, more, i)
    {
      AtPrefix(w, init, log, more, i);
      if i < |log| {
        assert EntryAt(w, init, servers, log, i);
      }
    }
    AtPrefix(w, init, log, more, |log|);
  }

  lemma EntryKeepsStoreOk(w: World, servers: seq<Server>, db: Database, e: Entry)
    requires StoreOk(w, db) && EntryOk(w, servers, db, e)
    ensures StoreOk(w, ApplyEntry(w, db, e))
    ensures HasChain(db.events) ==> HasChain(ApplyEntry(w, db, e).events)
    ensures e.Migration? ==> HasChain(ApplyEntry(w, db, e).events)
  {
    match e
    case Migration =>
      if Legacy(db.events) {
        SealingKeepsEvents(w.hasher, db.events);
      }
    case Committed(_, _, x) =>
      if Sealed(w.hasher, db.events) {
        LinkedHead(w.hasher, db.events.rows);
        var row := RowOf(w, x, Loses(db.facts, x.op), Head(db.events.rows), NextId(db.events));
        LinkedExtend(w.hasher, db.events.rows, row);
        InsertKeepsTable(db.events, row);
      } else {
        InsertKeepsTable(db.events, RowOf(w, x, Loses(db.facts, x.op), Head(db.events.rows), NextId(db.events)));
      }
  }

  // ---------------------------------------------------------------- one step

  lemma StepKeepsLocks(w: World, s: State, t: Step)
    requires LockOk(s) && Enabled(w, s, t)
    ensures LockOk(Perform(w, s, t))
  {
    StepMovesOneProcess(w, s, t);
    MoverHoldsIffWriter(w, s, t);
    var after := Perform(w, s, t);
    LocksKept(s, after, t.p);
  }

  /** A step leaves the lock with its process exactly if it leaves it inside a transaction, and takes it from no one else. */
  lemma MoverHoldsIffWriter(w: World, s: State, t: Step)
    requires LockOk(s) && Enabled(w, s, t)
    ensures
      var after := Perform(w, s, t);
      && (Holds(after.procs[t.p].pc) <==> after.writer == Some(t.p))
      && (after.writer != s.writer ==> s.writer.None? || s.writer == Some(t.p))
      && (after.writer.Some? ==> after.writer == s.writer || after.writer == Some(t.p))
  {
  }

  lemma LocksKept(s: State, after: State, mover: nat)
    requires LockOk(s) && |after.procs| == |s.procs| && mover < |s.procs|
    requires forall p | 0 <= p < |s.procs| && p != mover :: after.procs[p] == s.procs[p]
    requires Holds(after.procs[mover].pc) <==> after.writer == Some(mover)
    requires after.writer != s.writer ==> s.writer.None? || s.writer == Some(mover)
    requires after.writer.Some? ==> after.writer == s.writer || after.writer == Some(mover)
    ensures LockOk(after)
  {
    forall p | 0 <= p < |after.procs|
      ensures Holds(after.procs[p].pc) <==> after.writer == Some(p)
    {
      if p != mover {
        assert after.procs[p] == s.procs[p];
        assert Holds(s.procs[p].pc) <==> s.writer == Some(p);
      }
    }
  }

  ghost predicate WriterOk(w: World, s: State) {
    s.writer.Some? ==> s.writer.value < |s.procs| && WorkOk(w, s.committed, s.working, s.procs[s.writer.value].pc)
  }

  lemma InsertKeepsWork(w: World, s: State, p: nat)
    requires Enabled(w, s, Insert(p)) && WorkOk(w, s.committed, s.working, s.procs[p].pc)
    requires s.procs[p].pc.VectorsChanged? ==> !s.procs[p].pc.x.chained
    ensures WorkOk(w, s.committed, Perform(w, s, Insert(p)).working, Perform(w, s, Insert(p)).procs[p].pc)
  {
    var x, report := s.procs[p].pc.x, s.procs[p].pc.report;
    assert InsertResult(w, s.working, s.procs[p].pc) == LogEvent(w, s.committed.events, x, report.conflict);
  }

  lemma StatementKeepsWork(w: World, s: State, t: Step)
    requires Enabled(w, s, t) && WorkOk(w, s.committed, s.working, s.procs[t.p].pc)
    requires t.ChangeFact? || t.ChangeVector? || t.Seal?
    ensures WorkOk(w, s.committed, Perform(w, s, t).working, Perform(w, s, t).procs[t.p].pc)
  {
  }

  lemma ReadBackKeepsWork(w: World, s: State, t: Step)
    requires Enabled(w, s, t) && WorkOk(w, s.committed, s.working, s.procs[t.p].pc)
    requires t.ReadTail? || t.ReadSequence?
    requires t.ReadTail? ==> s.procs[t.p].pc.x.chained
    ensures WorkOk(w, s.committed, Perform(w, s, t).working, Perform(w, s, t).procs[t.p].pc)
  {
  }

  /** Only the lock holder touches the working copy, and while the lock is held nobody commits. */
  lemma StepKeepsWork(w: World, init: Database, s: State, t: Step)
    requires LockOk(s) && WriterOk(w, s) && Enabled(w, s, t)
    requires ProcOk(w, init, s.log, |s.replies|, s.procs[t.p])
    ensures WriterOk(w, Perform(w, s, t))
  {
    match t
    case Insert(p) => InsertKeepsWork(w, s, p);
    case ChangeFact(p, _) => StatementKeepsWork(w, s, t);
    case ChangeVector(p, _) => StatementKeepsWork(w, s, t);
    case Seal(p) => StatementKeepsWork(w, s, t);
    case ReadTail(p) => ReadBackKeepsWork(w, s, t);
    case ReadSequence(p) => ReadBackKeepsWork(w, s, t);
    case LockToMigrate(p) =>
    case Lock(p) =>
    case CommitMigration(p) =>
    case Commit(p) =>
    case _ => BystanderKeepsWork(w, s, t);
  }

  lemma BystanderKeepsWork(w: World, s: State, t: Step)
    requires LockOk(s) && WriterOk(w, s) && Enabled(w, s, t)
    requires t.OpenSealed? || t.OpenLegacy? || t.Start? || t.Read? || t.Tell? || t.Fail? || t.Crash?
    ensures WriterOk(w, Perform(w, s, t))
  {
    var after := Perform(w, s, t);
    assert after.committed == s.committed && after.working == s.working;
    if after.writer.Some? {
      assert after.writer == s.writer && s.writer.value != t.p;
      assert after.procs[s.writer.value] == s.procs[s.writer.value];
    }
  }

  /** Every step but a commit leaves committed content and log alone, so a failed transaction leaves no trace. */
  lemma OnlyCommitsPublish(w: World, s: State, t: Step)
    requires Enabled(w, s, t) && !t.Commit? && !t.CommitMigration?
    ensures Perform(w, s, t).committed == s.committed && Perform(w, s, t).log == s.log
  {
  }

  lemma LogGrows(w: World, s: State, t: Step)
    requires Enabled(w, s, t)
    ensures IsPrefix(s.log, Perform(w, s, t).log) && |Perform(w, s, t).log| <= |s.log| + 1
  {
  }

  lemma RepliesGrow(w: World, s: State, t: Step)
    requires Enabled(w, s, t)
    ensures IsPrefix(s.replies, Perform(w, s, t).replies)
    ensures t.Tell? || t.Fail? || Perform(w, s, t).replies == s.replies
  {
  }

  ghost predicate Extends(w: World, init: Database, s: State, after: State) {
    && IsPrefix(s.log, after.log)
    && after.committed == At(w, init, after.log, |after.log|)
    && LogOk(w, init, ServersOf(s.procs), after.log)
    && StoreOk(w, after.committed)
    && (HasChain(s.committed.events) ==> HasChain(after.committed.events))
  }

  lemma MigrationExtendsLog(w: World, init: Database, s: State, p: nat)
    requires Inv(w, init, s) && Enabled(w, s, CommitMigration(p))
    ensures Extends(w, init, s, Perform(w, s, CommitMigration(p)))
    ensures HasChain(Perform(w, s, CommitMigration(p)).committed.events)
  {
    assert s.writer == Some(p);
    LogExtended(w, init, ServersOf(s.procs), s.log, Migration);
    EntryKeepsStoreOk(w, ServersOf(s.procs), s.committed, Migration);
  }

  lemma CommitExtendsLog(w: World, init: Database, s: State, p: nat)
    requires Inv(w, init, s) && Enabled(w, s, Commit(p))
    ensures Extends(w, init, s, Perform(w, s, Commit(p)))
  {
    assert s.writer == Some(p);
    var e := Committed(p, s.procs[p].pc.call, s.procs[p].pc.x);
    assert ProcOk(w, init, s.log, |s.replies|, s.procs[p]);
    LogExtended(w, init, ServersOf(s.procs), s.log, e);
    EntryKeepsStoreOk(w, ServersOf(s.procs), s.committed, e);
  }

  lemma StepExtendsLog(w: World, init: Database, s: State, t: Step)
    requires Inv(w, init, s) && Enabled(w, s, t)
    ensures Extends(w, init, s, Perform(w, s, t)) && IsPrefix(s.replies, Perform(w, s, t).replies)
    ensures t.CommitMigration? ==> HasChain(Perform(w, s, t).committed.events)
  {
    RepliesGrow(w, s, t);
    match t
    case CommitMigration(p) => MigrationExtendsLog(w, init, s, p);
    case Commit(p) => CommitExtendsLog(w, init, s, p);
    case _ => OnlyCommitsPublish(w, s, t);
  }

  lemma ReadKeepsMover(w: World, init: Database, s: State, p: nat, best: string)
    requires p < |s.procs| && ProcOk(w, init, s.log, |s.replies|, s.procs[p]) && Enabled(w, s, Read(p, best))
    requires s.committed == At(w, init, s.log, |s.log|)
    ensures ProcOk(w, init, s.log, |s.replies|, Perform(w, s, Read(p, best)).procs[p])
  {
    if best in s.committed.facts && best in s.committed.vectors {
      assert best in Joined(s.committed);
    }
  }

  lemma CallKeepsMover(w: World, init: Database, s: State, t: Step)
    requires Enabled(w, s, t) && ProcOk(w, init, s.log, |s.replies|, s.procs[t.p])
    requires t.Start? || t.Lock? || t.ChangeFact? || t.ChangeVector?
    ensures ProcOk(w, init, s.log, |s.replies|, Perform(w, s, t).procs[t.p])
  {
  }

  lemma RestKeepsMover(w: World, init: Database, s: State, t: Step)
    requires Enabled(w, s, t) && ProcOk(w, init, s.log, |s.replies|, s.procs[t.p])
    requires !(t.Start? || t.Lock? || t.ChangeFact? || t.ChangeVector? || t.Read? || t.Commit? || t.CommitMigration?)
    ensures ProcOk(w, init, s.log, |s.replies|, Perform(w, s, t).procs[t.p])
  {
  }

  /** Right after a commit the outcome is the operation's own, at the end of the log. */
  lemma CommitKeepsMover(w: World, init: Database, s: State, p: nat)
    requires Inv(w, init, s) && Enabled(w, s, Commit(p))
    ensures ProcOk(w, init, Perform(w, s, Commit(p)).log, |s.replies|, Perform(w, s, Commit(p)).procs[p])
  {
    var more := s.log + [Committed(p, s.procs[p].pc.call, s.procs[p].pc.x)];
    assert s.writer == Some(p);
    assert ProcOk(w, init, s.log, |s.replies|, s.procs[p]);
    AtPrefix(w, init, s.log, more, |s.log|);
    SeenKept(w, init, s.log, more, s.procs[p].pc.call, s.procs[p].pc.x.op, s.procs[p].pc.seen);
  }

  /** The stepping process itself. */
  lemma StepKeepsMover(w: World, init: Database, s: State, t: Step)
    requires Inv(w, init, s) && Enabled(w, s, t)
    ensures ProcOk(w, init, Perform(w, s, t).log, |s.replies|, Perform(w, s, t).procs[t.p])
  {
    assert ProcOk(w, init, s.log, |s.replies|, s.procs[t.p]);
    if t.Commit? {
      CommitKeepsMover(w, init, s, t.p);
    } else if t.CommitMigration? {
    } else if t.Read? {
      OnlyCommitsPublish(w, s, t);
      ReadKeepsMover(w, init, s, t.p, t.best);
    } else if t.Start? || t.Lock? || t.ChangeFact? || t.ChangeVector? {
      OnlyCommitsPublish(w, s, t);
      CallKeepsMover(w, init, s, t);
    } else {
      OnlyCommitsPublish(w, s, t);
      RestKeepsMover(w, init, s, t);
    }
  }

  /** All other processes stay where they are, and a chaining one becomes ready only once the chain is there. */
  lemma StepMovesOneProcess(w: World, s: State, t: Step)
    requires Enabled(w, s, t)
    ensures
      var after := Perform(w, s, t);
      && |after.procs| == |s.procs|
      && (forall p | 0 <= p < |s.procs| && p != t.p :: after.procs[p] == s.procs[p])
      && (after.procs[t.p].ready ==> s.procs[t.p].ready || t.CommitMigration? || !s.procs[t.p].server.chained || HasChain(s.committed.events))
      && after.procs[t.p].server == s.procs[t.p].server
  {
  }

  lemma StepKeepsServers(w: World, s: State, t: Step)
    requires Enabled(w, s, t)
    ensures ServersOf(Perform(w, s, t).procs) == ServersOf(s.procs)
  {
    StepMovesOneProcess(w, s, t);
  }

  lemma ProcsKept(w: World, init: Database, s: State, after: State, mover: nat)
    requires ProcsOk(w, init, s) && IsPrefix(s.log, after.log) && |s.replies| <= |after.replies|
    requires |after.procs| == |s.procs| && mover < |s.procs|
    requires forall p | 0 <= p < |s.procs| && p != mover :: after.procs[p] == s.procs[p]
    requires ProcOk(w, init, after.log, |s.replies|, after.procs[mover])
    ensures ProcsOk(w, init, after)
  {
    forall p | 0 <= p < |after.procs|
      ensures ProcOk(w, init, after.log, |after.replies|, after.procs[p])
    {
      if p != mover {
        assert after.procs[p] == s.procs[p];
        ProcKept(w, init, s.log, after.log, |s.replies|, |after.replies|, s.procs[p]);
      } else {
        ProcKept(w, init, after.log, after.log, |s.replies|, |after.replies|, after.procs[p]);
      }
    }
  }

  lemma StepKeepsProcs(w: World, init: Database, s: State, t: Step)
    requires Inv(w, init, s) && Enabled(w, s, t)
    ensures ProcsOk(w, init, Perform(w, s, t)) && ReadyOk(Perform(w, s, t))
  {
    StepExtendsLog(w, init, s, t);
    StepKeepsMover(w, init, s, t);
    StepMovesOneProcess(w, s, t);
    ProcsKept(w, init, s, Perform(w, s, t), t.p);
    ReadyKept(s, Perform(w, s, t), t.p);
  }

  lemma ReadyKept(s: State, after: State, mover: nat)
    requires ReadyOk(s) && |after.procs| == |s.procs| && mover < |s.procs|
    requires forall p | 0 <= p < |s.procs| && p != mover :: after.procs[p] == s.procs[p]
    requires HasChain(s.committed.events) ==> HasChain(after.committed.events)
    requires after.procs[mover].server == s.procs[mover].server
    requires after.procs[mover].ready && after.procs[mover].server.chained ==>
               s.procs[mover].ready || HasChain(after.committed.events)
    ensures ReadyOk(after)
  {
    forall p | 0 <= p < |after.procs| && after.procs[p].ready && after.procs[p].server.chained
      ensures HasChain(after.committed.events)
    {
      if p != mover {
        assert after.procs[p] == s.procs[p];
      }
    }
  }

  /** `more` is `replies`, perhaps with one reply of process `me` added, and that one is right. */
  ghost predicate AddsOkReply(w: World, init: Database, log: seq<Entry>, me: Process, replies: seq<Reply>, more: seq<Reply>) {
    && |replies| <= |more| <= |replies| + 1 && more[..|replies|] == replies
    && (|more| > |replies| ==> CallOf(me.pc) == Some(more[|replies|].call) && ReplyOk(w, init, log, more[|replies|])
                               && more[|replies|].finish == |log|)
  }

  lemma TellRepliesOk(w: World, init: Database, s: State, p: nat)
    requires p < |s.procs| && ProcOk(w, init, s.log, |s.replies|, s.procs[p]) && Enabled(w, s, Tell(p))
    ensures AddsOkReply(w, init, s.log, s.procs[p], s.replies, Perform(w, s, Tell(p)).replies)
  {
  }

  lemma FailRepliesOk(w: World, init: Database, s: State, p: nat)
    requires p < |s.procs| && ProcOk(w, init, s.log, |s.replies|, s.procs[p]) && Enabled(w, s, Fail(p))
    ensures AddsOkReply(w, init, s.log, s.procs[p], s.replies, Perform(w, s, Fail(p)).replies)
  {
  }

  /** The reply a step adds, if any, is right. */
  lemma NewReplyOk(w: World, init: Database, s: State, t: Step)
    requires Inv(w, init, s) && Enabled(w, s, t)
    ensures AddsOkReply(w, init, Perform(w, s, t).log, s.procs[t.p], s.replies, Perform(w, s, t).replies)
  {
    assert ProcOk(w, init, s.log, |s.replies|, s.procs[t.p]);
    match t
    case Tell(p) =>
      OnlyCommitsPublish(w, s, t);
      TellRepliesOk(w, init, s, p);
    case Fail(p) =>
      OnlyCommitsPublish(w, s, t);
      FailRepliesOk(w, init, s, p);
    case _ => RepliesGrow(w, s, t);
  }

  lemma RepliesKept(w: World, init: Database, s: State, after: State, mover: nat)
    requires RepliesOk(w, init, s.log, s.replies) && OrderOk(s) && ProcsOk(w, init, s) && mover < |s.procs|
    requires IsPrefix(s.log, after.log) && AddsOkReply(w, init, after.log, s.procs[mover], s.replies, after.replies)
    ensures RepliesOk(w, init, after.log, after.replies)
    ensures forall i | 0 <= i < |after.replies| :: BeganAfter(after.replies, after.replies[i].call)
  {
    forall i | 0 <= i < |after.replies|
      ensures ReplyOk(w, init, after.log, after.replies[i]) && after.replies[i].call.answered <= i
      ensures BeganAfter(after.replies, after.replies[i].call)
    {
      if i < |s.replies| {
        assert after.replies[i] == s.replies[i];
        assert BeganAfter(s.replies, s.replies[i].call);
        ReplyKept(w, init, s.log, after.log, s.replies[i]);
      } else {
        assert ProcOk(w, init, s.log, |s.replies|, s.procs[mover]);
        assert CallOf(s.procs[mover].pc) == Some(after.replies[i].call);
      }
      BeganAfterKept(s.replies, after.replies, after.replies[i].call);
    }
  }

  /** A call that starts now starts after everyone answered so far; a call in progress keeps its identity. */
  lemma StartOrdersCalls(w: World, init: Database, s: State, t: Step)
    requires RepliesOk(w, init, s.log, s.replies) && Enabled(w, s, t)
    ensures
      var call := CallOf(Perform(w, s, t).procs[t.p].pc);
      call.Some? ==> call == CallOf(s.procs[t.p].pc) || (BeganAfter(s.replies, call.value) && call.value.answered <= |s.replies|)
  {
    forall i | 0 <= i < |s.replies|
      ensures s.replies[i].finish <= |s.log|
    {
      assert ReplyOk(w, init, s.log, s.replies[i]);
    }
  }

  lemma FinishKept(w: World, init: Database, s: State, after: State, mover: nat)
    requires RepliesOk(w, init, s.log, s.replies) && FinishOk(s.replies) && mover < |s.procs|
    requires IsPrefix(s.log, after.log) && AddsOkReply(w, init, after.log, s.procs[mover], s.replies, after.replies)
    ensures FinishOk(after.replies)
  {
    forall i, j | 0 <= i < j < |after.replies|
      ensures after.replies[i].finish <= after.replies[j].finish
    {
      assert after.replies[i] == s.replies[i];
      if j < |s.replies| {
        assert after.replies[j] == s.replies[j];
      } else {
        assert ReplyOk(w, init, s.log, s.replies[i]);
      }
    }
  }

  lemma StepKeepsReplies(w: World, init: Database, s: State, t: Step)
    requires Inv(w, init, s) && Enabled(w, s, t)
    ensures RepliesOk(w, init, Perform(w, s, t).log, Perform(w, s, t).replies) && OrderOk(Perform(w, s, t))
    ensures FinishOk(Perform(w, s, t).replies)
  {
    StepExtendsLog(w, init, s, t);
    NewReplyOk(w, init, s, t);
    StartOrdersCalls(w, init, s, t);
    StepMovesOneProcess(w, s, t);
    RepliesKept(w, init, s, Perform(w, s, t), t.p);
    CallsKept(w, init, s, Perform(w, s, t), t.p);
    FinishKept(w, init, s, Perform(w, s, t), t.p);
  }

  lemma CallsKept(w: World, init: Database, s: State, after: State, mover: nat)
    requires OrderOk(s) && ProcsOk(w, init, s) && mover < |s.procs| == |after.procs| && IsPrefix(s.replies, after.replies)
    requires forall p | 0 <= p < |s.procs| && p != mover :: after.procs[p] == s.procs[p]
    requires
      var call := CallOf(after.procs[mover].pc);
      call.Some? ==> call == CallOf(s.procs[mover].pc) || (BeganAfter(s.replies, call.value) && call.value.answered <= |s.replies|)
    ensures forall p | 0 <= p < |after.procs| :: CallOf(after.procs[p].pc).Some? ==> BeganAfter(after.replies, CallOf(after.procs[p].pc).value)
  {
    forall p | 0 <= p < |after.procs| && CallOf(after.procs[p].pc).Some?
      ensures BeganAfter(after.replies, CallOf(after.procs[p].pc).value)
    {
      assert ProcOk(w, init, s.log, |s.replies|, s.procs[p]);
      if p != mover {
        assert after.procs[p] == s.procs[p];
      }
      BeganAfterKept(s.replies, after.replies, CallOf(after.procs[p].pc).value);
    }
  }

  lemma BeganAfterKept(replies: seq<Reply>, more: seq<Reply>, call: Call)
    requires IsPrefix(replies, more) && call.answered <= |replies| && BeganAfter(replies, call)
    ensures BeganAfter(more, call)
  {
    forall i | 0 <= i < call.answered
      ensures more[i].finish <= call.start
    {
      assert more[..|replies|][i] == replies[i];
    }
  }

  lemma StepKeepsInv(w: World, init: Database, s: State, t: Step)
    requires Inv(w, init, s) && Enabled(w, s, t)
    ensures Inv(w, init, Perform(w, s, t))
  {
    StepKeepsLocks(w, s, t);
    StepKeepsServers(w, s, t);
    assert ProcOk(w, init, s.log, |s.replies|, s.procs[t.p]);
    StepKeepsWork(w, init, s, t);
    StepExtendsLog(w, init, s, t);
    StepKeepsProcs(w, init, s, t);
    StepKeepsReplies(w, init, s, t);
  }
}
