/**
 The locks of any number of server processes on one file: each process's server lock
 and model lock, and the one database write lock, taken by tool threads and by the
 background preload thread. The embedding model is loaded at most once per process.
 */
module ModelLock {
  import opened Wrappers

  /** What a thread does in a process: a `set`, a `search`, a call that only logs, a pure query, or the preload. */
  datatype Job = SetJob | SearchJob | LogJob | QueryJob | PreloadJob

  /** `first` marks a call that still has to open the database. */
  datatype Pc =
    | Idle
    | WantServer
    | InServer(first: bool)
    | CheckModel
    | WantModel
    | Recheck
    | Loading
    | Embedding
    | WantDb(opening: bool)
    | InDb(opening: bool)
    | Leaving

  datatype Thread = Thread(proc: nat, job: Job, pc: Pc)

  /** A process's two locks, its `_model`, how often that was loaded, and whether embeddings are on. */
  datatype Process = Process(server: Option<nat>, model: Option<nat>, loaded: bool, loads: nat, embeddings: bool)

  datatype State = State(threads: seq<Thread>, procs: seq<Process>, db: Option<nat>)

  datatype Step =
    | Begin(t: nat)
    | TakeServer(t: nat)
    | Open(t: nat, migrate: bool)
    | Proceed(t: nat, rows: bool)
    | FirstCheck(t: nat)
    | TakeModel(t: nat)
    | SecondCheck(t: nat)
    | FinishLoad(t: nat, ok: bool)
    | FinishEmbedding(t: nat)
    | TakeDb(t: nat)
    | BusyTimeout(t: nat)
    | LeaveDb(t: nat)
    | Leave(t: nat)

  predicate HoldsServer(th: Thread) {
    !th.job.PreloadJob? && !th.pc.Idle? && !th.pc.WantServer?
  }

  predicate HoldsModel(th: Thread) {
    th.pc.Recheck? || th.pc.Loading?
  }

  predicate HoldsDb(th: Thread) {
    th.pc.InDb?
  }

  ghost predicate Enabled(s: State, step: Step) {
    && step.t < |s.threads| && s.threads[step.t].proc < |s.procs|
    && var th := s.threads[step.t];
       var pr := s.procs[th.proc];
       match step
       case Begin(_) => th.pc.Idle?
       case TakeServer(_) => th.pc.WantServer? && pr.server.None?
       case Open(_, _) => th.pc == InServer(true)
       case Proceed(_, _) => th.pc == InServer(false)
       case FirstCheck(_) => th.pc.CheckModel?
       case TakeModel(_) => th.pc.WantModel? && pr.model.None?
       case SecondCheck(_) => th.pc.Recheck?
       case FinishLoad(_, _) => th.pc.Loading?
       case FinishEmbedding(_) => th.pc.Embedding?
       case TakeDb(_) => th.pc.WantDb? && s.db.None?
       case BusyTimeout(_) => th.pc.WantDb?
       case LeaveDb(_) => th.pc.InDb?
       case Leave(_) => th.pc.Leaving?
  }

  function Move(s: State, t: nat, pc: Pc): State
    requires t < |s.threads|
  {
    s.(threads := s.threads[t := s.threads[t].(pc := pc)])
  }

  function SetProc(s: State, p: nat, pr: Process): State
    requires p < |s.procs|
  {
    s.(procs := s.procs[p := pr])
  }

  /** Where a thread goes when it is through with the model, or the load failed it. */
  function AfterModel(job: Job, ok: bool): Pc {
    if ok then Embedding else if job.PreloadJob? then Idle else Leaving
  }

  /** Where an opened call goes: a query leaves, a plain write logs, an embedding job goes for the model first. */
  function Next(job: Job, embeddings: bool, rows: bool): Pc {
    match job
    case QueryJob => Leaving
    case LogJob => WantDb(false)
    case SetJob => if embeddings then CheckModel else WantDb(false)
    case SearchJob => if embeddings && rows then CheckModel else Leaving
    case PreloadJob => Idle
  }

  function Perform(s: State, step: Step): State
    requires Enabled(s, step)
  {
    var t := step.t;
    var th := s.threads[t];
    var p := th.proc;
    var pr := s.procs[p];
    match step
    case Begin(_) => Move(s, t, if !th.job.PreloadJob? then WantServer else if pr.embeddings then CheckModel else Idle)
    case TakeServer(_) => SetProc(Move(s, t, InServer(true)), p, pr.(server := Some(t)))
    case Open(_, migrate) => Move(s, t, if migrate then WantDb(true) else InServer(false))
    case Proceed(_, rows) => Move(s, t, Next(th.job, pr.embeddings, rows))
    case FirstCheck(_) => Move(s, t, if pr.loaded then Embedding else WantModel)
    case TakeModel(_) => SetProc(Move(s, t, Recheck), p, pr.(model := Some(t)))
    case SecondCheck(_) =>
      if !pr.loaded && pr.embeddings then Move(s, t, Loading)
      else SetProc(Move(s, t, AfterModel(th.job, pr.loaded)), p, pr.(model := None))
    case FinishLoad(_, ok) =>
      SetProc(Move(s, t, AfterModel(th.job, ok)), p,
              pr.(model := None, loaded := pr.loaded || ok, loads := pr.loads + if ok then 1 else 0))
    case FinishEmbedding(_) => Move(s, t, if th.job.PreloadJob? then Idle else WantDb(false))
    case TakeDb(_) => Move(s, t, InDb(th.pc.opening)).(db := Some(t))
    case BusyTimeout(_) => Move(s, t, Leaving)
    case LeaveDb(_) => Move(s, t, if th.pc.opening then InServer(false) else Leaving).(db := None)
    case Leave(_) => SetProc(Move(s, t, Idle), p, pr.(server := None))
  }

  // ---------------------------------------------------------------- the invariant

  /** Each lock names exactly the thread that is in its section. */
  ghost predicate LocksOk(s: State) {
    && (forall t | 0 <= t < |s.threads| :: s.threads[t].proc < |s.procs| && ThreadOk(s, t))
    && (forall p | 0 <= p < |s.procs| :: ProcOk(s, p))
    && (s.db.Some? ==> s.db.value < |s.threads| && HoldsDb(s.threads[s.db.value]))
  }

  /** The thread is embedding a text, or has come through that to the database transaction. */
  predicate NeedsModel(th: Thread) {
    th.pc.Embedding? || ((th.job.SetJob? || th.job.SearchJob?) && (th.pc == WantDb(false) || th.pc == InDb(false)))
  }

  ghost predicate ThreadOk(s: State, t: nat)
    requires t < |s.threads| && s.threads[t].proc < |s.procs|
  {
    var th := s.threads[t];
    && (HoldsServer(th) ==> s.procs[th.proc].server == Some(t))
    && (HoldsModel(th) ==> s.procs[th.proc].model == Some(t))
    && (HoldsDb(th) ==> s.db == Some(t))
    && (th.pc.Loading? ==> !s.procs[th.proc].loaded)
    && (NeedsModel(th) && s.procs[th.proc].embeddings ==> s.procs[th.proc].loaded)
    && (th.job.PreloadJob? ==> !th.pc.WantServer? && !th.pc.InServer? && !th.pc.WantDb? && !th.pc.InDb? && !th.pc.Leaving?)
  }

  ghost predicate ProcOk(s: State, p: nat)
    requires p < |s.procs|
  {
    var pr := s.procs[p];
    && (pr.server.Some? ==> pr.server.value < |s.threads| && s.threads[pr.server.value].proc == p && HoldsServer(s.threads[pr.server.value]))
    && (pr.model.Some? ==> pr.model.value < |s.threads| && s.threads[pr.model.value].proc == p && HoldsModel(s.threads[pr.model.value]))
    && pr.loads == if pr.loaded then 1 else 0
  }

  ghost predicate Initial(s: State) {
    && s.db.None?
    && (forall t | 0 <= t < |s.threads| :: s.threads[t].proc < |s.procs| && s.threads[t].pc.Idle?)
    && (forall p | 0 <= p < |s.procs| :: s.procs[p].server.None? && s.procs[p].model.None? && !s.procs[p].loaded && s.procs[p].loads == 0)
  }

  lemma StepTouchesOneThread(s: State, step: Step)
    requires Enabled(s, step)
    ensures
      var after := Perform(s, step);
      var p := s.threads[step.t].proc;
      && |after.threads| == |s.threads| && |after.procs| == |s.procs|
      && (forall t | 0 <= t < |s.threads| && t != step.t :: after.threads[t] == s.threads[t])
      && (forall q | 0 <= q < |s.procs| && q != p :: after.procs[q] == s.procs[q])
      && after.threads[step.t].proc == p && after.threads[step.t].job == s.threads[step.t].job
  {
  }

  lemma MoverStaysOk(s: State, step: Step)
    requires LocksOk(s) && Enabled(s, step)
    ensures |Perform(s, step).threads| == |s.threads| && Perform(s, step).threads[step.t].proc < |Perform(s, step).procs|
    ensures ThreadOk(Perform(s, step), step.t)
  {
    assert ThreadOk(s, step.t);
    assert ProcOk(s, s.threads[step.t].proc);
  }

  /** The mover's process after the step, and what others of that process rely on. */
  lemma MoverKeepsLocks(s: State, step: Step)
    requires LocksOk(s) && Enabled(s, step)
    ensures
      var after := Perform(s, step);
      var t, p := step.t, s.threads[step.t].proc;
      && (after.procs[p].server != s.procs[p].server ==> s.procs[p].server.None? || s.procs[p].server == Some(t))
      && (after.procs[p].model != s.procs[p].model ==> s.procs[p].model.None? || s.procs[p].model == Some(t))
      && (after.procs[p].loaded != s.procs[p].loaded ==> s.procs[p].model == Some(t))
      && (s.procs[p].loaded ==> after.procs[p].loaded) && after.procs[p].embeddings == s.procs[p].embeddings
      && (after.db != s.db ==> s.db.None? || s.db == Some(t))
      && (after.procs[p].server == Some(t) ==> HoldsServer(after.threads[t]))
      && (after.procs[p].model == Some(t) ==> HoldsModel(after.threads[t]))
      && (after.db == Some(t) ==> HoldsDb(after.threads[t]))
      && (after.procs[p].server.Some? && after.procs[p].server != Some(t) ==> after.procs[p].server == s.procs[p].server)
      && (after.procs[p].model.Some? && after.procs[p].model != Some(t) ==> after.procs[p].model == s.procs[p].model)
      && (after.db.Some? && after.db != Some(t) ==> after.db == s.db)
      && after.procs[p].loads == if after.procs[p].loaded then 1 else 0
  {
    assert ThreadOk(s, step.t);
    assert ProcOk(s, s.threads[step.t].proc);
  }

  lemma StepKeepsLocks(s: State, step: Step)
    requires LocksOk(s) && Enabled(s, step)
    ensures LocksOk(Perform(s, step))
  {
    var after := Perform(s, step);
    StepTouchesOneThread(s, step);
    MoverStaysOk(s, step);
    MoverKeepsLocks(s, step);
    LocksKept(s, after, step.t);
  }

  lemma LocksKept(s: State, after: State, mover: nat)
    requires LocksOk(s) && mover < |s.threads| == |after.threads| && |after.procs| == |s.procs|
    requires forall t | 0 <= t < |s.threads| && t != mover :: after.threads[t] == s.threads[t]
    requires forall q | 0 <= q < |s.procs| && q != s.threads[mover].proc :: after.procs[q] == s.procs[q]
    requires after.threads[mover].proc == s.threads[mover].proc && ThreadOk(after, mover)
    requires
      var t, p := mover, s.threads[mover].proc;
      && (after.procs[p].server != s.procs[p].server ==> s.procs[p].server.None? || s.procs[p].server == Some(t))
      && (after.procs[p].model != s.procs[p].model ==> s.procs[p].model.None? || s.procs[p].model == Some(t))
      && (after.procs[p].loaded != s.procs[p].loaded ==> s.procs[p].model == Some(t))
      && (s.procs[p].loaded ==> after.procs[p].loaded) && after.procs[p].embeddings == s.procs[p].embeddings
      && (after.db != s.db ==> s.db.None? || s.db == Some(t))
      && (after.procs[p].server == Some(t) ==> HoldsServer(after.threads[t]))
      && (after.procs[p].model == Some(t) ==> HoldsModel(after.threads[t]))
      && (after.db == Some(t) ==> HoldsDb(after.threads[t]))
      && (after.procs[p].server.Some? && after.procs[p].server != Some(t) ==> after.procs[p].server == s.procs[p].server)
      && (after.procs[p].model.Some? && after.procs[p].model != Some(t) ==> after.procs[p].model == s.procs[p].model)
      && (after.db.Some? && after.db != Some(t) ==> after.db == s.db)
      && after.procs[p].loads == if after.procs[p].loaded then 1 else 0
    ensures LocksOk(after)
  {
    forall t | 0 <= t < |after.threads|
      ensures after.threads[t].proc < |after.procs| && ThreadOk(after, t)
    {
      assert ThreadOk(s, t);
    }
    forall p | 0 <= p < |after.procs|
      ensures ProcOk(after, p)
    {
      assert ProcOk(s, p);
    }
  }

  // ---------------------------------------------------------------- runs

  ghost predicate StepAt(states: seq<State>, steps: seq<Step>, i: nat)
    requires i < |steps| < |states|
  {
    Enabled(states[i], steps[i]) && states[i + 1] == Perform(states[i], steps[i])
  }

  ghost predicate Run(states: seq<State>, steps: seq<Step>) {
    && |states| == |steps| + 1 && Initial(states[0])
    && forall i | 0 <= i < |steps| :: StepAt(states, steps, i)
  }

  lemma {:induction false} RunKeepsLocks(states: seq<State>, steps: seq<Step>, n: nat)
    requires Run(states, steps) && n < |states|
    ensures LocksOk(states[n]) && |states[n].threads| == |states[0].threads| && |states[n].procs| == |states[0].procs|
  {
    if n > 0 {
      RunKeepsLocks(states, steps, n - 1);
      assert StepAt(states, steps, n - 1);
      StepKeepsLocks(states[n - 1], steps[n - 1]);
      StepTouchesOneThread(states[n - 1], steps[n - 1]);
    }
  }

  /**
   Over every interleaving: each process loads its model at most once, `_model` is set exactly
   if it did, at most one thread of a process is loading, and whoever holds the database write
   lock is neither loading the model nor waiting for it. Where embeddings are on, no set or search
   reaches its transaction, and none embeds, before the model is there.
   */
  lemma ModelLoadsAtMostOnce(states: seq<State>, steps: seq<Step>, n: nat, p: nat)
    requires Run(states, steps) && n < |states| && p < |states[n].procs|
    ensures
      var s := states[n];
      && s.procs[p].loads <= 1 && (s.procs[p].loads == 1 <==> s.procs[p].loaded)
      && (forall t, u | 0 <= t < |s.threads| && 0 <= u < |s.threads| && s.threads[t].proc == s.threads[u].proc
                        && s.threads[t].pc.Loading? && s.threads[u].pc.Loading? :: t == u)
      && (forall t | 0 <= t < |s.threads| :: s.threads[t].proc < |s.procs|
                     && (NeedsModel(s.threads[t]) && s.procs[s.threads[t].proc].embeddings ==> s.procs[s.threads[t].proc].loaded))
      && (s.db.Some? ==> s.db.value < |s.threads|
                         && var pc := s.threads[s.db.value].pc; !pc.WantModel? && !pc.Recheck? && !pc.Loading? && !pc.WantServer?)
  {
    RunKeepsLocks(states, steps, n);
    var s := states[n];
    assert ProcOk(s, p);
    forall t | 0 <= t < |s.threads|
      ensures s.threads[t].proc < |s.procs|
      ensures NeedsModel(s.threads[t]) && s.procs[s.threads[t].proc].embeddings ==> s.procs[s.threads[t].proc].loaded
    {
      assert ThreadOk(s, t);
    }
    forall t, u | 0 <= t < |s.threads| && 0 <= u < |s.threads| && s.threads[t].proc == s.threads[u].proc
                  && s.threads[t].pc.Loading? && s.threads[u].pc.Loading?
      ensures t == u
    {
      assert ThreadOk(s, t) && ThreadOk(s, u);
    }
  }

  /** A step that neither starts a call nor gives up on the database lock. */
  predicate Ordinary(step: Step) {
    !step.Begin? && !step.BusyTimeout?
  }

  function StepOf(th: Thread, t: nat): Step {
    match th.pc
    case Idle => Begin(t)
    case WantServer => TakeServer(t)
    case InServer(first) => if first then Open(t, false) else Proceed(t, false)
    case CheckModel => FirstCheck(t)
    case WantModel => TakeModel(t)
    case Recheck => SecondCheck(t)
    case Loading => FinishLoad(t, false)
    case Embedding => FinishEmbedding(t)
    case WantDb(_) => TakeDb(t)
    case InDb(_) => LeaveDb(t)
    case Leaving => Leave(t)
  }

  /**
   No deadlock, even without timeouts: while any thread of any process is in a call, some
   thread can take its next step. The locks are only ever waited for in the order server,
   model, database.
   */
  lemma SomeThreadCanMove(s: State, t: nat) returns (step: Step)
    requires LocksOk(s) && t < |s.threads| && !s.threads[t].pc.Idle?
    ensures Ordinary(step) && Enabled(s, step)
  {
    assert ThreadOk(s, t);
    var u := t;
    if s.threads[u].pc.WantServer? && s.procs[s.threads[u].proc].server.Some? {
      assert ProcOk(s, s.threads[u].proc);
      u := s.procs[s.threads[u].proc].server.value;
      assert ThreadOk(s, u);
    }
    if s.threads[u].pc.WantModel? && s.procs[s.threads[u].proc].model.Some? {
      assert ProcOk(s, s.threads[u].proc);
      u := s.procs[s.threads[u].proc].model.value;
      assert ThreadOk(s, u);
    }
    if s.threads[u].pc.WantDb? && s.db.Some? {
      u := s.db.value;
      assert ThreadOk(s, u);
    }
    step := StepOf(s.threads[u], u);
  }

  // ---------------------------------------------------------------- every call ends

  function PcRank(pc: Pc): nat {
    match pc
    case Idle => 0
    case Leaving => 1
    case InDb(opening) => if opening then 11 else 2
    case WantDb(opening) => if opening then 12 else 3
    case Embedding => 4
    case Loading => 5
    case Recheck => 6
    case WantModel => 7
    case CheckModel => 8
    case InServer(first) => if first then 13 else 10
    case WantServer => 14
  }

  function Rank(threads: seq<Thread>): nat {
    if threads == [] then 0 else Rank(threads[..|threads| - 1]) + PcRank(threads[|threads| - 1].pc)
  }

  lemma {:induction false} RankAfterMove(threads: seq<Thread>, t: nat, th: Thread)
    requires t < |threads|
    ensures Rank(threads[t := th]) + PcRank(threads[t].pc) == Rank(threads) + PcRank(th.pc)
  {
    var n := |threads| - 1;
    if t == n {
      assert threads[t := th][..n] == threads[..n];
    } else {
      assert threads[t := th][..n] == threads[..n][t := th];
      RankAfterMove(threads[..n], t, th);
    }
  }

  lemma MoverRankDecreases(s: State, step: Step)
    requires Enabled(s, step) && ThreadOk(s, step.t) && !step.Begin?
    ensures |Perform(s, step).threads| == |s.threads|
    ensures PcRank(Perform(s, step).threads[step.t].pc) < PcRank(s.threads[step.t].pc)
  {
  }

  lemma StepsDecreaseRank(s: State, step: Step)
    requires LocksOk(s) && Enabled(s, step) && !step.Begin?
    ensures Rank(Perform(s, step).threads) < Rank(s.threads)
  {
    var after := Perform(s, step);
    assert ThreadOk(s, step.t);
    MoverRankDecreases(s, step);
    StepTouchesOneThread(s, step);
    assert after.threads == s.threads[step.t := after.threads[step.t]];
    RankAfterMove(s.threads, step.t, after.threads[step.t]);
  }

  /**
   From any reachable state, if no new calls begin, every schedule of the threads ends within
   `Rank` steps, and it can only end with every call finished.
   */
  lemma EveryScheduleFinishes(states: seq<State>, steps: seq<Step>, n: nat)
    requires Run(states, steps) && n <= |steps|
    requires forall i | n <= i < |steps| :: !steps[i].Begin?
    ensures |steps| - n <= Rank(states[n].threads)
    ensures (forall step | Ordinary(step) :: !Enabled(states[|steps|], step)) ==>
              forall t | 0 <= t < |states[|steps|].threads| :: states[|steps|].threads[t].pc.Idle?
  {
    RunRank(states, steps, n, |steps|);
    RunKeepsLocks(states, steps, |steps|);
    var last := states[|steps|];
    if forall step | Ordinary(step) :: !Enabled(last, step) {
      forall t | 0 <= t < |last.threads|
        ensures last.threads[t].pc.Idle?
      {
        if !last.threads[t].pc.Idle? {
          var step := SomeThreadCanMove(last, t);
          assert false;
        }
      }
    }
  }

  lemma {:induction false} RunRank(states: seq<State>, steps: seq<Step>, m: nat, n: nat)
    requires Run(states, steps) && m <= n <= |steps|
    requires forall i | m <= i < |steps| :: !steps[i].Begin?
    ensures n - m + Rank(states[n].threads) <= Rank(states[m].threads)
  {
    if m < n {
      RunRank(states, steps, m, n - 1);
      RunKeepsLocks(states, steps, n - 1);
      assert StepAt(states, steps, n - 1);
      StepsDecreaseRank(states[n - 1], steps[n - 1]);
    }
  }
}
