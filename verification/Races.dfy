/** What compare-and-swap and create-only promise callers that race on one key, in any run. */
module Races {
  import opened Wrappers
  import opened CanonicalJson
  import opened HashChain
  import opened Sqlite
  import opened MemoryTools
  import opened Auth
  import opened Replay
  import opened Protocol
  import opened Refinement
  import opened Runs
  import opened Outcomes

  function ValueAt(w: World, init: Database, log: seq<Entry>, key: string, n: nat): Option<string>
    requires n <= |log|
  {
    var db := At(w, init, log, n);
    if key in db.facts then Some(db.facts[key].value) else None
  }

  /** Entry `i` is a write to `key` that took effect. */
  predicate Succeeds(w: World, init: Database, log: seq<Entry>, key: string, i: nat)
    requires i < |log|
  {
    && log[i].Committed? && log[i].x.op.Store? && log[i].x.op.key == key
    && Loses(At(w, init, log, i).facts, log[i].x.op).None?
  }

  /** Entry `i` is a successful compare-and-swap of `key` from `v` to something else. */
  predicate SwapsAway(w: World, init: Database, log: seq<Entry>, key: string, v: string, i: nat)
    requires i < |log|
  {
    Succeeds(w, init, log, key, i) && log[i].x.op.mode == Swap(v) && log[i].x.op.value != v
  }

  function Swaps(w: World, init: Database, log: seq<Entry>, key: string, v: string, n: nat): nat
    requires n <= |log|
  {
    if n == 0 then 0
    else Swaps(w, init, log, key, v, n - 1) + if SwapsAway(w, init, log, key, v, n - 1) then 1 else 0
  }

  /** How often, up to entry `n`, `v` became the value of `key`. */
  function Arrivals(w: World, init: Database, log: seq<Entry>, key: string, v: string, n: nat): nat
    requires n <= |log|
  {
    if n == 0 then 0
    else
      Arrivals(w, init, log, key, v, n - 1)
      + if ValueAt(w, init, log, key, n - 1) != Some(v) && ValueAt(w, init, log, key, n) == Some(v) then 1 else 0
  }

  function Departures(w: World, init: Database, log: seq<Entry>, key: string, v: string, n: nat): nat
    requires n <= |log|
  {
    if n == 0 then 0
    else
      Departures(w, init, log, key, v, n - 1)
      + if ValueAt(w, init, log, key, n - 1) == Some(v) && ValueAt(w, init, log, key, n) != Some(v) then 1 else 0
  }

  function Is(w: World, init: Database, log: seq<Entry>, key: string, v: string, n: nat): nat
    requires n <= |log|
  {
    if ValueAt(w, init, log, key, n) == Some(v) then 1 else 0
  }

  /** A successful swap away from `v` found `v` and ended it. */
  lemma SwapsAreDepartures(w: World, init: Database, servers: seq<Server>, log: seq<Entry>, key: string, v: string, i: nat)
    requires LogOk(w, init, servers, log) && i < |log| && SwapsAway(w, init, log, key, v, i)
    ensures ValueAt(w, init, log, key, i) == Some(v) && ValueAt(w, init, log, key, i + 1) != Some(v)
  {
    assert EntryAt(w, init, servers, log, i);
  }

  /** What arrives and what leaves balance. */
  lemma {:induction false} ArrivalsAndDeparturesBalance(w: World, init: Database, log: seq<Entry>, key: string, v: string, n: nat)
    requires n <= |log|
    ensures Arrivals(w, init, log, key, v, n) + Is(w, init, log, key, v, 0)
         == Departures(w, init, log, key, v, n) + Is(w, init, log, key, v, n)
  {
    if n > 0 {
      ArrivalsAndDeparturesBalance(w, init, log, key, v, n - 1);
    }
  }

  lemma {:induction false} SwapsNeverExceedDepartures(w: World, init: Database, servers: seq<Server>, log: seq<Entry>,
                                                      key: string, v: string, n: nat)
    requires LogOk(w, init, servers, log) && n <= |log|
    ensures Swaps(w, init, log, key, v, n) <= Departures(w, init, log, key, v, n)
  {
    if n > 0 {
      SwapsNeverExceedDepartures(w, init, servers, log, key, v, n - 1);
      if SwapsAway(w, init, log, key, v, n - 1) {
        SwapsAreDepartures(w, init, servers, log, key, v, n - 1);
      }
    }
  }

  /**
   No lost update: over any run the successful swaps away from `v` never exceed the times
   `v` became current (or was so at the start); what arrives and what leaves balance.
   */
  lemma SwapsNeverExceedArrivals(w: World, init: Database, servers: seq<Server>, log: seq<Entry>,
                                 key: string, v: string, n: nat)
    requires LogOk(w, init, servers, log) && n <= |log|
    ensures Arrivals(w, init, log, key, v, n) + Is(w, init, log, key, v, 0)
         == Departures(w, init, log, key, v, n) + Is(w, init, log, key, v, n)
    ensures Swaps(w, init, log, key, v, n) <= Departures(w, init, log, key, v, n)
    ensures Swaps(w, init, log, key, v, n) <= Arrivals(w, init, log, key, v, n) + Is(w, init, log, key, v, 0)
  {
    ArrivalsAndDeparturesBalance(w, init, log, key, v, n);
    SwapsNeverExceedDepartures(w, init, servers, log, key, v, n);
  }

  /** The same for every state of every run. */
  lemma NoUpdateIsLost(w: World, states: seq<State>, steps: seq<Step>, i: nat, key: string, v: string)
    requires Run(w, states, steps) && i < |states|
    ensures
      var init, log := states[0].committed, states[i].log;
      Swaps(w, init, log, key, v, |log|) <= Arrivals(w, init, log, key, v, |log|) + Is(w, init, log, key, v, 0)
  {
    EveryRunIsSerial(w, states, steps, i);
    SwapsNeverExceedArrivals(w, states[0].committed, ServersOf(states[0].procs), states[i].log, key, v, |states[i].log|);
  }

  /** Entry `d` is a delete that found `key`. */
  predicate Deletes(w: World, init: Database, log: seq<Entry>, key: string, d: nat)
    requires d < |log|
  {
    log[d].Committed? && log[d].x.op == Remove(key) && key in At(w, init, log, d).facts
  }

  /** Whatever changes `key` is a compare-and-swap from a number to the next one; attempts that lose are not restricted. */
  ghost predicate OnlyCountedUp(w: World, init: Database, log: seq<Entry>, key: string) {
    forall i | 0 <= i < |log| :: ChangeCountsUp(w, init, log, key, i)
  }

  ghost predicate ChangeCountsUp(w: World, init: Database, log: seq<Entry>, key: string, i: nat)
    requires i < |log|
  {
    Succeeds(w, init, log, key, i) || Deletes(w, init, log, key, i) ==> CountsUp(log[i].x.op)
  }

  ghost predicate CountsUp(op: Op) {
    op.Store? && op.mode.Swap? && exists m: int :: op.mode.expected == Decimal(m) && op.value == Decimal(m + 1)
  }

  function Successes(w: World, init: Database, log: seq<Entry>, key: string, n: nat): nat
    requires n <= |log|
  {
    if n == 0 then 0
    else Successes(w, init, log, key, n - 1) + if Succeeds(w, init, log, key, n - 1) then 1 else 0
  }

  /** A shared counter loses no increment: it ends at its start plus the number of successful swaps. */
  lemma {:induction false} CounterLosesNoIncrement(w: World, init: Database, servers: seq<Server>, log: seq<Entry>,
                                                   key: string, start: int, n: nat)
    requires LogOk(w, init, servers, log) && n <= |log|
    requires OnlyCountedUp(w, init, log, key) && ValueAt(w, init, log, key, 0) == Some(Decimal(start))
    ensures ValueAt(w, init, log, key, n) == Some(Decimal(start + Successes(w, init, log, key, n)))
  {
    if n > 0 {
      CounterLosesNoIncrement(w, init, servers, log, key, start, n - 1);
      assert EntryAt(w, init, servers, log, n - 1);
      assert ChangeCountsUp(w, init, log, key, n - 1);
      CountStep(w, At(w, init, log, n - 1), log[n - 1], key, start + Successes(w, init, log, key, n - 1));
    }
  }

  /** One entry either leaves the counter alone or is a successful swap to the next number. */
  lemma CountStep(w: World, before: Database, e: Entry, key: string, current: int)
    requires e.Committed? ==> Apply(w, before, e.x).Ok?
    requires key in before.facts && before.facts[key].value == Decimal(current)
    requires e.Committed? && e.x.op.key == key && ((e.x.op.Store? && Loses(before.facts, e.x.op).None?) || e.x.op.Remove?) ==>
               CountsUp(e.x.op)
    ensures
      var after := ApplyEntry(w, before, e);
      var succeeded := e.Committed? && e.x.op.Store? && e.x.op.key == key && Loses(before.facts, e.x.op).None?;
      key in after.facts && after.facts[key].value == Decimal(if succeeded then current + 1 else current)
  {
    if e.Committed? && e.x.op.Store? && e.x.op.key == key && Loses(before.facts, e.x.op).None? {
      var m: int :| e.x.op.mode.expected == Decimal(m) && e.x.op.value == Decimal(m + 1);
      DecimalInjective(m, current);
    }
  }

  // ---------------------------------------------------------------- who knows of a success

  /** The outcome is that this call's write to `key` succeeded. */
  predicate Stored(call: Call, outcome: Outcome, key: string) {
    outcome.Wrote? && outcome.report.conflict.None? && call.tool.SetCall? && call.tool.key == key
  }

  /** How many of these replies report a successful write to `key`. */
  function Told(replies: seq<Reply>, key: string): nat {
    if replies == [] then 0
    else
      var last := replies[|replies| - 1];
      Told(replies[..|replies| - 1], key) + if Stored(last.call, last.outcome, key) then 1 else 0
  }

  /** The process has committed a successful write to `key` and not answered yet. */
  predicate HasStored(me: Process, key: string) {
    me.pc.Answering? && Stored(me.pc.call, me.pc.outcome, key)
  }

  /** How many processes are between committing a successful write to `key` and answering. */
  function Pending(procs: seq<Process>, key: string): nat {
    if procs == [] then 0
    else Pending(procs[..|procs| - 1], key) + if HasStored(procs[|procs| - 1], key) then 1 else 0
  }

  /** Successful writes to `key` by what became of their answers: given, lost with the process, or still due. */
  function Accounted(s: State, key: string): nat {
    Told(s.replies, key) + Told(s.lost, key) + Pending(s.procs, key)
  }

  lemma {:induction false} PendingAfterMove(procs: seq<Process>, p: nat, me: Process, key: string)
    requires p < |procs|
    ensures Pending(procs[p := me], key) + (if HasStored(procs[p], key) then 1 else 0)
         == Pending(procs, key) + (if HasStored(me, key) then 1 else 0)
  {
    var n := |procs| - 1;
    if p == n {
      assert procs[p := me][..n] == procs[..n];
    } else {
      assert procs[p := me][..n] == procs[..n][p := me];
      PendingAfterMove(procs[..n], p, me, key);
    }
  }

  lemma ToldExtended(replies: seq<Reply>, r: Reply, key: string)
    ensures Told(replies + [r], key) == Told(replies, key) + if Stored(r.call, r.outcome, key) then 1 else 0
  {
    assert (replies + [r])[..|replies|] == replies;
  }

  lemma SucceedsInBoth(w: World, init: Database, log: seq<Entry>, more: seq<Entry>, key: string, i: nat)
    requires i < |log| && IsPrefix(log, more)
    ensures Succeeds(w, init, log, key, i) <==> Succeeds(w, init, more, key, i)
  {
    AtPrefix(w, init, log, more, i);
    assert more[..|log|][i] == log[i];
  }

  lemma {:induction false} SuccessesPrefix(w: World, init: Database, log: seq<Entry>, more: seq<Entry>, key: string, n: nat)
    requires n <= |log| && IsPrefix(log, more)
    ensures Successes(w, init, log, key, n) == Successes(w, init, more, key, n)
  {
    if n > 0 {
      SuccessesPrefix(w, init, log, more, key, n - 1);
      SucceedsInBoth(w, init, log, more, key, n - 1);
    }
  }

  predicate NewlySucceeds(w: World, init: Database, log: seq<Entry>, more: seq<Entry>, key: string) {
    |more| > |log| && Succeeds(w, init, more, key, |log|)
  }

  lemma SuccessesExtended(w: World, init: Database, log: seq<Entry>, more: seq<Entry>, key: string)
    requires IsPrefix(log, more) && |more| <= |log| + 1
    ensures Successes(w, init, more, key, |more|)
         == Successes(w, init, log, key, |log|) + if NewlySucceeds(w, init, log, more, key) then 1 else 0
  {
    SuccessesPrefix(w, init, log, more, key, |log|);
    if |more| > |log| {
      assert |more| - 1 == |log|;
    }
  }

  /** 1 if the reply that `more` has over `replies` reports a successful write to `key`. */
  function NewlyTold(replies: seq<Reply>, more: seq<Reply>, key: string): nat {
    if |more| > |replies| && Stored(more[|replies|].call, more[|replies|].outcome, key) then 1 else 0
  }

  ghost predicate ExtendsByOne(replies: seq<Reply>, more: seq<Reply>) {
    IsPrefix(replies, more) && |more| <= |replies| + 1
  }

  lemma ToldGrows(replies: seq<Reply>, more: seq<Reply>, key: string)
    requires ExtendsByOne(replies, more)
    ensures Told(more, key) == Told(replies, key) + NewlyTold(replies, more, key)
  {
    if |more| > |replies| {
      assert more == replies + [more[|replies|]];
      ToldExtended(replies, more[|replies|], key);
    } else {
      assert more == replies;
    }
  }

  /** What becomes of a success that was due: it stays due, is told or is lost; only a commit makes one. */
  ghost predicate HandsOn(s: State, t: Step, after: State, key: string)
    requires t.p < |s.procs| == |after.procs|
  {
    && ExtendsByOne(s.replies, after.replies) && ExtendsByOne(s.lost, after.lost)
    && var settled := NewlyTold(s.replies, after.replies, key) + NewlyTold(s.lost, after.lost, key);
       if t.Commit? then settled == 0 && !HasStored(s.procs[t.p], key)
       else (if HasStored(after.procs[t.p], key) then 1 else 0) + settled == if HasStored(s.procs[t.p], key) then 1 else 0
  }

  lemma EndOfCallHandsOn(w: World, s: State, t: Step, key: string)
    requires Enabled(w, s, t) && (t.Tell? || t.Fail? || t.Crash?)
    ensures |Perform(w, s, t).procs| == |s.procs| && HandsOn(s, t, Perform(w, s, t), key)
  {
  }

  lemma RestHandsOn(w: World, s: State, t: Step, key: string)
    requires Enabled(w, s, t) && !t.Tell? && !t.Fail? && !t.Crash?
    ensures |Perform(w, s, t).procs| == |s.procs| && HandsOn(s, t, Perform(w, s, t), key)
  {
  }

  lemma AccountedAfter(s: State, t: Step, after: State, key: string)
    requires t.p < |s.procs| == |after.procs| && after.procs == s.procs[t.p := after.procs[t.p]]
    requires HandsOn(s, t, after, key)
    ensures Accounted(after, key) == Accounted(s, key) + if t.Commit? && HasStored(after.procs[t.p], key) then 1 else 0
  {
    PendingAfterMove(s.procs, t.p, after.procs[t.p], key);
    ToldGrows(s.replies, after.replies, key);
    ToldGrows(s.lost, after.lost, key);
  }

  /** A commit owes its caller a success exactly if the entry it appends is one. */
  lemma CommitOwesItsSuccess(w: World, init: Database, s: State, p: nat, key: string)
    requires Inv(w, init, s) && Enabled(w, s, Commit(p))
    ensures
      var after := Perform(w, s, Commit(p));
      && |after.log| == |s.log| + 1
      && (HasStored(after.procs[p], key) <==> Succeeds(w, init, after.log, key, |s.log|))
  {
    var after := Perform(w, s, Commit(p));
    assert s.writer == Some(p);
    assert ProcOk(w, init, s.log, |s.replies|, s.procs[p]);
    AtPrefix(w, init, s.log, after.log, |s.log|);
  }

  lemma OtherStepsAddNoSuccess(w: World, init: Database, s: State, t: Step, key: string)
    requires Enabled(w, s, t) && !t.Commit?
    ensures |Perform(w, s, t).log| <= |s.log| + 1 && !NewlySucceeds(w, init, s.log, Perform(w, s, t).log, key)
  {
  }

  lemma StepHandsOn(w: World, s: State, t: Step, key: string)
    requires Enabled(w, s, t)
    ensures
      var after := Perform(w, s, t);
      |after.procs| == |s.procs| && after.procs == s.procs[t.p := after.procs[t.p]] && HandsOn(s, t, after, key)
  {
    StepMovesOneProcess(w, s, t);
    if t.Tell? || t.Fail? || t.Crash? {
      EndOfCallHandsOn(w, s, t, key);
    } else {
      RestHandsOn(w, s, t, key);
    }
  }

  lemma StepOwesItsSuccess(w: World, init: Database, s: State, t: Step, key: string)
    requires Inv(w, init, s) && Enabled(w, s, t)
    ensures
      var after := Perform(w, s, t);
      && IsPrefix(s.log, after.log) && |after.log| <= |s.log| + 1 && |after.procs| == |s.procs|
      && (t.Commit? && HasStored(after.procs[t.p], key) <==> NewlySucceeds(w, init, s.log, after.log, key))
  {
    LogGrows(w, s, t);
    if t.Commit? {
      CommitOwesItsSuccess(w, init, s, t.p, key);
    } else {
      OtherStepsAddNoSuccess(w, init, s, t, key);
      StepMovesOneProcess(w, s, t);
    }
  }

  lemma AccountKept(w: World, init: Database, s: State, t: Step, after: State, key: string)
    requires Accounted(s, key) == Successes(w, init, s.log, key, |s.log|)
    requires t.p < |s.procs| == |after.procs| && after.procs == s.procs[t.p := after.procs[t.p]] && HandsOn(s, t, after, key)
    requires IsPrefix(s.log, after.log) && |after.log| <= |s.log| + 1
    requires t.Commit? && HasStored(after.procs[t.p], key) <==> NewlySucceeds(w, init, s.log, after.log, key)
    ensures Accounted(after, key) == Successes(w, init, after.log, key, |after.log|)
  {
    AccountedAfter(s, t, after, key);
    SuccessesExtended(w, init, s.log, after.log, key);
  }

  lemma StepKeepsAccount(w: World, init: Database, s: State, t: Step, key: string)
    requires Inv(w, init, s) && Enabled(w, s, t)
    requires Accounted(s, key) == Successes(w, init, s.log, key, |s.log|)
    ensures Accounted(Perform(w, s, t), key) == Successes(w, init, Perform(w, s, t).log, key, |Perform(w, s, t).log|)
  {
    StepHandsOn(w, s, t, key);
    StepOwesItsSuccess(w, init, s, t, key);
    AccountKept(w, init, s, t, Perform(w, s, t), key);
  }

  /**
   In every run there are as many successful writes to a key in the log as there are callers that
   were told of one, answers lost after such a commit and answers still due, taken together. Which
   outcome belongs to which entry is `EveryCommitHasOneOutcome`.
   */
  lemma {:induction false} EverySuccessIsAccountedFor(w: World, states: seq<State>, steps: seq<Step>, i: nat, key: string)
    requires Run(w, states, steps) && i < |states|
    ensures Accounted(states[i], key) == Successes(w, states[0].committed, states[i].log, key, |states[i].log|)
  {
    if i > 0 {
      EverySuccessIsAccountedFor(w, states, steps, i - 1, key);
      RunInv(w, states, steps, i - 1);
      assert StepAt(w, states, steps, i - 1);
      StepKeepsAccount(w, states[0].committed, states[i - 1], steps[i - 1], key);
    } else {
      NothingPendingAtFirst(states[0].procs, key);
    }
  }

  lemma {:induction false} NothingPendingAtFirst(procs: seq<Process>, key: string)
    requires forall p | 0 <= p < |procs| :: procs[p].pc.Idle?
    ensures Pending(procs, key) == 0
  {
    if procs != [] {
      NothingPendingAtFirst(procs[..|procs| - 1], key);
    }
  }

  /** The value of `key` is the number `n`, in decimal. */
  predicate Counts(db: Database, key: string, n: int) {
    key in db.facts && db.facts[key].value == Decimal(n)
  }

  lemma CountsOneNumber(db: Database, key: string, m: int, n: int)
    requires Counts(db, key, m)
    ensures Counts(db, key, n) <==> m == n
  {
    if Counts(db, key, n) {
      DecimalInjective(m, n);
    }
  }

  lemma CounterInState(w: World, init: Database, servers: seq<Server>, s: State, key: string, start: int)
    requires LogOk(w, init, servers, s.log) && OnlyCountedUp(w, init, s.log, key) && s.committed == At(w, init, s.log, |s.log|)
    requires Counts(init, key, start) && Accounted(s, key) == Successes(w, init, s.log, key, |s.log|)
    ensures Counts(s.committed, key, start + Accounted(s, key))
  {
    CounterLosesNoIncrement(w, init, servers, s.log, key, start, |s.log|);
  }

  /**
   In every run in which only compare-and-swaps from n to n+1 change a key, over all processes and
   interleavings, its committed value is its first value plus the successes told, lost and due.
   */
  lemma CounterCountsTheSuccesses(w: World, states: seq<State>, steps: seq<Step>, i: nat, key: string, start: int)
    requires Run(w, states, steps) && i < |states|
    requires Counts(states[0].committed, key, start) && OnlyCountedUp(w, states[0].committed, states[i].log, key)
    ensures Counts(states[i].committed, key, start + Accounted(states[i], key))
  {
    EveryRunIsSerial(w, states, steps, i);
    EverySuccessIsAccountedFor(w, states, steps, i, key);
    CounterInState(w, states[0].committed, ServersOf(states[0].procs), states[i], key, start);
  }

  /**
   So the counter never falls short of what callers were told, and equals it exactly if no process
   died or failed between such a commit and its answer and none is between them now.
   */
  lemma CounterEqualsTheToldIff(w: World, states: seq<State>, steps: seq<Step>, i: nat, key: string, start: int)
    requires Run(w, states, steps) && i < |states|
    requires Counts(states[0].committed, key, start) && OnlyCountedUp(w, states[0].committed, states[i].log, key)
    ensures exists n :: Counts(states[i].committed, key, n) && n >= start + Told(states[i].replies, key)
    ensures Counts(states[i].committed, key, start + Told(states[i].replies, key))
       <==> Told(states[i].lost, key) == 0 && Pending(states[i].procs, key) == 0
  {
    CounterCountsTheSuccesses(w, states, steps, i, key, start);
    CountsOneNumber(states[i].committed, key, start + Accounted(states[i], key), start + Told(states[i].replies, key));
  }

  lemma RunExtended(w: World, states: seq<State>, steps: seq<Step>, t: Step) returns (more: seq<State>, moves: seq<Step>)
    requires Run(w, states, steps) && Enabled(w, states[|steps|], t)
    ensures Run(w, more, moves) && more == states + [Perform(w, states[|steps|], t)] && moves == steps + [t]
  {
    more, moves := states + [Perform(w, states[|steps|], t)], steps + [t];
    forall i | 0 <= i < |moves|
      ensures StepAt(w, more, moves, i)
    {
      if i < |steps| {
        assert StepAt(w, states, steps, i);
        assert more[i] == states[i] && more[i + 1] == states[i + 1] && moves[i] == steps[i];
      }
    }
  }

  // The scene of one run: a server that chains its events increments a counter from 0.
  const COUNTER := "n"
  const INCREMENT := Store(COUNTER, "1", Swap("0"))
  const SERVER := Server(false, true, false, Stdio("a"))
  const CALL := Call(SetCall(COUNTER, "1", Swap("0")), Origin(false, [], None), "a", 0, 0)
  const TXN := Txn(INCREMENT, "a", false, true, "", "")
  const REPORT := Report(None, true)
  const AT_ZERO := Database(map[COUNTER := Fact("0", "", "")], map[], Table({PREV_HASH, EVENT_HASH}, true, [], None))
  const AT_ONE := AT_ZERO.(facts := map[COUNTER := Fact("1", "a", "")])

  lemma IncrementIsLocked(w: World) returns (states: seq<State>, steps: seq<Step>)
    ensures Run(w, states, steps) && states[0].committed == AT_ZERO && ServersOf(states[0].procs) == [SERVER]
    ensures states[|steps|] == State(AT_ZERO, AT_ZERO, Some(0), [Process(SERVER, true, InTransaction(CALL, INCREMENT, Unread))], [], [], [])
  {
    states, steps := [State(AT_ZERO, AT_ZERO, None, [Process(SERVER, false, Idle)], [], [], [])], [];
    states, steps := RunExtended(w, states, steps, OpenSealed(0));
    states, steps := RunExtended(w, states, steps, Start(0, CALL.tool, CALL.origin));
    states, steps := RunExtended(w, states, steps, Lock(0));
  }

  lemma IncrementIsWritten(w: World) returns (states: seq<State>, steps: seq<Step>)
    ensures Run(w, states, steps) && states[0].committed == AT_ZERO && ServersOf(states[0].procs) == [SERVER]
    ensures states[|steps|] == State(AT_ZERO, AT_ONE, Some(0), [Process(SERVER, true, VectorsChanged(CALL, TXN, Unread, REPORT))], [], [], [])
  {
    states, steps := IncrementIsLocked(w);
    states, steps := RunExtended(w, states, steps, ChangeFact(0, ""));
    assert states[|steps|].working.facts == AT_ONE.facts;
    states, steps := RunExtended(w, states, steps, ChangeVector(0, ""));
  }

  lemma IncrementIsNumbered(w: World) returns (states: seq<State>, steps: seq<Step>)
    ensures Run(w, states, steps) && states[0].committed == AT_ZERO && ServersOf(states[0].procs) == [SERVER]
    ensures states[|steps|]
         == State(AT_ZERO, AT_ONE, Some(0), [Process(SERVER, true, SequenceRead(CALL, TXN, Unread, REPORT, Some(GENESIS), 1))], [], [], [])
  {
    states, steps := IncrementIsWritten(w);
    states, steps := RunExtended(w, states, steps, ReadTail(0));
    assert states[|steps|].procs == [Process(SERVER, true, TailRead(CALL, TXN, Unread, REPORT, Some(GENESIS)))];
    states, steps := RunExtended(w, states, steps, ReadSequence(0));
  }

  lemma IncrementIsCommitted(w: World) returns (states: seq<State>, steps: seq<Step>)
    ensures Run(w, states, steps) && states[0].committed == AT_ZERO && ServersOf(states[0].procs) == [SERVER]
    ensures states[|steps|].procs == [Process(SERVER, true, Answering(CALL, Wrote(REPORT, Unread, 0)))]
    ensures states[|steps|].log == [Committed(0, CALL, TXN)] && states[|steps|].lost == []
  {
    states, steps := IncrementIsNumbered(w);
    states, steps := RunExtended(w, states, steps, Insert(0));
    assert states[|steps|].procs == [Process(SERVER, true, Logged(CALL, TXN, Unread, REPORT))];
    states, steps := RunExtended(w, states, steps, Commit(0));
  }

  /**
   A run of one chaining server in which the answer to a successful increment is lost: the process
   dies right after its commit.
   */
  lemma AnswersGetLost(w: World) returns (states: seq<State>, steps: seq<Step>)
    ensures Run(w, states, steps) && Counts(states[0].committed, COUNTER, 0)
    ensures |states[0].procs| == 1 && states[0].procs[0].server.chained && HasChain(states[0].committed.events)
    ensures OnlyCountedUp(w, states[0].committed, states[|steps|].log, COUNTER)
    ensures !Counts(states[|steps|].committed, COUNTER, Told(states[|steps|].replies, COUNTER))
  {
    states, steps := IncrementIsCommitted(w);
    assert ServersOf(states[0].procs)[0] == SERVER;
    states, steps := RunExtended(w, states, steps, Crash(0));
    var last := states[|steps|];
    ToldExtended([], last.lost[0], COUNTER);
    assert last.lost == [] + [last.lost[0]];
    assert CountsUp(INCREMENT) by {
      assert "0" == Decimal(0) && "1" == Decimal(0 + 1);
    }
    assert OnlyCountedUp(w, states[0].committed, last.log, COUNTER);
    CounterEqualsTheToldIff(w, states, steps, |steps|, COUNTER, 0);
  }

  // ---------------------------------------------------------------- create-only

  lemma {:induction false} KeysLeaveByDeleteOnly(w: World, init: Database, servers: seq<Server>, log: seq<Entry>,
                                                 key: string, m: nat, n: nat)
    requires LogOk(w, init, servers, log) && m <= n <= |log|
    requires key in At(w, init, log, m).facts && key !in At(w, init, log, n).facts
    ensures exists d :: m <= d < n && Deletes(w, init, log, key, d)
  {
    if m < n {
      assert EntryAt(w, init, servers, log, n - 1);
      if key in At(w, init, log, n - 1).facts {
        assert Deletes(w, init, log, key, n - 1);
      } else {
        KeysLeaveByDeleteOnly(w, init, servers, log, key, m, n - 1);
      }
    }
  }

  /** Entry `d`, a delete of `key`, lies strictly between entries `m` and `n`. */
  ghost predicate DeletedBetween(w: World, init: Database, log: seq<Entry>, key: string, m: nat, n: nat) {
    exists d :: m < d < n && d < |log| && Deletes(w, init, log, key, d)
  }

  /** Entry `i` is a create-only write to `key` that took effect. */
  predicate Creates(w: World, init: Database, log: seq<Entry>, key: string, i: nat)
    requires i < |log|
  {
    Succeeds(w, init, log, key, i) && log[i].x.op.mode.Create?
  }

  /** A create-only write found no fact under `key`, and any write that took effect left one. */
  lemma CreatedIsNew(w: World, init: Database, servers: seq<Server>, log: seq<Entry>, key: string, i: nat)
    requires LogOk(w, init, servers, log) && i < |log| && Succeeds(w, init, log, key, i)
    ensures key in At(w, init, log, i + 1).facts
    ensures Creates(w, init, log, key, i) ==> key !in At(w, init, log, i).facts
  {
    assert EntryAt(w, init, servers, log, i);
  }

  /**
   In every run a create-only write that takes effect after another write to the key did has a
   delete of the key between them, whether or not anyone was told of either. So between
   consecutive deletes of a key at most one create-only call succeeds, and none after a set.
   */
  lemma CreateOnlyIsExclusive(w: World, states: seq<State>, steps: seq<Step>, i: nat, a: nat, b: nat, key: string)
    requires Run(w, states, steps) && i < |states| && a < b < |states[i].log|
    requires Succeeds(w, states[0].committed, states[i].log, key, a)
    requires Creates(w, states[0].committed, states[i].log, key, b)
    ensures DeletedBetween(w, states[0].committed, states[i].log, key, a, b)
  {
    EveryRunIsSerial(w, states, steps, i);
    var init, servers, log := states[0].committed, ServersOf(states[0].procs), states[i].log;
    CreatedIsNew(w, init, servers, log, key, a);
    CreatedIsNew(w, init, servers, log, key, b);
    KeysLeaveByDeleteOnly(w, init, servers, log, key, a + 1, b);
  }

  /** This call's create-only write of `key` took effect. */
  predicate CreatedFor(call: Call, outcome: Outcome, key: string) {
    Stored(call, outcome, key) && call.tool.mode.Create?
  }

  lemma ReportedCreates(w: World, init: Database, servers: seq<Server>, log: seq<Entry>, r: Reply, key: string)
    requires LogOk(w, init, servers, log) && ReplyOk(w, init, log, r) && CreatedFor(r.call, r.outcome, key)
    ensures r.outcome.at < |log| && Creates(w, init, log, key, r.outcome.at)
  {
  }

  /** In particular two callers told that they created a key, in whatever order, have a delete between their writes. */
  lemma ToldCreatorsAreApart(w: World, states: seq<State>, steps: seq<Step>, i: nat, a: nat, b: nat, key: string)
    requires Run(w, states, steps) && i < |states| && a < |states[i].replies| && b < |states[i].replies| && a != b
    requires CreatedFor(states[i].replies[a].call, states[i].replies[a].outcome, key)
    requires CreatedFor(states[i].replies[b].call, states[i].replies[b].outcome, key)
    ensures
      var m, n := states[i].replies[a].outcome.at, states[i].replies[b].outcome.at;
      if m < n then DeletedBetween(w, states[0].committed, states[i].log, key, m, n)
      else DeletedBetween(w, states[0].committed, states[i].log, key, n, m)
  {
    EveryRunIsSerial(w, states, steps, i);
    ToldApart(w, states, steps, i, a, b);
    var init, servers, log := states[0].committed, ServersOf(states[0].procs), states[i].log;
    var r, q := states[i].replies[a], states[i].replies[b];
    ReportedCreates(w, init, servers, log, r, key);
    ReportedCreates(w, init, servers, log, q, key);
    if r.outcome.at < q.outcome.at {
      CreateOnlyIsExclusive(w, states, steps, i, r.outcome.at, q.outcome.at, key);
    } else {
      CreateOnlyIsExclusive(w, states, steps, i, q.outcome.at, r.outcome.at, key);
    }
  }

  // ---------------------------------------------------------------- attempts that lose

  /** What a transaction that loses does: one `cas_fail` event more, and nothing else. */
  lemma LosingAddsOneEvent(w: World, before: Database, x: Txn)
    requires Apply(w, before, x).Ok? && Loses(before.facts, x.op).Some?
    ensures
      var after := Apply(w, before, x).value;
      && after.facts == before.facts && after.vectors == before.vectors
      && |after.events.rows| == |before.events.rows| + 1
      && after.events.rows[..|before.events.rows|] == before.events.rows
      && var e := after.events.rows[|before.events.rows|].event;
         e.action == "cas_fail" && e.client == x.client && e.key == Some(x.op.key)
         && e.value == Some(w.describe(Loses(before.facts, x.op).value))
         && x.op.Store? && TellsCurrent(before.facts, x.op.key, x.op.mode, Loses(before.facts, x.op).value)
  {
    ApplyAddsOneEvent(w, before, x);
    LoserCanRetry(before.facts, x.op.key, x.op.value, x.op.mode, "");
  }

  /** Entry `k` met this conflict: it added one `cas_fail` event for its call and changed nothing else. */
  ghost predicate LeftOneTrace(w: World, init: Database, log: seq<Entry>, k: nat, conflict: Conflict)
    requires k < |log| && log[k].Committed?
  {
    var before, after := At(w, init, log, k), At(w, init, log, k + 1);
    && Loses(before.facts, log[k].x.op) == Some(conflict)
    && log[k].x.op.Store? && TellsCurrent(before.facts, log[k].x.op.key, log[k].x.op.mode, conflict)
    && after.facts == before.facts && after.vectors == before.vectors
    && |after.events.rows| == |before.events.rows| + 1
    && after.events.rows[..|before.events.rows|] == before.events.rows
    && var e := after.events.rows[|before.events.rows|].event;
       e.action == "cas_fail" && e.client == log[k].call.client && e.key == Some(log[k].x.op.key)
       && e.value == Some(w.describe(conflict))
  }

  /**
   In every run each attempt that lost in its transaction has committed exactly one `cas_fail`
   event under its caller's identity, with the conflict it met, and changed neither facts nor
   vectors, whether or not the caller was told. The conflict is what the key held, so that the
   retry it suggests, with any value, wins on the same content.
   */
  lemma LosersLeaveOneTrace(w: World, states: seq<State>, steps: seq<Step>, i: nat, k: nat)
    requires Run(w, states, steps) && i < |states| && k < |states[i].log| && states[i].log[k].Committed?
    requires Loses(At(w, states[0].committed, states[i].log, k).facts, states[i].log[k].x.op).Some?
    ensures
      var conflict := Loses(At(w, states[0].committed, states[i].log, k).facts, states[i].log[k].x.op).value;
      LeftOneTrace(w, states[0].committed, states[i].log, k, conflict)
    ensures
      var facts, op := At(w, states[0].committed, states[i].log, k).facts, states[i].log[k].x.op;
      forall other :: Loses(facts, Store(op.key, other, RetryOf(Loses(facts, op).value))).None?
  {
    EveryRunIsSerial(w, states, steps, i);
    var init, log := states[0].committed, states[i].log;
    assert EntryAt(w, init, ServersOf(states[0].procs), log, k);
    LosingAddsOneEvent(w, At(w, init, log, k), log[k].x);
    var facts, op := At(w, init, log, k).facts, log[k].x.op;
    forall other
      ensures Loses(facts, Store(op.key, other, RetryOf(Loses(facts, op).value))).None?
    {
      LoserCanRetry(facts, op.key, op.value, op.mode, other);
    }
  }

  lemma LosingReplyLeftOneTrace(w: World, init: Database, servers: seq<Server>, log: seq<Entry>, r: Reply)
    requires LogOk(w, init, servers, log) && ReplyOk(w, init, log, r)
    requires r.outcome.Wrote? && r.outcome.report.conflict.Some?
    ensures LeftOneTrace(w, init, log, r.outcome.at, r.outcome.report.conflict.value)
    ensures r.call.tool.SetCall? && log[r.outcome.at].x.op == WriteOp(r.call.tool)
  {
    assert EntryAt(w, init, servers, log, r.outcome.at);
    LosingAddsOneEvent(w, At(w, init, log, r.outcome.at), log[r.outcome.at].x);
  }

  /** A caller told that it lost owns such an entry, inside its call and of its own, and was told the conflict it met. */
  lemma ToldLosersLeftOneTrace(w: World, states: seq<State>, steps: seq<Step>, i: nat, a: nat)
    requires Run(w, states, steps) && i < |states| && a < |states[i].replies|
    requires states[i].replies[a].outcome.Wrote? && states[i].replies[a].outcome.report.conflict.Some?
    ensures
      var r, log := states[i].replies[a], states[i].log;
      && r.call.start <= r.outcome.at < r.finish <= |log|
      && log[r.outcome.at].Committed? && log[r.outcome.at].call == r.call
      && r.call.tool.SetCall? && log[r.outcome.at].x.op == WriteOp(r.call.tool)
      && LeftOneTrace(w, states[0].committed, log, r.outcome.at, r.outcome.report.conflict.value)
    ensures forall b | 0 <= b < |states[i].replies| && b != a && states[i].replies[b].outcome.Wrote? ::
              states[i].replies[b].outcome.at != states[i].replies[a].outcome.at
  {
    EveryRunIsSerial(w, states, steps, i);
    var init, s := states[0].committed, states[i];
    assert ReplyOk(w, init, s.log, s.replies[a]);
    LosingReplyLeftOneTrace(w, init, ServersOf(states[0].procs), s.log, s.replies[a]);
    forall b | 0 <= b < |s.replies| && b != a && s.replies[b].outcome.Wrote?
      ensures s.replies[b].outcome.at != s.replies[a].outcome.at
    {
      ToldApart(w, states, steps, i, a, b);
    }
  }
}
