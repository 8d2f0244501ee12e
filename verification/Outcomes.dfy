/**
 What becomes of the outcomes of committed calls: each one is told to its caller, lost with its
 process or still due, and never two of these.
 */
module Outcomes {
  import opened Wrappers
  import opened Sqlite
  import opened MemoryTools
  import opened Replay
  import opened Protocol
  import opened Refinement
  import opened Runs

  /** The log entry an outcome reports, if it reports one. */
  function PlaceOf(outcome: Outcome): Option<nat> {
    if outcome.Wrote? then Some(outcome.at) else None
  }

  /** Where the outcome of a call can be: told to its caller, lost with its process, or due. */
  datatype Slot = ToldTo(i: nat) | LostAt(i: nat) | DueBy(p: nat)

  /** The call and the outcome in a slot, if it holds any. */
  function InSlot(s: State, slot: Slot): Option<(Call, Outcome)> {
    match slot
    case ToldTo(i) => if i < |s.replies| then Some((s.replies[i].call, s.replies[i].outcome)) else None
    case LostAt(i) => if i < |s.lost| then Some((s.lost[i].call, s.lost[i].outcome)) else None
    case DueBy(p) =>
      if p < |s.procs| && s.procs[p].pc.Answering? then Some((s.procs[p].pc.call, s.procs[p].pc.outcome)) else None
  }

  /** The log entry that the outcome in a slot reports, if any. */
  function SlotPlace(s: State, slot: Slot): Option<nat> {
    match InSlot(s, slot)
    case None => None
    case Some((_, outcome)) => PlaceOf(outcome)
  }

  /** No two outcomes, told, lost or due, report the same log entry. */
  ghost predicate ApartOk(s: State) {
    forall a, b | a != b && SlotPlace(s, a).Some? :: SlotPlace(s, a) != SlotPlace(s, b)
  }

  /** Some slot holds the outcome of entry `k`. */
  ghost predicate Reported(s: State, k: nat) {
    exists slot :: SlotPlace(s, slot) == Some(k)
  }

  /** No committed call is forgotten. */
  ghost predicate ReportedOk(s: State) {
    forall k | 0 <= k < |s.log| && s.log[k].Committed? :: Reported(s, k)
  }

  ghost predicate LostOk(w: World, init: Database, log: seq<Entry>, lost: seq<Reply>) {
    forall i | 0 <= i < |lost| :: ReplyOk(w, init, log, lost[i])
  }

  ghost predicate OutcomesOk(w: World, init: Database, s: State) {
    LostOk(w, init, s.log, s.lost) && ApartOk(s) && ReportedOk(s)
  }

  lemma LostGrows(w: World, init: Database, s: State, t: Step)
    requires Enabled(w, s, t) && ProcOk(w, init, s.log, |s.replies|, s.procs[t.p])
    ensures |s.lost| <= |Perform(w, s, t).lost| <= |s.lost| + 1 && Perform(w, s, t).lost[..|s.lost|] == s.lost
    ensures |Perform(w, s, t).lost| > |s.lost| ==> ReplyOk(w, init, s.log, Perform(w, s, t).lost[|s.lost|])
  {
  }

  /** An answer that gets lost was right. */
  lemma StepKeepsLost(w: World, init: Database, s: State, t: Step)
    requires Inv(w, init, s) && LostOk(w, init, s.log, s.lost) && Enabled(w, s, t)
    ensures LostOk(w, init, Perform(w, s, t).log, Perform(w, s, t).lost)
  {
    var after := Perform(w, s, t);
    assert ProcOk(w, init, s.log, |s.replies|, s.procs[t.p]);
    LostGrows(w, init, s, t);
    StepExtendsLog(w, init, s, t);
    forall i | 0 <= i < |after.lost|
      ensures ReplyOk(w, init, after.log, after.lost[i])
    {
      if i < |s.lost| {
        assert after.lost[i] == s.lost[i];
      }
      ReplyKept(w, init, s.log, after.log, after.lost[i]);
    }
  }

  /** Every reported entry is in the log already, so a new one is apart from all of them. */
  lemma PlacesAreInTheLog(w: World, init: Database, s: State, slot: Slot)
    requires RepliesOk(w, init, s.log, s.replies) && ProcsOk(w, init, s) && LostOk(w, init, s.log, s.lost)
    ensures SlotPlace(s, slot).Some? ==> SlotPlace(s, slot).value < |s.log|
  {
    match slot
    case ToldTo(i) => assert i < |s.replies| ==> ReplyOk(w, init, s.log, s.replies[i]);
    case LostAt(i) => assert i < |s.lost| ==> ReplyOk(w, init, s.log, s.lost[i]);
    case DueBy(p) => assert p < |s.procs| ==> ProcOk(w, init, s.log, |s.replies|, s.procs[p]);
  }

  /** The slot that the outcome in this slot was in before the step of process `p`. */
  function Source(s: State, p: nat, slot: Slot): Slot {
    if slot == ToldTo(|s.replies|) || slot == LostAt(|s.lost|) then DueBy(p) else slot
  }

  /** A step moves what process `p` owed to at most one of three slots, and leaves all other slots alone. */
  ghost predicate PassesOn(s: State, after: State, p: nat) {
    && (forall slot | slot != DueBy(p) && SlotPlace(after, slot).Some? :: SlotPlace(after, slot) == SlotPlace(s, Source(s, p, slot)))
    && (forall slot | slot != DueBy(p) && SlotPlace(s, slot).Some? :: SlotPlace(after, slot) == SlotPlace(s, slot))
    && (SlotPlace(after, ToldTo(|s.replies|)).Some? ==> SlotPlace(after, LostAt(|s.lost|)).None?)
  }

  /** The same said of the sequences that hold the slots. */
  ghost predicate HandsOver(s: State, after: State, p: nat) {
    var due := SlotPlace(s, DueBy(p));
    var told, lost := SlotPlace(after, ToldTo(|s.replies|)), SlotPlace(after, LostAt(|s.lost|));
    && p < |s.procs| == |after.procs|
    && (forall q | 0 <= q < |s.procs| && q != p :: after.procs[q] == s.procs[q])
    && IsPrefix(s.replies, after.replies) && |after.replies| <= |s.replies| + 1
    && IsPrefix(s.lost, after.lost) && |after.lost| <= |s.lost| + 1
    && (told.Some? ==> told == due && lost.None?) && (lost.Some? ==> lost == due)
  }

  lemma HandingOverPassesOn(s: State, after: State, p: nat, slot: Slot)
    requires HandsOver(s, after, p) && slot != DueBy(p)
    ensures SlotPlace(after, slot).Some? ==> SlotPlace(after, slot) == SlotPlace(s, Source(s, p, slot))
    ensures SlotPlace(s, slot).Some? ==> SlotPlace(after, slot) == SlotPlace(s, slot)
  {
    match slot {
      case ToldTo(i) =>
        if i < |s.replies| {
          assert after.replies[..|s.replies|][i] == s.replies[i];
        }
      case LostAt(i) =>
        if i < |s.lost| {
          assert after.lost[..|s.lost|][i] == s.lost[i];
        }
      case DueBy(q) =>
    }
  }

  lemma CallEndsHandOver(w: World, s: State, t: Step)
    requires Enabled(w, s, t) && (t.Tell? || t.Fail? || t.Crash?)
    ensures HandsOver(s, Perform(w, s, t), t.p)
  {
  }

  lemma OthersHandOver(w: World, s: State, t: Step)
    requires Enabled(w, s, t) && !t.Tell? && !t.Fail? && !t.Crash?
    ensures HandsOver(s, Perform(w, s, t), t.p)
  {
  }

  lemma StepPassesOn(w: World, s: State, t: Step)
    requires Enabled(w, s, t)
    ensures PassesOn(s, Perform(w, s, t), t.p)
  {
    var after := Perform(w, s, t);
    if t.Tell? || t.Fail? || t.Crash? {
      CallEndsHandOver(w, s, t);
    } else {
      OthersHandOver(w, s, t);
    }
    forall slot: Slot | slot != DueBy(t.p)
      ensures SlotPlace(after, slot).Some? ==> SlotPlace(after, slot) == SlotPlace(s, Source(s, t.p, slot))
      ensures SlotPlace(s, slot).Some? ==> SlotPlace(after, slot) == SlotPlace(s, slot)
    {
      HandingOverPassesOn(s, after, t.p, slot);
    }
  }

  /** What a process owed it still owes, has told or has lost, unless it commits; then it owes the new entry. */
  lemma StepSettles(w: World, s: State, t: Step)
    requires Enabled(w, s, t)
    ensures
      var after := Perform(w, s, t);
      var due, owes := SlotPlace(s, DueBy(t.p)), SlotPlace(after, DueBy(t.p));
      var told, lost := SlotPlace(after, ToldTo(|s.replies|)), SlotPlace(after, LostAt(|s.lost|));
      && (t.Commit? ==> due.None? && owes == Some(|s.log|) && |after.log| == |s.log| + 1 && after.log[|s.log|].Committed?)
      && (!t.Commit? && owes.Some? ==> owes == due && told.None? && lost.None?)
      && (due.Some? ==> owes == due || told == due || lost == due)
      && (!t.Commit? && |after.log| > |s.log| ==> |after.log| == |s.log| + 1 && after.log[|s.log|].Migration?)
  {
  }

  lemma StepKeepsApart(w: World, init: Database, s: State, t: Step)
    requires Inv(w, init, s) && OutcomesOk(w, init, s) && Enabled(w, s, t)
    ensures ApartOk(Perform(w, s, t))
  {
    var after := Perform(w, s, t);
    StepPassesOn(w, s, t);
    StepSettles(w, s, t);
    forall a, b | a != b && SlotPlace(after, a).Some?
      ensures SlotPlace(after, a) != SlotPlace(after, b)
    {
      PlacesAreInTheLog(w, init, s, Source(s, t.p, a));
      PlacesAreInTheLog(w, init, s, Source(s, t.p, b));
      SlotsStayApart(s, after, t.p, a, b);
    }
  }

  lemma SlotsStayApart(s: State, after: State, p: nat, a: Slot, b: Slot)
    requires ApartOk(s) && PassesOn(s, after, p) && a != b && SlotPlace(after, a).Some?
    requires
      var owes := SlotPlace(after, DueBy(p));
      owes.Some? ==>
        || owes == Some(|s.log|)
        || (owes == SlotPlace(s, DueBy(p)) && SlotPlace(after, ToldTo(|s.replies|)).None? && SlotPlace(after, LostAt(|s.lost|)).None?)
    requires forall slot | slot == Source(s, p, a) || slot == Source(s, p, b) ::
               SlotPlace(s, slot).Some? ==> SlotPlace(s, slot).value < |s.log|
    ensures SlotPlace(after, a) != SlotPlace(after, b)
  {
    var x, y := Source(s, p, a), Source(s, p, b);
    if SlotPlace(after, b).Some? && a != DueBy(p) && b != DueBy(p) {
      assert x != y;
    }
  }

  lemma StepKeepsReported(w: World, s: State, t: Step)
    requires ReportedOk(s) && Enabled(w, s, t)
    ensures ReportedOk(Perform(w, s, t))
  {
    var after := Perform(w, s, t);
    StepPassesOn(w, s, t);
    StepSettles(w, s, t);
    LogGrows(w, s, t);
    forall k | 0 <= k < |after.log| && after.log[k].Committed?
      ensures Reported(after, k)
    {
      if k < |s.log| {
        assert after.log[..|s.log|][k] == s.log[k];
        assert Reported(s, k);
        var slot :| SlotPlace(s, slot) == Some(k);
        assert slot != DueBy(t.p) ==> SlotPlace(after, slot) == Some(k);
      } else {
        assert SlotPlace(after, DueBy(t.p)) == Some(k);
      }
    }
  }

  lemma {:induction false} RunKeepsOutcomes(w: World, states: seq<State>, steps: seq<Step>, i: nat)
    requires Run(w, states, steps) && i < |states|
    ensures OutcomesOk(w, states[0].committed, states[i])
  {
    if i > 0 {
      RunKeepsOutcomes(w, states, steps, i - 1);
      RunInv(w, states, steps, i - 1);
      assert StepAt(w, states, steps, i - 1);
      StepKeepsLost(w, states[0].committed, states[i - 1], steps[i - 1]);
      StepKeepsApart(w, states[0].committed, states[i - 1], steps[i - 1]);
      StepKeepsReported(w, states[i - 1], steps[i - 1]);
    } else {
      NothingInSlotsAtFirst(w, states[0]);
    }
  }

  lemma NothingInSlotsAtFirst(w: World, s: State)
    requires Initial(w, s)
    ensures forall slot :: SlotPlace(s, slot).None?
  {
  }

  /** The outcome in this slot is what entry `k` yields there, for the call that made it. */
  ghost predicate ReportsEntry(w: World, init: Database, s: State, slot: Slot, k: nat)
    requires k < |s.log| && s.log[k].Committed?
  {
    match InSlot(s, slot)
    case None => false
    case Some((call, outcome)) =>
      && outcome.Wrote? && outcome.at == k && call == s.log[k].call
      && outcome.report == ReportOf(At(w, init, s.log, k), s.log[k].x.op)
  }

  lemma SlotReportsEntry(w: World, init: Database, s: State, slot: Slot, k: nat)
    requires RepliesOk(w, init, s.log, s.replies) && ProcsOk(w, init, s) && LostOk(w, init, s.log, s.lost)
    requires SlotPlace(s, slot) == Some(k)
    ensures k < |s.log| && s.log[k].Committed? && ReportsEntry(w, init, s, slot, k)
  {
    match slot
    case ToldTo(i) => assert ReplyOk(w, init, s.log, s.replies[i]);
    case LostAt(i) => assert ReplyOk(w, init, s.log, s.lost[i]);
    case DueBy(p) => assert ProcOk(w, init, s.log, |s.replies|, s.procs[p]);
  }

  /**
   In every run each committed call has exactly one outcome: it was told to its caller, it was lost
   after the commit, or it is still due. And the outcome is right: it is the one of that call, and
   says what its operation met at its place in the log.
   */
  lemma EveryCommitHasOneOutcome(w: World, states: seq<State>, steps: seq<Step>, i: nat, k: nat) returns (slot: Slot)
    requires Run(w, states, steps) && i < |states| && k < |states[i].log| && states[i].log[k].Committed?
    ensures SlotPlace(states[i], slot) == Some(k) && ReportsEntry(w, states[0].committed, states[i], slot, k)
    ensures forall other | other != slot :: SlotPlace(states[i], other) != Some(k)
  {
    RunKeepsOutcomes(w, states, steps, i);
    RunInv(w, states, steps, i);
    assert Reported(states[i], k);
    slot :| SlotPlace(states[i], slot) == Some(k);
    SlotReportsEntry(w, states[0].committed, states[i], slot, k);
  }

  /** The operation is the one that was asked for. */
  predicate DoesCall(call: Call, op: Op) {
    match call.tool
    case SetCall(key, value, mode) => op == Store(key, value, mode)
    case DeleteCall(key) => op == Remove(key)
    case GetCall(key) => op == NoteGet(key)
    case SearchCall(_) => op.NoteSearch?
  }

  lemma SlotDoesCall(w: World, init: Database, s: State, slot: Slot, k: nat)
    requires RepliesOk(w, init, s.log, s.replies) && ProcsOk(w, init, s) && LostOk(w, init, s.log, s.lost)
    requires SlotPlace(s, slot) == Some(k)
    ensures k < |s.log| && s.log[k].Committed? && DoesCall(s.log[k].call, s.log[k].x.op)
  {
    match slot
    case ToldTo(i) => assert ReplyOk(w, init, s.log, s.replies[i]);
    case LostAt(i) => assert ReplyOk(w, init, s.log, s.lost[i]);
    case DueBy(p) => assert ProcOk(w, init, s.log, |s.replies|, s.procs[p]);
  }

  /** In every run each committed operation is the one its call asked for, under the call's own identity. */
  lemma EveryEntryDoesItsCall(w: World, states: seq<State>, steps: seq<Step>, i: nat, k: nat)
    requires Run(w, states, steps) && i < |states| && k < |states[i].log| && states[i].log[k].Committed?
    ensures DoesCall(states[i].log[k].call, states[i].log[k].x.op) && states[i].log[k].x.client == states[i].log[k].call.client
  {
    RunKeepsOutcomes(w, states, steps, i);
    RunInv(w, states, steps, i);
    assert Reported(states[i], k);
    var slot :| SlotPlace(states[i], slot) == Some(k);
    SlotDoesCall(w, states[0].committed, states[i], slot, k);
    assert EntryAt(w, states[0].committed, ServersOf(states[i].procs), states[i].log, k);
  }

  /** What was done between these two contents when a caller of `set` or `delete` is told this report. */
  ghost predicate DoneAsTold(before: Database, after: Database, call: Call, report: Report) {
    match call.tool
    case SetCall(key, value, mode) =>
      if report.conflict.Some? then after.facts == before.facts && TellsCurrent(before.facts, key, mode, report.conflict.value)
      else key in after.facts && after.facts[key].value == value && after.facts[key].source == call.client
    case DeleteCall(key) => key !in after.facts && (report.existed <==> key in before.facts)
    case _ => after.facts == before.facts
  }

  lemma EntryIsDoneAsTold(w: World, before: Database, call: Call, x: Txn)
    requires Apply(w, before, x).Ok? && DoesCall(call, x.op) && x.client == call.client
    ensures DoneAsTold(before, Apply(w, before, x).value, call, ReportOf(before, x.op))
  {
    TablesSay(w, before, x);
    if x.op.Store? && Loses(before.facts, x.op).Some? {
      LoserCanRetry(before.facts, x.op.key, x.op.value, x.op.mode, "");
    }
  }

  /** In every run a caller that was told how its write went was told the truth about the store at its place in the log. */
  lemma ToldMeansDone(w: World, states: seq<State>, steps: seq<Step>, i: nat, r: nat)
    requires Run(w, states, steps) && i < |states| && r < |states[i].replies| && states[i].replies[r].outcome.Wrote?
    ensures
      var reply, log := states[i].replies[r], states[i].log;
      && reply.outcome.at < |log|
      && DoneAsTold(At(w, states[0].committed, log, reply.outcome.at), At(w, states[0].committed, log, reply.outcome.at + 1),
                    reply.call, reply.outcome.report)
  {
    var init, log, at := states[0].committed, states[i].log, states[i].replies[r].outcome.at;
    EveryOutcomeWasCommitted(w, states, steps, i, ToldTo(r));
    EveryEntryDoesItsCall(w, states, steps, i, at);
    EveryRunIsSerial(w, states, steps, i);
    assert EntryAt(w, init, ServersOf(states[0].procs), log, at);
    EntryIsDoneAsTold(w, At(w, init, log, at), log[at].call, log[at].x);
  }

  /** And no outcome is made up: whatever was told, lost or is due reports a committed entry. */
  lemma EveryOutcomeWasCommitted(w: World, states: seq<State>, steps: seq<Step>, i: nat, slot: Slot)
    requires Run(w, states, steps) && i < |states| && SlotPlace(states[i], slot).Some?
    ensures
      var k := SlotPlace(states[i], slot).value;
      k < |states[i].log| && states[i].log[k].Committed? && ReportsEntry(w, states[0].committed, states[i], slot, k)
  {
    RunKeepsOutcomes(w, states, steps, i);
    RunInv(w, states, steps, i);
    SlotReportsEntry(w, states[0].committed, states[i], slot, SlotPlace(states[i], slot).value);
  }

  /** No two callers were told of the same entry. */
  lemma ToldApart(w: World, states: seq<State>, steps: seq<Step>, i: nat, a: nat, b: nat)
    requires Run(w, states, steps) && i < |states| && a < |states[i].replies| && b < |states[i].replies| && a != b
    requires states[i].replies[a].outcome.Wrote? && states[i].replies[b].outcome.Wrote?
    ensures states[i].replies[a].outcome.at != states[i].replies[b].outcome.at
  {
    RunKeepsOutcomes(w, states, steps, i);
    assert SlotPlace(states[i], ToldTo(a)) != SlotPlace(states[i], ToldTo(b));
  }
}
