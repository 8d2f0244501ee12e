/**
 The three bounded pipes between the raw client and its server, and the two threads
 that drain the server's output. Sizes count whatever unit the pipes move.
 */
module Pipes {

  /** Pipe capacities, and what becomes of stderr: drained by a thread, or piped and never read. */
  datatype Setup = Setup(stdinSize: nat, stdoutSize: nat, stderrSize: nat, drained: bool)

  predicate ValidSetup(c: Setup) {
    c.stdinSize > 0 && c.stdoutSize > 0 && c.stderrSize > 0
  }

  datatype ServerState = Thinking | Reading | WritingOut(left: nat) | WritingErr(left: nat)

  datatype ClientState = Free | Sending(left: nat) | Waiting

  datatype State = State(stdin: nat, stdout: nat, stderr: nat, queue: nat, server: ServerState, client: ClientState)

  datatype Step =
    | ServerTurns(server: ServerState)
    | ClientTurns(client: ClientState)
    | ClientGivesUp
    | ServerReads
    | ServerWritesOut
    | ServerWritesErr
    | ServerDone
    | ClientWrites
    | ClientDone
    | ClientTakes
    | ReaderMoves
    | DrainMoves

  /** A step that moves data or finishes a write, as opposed to a decision or a timeout. */
  predicate IsPipeStep(t: Step) {
    !t.ServerTurns? && !t.ClientTurns? && !t.ClientGivesUp?
  }

  predicate Enabled(c: Setup, s: State, t: Step) {
    match t
    case ServerTurns(_) => s.server.Thinking?
    case ClientTurns(_) => s.client.Free?
    case ClientGivesUp => s.client.Waiting?
    case ServerReads => s.server.Reading? && s.stdin > 0
    case ServerWritesOut => s.server.WritingOut? && s.server.left > 0 && s.stdout < c.stdoutSize
    case ServerWritesErr => s.server.WritingErr? && s.server.left > 0 && s.stderr < c.stderrSize
    case ServerDone => (s.server.WritingOut? || s.server.WritingErr?) && s.server.left == 0
    case ClientWrites => s.client.Sending? && s.client.left > 0 && s.stdin < c.stdinSize
    case ClientDone => s.client.Sending? && s.client.left == 0
    case ClientTakes => s.client.Waiting? && s.queue > 0
    case ReaderMoves => s.stdout > 0
    case DrainMoves => c.drained && s.stderr > 0
  }

  function Perform(c: Setup, s: State, t: Step): State
    requires Enabled(c, s, t)
  {
    match t
    case ServerTurns(next) => s.(server := next)
    case ClientTurns(next) => s.(client := next)
    case ClientGivesUp => s.(client := Free)
    case ServerReads => s.(stdin := s.stdin - 1, server := Thinking)
    case ServerWritesOut => s.(stdout := s.stdout + 1, server := WritingOut(s.server.left - 1))
    case ServerWritesErr => s.(stderr := s.stderr + 1, server := WritingErr(s.server.left - 1))
    case ServerDone => s.(server := Thinking)
    case ClientWrites => s.(stdin := s.stdin + 1, client := Sending(s.client.left - 1))
    case ClientDone => s.(client := Free)
    case ClientTakes => s.(queue := s.queue - 1, client := Free)
    case ReaderMoves => s.(stdout := s.stdout - 1, queue := s.queue + 1)
    case DrainMoves => s.(stderr := s.stderr - 1)
  }

  const START := State(0, 0, 0, 0, Thinking, Free)

  predicate StepAt(c: Setup, states: seq<State>, steps: seq<Step>, i: nat)
    requires i < |steps| < |states|
  {
    Enabled(c, states[i], steps[i]) && states[i + 1] == Perform(c, states[i], steps[i])
  }

  ghost predicate Run(c: Setup, states: seq<State>, steps: seq<Step>) {
    && |states| == |steps| + 1
    && forall i | 0 <= i < |steps| :: StepAt(c, states, steps, i)
  }

  /** No data can move and neither side is free to decide anything. */
  ghost predicate Stuck(c: Setup, s: State) {
    !s.server.Thinking? && !s.client.Free? && forall t | IsPipeStep(t) :: !Enabled(c, s, t)
  }

  /** Both sides wait for the other to speak, and nothing is in flight. */
  predicate Quiet(s: State) {
    s.server.Reading? && s.client.Waiting? && s.stdin == 0 && s.stdout == 0 && s.queue == 0
  }

  /** The server waits to log more than an unread stderr can hold, and the client can do nothing either. */
  predicate Wedged(c: Setup, s: State) {
    && !c.drained && s.server.WritingErr? && s.server.left > 0 && s.stderr >= c.stderrSize && s.stdout == 0
    && ((s.client.Waiting? && s.queue == 0) || (s.client.Sending? && s.client.left > 0 && s.stdin >= c.stdinSize))
  }

  /**
   With both drain threads no state has client and server blocked on the pipes: nothing can
   move only when both wait for the other to speak and every pipe is empty. Without the
   stderr thread there is one other such state, and only one kind: the wedge.
   */
  lemma StuckOnlyIfQuietOrWedged(c: Setup, s: State)
    requires ValidSetup(c)
    ensures Stuck(c, s) <==> (Quiet(s) && (c.drained ==> s.stderr == 0)) || Wedged(c, s)
    ensures c.drained && Stuck(c, s) ==> Quiet(s) && s.stderr == 0
  {
    if Stuck(c, s) {
      assert !Enabled(c, s, ServerReads) && !Enabled(c, s, ServerWritesOut) && !Enabled(c, s, ServerWritesErr);
      assert !Enabled(c, s, ServerDone) && !Enabled(c, s, ClientWrites) && !Enabled(c, s, ClientDone);
      assert !Enabled(c, s, ClientTakes) && !Enabled(c, s, ReaderMoves) && !Enabled(c, s, DrainMoves);
    }
  }

  // ---------------------------------------------------------------- ranking

  function ServerRank(server: ServerState): nat {
    match server
    case Thinking => 0
    case Reading => 1
    case WritingOut(left) => 3 * left + 1
    case WritingErr(left) => 3 * left + 1
  }

  function ClientRank(client: ClientState): nat {
    match client
    case Free => 0
    case Waiting => 1
    case Sending(left) => 2 * left + 1
  }

  /** An upper bound on how many pipe steps can still happen before someone decides something new. */
  function Rank(s: State): nat {
    s.stdin + 2 * s.stdout + s.stderr + s.queue + ServerRank(s.server) + ClientRank(s.client)
  }

  lemma PipeStepsDecreaseRank(c: Setup, s: State, t: Step)
    requires Enabled(c, s, t) && IsPipeStep(t)
    ensures Rank(Perform(c, s, t)) < Rank(s)
  {
  }

  /** Left to themselves, the pipes come to rest. */
  lemma {:induction false} PipeRunsAreShort(c: Setup, states: seq<State>, steps: seq<Step>, n: nat)
    requires Run(c, states, steps) && n <= |steps| && forall i | 0 <= i < |steps| :: IsPipeStep(steps[i])
    ensures n + Rank(states[n]) <= Rank(states[0])
  {
    if n > 0 {
      PipeRunsAreShort(c, states, steps, n - 1);
      assert StepAt(c, states, steps, n - 1);
      PipeStepsDecreaseRank(c, states[n - 1], steps[n - 1]);
    }
  }

  /**
   With both drain threads and nobody deciding anything new, the pipes come to rest within `Rank`
   steps, in whatever order the threads move; then the server's output pipes are empty, its write is
   complete, and a client still sending waits only for a server that does not read.
   */
  lemma UndisturbedPipesDrain(c: Setup, states: seq<State>, steps: seq<Step>)
    requires ValidSetup(c) && c.drained && Run(c, states, steps) && forall i | 0 <= i < |steps| :: IsPipeStep(steps[i])
    requires forall t | IsPipeStep(t) :: !Enabled(c, states[|steps|], t)
    ensures |steps| <= Rank(states[0])
    ensures
      var last := states[|steps|];
      && last.stdout == 0 && last.stderr == 0 && !Writing(last)
      && (last.client.Sending? ==> last.stdin >= c.stdinSize && !last.server.Reading?)
      && (last.client.Waiting? ==> last.queue == 0)
  {
    PipeRunsAreShort(c, states, steps, |steps|);
    var last := states[|steps|];
    assert !Enabled(c, last, ReaderMoves) && !Enabled(c, last, DrainMoves) && !Enabled(c, last, ClientTakes);
    assert !Enabled(c, last, ClientWrites) && !Enabled(c, last, ClientDone) && !Enabled(c, last, ServerReads);
    if Writing(last) {
      var t := SomethingReleases(c, last);
    }
  }

  // ---------------------------------------------------------------- release

  predicate Writing(s: State) {
    s.server.WritingOut? || s.server.WritingErr?
  }

  /** A step of the server's write or of a thread that drains its output. */
  predicate Releases(t: Step) {
    t.ServerWritesOut? || t.ServerWritesErr? || t.ServerDone? || t.ReaderMoves? || t.DrainMoves?
  }

  /** An upper bound on the releasing steps of a write; nothing the client does counts. */
  function WriteRank(s: State): nat {
    s.stdout + s.stderr + if Writing(s) then 2 * s.server.left + 1 else 0
  }

  /** While the server writes, releasing steps lower the rank and all others, timeouts and new requests included, leave it alone. */
  lemma OnlyReleasingStepsCount(c: Setup, s: State, t: Step)
    requires Enabled(c, s, t) && Writing(s)
    ensures Writing(Perform(c, s, t)) || Perform(c, s, t).server.Thinking?
    ensures Releases(t) ==> WriteRank(Perform(c, s, t)) < WriteRank(s)
    ensures !Releases(t) ==> WriteRank(Perform(c, s, t)) == WriteRank(s) && Perform(c, s, t).server == s.server
  {
  }

  /** With both drain threads a writing server is never without a releasing step. */
  lemma SomethingReleases(c: Setup, s: State) returns (t: Step)
    requires ValidSetup(c) && c.drained && Writing(s)
    ensures Releases(t) && Enabled(c, s, t)
  {
    if s.server.left == 0 {
      t := ServerDone;
    } else if s.server.WritingOut? {
      t := if s.stdout > 0 then ReaderMoves else ServerWritesOut;
    } else {
      t := if s.stderr > 0 then DrainMoves else ServerWritesErr;
    }
  }

  /** How many of the first `n` steps are releasing ones. */
  function ReleasingSteps(steps: seq<Step>, n: nat): nat
    requires n <= |steps|
  {
    if n == 0 then 0 else ReleasingSteps(steps, n - 1) + if Releases(steps[n - 1]) then 1 else 0
  }

  lemma {:induction false} WriteRankPays(c: Setup, states: seq<State>, steps: seq<Step>, n: nat)
    requires Run(c, states, steps) && n <= |steps| && forall i | 0 <= i < n :: Writing(states[i])
    ensures ReleasingSteps(steps, n) + WriteRank(states[n]) <= WriteRank(states[0])
    ensures n > 0 ==> Writing(states[n]) || states[n].server.Thinking?
  {
    if n > 0 {
      WriteRankPays(c, states, steps, n - 1);
      assert Writing(states[n - 1]) && StepAt(c, states, steps, n - 1);
      OnlyReleasingStepsCount(c, states[n - 1], steps[n - 1]);
    }
  }

  /**
   A server blocked on a write is always released, whatever the client does meanwhile: time out,
   send, or nothing. In any run in which it keeps writing, fewer than `WriteRank` of the steps are
   releasing ones, with both drain threads another one is always possible, and when the write ends the
   server is free to think.
   */
  lemma BlockedServerIsReleased(c: Setup, states: seq<State>, steps: seq<Step>)
    requires ValidSetup(c) && Run(c, states, steps) && Writing(states[0])
    ensures (forall i | 0 <= i <= |steps| :: Writing(states[i])) ==>
              && ReleasingSteps(steps, |steps|) < WriteRank(states[0])
              && (c.drained ==> exists t :: Releases(t) && Enabled(c, states[|steps|], t))
    ensures (exists i :: 0 <= i <= |steps| && !Writing(states[i])) ==>
              exists i :: 0 < i <= |steps| && states[i].server.Thinking? && forall j | 0 <= j < i :: Writing(states[j])
  {
    if forall i | 0 <= i <= |steps| :: Writing(states[i]) {
      WriteRankPays(c, states, steps, |steps|);
      if c.drained {
        var t := SomethingReleases(c, states[|steps|]);
      }
    } else {
      var i := FirstRelease(states, |steps|);
      WriteRankPays(c, states, steps, i);
    }
  }

  lemma {:induction false} FirstRelease(states: seq<State>, n: nat) returns (i: nat)
    requires n < |states| && Writing(states[0]) && exists k :: 0 <= k <= n && !Writing(states[k])
    ensures 0 < i <= n && !Writing(states[i]) && forall j | 0 <= j < i :: Writing(states[j])
  {
    if k :| 0 <= k < n && !Writing(states[k]) {
      i := FirstRelease(states, n - 1);
    } else {
      i := n;
    }
  }

  // ---------------------------------------------------------------- the wedge

  /** The run in which the server logs `n` units while the client waits. */
  lemma {:induction false} LoggingRun(c: Setup, total: nat, n: nat) returns (states: seq<State>, steps: seq<Step>)
    requires ValidSetup(c) && n <= total && n <= c.stderrSize
    ensures Run(c, states, steps) && states[0] == START && |steps| == n + 2
    ensures states[n + 2] == START.(stderr := n, server := WritingErr(total - n), client := Waiting)
  {
    if n == 0 {
      var a := START;
      var b := Perform(c, a, ServerTurns(WritingErr(total)));
      states, steps := [a, b, Perform(c, b, ClientTurns(Waiting))], [ServerTurns(WritingErr(total)), ClientTurns(Waiting)];
    } else {
      states, steps := LoggingRun(c, total, n - 1);
      var last := states[n + 1];
      var next := Perform(c, last, ServerWritesErr);
      var more, moves := states + [next], steps + [ServerWritesErr];
      forall i | 0 <= i < |moves|
        ensures StepAt(c, more, moves, i)
      {
        if i < |steps| {
          assert StepAt(c, states, steps, i);
          assert more[i] == states[i] && more[i + 1] == states[i + 1] && moves[i] == steps[i];
        }
      }
      states, steps := more, moves;
    }
  }

  /** Piped and undrained, stderr wedges the pair from the start for any buffer size: a server that logs one unit too many. */
  lemma UndrainedStderrWedges(c: Setup) returns (states: seq<State>, steps: seq<Step>)
    requires ValidSetup(c) && !c.drained
    ensures Run(c, states, steps) && states[0] == START && Stuck(c, states[|steps|]) && !Quiet(states[|steps|])
  {
    states, steps := LoggingRun(c, c.stderrSize + 1, c.stderrSize);
    StuckOnlyIfQuietOrWedged(c, states[|steps|]);
  }
}
