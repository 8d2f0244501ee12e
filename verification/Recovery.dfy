/** What the admin tool recovers from a store that servers keep running on. */
module Recovery {
  import opened Wrappers
  import opened HashChain
  import opened Sqlite
  import opened MemoryTools
  import opened Protocol
  import opened Runs
  import opened Admin

  /** `bytes` is an intact copy of this committed content. */
  ghost predicate IsSnapshot(rd: Reader, bytes: Bytes, db: Database) {
    rd.intact(bytes) && rd.events(bytes) == db.events
  }

  /**
   A snapshot of any committed state of any run, taken once the chain is there, passes the checks
   of `backup` and `restore`, which report its event count and head; and that head stays
   good: at every later moment the live table, cut back to that count, verifies against it.
   */
  lemma SnapshotsOfLiveStoresVerify(w: World, states: seq<State>, steps: seq<Step>, i: nat, j: nat, rd: Reader, bytes: Bytes)
    requires Run(w, states, steps) && i <= j < |states|
    requires rd.hasher == w.hasher && IsSnapshot(rd, bytes, states[i].committed)
    requires HasChain(states[i].committed.events)
    ensures CheckResult(rd, bytes).Ok?
    ensures
      var (count, head) := CheckResult(rd, bytes).value;
      && count == |states[i].committed.events.rows| <= |states[j].committed.events.rows|
      && Verdict(w.hasher, states[j].committed.events.(rows := states[j].committed.events.rows[..count]), Some(head)) == Ok((count, head))
  {
    ChainHoldsFromMigrationOn(w, states, steps, i, i);
    ChainHoldsFromMigrationOn(w, states, steps, i, j);
    var a, b := states[i].committed.events, states[j].committed.events;
    assert b.rows[..|a.rows|] == a.rows;
  }
}
