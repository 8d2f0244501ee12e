/**
 The event table and its hash chain, as values: what a row's digest covers,
 what a well-linked table is, and what its head binds. SHA-256 is an arbitrary
 function; nothing is assumed about it.
 */
module HashChain {
  import opened Wrappers
  import opened EventPayload

  function Repeat(c: char, n: nat): string {
    seq(n, _ => c)
  }

  const GENESIS := Repeat('0', 64)
  const PREV_HASH := "prev_hash"
  const EVENT_HASH := "event_hash"

  /** A hash function and the text it is given for an event and its predecessor's hash. */
  datatype Hasher = Hasher(sha: string -> string, payload: (Option<string>, Event) -> string)

  /** A stored event; the two hash cells are None where SQLite holds NULL or has no such column. */
  datatype Row = Row(event: Event, prev: Option<string>, hash: Option<string>)

  /** `issued` is the table's entry in sqlite_sequence; `guarded` says the insert trigger exists. */
  datatype Table = Table(columns: set<string>, guarded: bool, rows: seq<Row>, issued: Option<int>)

  datatype SqlError = Locked | NoSuchColumn | HashesRequired | DuplicateColumn | DuplicateTrigger

  /** The digest as the server computes it: SHA-256 of the canonical payload. */
  function Canonical(sha: string -> string): Hasher {
    Hasher(sha, (previous, e) => Payload(previous, e))
  }

  /** The payload leaves no doubt which event and which link it was made from. */
  ghost predicate Faithful(h: Hasher) {
    forall p, e, q, f :: h.payload(p, e) == h.payload(q, f) ==> p == q && e == f
  }

  lemma CanonicalIsFaithful(sha: string -> string)
    ensures Faithful(Canonical(sha))
  {
    var h := Canonical(sha);
    forall p, e, q, f | h.payload(p, e) == h.payload(q, f)
      ensures p == q && e == f
    {
      PayloadInjective(p, e, q, f);
    }
  }

  function Digest(h: Hasher, previous: Option<string>, e: Event): string {
    h.sha(h.payload(previous, e))
  }

  lemma GenesisIs64Zeros()
    ensures |GENESIS| == 64 && forall i | 0 <= i < 64 :: GENESIS[i] == '0'
  {
  }

  /** The server's digest is the hash of the canonical text, nothing added. */
  lemma CanonicalDigest(sha: string -> string, previous: Option<string>, e: Event)
    ensures Digest(Canonical(sha), previous, e) == sha(Payload(previous, e))
  {
  }

  // ---------------------------------------------------------------- linked rows

  /** The hash that row `i` must name: its predecessor's, or GENESIS for the first row. */
  function HashBefore(rows: seq<Row>, i: nat): Option<string>
    requires i <= |rows|
  {
    if i == 0 then Some(GENESIS) else rows[i - 1].hash
  }

  /** The chain head: the last row's hash, or GENESIS. */
  function Head(rows: seq<Row>): Option<string> {
    HashBefore(rows, |rows|)
  }

  predicate LinkOk(h: Hasher, previous: Option<string>, row: Row) {
    && previous.Some?
    && row.prev == previous
    && row.hash == Some(Digest(h, previous, row.event))
  }

  predicate LinkAt(h: Hasher, rows: seq<Row>, i: nat)
    requires i < |rows|
  {
    LinkOk(h, HashBefore(rows, i), rows[i])
  }

  ghost predicate Linked(h: Hasher, rows: seq<Row>) {
    forall i | 0 <= i < |rows| :: LinkAt(h, rows, i)
  }

  ghost predicate Ordered(rows: seq<Row>) {
    forall i, j | 0 <= i < j < |rows| :: rows[i].event.id < rows[j].event.id
  }

  predicate HasChain(t: Table) {
    {PREV_HASH, EVENT_HASH} <= t.columns
  }

  /** What SQLite keeps of any such table: keys in order, none above the issued maximum, no cell without its column. */
  ghost predicate TableOk(t: Table) {
    && Ordered(t.rows)
    && (t.rows != [] ==> t.issued.Some?)
    && (t.issued.Some? ==> t.issued.value >= 0 && forall i | 0 <= i < |t.rows| :: t.rows[i].event.id <= t.issued.value)
    && (PREV_HASH !in t.columns ==> forall i | 0 <= i < |t.rows| :: t.rows[i].prev.None?)
    && (EVENT_HASH !in t.columns ==> forall i | 0 <= i < |t.rows| :: t.rows[i].hash.None?)
  }

  /** A table as the upgraded server keeps it. */
  ghost predicate Sealed(h: Hasher, t: Table) {
    HasChain(t) && t.guarded && Linked(h, t.rows)
  }

  /** A table no upgraded server has opened yet. */
  ghost predicate Legacy(t: Table) {
    PREV_HASH !in t.columns && EVENT_HASH !in t.columns && !t.guarded
  }

  function NextId(t: Table): int {
    if t.issued.Some? then t.issued.value + 1 else 1
  }

  /** One INSERT under the trigger. */
  function InsertRow(t: Table, row: Row): Result<Table, SqlError> {
    if t.guarded && (row.prev.None? || row.hash.None?) then Err(HashesRequired)
    else Ok(t.(rows := t.rows + [row], issued := Some(row.event.id)))
  }

  function LinkRow(h: Hasher, previous: Option<string>, e: Event): Row {
    Row(e, previous, Some(Digest(h, previous, e)))
  }

  /** What `append` does to the table. */
  function AppendEvent(h: Hasher, t: Table, timestamp: string, client: string, action: string,
                       key: Option<string>, value: Option<string>): Result<Table, SqlError>
  {
    if !HasChain(t) then Err(NoSuchColumn)
    else InsertRow(t, LinkRow(h, Head(t.rows), Event(NextId(t), timestamp, client, action, key, value)))
  }

  /** The row that append writes, cell by cell. */
  lemma AppendWrites(sha: string -> string, t: Table, timestamp: string, client: string, action: string,
                     key: Option<string>, value: Option<string>)
    requires AppendEvent(Canonical(sha), t, timestamp, client, action, key, value).Ok?
    ensures
      var next := AppendEvent(Canonical(sha), t, timestamp, client, action, key, value).value;
      var id := if t.issued.Some? then t.issued.value + 1 else 1;
      var previous := if t.rows == [] then Some(GENESIS) else t.rows[|t.rows| - 1].hash;
      var e := Event(id, timestamp, client, action, key, value);
      && next.rows == t.rows + [Row(e, previous, Some(sha(Payload(previous, e))))] && next.issued == Some(id)
      && next.columns == t.columns && next.guarded == t.guarded
  {
  }

  lemma LinkedPrefix(h: Hasher, rows: seq<Row>, n: nat)
    requires Linked(h, rows) && n <= |rows|
    ensures Linked(h, rows[..n])
  {
    forall i | 0 <= i < n
      ensures LinkAt(h, rows[..n], i)
    {
      assert LinkAt(h, rows, i);
    }
  }

  lemma LinkedExtend(h: Hasher, rows: seq<Row>, row: Row)
    requires Linked(h, rows) && LinkOk(h, Head(rows), row)
    ensures Linked(h, rows + [row])
  {
    var all := rows + [row];
    forall i | 0 <= i < |all|
      ensures LinkAt(h, all, i)
    {
      if i < |rows| {
        assert LinkAt(h, rows, i);
      }
    }
  }

  lemma LinkedHead(h: Hasher, rows: seq<Row>)
    requires Linked(h, rows)
    ensures Head(rows).Some?
  {
    if rows != [] {
      assert LinkAt(h, rows, |rows| - 1);
    }
  }

  /**
   Appending to a sealed table always succeeds, whatever tail was cut off outside
   the server before: the result is sealed, the old rows are untouched, and the
   new id is above every id the table ever issued.
   */
  lemma AppendKeepsSealed(h: Hasher, t: Table, n: nat, timestamp: string, client: string, action: string,
                          key: Option<string>, value: Option<string>)
    requires TableOk(t) && Sealed(h, t) && n <= |t.rows|
    ensures
      var cut := t.(rows := t.rows[..n]);
      var r := AppendEvent(h, cut, timestamp, client, action, key, value);
      && r.Ok? && TableOk(r.value) && Sealed(h, r.value)
      && |r.value.rows| == n + 1 && r.value.rows[..n] == t.rows[..n]
      && r.value.rows[n].event == Event(NextId(t), timestamp, client, action, key, value)
      && (t.issued.Some? ==> r.value.rows[n].event.id > t.issued.value)
      && (forall i | 0 <= i < |t.rows| :: t.rows[i].event.id < r.value.rows[n].event.id)
  {
    var cut := t.(rows := t.rows[..n]);
    LinkedPrefix(h, t.rows, n);
    LinkedHead(h, cut.rows);
    var row := LinkRow(h, Head(cut.rows), Event(NextId(t), timestamp, client, action, key, value));
    LinkedExtend(h, cut.rows, row);
    InsertKeepsTable(cut, row);
  }

  lemma InsertKeepsTable(t: Table, row: Row)
    requires TableOk(t)
    requires row.event.id == NextId(t)
    requires PREV_HASH !in t.columns ==> row.prev.None?
    requires EVENT_HASH !in t.columns ==> row.hash.None?
    ensures InsertRow(t, row).Ok? ==> TableOk(InsertRow(t, row).value)
  {
    if InsertRow(t, row).Ok? {
      var u := InsertRow(t, row).value;
      forall i, j | 0 <= i < j < |u.rows|
        ensures u.rows[i].event.id < u.rows[j].event.id
      {
        if j < |t.rows| {
          assert u.rows[i] == t.rows[i] && u.rows[j] == t.rows[j];
        } else {
          assert u.rows[i] == t.rows[i] && u.rows[j] == row;
        }
      }
      forall i | 0 <= i < |u.rows|
        ensures u.rows[i].event.id <= u.issued.value
      {
        assert i < |t.rows| ==> u.rows[i] == t.rows[i];
      }
    }
  }

  // ---------------------------------------------------------------- what a head binds

  /** Evidence against the hash function. */
  datatype Break = Collision(a: string, b: string) | GenesisPreimage(payload: string)

  predicate Breaks(sha: string -> string, b: Break) {
    match b
    case Collision(p, q) => p != q && sha(p) == sha(q)
    case GenesisPreimage(p) => sha(p) == GENESIS
  }

  /** `p` is what some row of `rows` was hashed from. */
  ghost predicate Hashed(h: Hasher, rows: seq<Row>, p: string) {
    exists i :: 0 <= i < |rows| && p == RowPayload(h, rows[i])
  }

  function RowPayload(h: Hasher, row: Row): string {
    h.payload(row.prev, row.event)
  }

  /** The evidence consists of texts that rows of the two chains were hashed from. */
  ghost predicate FromRows(h: Hasher, a: seq<Row>, b: seq<Row>, e: Break) {
    match e
    case Collision(p, q) => Hashed(h, a, p) && Hashed(h, b, q)
    case GenesisPreimage(p) => Hashed(h, a, p) || Hashed(h, b, p)
  }

  /**
   Compares two verified chains with one head from the last row back. They are
   equal row for row, or the returned texts break the hash function.
   */
  function FindBreak(h: Hasher, a: seq<Row>, b: seq<Row>): (r: Option<Break>)
    requires Faithful(h) && Linked(h, a) && Linked(h, b) && Head(a) == Head(b)
    ensures r.None? ==> a == b
    ensures r.Some? ==> a != b && Breaks(h.sha, r.value) && FromRows(h, a, b, r.value)
    decreases |a|
  {
    if a == [] && b == [] then None
    else if a == [] then
      var row := b[|b| - 1];
      assert LinkAt(h, b, |b| - 1);
      Some(GenesisPreimage(h.payload(row.prev, row.event)))
    else if b == [] then
      var row := a[|a| - 1];
      assert LinkAt(h, a, |a| - 1);
      Some(GenesisPreimage(h.payload(row.prev, row.event)))
    else
      var m, n := |a| - 1, |b| - 1;
      assert LinkAt(h, a, m) && LinkAt(h, b, n);
      var p, q := RowPayload(h, a[m]), RowPayload(h, b[n]);
      if p != q then Some(Collision(p, q))
      else
        LinkedPrefix(h, a, m);
        LinkedPrefix(h, b, n);
        assert a == a[..m] + [a[m]] && b == b[..n] + [b[n]];
        FindBreak(h, a[..m], b[..n])
  }

  // ---------------------------------------------------------------- verification

  datatype VerifyError =
    | MissingChain
    | Mismatch(id: int)
    | HeadMismatch(expected: string, found: string)

  ghost function FirstBad(h: Hasher, rows: seq<Row>, from: nat): (i: nat)
    requires from <= |rows| && !Linked(h, rows)
    requires forall j | 0 <= j < from :: LinkAt(h, rows, j)
    ensures i < |rows| && !LinkAt(h, rows, i)
    ensures forall j | 0 <= j < i :: LinkAt(h, rows, j)
    decreases |rows| - from
  {
    if from < |rows| && LinkAt(h, rows, from) then FirstBad(h, rows, from + 1)
    else from
  }

  /** What `verify` must answer. */
  ghost function Verdict(h: Hasher, t: Table, expected: Option<string>): Result<(nat, string), VerifyError> {
    if !HasChain(t) then Err(MissingChain)
    else if !Linked(h, t.rows) then Err(Mismatch(t.rows[FirstBad(h, t.rows, 0)].event.id))
    else
      LinkedHead(h, t.rows);
      var head := Head(t.rows).value;
      if expected.Some? && expected.value != head then Err(HeadMismatch(expected.value, head))
      else Ok((|t.rows|, head))
  }

  /** The id in a rejection is the smallest id whose link or digest is wrong. */
  lemma MismatchNamesTheSmallestBadId(h: Hasher, t: Table, expected: Option<string>, id: int)
    requires TableOk(t) && Verdict(h, t, expected) == Err(Mismatch(id))
    ensures exists i | 0 <= i < |t.rows| ::
              t.rows[i].event.id == id && !LinkAt(h, t.rows, i)
    ensures forall i | 0 <= i < |t.rows| ::
              t.rows[i].event.id < id ==> LinkAt(h, t.rows, i)
  {
    var k := FirstBad(h, t.rows, 0);
    assert t.rows[k].event.id == id;
    forall i | 0 <= i < |t.rows| && !LinkAt(h, t.rows, i)
      ensures id <= t.rows[i].event.id
    {
      assert k <= i;
    }
  }

  /**
   A trusted head: if `verify` accepted `original` with some head, then against
   that head it accepts exactly the tables with the very same rows, so every
   edit, insertion, reorder or truncation is rejected. The one way out is `b`: two
   texts hashed from rows of the two tables that break the hash function.
   */
  lemma TrustedHeadBindsEveryRow(sha: string -> string, original: Table, count: nat, head: string, t: Table)
    returns (b: Option<Break>)
    requires Verdict(Canonical(sha), original, None) == Ok((count, head))
    ensures b.None? ==> (Verdict(Canonical(sha), t, Some(head)).Ok? <==> HasChain(t) && t.rows == original.rows)
    ensures b.Some? ==> Breaks(sha, b.value) && FromRows(Canonical(sha), original.rows, t.rows, b.value)
  {
    var h := Canonical(sha);
    CanonicalIsFaithful(sha);
    b := None;
    if Verdict(h, t, Some(head)).Ok? {
      LinkedHead(h, t.rows);
      LinkedHead(h, original.rows);
      b := FindBreak(h, original.rows, t.rows);
    }
  }

  // ---------------------------------------------------------------- sealing a legacy table

  /** The chained form of a legacy table's rows, in id order. */
  function SealRows(h: Hasher, rows: seq<Row>): (r: seq<Row>)
    ensures |r| == |rows|
  {
    if rows == [] then []
    else
      var front := SealRows(h, rows[..|rows| - 1]);
      front + [LinkRow(h, Head(front), rows[|rows| - 1].event)]
  }

  function SealTable(h: Hasher, t: Table): Table {
    t.(columns := t.columns + {PREV_HASH, EVENT_HASH}, guarded := true, rows := SealRows(h, t.rows))
  }

  lemma {:induction false} SealedRowsLinked(h: Hasher, rows: seq<Row>)
    ensures Linked(h, SealRows(h, rows))
    ensures forall i | 0 <= i < |rows| :: SealRows(h, rows)[i].event == rows[i].event
  {
    if rows != [] {
      var n := |rows| - 1;
      var front := SealRows(h, rows[..n]);
      SealedRowsLinked(h, rows[..n]);
      LinkedHead(h, front);
      LinkedExtend(h, front, LinkRow(h, Head(front), rows[n].event));
      forall i | 0 <= i < |rows|
        ensures SealRows(h, rows)[i].event == rows[i].event
      {
        if i < n {
          assert SealRows(h, rows)[i] == front[i] && front[i].event == rows[..n][i].event;
        }
      }
    }
  }

  /** Sealing keeps every event field, and the sealed table is well linked and well formed. */
  lemma SealingKeepsEvents(h: Hasher, t: Table)
    requires TableOk(t)
    ensures
      var s := SealTable(h, t);
      && TableOk(s) && Sealed(h, s) && s.issued == t.issued
      && |s.rows| == |t.rows| && forall i | 0 <= i < |t.rows| :: s.rows[i].event == t.rows[i].event
  {
    SealedRowsLinked(h, t.rows);
    var s := SealTable(h, t);
    assert {PREV_HASH, EVENT_HASH} <= s.columns;
    forall i, j | 0 <= i < j < |s.rows|
      ensures s.rows[i].event.id < s.rows[j].event.id
    {
      assert t.rows[i].event.id < t.rows[j].event.id;
    }
  }

  /** A chain is fixed by its events: at most one well-linked table holds a given list of events. */
  lemma {:induction false} LinkedIsUnique(h: Hasher, a: seq<Row>, b: seq<Row>)
    requires Linked(h, a) && Linked(h, b) && |a| == |b|
    requires forall i | 0 <= i < |a| :: a[i].event == b[i].event
    ensures a == b
  {
    if a != [] {
      var n := |a| - 1;
      LinkedPrefix(h, a, n);
      LinkedPrefix(h, b, n);
      LinkedIsUnique(h, a[..n], b[..n]);
      assert a == a[..n] + [a[n]] && b == b[..n] + [b[n]];
      assert HashBefore(a, n) == Head(a[..n]) && HashBefore(b, n) == Head(b[..n]);
      assert LinkAt(h, a, n) && LinkAt(h, b, n);
    }
  }

  /** The table as it stands when `id` is the next one to be issued: any ids skipped went to rows no longer there. */
  function NextIssues(t: Table, id: int): Table {
    t.(issued := Some(id - 1))
  }

  /** Appending the events of `rows` one after another to `t`, each at the moment its id is the next to be issued. */
  function AppendAll(h: Hasher, t: Table, rows: seq<Row>): Result<Table, SqlError> {
    if rows == [] then Ok(t)
    else
      var e := rows[|rows| - 1].event;
      match AppendAll(h, t, rows[..|rows| - 1])
      case Err(error) => Err(error)
      case Ok(u) => AppendEvent(h, NextIssues(u, e.id), e.timestamp, e.client, e.action, e.key, e.value)
  }

  /**
   Migration refines append: sealing writes the very rows, ids and hashes included, that appending
   the same events to an empty chained table would have written.
   */
  lemma {:induction false} SealingEqualsAppending(h: Hasher, columns: set<string>, rows: seq<Row>)
    requires {PREV_HASH, EVENT_HASH} <= columns
    ensures AppendAll(h, Table(columns, true, [], None), rows)
         == Ok(Table(columns, true, SealRows(h, rows), if rows == [] then None else Some(rows[|rows| - 1].event.id)))
  {
    if rows != [] {
      var n := |rows| - 1;
      SealingEqualsAppending(h, columns, rows[..n]);
      SealedRowsLinked(h, rows[..n]);
      LinkedHead(h, SealRows(h, rows[..n]));
    }
  }
}
