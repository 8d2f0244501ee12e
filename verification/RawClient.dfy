/**
 The hand-rolled JSON-RPC client over stdio: one request at a time, matched by id
 against whatever the server writes in between.
 */
module RawClient {
  import opened Wrappers

  /** The `id` member of a message, by JSON type. */
  datatype JsonId = IntId(n: int) | RealId(r: real) | BoolId(b: bool) | TextId(s: string) | NullId | OtherId

  datatype RpcError = RpcError(code: int, message: string, data: Option<string>)

  /** A result object: the members `list_tools` reads, and the rest. */
  datatype Payload = Payload(tools: seq<string>, nextCursor: Option<string>, body: string)

  const EMPTY := Payload([], None, "")

  /** One JSON object from the server. */
  datatype Message = Message(id: Option<JsonId>, hasMethod: bool, error: Option<RpcError>, result: Option<Payload>)

  /**
   One line of the server's stdout: an object, one that has the reserved framing key, the text `null`,
   an array or string that contains neither "_framing_error" nor "id", any other JSON value, or no JSON.
   */
  datatype Line = Object(m: Message) | FramingKey | NullLine | PlainValue | OddValue | Junk

  /** `Unusable` stands for a value on which the client's own look at it fails. */
  datatype Item = Msg(m: Message) | BadFrame | Unusable | Eof

  /** A queue item and how long a client that waits for it has to wait. */
  datatype Arrival = Arrival(wait: nat, item: Item)

  datatype Outgoing =
    | Request(id: int, name: string, cursor: Option<string>)
    | Refusal(to: JsonId, code: int)

  datatype ClientError = TimedOut | ServerClosed | BadFraming | NotAMessage | StdinClosed | Rpc(error: RpcError)

  const METHOD_NOT_FOUND := -32601
  const TAIL_LINES := 50

  /** Python's `msg.get("id") == request_id`: numbers and booleans compare by value. */
  predicate SameId(id: JsonId, n: int) {
    match id
    case IntId(m) => m == n
    case RealId(r) => r == n as real
    case BoolId(b) => n == if b then 1 else 0
    case _ => false
  }

  /** The ids that a request takes for its own, and no others: text never matches. */
  lemma SameIdIff(id: JsonId, n: int)
    ensures SameId(id, n)
       <==> id == IntId(n) || id == RealId(n as real) || (n == 1 && id == BoolId(true)) || (n == 0 && id == BoolId(false))
  {
  }

  /** The item carries id `n`, so the request with that id takes it as its response. */
  predicate Matches(item: Item, n: int) {
    item.Msg? && item.m.id.Some? && SameId(item.m.id.value, n)
  }

  /** An id belongs to at most one request. */
  lemma OneRequestPerItem(item: Item, m: int, n: int)
    requires Matches(item, m) && Matches(item, n)
    ensures m == n
  {
  }

  /** Arrivals `from` to `to` are all messages other than the response to `n`. */
  predicate AllSkipped(arrivals: seq<Arrival>, from: nat, to: nat, n: int) {
    forall i | from <= i < to && i < |arrivals| :: arrivals[i].item.Msg? && !Matches(arrivals[i].item, n)
  }

  predicate ComesInTime(arrivals: seq<Arrival>, from: nat, i: nat, waited: nat, limit: nat)
    requires i < |arrivals|
  {
    arrivals[i].wait <= limit + if i == from then waited else 0
  }

  /** Each of these came within the limit, which is per message; `waited` was already spent on the first. */
  predicate InTime(arrivals: seq<Arrival>, from: nat, to: nat, waited: nat, limit: nat) {
    forall i | from <= i < to && i < |arrivals| :: ComesInTime(arrivals, from, i, waited, limit)
  }

  /** The item as a notification, if it is one. */
  function NoticeOf(item: Item): seq<Message> {
    if item.Msg? && item.m.id.None? then [item.m] else []
  }

  /** The refusal that a server request gets, under its own id. */
  function RefusalOf(item: Item): seq<Outgoing> {
    if item.Msg? && item.m.id.Some? && item.m.hasMethod then [Refusal(item.m.id.value, METHOD_NOT_FOUND)] else []
  }

  /** The notifications among arrivals `from` to `to`, in order. */
  function Notices(arrivals: seq<Arrival>, from: nat, to: nat): seq<Message>
    requires to <= |arrivals|
  {
    if to <= from then [] else Notices(arrivals, from, to - 1) + NoticeOf(arrivals[to - 1].item)
  }

  /** One refusal per server request among these, in order. */
  function Refusals(arrivals: seq<Arrival>, from: nat, to: nat): seq<Outgoing>
    requires to <= |arrivals|
  {
    if to <= from then [] else Refusals(arrivals, from, to - 1) + RefusalOf(arrivals[to - 1].item)
  }

  lemma {:induction false} NoticesConcat(arrivals: seq<Arrival>, a: nat, b: nat, c: nat)
    requires a <= b <= c <= |arrivals|
    ensures Notices(arrivals, a, c) == Notices(arrivals, a, b) + Notices(arrivals, b, c)
  {
    if b < c {
      NoticesConcat(arrivals, a, b, c - 1);
      ConcatAssociative(Notices(arrivals, a, b), Notices(arrivals, b, c - 1), NoticeOf(arrivals[c - 1].item));
    }
  }

  /** A message without an id. */
  predicate IsNotice(item: Item) {
    item.Msg? && item.m.id.None?
  }

  /** A message with an id and a method. */
  predicate IsServerRequest(item: Item) {
    item.Msg? && item.m.id.Some? && item.m.hasMethod
  }

  /** Every message without an id is stashed, after as many as came before it. */
  lemma {:induction false} EveryNoticeIsStashed(arrivals: seq<Arrival>, from: nat, i: nat, to: nat)
    requires from <= i < to <= |arrivals| && IsNotice(arrivals[i].item)
    ensures |Notices(arrivals, from, i)| < |Notices(arrivals, from, to)|
    ensures Notices(arrivals, from, to)[|Notices(arrivals, from, i)|] == arrivals[i].item.m
  {
    if i < to - 1 {
      EveryNoticeIsStashed(arrivals, from, i, to - 1);
    }
  }

  /** Nothing else is stashed. */
  lemma {:induction false} OnlyNoticesAreStashed(arrivals: seq<Arrival>, from: nat, to: nat, j: nat) returns (i: nat)
    requires to <= |arrivals| && j < |Notices(arrivals, from, to)|
    ensures from <= i < to && IsNotice(arrivals[i].item) && Notices(arrivals, from, to)[j] == arrivals[i].item.m
    ensures |Notices(arrivals, from, i)| == j
  {
    if j < |Notices(arrivals, from, to - 1)| {
      i := OnlyNoticesAreStashed(arrivals, from, to - 1, j);
    } else {
      i := to - 1;
    }
  }

  /** Every server request passed over is refused under its own id with code -32601, after as many as came before it. */
  lemma {:induction false} EveryRequestIsRefused(arrivals: seq<Arrival>, from: nat, i: nat, to: nat)
    requires from <= i < to <= |arrivals| && IsServerRequest(arrivals[i].item)
    ensures |Refusals(arrivals, from, i)| < |Refusals(arrivals, from, to)|
    ensures Refusals(arrivals, from, to)[|Refusals(arrivals, from, i)|] == Refusal(arrivals[i].item.m.id.value, -32601)
  {
    if i < to - 1 {
      EveryRequestIsRefused(arrivals, from, i, to - 1);
    }
  }

  /** Nothing else is refused. */
  lemma {:induction false} OnlyRequestsAreRefused(arrivals: seq<Arrival>, from: nat, to: nat, j: nat) returns (i: nat)
    requires to <= |arrivals| && j < |Refusals(arrivals, from, to)|
    ensures from <= i < to && IsServerRequest(arrivals[i].item) && Refusals(arrivals, from, to)[j] == Refusal(arrivals[i].item.m.id.value, -32601)
    ensures |Refusals(arrivals, from, i)| == j
  {
    if j < |Refusals(arrivals, from, to - 1)| {
      i := OnlyRequestsAreRefused(arrivals, from, to - 1, j);
    } else {
      i := to - 1;
    }
  }

  /** What a response tells the caller. */
  function Answer(m: Message): Result<Payload, ClientError> {
    if m.error.Some? then Err(Rpc(m.error.value)) else Ok(if m.result.Some? then m.result.value else EMPTY)
  }

  /** The item on which a request ends, and how: its response, a bad frame, the end, or a server request it could not refuse. */
  predicate Ends(item: Item, n: int, r: Result<Payload, ClientError>) {
    match r
    case Err(TimedOut) => false
    case Err(ServerClosed) => item.Eof?
    case Err(BadFraming) => item.BadFrame?
    case Err(NotAMessage) => item.Unusable?
    case Err(StdinClosed) => item.Msg? && !Matches(item, n) && item.m.id.Some? && item.m.hasMethod
    case _ => Matches(item, n) && Answer(item.m) == r
  }

  /** What the client makes of a line. An array or string without an id is stashed like a notification. */
  function ItemOf(line: Line): Item {
    match line
    case Object(m) => Msg(m)
    case FramingKey => BadFrame
    case NullLine => Eof
    case PlainValue => Msg(Message(None, false, None, None))
    case OddValue => Unusable
    case Junk => BadFrame
  }

  function LastLines(lines: seq<string>): seq<string> {
    if |lines| <= TAIL_LINES then lines else lines[|lines| - TAIL_LINES..]
  }

  lemma LastLinesStep(lines: seq<string>, line: string)
    ensures LastLines(LastLines(lines) + [line]) == LastLines(lines + [line])
  {
    if |lines| > TAIL_LINES {
      var cut := |lines| - TAIL_LINES;
      assert LastLines(lines) + [line] == (lines + [line])[cut..];
      assert (lines + [line])[cut..][1..] == (lines + [line])[cut + 1..];
    }
  }

  /** A request of the server's own that carries the id the client is waiting for. */
  predicate Collides(item: Item, n: int) {
    Matches(item, n) && item.m.hasMethod
  }

  // ---------------------------------------------------------------- pages

  function Tools(pages: seq<Payload>): seq<string> {
    if pages == [] then [] else Tools(pages[..|pages| - 1]) + pages[|pages| - 1].tools
  }

  /** A cursor that Python takes as true. */
  function Truthy(cursor: Option<string>): Option<string> {
    if cursor == Some("") then None else cursor
  }

  function Oks(pages: seq<Payload>): seq<Result<Payload, ClientError>> {
    seq(|pages|, i requires 0 <= i < |pages| => Ok(pages[i]))
  }

  /** The cursor that the request after these pages carries. */
  function CursorAfter(pages: seq<Payload>): Option<string> {
    if pages == [] then None else Truthy(pages[|pages| - 1].nextCursor)
  }

  /** Request `i` of a listing asks for page `i` with the cursor that page `i - 1` named. */
  lemma {:induction false} PageRequestsListed(first: int, pages: seq<Payload>, i: nat)
    requires i < |pages|
    ensures |PageRequests(first, pages)| == |pages|
    ensures i == 0 ==> PageRequests(first, pages)[i] == Request(first, "tools/list", None)
    ensures i > 0 && pages[i - 1].nextCursor != Some("") ==>
              PageRequests(first, pages)[i] == Request(first + i, "tools/list", pages[i - 1].nextCursor)
  {
    var earlier := pages[..|pages| - 1];
    if i < |earlier| {
      PageRequestsListed(first, earlier, i);
    } else if earlier != [] {
      PageRequestsListed(first, earlier, 0);
    }
  }

  /** Every page but the last names a cursor, and that is not empty. */
  lemma {:induction false} ContinuingPagesHaveCursors(pages: seq<Payload>, i: nat)
    requires AllContinue(pages) && i < |pages|
    ensures pages[i].nextCursor.Some? && pages[i].nextCursor.value != ""
  {
    if i < |pages| - 1 {
      ContinuingPagesHaveCursors(pages[..|pages| - 1], i);
    }
  }

  /** Each of these pages names a page after it. */
  ghost predicate AllContinue(pages: seq<Payload>) {
    pages != [] ==> CursorAfter(pages).Some? && AllContinue(pages[..|pages| - 1])
  }

  /** The requests that these pages answer, ids from `first` on, each with the cursor of the page before. */
  function PageRequests(first: int, pages: seq<Payload>): seq<Outgoing> {
    if pages == [] then []
    else
      var earlier := pages[..|pages| - 1];
      PageRequests(first, earlier) + [Request(first + |earlier|, "tools/list", CursorAfter(earlier))]
  }

  function RequestsIn(sent: seq<Outgoing>): seq<Outgoing> {
    if sent == [] then []
    else RequestsIn(sent[..|sent| - 1]) + if sent[|sent| - 1].Request? then [sent[|sent| - 1]] else []
  }

  lemma RequestsInAppend(sent: seq<Outgoing>, o: Outgoing)
    ensures RequestsIn(sent + [o]) == RequestsIn(sent) + if o.Request? then [o] else []
  {
    assert (sent + [o])[..|sent|] == sent;
  }

  lemma {:induction false} RequestsInConcat(a: seq<Outgoing>, b: seq<Outgoing>)
    ensures RequestsIn(a + b) == RequestsIn(a) + RequestsIn(b)
  {
    if b == [] {
      assert a + b == a;
    } else {
      var front, last := b[..|b| - 1], b[|b| - 1];
      RequestsInConcat(a, front);
      RequestsInAppend(a + front, last);
      ConcatAssociative(a, front, [last]);
      ConcatAssociative(RequestsIn(a), RequestsIn(front), if last.Request? then [last] else []);
      assert b == front + [last];
    }
  }

  lemma {:induction false} RefusalsHoldNoRequests(arrivals: seq<Arrival>, from: nat, to: nat)
    requires to <= |arrivals|
    ensures RequestsIn(Refusals(arrivals, from, to)) == []
  {
    if from < to {
      RefusalsHoldNoRequests(arrivals, from, to - 1);
      RequestsInConcat(Refusals(arrivals, from, to - 1), RefusalOf(arrivals[to - 1].item));
    }
  }

  // ---------------------------------------------------------------- sessions

  /** Where call `k` starts consuming: where the one before it ended. */
  function Begin(start: nat, ends: seq<nat>, k: nat): nat
    requires k <= |ends|
  {
    if k == 0 then start else ends[k - 1]
  }

  /**
   A call with id `n` consumed the items `from` to `end` and came to `r`: an answered call took
   everything up to the first message that carries its id, and that message is its answer; a
   timed-out call took nothing that carries its id.
   */
  ghost predicate Concluded(arrivals: seq<Arrival>, from: nat, end: nat, n: int, r: Result<Payload, ClientError>) {
    && from <= end <= |arrivals|
    && if r == Err(TimedOut) then AllSkipped(arrivals, from, end, n)
       else if r == Err(StdinClosed) && from == end then true
       else from < end && AllSkipped(arrivals, from, end - 1, n) && Ends(arrivals[end - 1].item, n, r)
  }

  /** An answered call comes to the error or the result of the message it ended on, or an empty result if that has neither. */
  ghost predicate GivesResult(arrivals: seq<Arrival>, end: nat, r: Result<Payload, ClientError>) {
    r.Ok? || r.error.Rpc? ==>
      && 0 < end <= |arrivals| && arrivals[end - 1].item.Msg?
      && var m := arrivals[end - 1].item.m;
         if m.error.Some? then r == Err(Rpc(m.error.value))
         else if m.result.Some? then r == Ok(m.result.value)
         else r == Ok(Payload([], None, ""))
  }

  lemma ConcludedGivesResult(arrivals: seq<Arrival>, from: nat, end: nat, n: int, r: Result<Payload, ClientError>)
    requires Concluded(arrivals, from, end, n, r)
    ensures GivesResult(arrivals, end, r)
  {
  }

  /** The call got the item on which it ended as its answer. */
  predicate Answered(r: Result<Payload, ClientError>) {
    r.Ok? || r.error.Rpc?
  }

  /** Every request of the server's own that carries id `n` comes after a response that does. */
  ghost predicate CollisionsComeLate(arrivals: seq<Arrival>, from: nat, n: int) {
    forall i {:trigger Preceded(arrivals, from, i, n)} | from <= i < |arrivals| ::
      Collides(arrivals[i].item, n) ==> Preceded(arrivals, from, i, n)
  }

  /** A response that carries id `n` arrives before item `i`. */
  ghost predicate Preceded(arrivals: seq<Arrival>, from: nat, i: nat, n: int)
    requires i <= |arrivals|
  {
    exists j :: from <= j < i && Matches(arrivals[j].item, n) && !arrivals[j].item.m.hasMethod
  }

  /**
   If the call was answered, then what it took as its response really is one, and not a request of
   the server's own, exactly if in the stream from where the call began every colliding request
   comes after a response with the same id.
   */
  ghost predicate ResponseIffLate(arrivals: seq<Arrival>, from: nat, end: nat, n: int, r: Result<Payload, ClientError>) {
    Answered(r) ==>
      && 0 < end <= |arrivals| && arrivals[end - 1].item.Msg?
      && (!arrivals[end - 1].item.m.hasMethod <==> CollisionsComeLate(arrivals, from, n))
  }

  lemma AnswerIsAResponseIffNoCollision(arrivals: seq<Arrival>, from: nat, end: nat, n: int, r: Result<Payload, ClientError>)
    requires Concluded(arrivals, from, end, n, r)
    ensures ResponseIffLate(arrivals, from, end, n, r)
  {
    if Answered(r) {
      var item := arrivals[end - 1].item;
      if item.m.hasMethod {
        assert Collides(item, n);
        assert !Preceded(arrivals, from, end - 1, n);
      } else {
        forall i | from <= i < |arrivals| && Collides(arrivals[i].item, n)
          ensures Preceded(arrivals, from, i, n)
        {
          assert end - 1 < i && Matches(arrivals[end - 1].item, n);
        }
      }
    }
  }

  /** One refusal for every server request passed over; the item on which the wait ended was not passed over. */
  function WaitTraffic(arrivals: seq<Arrival>, from: nat, end: nat, r: Result<Payload, ClientError>): seq<Outgoing>
    requires end <= |arrivals|
  {
    Refusals(arrivals, from, if r == Err(TimedOut) || end == 0 then end else end - 1)
  }

  /** A wait so far: the items it passed over, each in time, what it stashed and what it refused. */
  ghost predicate PassedOver(arrivals: seq<Arrival>, from: nat, to: nat, n: int, waited: nat, limit: nat,
                             stashed: seq<Message>, refused: seq<Outgoing>)
  {
    && from <= to <= |arrivals|
    && AllSkipped(arrivals, from, to, n) && InTime(arrivals, from, to, waited, limit)
    && stashed == Notices(arrivals, from, to) && refused == Refusals(arrivals, from, to)
  }

  lemma PassedNext(arrivals: seq<Arrival>, from: nat, to: nat, n: int, waited: nat, limit: nat,
                   stashed: seq<Message>, refused: seq<Outgoing>)
    requires PassedOver(arrivals, from, to, n, waited, limit, stashed, refused) && to < |arrivals|
    requires arrivals[to].item.Msg? && !Matches(arrivals[to].item, n) && ComesInTime(arrivals, from, to, waited, limit)
    ensures PassedOver(arrivals, from, to + 1, n, waited, limit,
                       stashed + NoticeOf(arrivals[to].item), refused + RefusalOf(arrivals[to].item))
  {
  }

  lemma WaitEnds(arrivals: seq<Arrival>, from: nat, to: nat, n: int, waited: nat, limit: nat,
                 stashed: seq<Message>, refused: seq<Outgoing>, r: Result<Payload, ClientError>)
    requires PassedOver(arrivals, from, to, n, waited, limit, stashed, refused) && to < |arrivals|
    requires Ends(arrivals[to].item, n, r) && ComesInTime(arrivals, from, to, waited, limit)
    ensures Concluded(arrivals, from, to + 1, n, r) && GivesResult(arrivals, to + 1, r) && InTime(arrivals, from, to + 1, waited, limit)
    ensures stashed == Notices(arrivals, from, to + 1) && refused == WaitTraffic(arrivals, from, to + 1, r)
  {
    assert NoticeOf(arrivals[to].item) == [];
  }

  /** Call `k` consumed from where the one before it ended. */
  ghost predicate AnsweredRightly(arrivals: seq<Arrival>, start: nat, first: int, results: seq<Result<Payload, ClientError>>,
                                  ends: seq<nat>, k: nat)
    requires k < |results| == |ends|
  {
    Concluded(arrivals, Begin(start, ends, k), ends[k], first + k, results[k])
  }

  lemma SessionGivesResults(arrivals: seq<Arrival>, start: nat, first: int, results: seq<Result<Payload, ClientError>>,
                            ends: seq<nat>)
    requires |results| == |ends| && forall j | 0 <= j < |ends| :: AnsweredRightly(arrivals, start, first, results, ends, j)
    ensures forall k | 0 <= k < |ends| :: GivesResult(arrivals, ends[k], results[k])
  {
    forall k | 0 <= k < |ends|
      ensures GivesResult(arrivals, ends[k], results[k])
    {
      assert AnsweredRightly(arrivals, start, first, results, ends, k);
      ConcludedGivesResult(arrivals, Begin(start, ends, k), ends[k], first + k, results[k]);
    }
  }

  /** Call `k`, if answered, got a response and not a request of the server's own. */
  predicate GotResponse(arrivals: seq<Arrival>, results: seq<Result<Payload, ClientError>>, ends: seq<nat>, k: nat)
    requires k < |results| == |ends|
  {
    Answered(results[k]) ==>
      0 < ends[k] <= |arrivals| && arrivals[ends[k] - 1].item.Msg? && !arrivals[ends[k] - 1].item.m.hasMethod
  }

  /** From `from` on the server uses none of the ids `first` to `last` for a request of its own. */
  ghost predicate NoCollisions(arrivals: seq<Arrival>, from: nat, first: int, last: int) {
    forall i, n | from <= i < |arrivals| && first <= n < last :: !Collides(arrivals[i].item, n)
  }

  lemma {:induction false} EndsAreReached(arrivals: seq<Arrival>, start: nat, first: int,
                                          results: seq<Result<Payload, ClientError>>, ends: seq<nat>, k: nat)
    requires k < |results| == |ends| && forall j | 0 <= j <= k :: AnsweredRightly(arrivals, start, first, results, ends, j)
    ensures start <= Begin(start, ends, k) <= ends[k] <= |arrivals|
  {
    assert AnsweredRightly(arrivals, start, first, results, ends, k);
    if k > 0 {
      EndsAreReached(arrivals, start, first, results, ends, k - 1);
    }
  }

  lemma CallGetsResponse(arrivals: seq<Arrival>, start: nat, first: int, results: seq<Result<Payload, ClientError>>,
                         ends: seq<nat>, k: nat)
    requires k < |results| == |ends| && Answered(results[k])
    requires forall j | 0 <= j <= k :: AnsweredRightly(arrivals, start, first, results, ends, j)
    ensures GotResponse(arrivals, results, ends, k) <==> CollisionsComeLate(arrivals, Begin(start, ends, k), first + k)
    ensures NoCollisions(arrivals, start, first, first + |results|) ==> GotResponse(arrivals, results, ends, k)
  {
    EndsAreReached(arrivals, start, first, results, ends, k);
    assert AnsweredRightly(arrivals, start, first, results, ends, k);
    AnswerIsAResponseIffNoCollision(arrivals, Begin(start, ends, k), ends[k], first + k, results[k]);
  }

  /**
   Over a whole session each answered call got a response exactly if collisions with its id come
   late in what was left of the stream; if the server uses none of the session's ids, all did.
   */
  ghost predicate ResponsesIffLate(arrivals: seq<Arrival>, start: nat, first: int, results: seq<Result<Payload, ClientError>>,
                                   ends: seq<nat>)
    requires |results| == |ends|
  {
    && (forall k | 0 <= k < |ends| && Answered(results[k]) ::
          GotResponse(arrivals, results, ends, k) <==> CollisionsComeLate(arrivals, Begin(start, ends, k), first + k))
    && (NoCollisions(arrivals, start, first, first + |results|) ==>
          forall k | 0 <= k < |ends| :: GotResponse(arrivals, results, ends, k))
  }

  lemma SessionGetsResponses(arrivals: seq<Arrival>, start: nat, first: int, results: seq<Result<Payload, ClientError>>,
                             ends: seq<nat>)
    requires |results| == |ends| && forall j | 0 <= j < |ends| :: AnsweredRightly(arrivals, start, first, results, ends, j)
    ensures ResponsesIffLate(arrivals, start, first, results, ends)
  {
    forall k | 0 <= k < |ends| && Answered(results[k])
      ensures GotResponse(arrivals, results, ends, k) <==> CollisionsComeLate(arrivals, Begin(start, ends, k), first + k)
      ensures NoCollisions(arrivals, start, first, first + |results|) ==> GotResponse(arrivals, results, ends, k)
    {
      CallGetsResponse(arrivals, start, first, results, ends, k);
    }
  }

  /**
   What a call sends: its request, unless the server's stdin was closed already, and one refusal for
   every server request it passed over.
   */
  function CallTraffic(arrivals: seq<Arrival>, from: nat, end: nat, request: Outgoing, r: Result<Payload, ClientError>): seq<Outgoing>
    requires end <= |arrivals|
  {
    if r == Err(StdinClosed) && from == end then []
    else [request] + WaitTraffic(arrivals, from, end, r)
  }

  lemma PageSent(sent: seq<Outgoing>, request: Outgoing, arrivals: seq<Arrival>, from: nat, end: nat, r: Result<Payload, ClientError>)
    requires request.Request? && end <= |arrivals| && r.Ok?
    ensures RequestsIn(sent + CallTraffic(arrivals, from, end, request, r)) == RequestsIn(sent) + [request]
  {
    var refusals := WaitTraffic(arrivals, from, end, r);
    RequestsInAppend(sent, request);
    RequestsInConcat(sent + [request], refusals);
    RefusalsHoldNoRequests(arrivals, from, if end == 0 then 0 else end - 1);
    ConcatAssociative(sent, [request], refusals);
  }

  /** What the first `n` calls of a session send, in order. */
  function SessionTraffic(arrivals: seq<Arrival>, start: nat, first: int, calls: seq<(string, Option<nat>)>,
                          results: seq<Result<Payload, ClientError>>, ends: seq<nat>, n: nat): seq<Outgoing>
    requires n <= |calls| && n <= |results| == |ends| && forall k | 0 <= k < n :: ends[k] <= |arrivals|
  {
    if n == 0 then []
    else
      SessionTraffic(arrivals, start, first, calls, results, ends, n - 1)
      + CallTraffic(arrivals, Begin(start, ends, n - 1), ends[n - 1], Request(first + n - 1, calls[n - 1].0, None), results[n - 1])
  }

  lemma {:induction false} TrafficKept(arrivals: seq<Arrival>, start: nat, first: int, calls: seq<(string, Option<nat>)>,
                                       results: seq<Result<Payload, ClientError>>, ends: seq<nat>,
                                       r: Result<Payload, ClientError>, end: nat, n: nat)
    requires n <= |calls| && n <= |results| == |ends| && forall k | 0 <= k < n :: ends[k] <= |arrivals|
    ensures SessionTraffic(arrivals, start, first, calls, results + [r], ends + [end], n)
         == SessionTraffic(arrivals, start, first, calls, results, ends, n)
  {
    if n > 0 {
      TrafficKept(arrivals, start, first, calls, results, ends, r, end, n - 1);
    }
  }

  lemma TrafficNext(arrivals: seq<Arrival>, start: nat, first: int, calls: seq<(string, Option<nat>)>,
                    results: seq<Result<Payload, ClientError>>, ends: seq<nat>, r: Result<Payload, ClientError>, end: nat)
    requires |results| == |ends| < |calls| && end <= |arrivals| && forall k | 0 <= k < |ends| :: ends[k] <= |arrivals|
    ensures SessionTraffic(arrivals, start, first, calls, results + [r], ends + [end], |ends| + 1)
         == SessionTraffic(arrivals, start, first, calls, results, ends, |ends|)
            + CallTraffic(arrivals, Begin(start, ends, |ends|), end, Request(first + |ends|, calls[|ends|].0, None), r)
  {
    TrafficKept(arrivals, start, first, calls, results, ends, r, end, |ends|);
  }

  /** A session so far: what its calls came to, what they stashed and what they sent. */
  ghost predicate Conducted(arrivals: seq<Arrival>, start: nat, first: int, calls: seq<(string, Option<nat>)>,
                            results: seq<Result<Payload, ClientError>>, ends: seq<nat>,
                            stashed: seq<Message>, sent: seq<Outgoing>)
  {
    && |results| == |ends| <= |calls|
    && (forall k | 0 <= k < |ends| :: AnsweredRightly(arrivals, start, first, results, ends, k))
    && (forall k | 0 <= k < |ends| :: ends[k] <= |arrivals|)
    && start <= Begin(start, ends, |ends|) <= |arrivals|
    && stashed == Notices(arrivals, start, Begin(start, ends, |ends|))
    && sent == SessionTraffic(arrivals, start, first, calls, results, ends, |ends|)
  }

  lemma CallAdded(arrivals: seq<Arrival>, start: nat, first: int, calls: seq<(string, Option<nat>)>,
                  results: seq<Result<Payload, ClientError>>, ends: seq<nat>, stashed: seq<Message>, sent: seq<Outgoing>,
                  request: Outgoing, r: Result<Payload, ClientError>, end: nat)
    requires Conducted(arrivals, start, first, calls, results, ends, stashed, sent) && |ends| < |calls|
    requires request == Request(first + |ends|, calls[|ends|].0, None)
    requires Concluded(arrivals, Begin(start, ends, |ends|), end, first + |ends|, r)
    ensures
      var from := Begin(start, ends, |ends|);
      Conducted(arrivals, start, first, calls, results + [r], ends + [end],
                stashed + Notices(arrivals, from, end), sent + CallTraffic(arrivals, from, end, request, r))
  {
    SessionStep(arrivals, start, first, results, ends, r, end);
    TrafficNext(arrivals, start, first, calls, results, ends, r, end);
    NoticesConcat(arrivals, start, Begin(start, ends, |ends|), end);
  }

  /** A request that carries the pending id does get returned, as an empty result, and is never refused. */
  method CollidingRequestIsReturned() returns (r: Result<Payload, ClientError>, sent: seq<Outgoing>)
    ensures r == Ok(EMPTY) && sent == [Request(1, "tools/call", None)]
  {
    var client := new Client(45, None);
    var lines := [Object(Message(Some(IntId(1)), true, None, None))];
    client.ReadLoop(lines, [0], 0);
    assert client.arrivals[0 + 0] == Arrival(0, ItemOf(lines[0]));
    r := client.Call("tools/call", None, None);
    sent := client.sent;
    assert client.taken == 1;
  }

  /** Two pages of tools, with a stray notification between them, are listed whole. */
  method TwoPagesAreListed() returns (r: Result<seq<string>, ClientError>, sent: seq<Outgoing>)
    ensures r == Ok(["set", "get"] + ["list"])
    ensures RequestsIn(sent) == [Request(1, "tools/list", None), Request(2, "tools/list", Some("next"))]
  {
    var client := new Client(45, None);
    var first, last := Payload(["set", "get"], Some("next"), ""), Payload(["list"], None, "");
    var lines := [Object(Message(Some(IntId(1)), false, None, Some(first))), Object(Message(None, true, None, None)),
                  Object(Message(Some(IntId(2)), false, None, Some(last)))];
    client.ReadLoop(lines, [0, 0, 0], 0);
    assert client.arrivals[0 + 0] == Arrival(0, Msg(lines[0].m)) && client.arrivals[0 + 1] == Arrival(0, Msg(lines[1].m));
    assert client.arrivals[0 + 2] == Arrival(0, Msg(lines[2].m));
    ghost var arrivals, pages, ends := client.arrivals, [], [];
    assert RequestsIn(client.sent) == [];
    r, pages, ends := client.ListTools();
    sent := client.sent;
    if r.Err? {
      TwoPagesFail(arrivals, first, last, pages, ends, client.taken, r.error);
    } else {
      TwoPagesEnd(arrivals, first, last, pages, ends);
    }
    TotalsOfTwo(first, last);
  }

  /** A stream of exactly these pages and a notification between them. */
  predicate HoldsTwoPages(arrivals: seq<Arrival>, first: Payload, last: Payload) {
    && |arrivals| == 4 && first.nextCursor == Some("next") && last.nextCursor == None
    && arrivals[0] == Arrival(0, Msg(Message(Some(IntId(1)), false, None, Some(first))))
    && arrivals[1] == Arrival(0, Msg(Message(None, true, None, None)))
    && arrivals[2] == Arrival(0, Msg(Message(Some(IntId(2)), false, None, Some(last))))
  }

  lemma FirstOfTwo(arrivals: seq<Arrival>, first: Payload, last: Payload, end: nat, r: Result<Payload, ClientError>)
    requires HoldsTwoPages(arrivals, first, last) && Concluded(arrivals, 0, end, 1, r)
    ensures (r == Ok(first) && end == 1) || (r == Err(StdinClosed) && end == 0) || (r == Err(TimedOut) && end == 0)
  {
    assert Matches(arrivals[0].item, 1);
  }

  lemma LastOfTwo(arrivals: seq<Arrival>, first: Payload, last: Payload, end: nat, r: Result<Payload, ClientError>)
    requires HoldsTwoPages(arrivals, first, last) && Concluded(arrivals, 1, end, 2, r)
    ensures (r == Ok(last) && end == 3) || (r == Err(StdinClosed) && end == 1) || (r == Err(TimedOut) && end <= 2)
  {
    assert Matches(arrivals[2].item, 2) && !Matches(arrivals[1].item, 2);
  }

  lemma PagesOfTwo(arrivals: seq<Arrival>, first: Payload, last: Payload, pages: seq<Payload>, ends: seq<nat>)
    requires HoldsTwoPages(arrivals, first, last) && Paged(arrivals, 0, 1, pages, ends)
    ensures |pages| > 0 ==> pages[0] == first && ends[0] == 1
    ensures |pages| > 1 ==> pages[1] == last
  {
    if |pages| > 0 {
      assert AnsweredRightly(arrivals, 0, 1, Oks(pages), ends, 0);
      FirstOfTwo(arrivals, first, last, ends[0], Ok(pages[0]));
    }
    if |pages| > 1 {
      assert AnsweredRightly(arrivals, 0, 1, Oks(pages), ends, 1);
      LastOfTwo(arrivals, first, last, ends[1], Ok(pages[1]));
    }
  }

  lemma TotalsOfOne(first: Payload)
    requires first.nextCursor == Some("next")
    ensures Tools([first]) == first.tools && CursorAfter([first]) == Some("next")
    ensures PageRequests(1, [first]) == [Request(1, "tools/list", None)]
  {
    var none: seq<Payload> := [];
    TotalsNext(1, none, first);
    assert none + [first] == [first];
  }

  lemma TotalsOfTwo(first: Payload, last: Payload)
    requires first.nextCursor == Some("next") && last.nextCursor == None
    ensures Tools([first, last]) == first.tools + last.tools
    ensures PageRequests(1, [first, last]) == [Request(1, "tools/list", None)] + [Request(2, "tools/list", Some("next"))]
  {
    var pages := [first];
    TotalsOfOne(first);
    TotalsNext(1, pages, last);
    assert pages + [last] == [first, last];
  }

  /** A page without a cursor ends a listing. */
  lemma {:induction false} LastPageEndsListing(pages: seq<Payload>, i: nat)
    requires i < |pages| && pages[i].nextCursor.None?
    ensures !AllContinue(pages)
  {
    if i < |pages| - 1 {
      LastPageEndsListing(pages[..|pages| - 1], i);
    }
  }

  /** Such a stream can keep a listing from its end only by a closed pipe or a wait that is too long. */
  lemma TwoPagesFail(arrivals: seq<Arrival>, first: Payload, last: Payload, pages: seq<Payload>, ends: seq<nat>, taken: nat,
                     error: ClientError)
    requires HoldsTwoPages(arrivals, first, last) && Paged(arrivals, 0, 1, pages, ends) && AllContinue(pages)
    requires AnsweredRightly(arrivals, 0, 1, Oks(pages) + [Err(error)], ends + [taken], |pages|)
    ensures error == StdinClosed || (error == TimedOut && taken <= 2)
  {
    PagesOfTwo(arrivals, first, last, pages, ends);
    var r: Result<Payload, ClientError> := Err(error);
    if |pages| > 1 {
      LastPageEndsListing(pages, 1);
    } else if |pages| == 1 {
      LastOfTwo(arrivals, first, last, taken, r);
    } else {
      FirstOfTwo(arrivals, first, last, taken, r);
    }
  }

  /** And it ends with both pages. */
  lemma TwoPagesEnd(arrivals: seq<Arrival>, first: Payload, last: Payload, pages: seq<Payload>, ends: seq<nat>)
    requires HoldsTwoPages(arrivals, first, last) && Paged(arrivals, 0, 1, pages, ends)
    requires pages != [] && CursorAfter(pages).None? && AllContinue(pages[..|pages| - 1])
    ensures pages == [first, last]
  {
    PagesOfTwo(arrivals, first, last, pages, ends);
    TotalsOfOne(first);
    assert |pages| == 1 ==> pages == [first];
    if |pages| > 2 {
      LastPageEndsListing(pages[..|pages| - 1], 1);
    }
  }

  class Client {
    const defaultTimeout: nat
    var nextId: int
    /** All items the queue ever holds; the first `taken` of them are consumed. */
    var arrivals: seq<Arrival>
    var taken: nat
    /** How long the client has already waited for the next of them. */
    var waited: nat
    var notifications: seq<Message>
    var sent: seq<Outgoing>
    /** How many more writes the server's stdin takes before it breaks; None if it never does. */
    var writesLeft: Option<nat>
    var stderrTail: seq<string>

    ghost predicate Valid()
      reads this
    {
      taken <= |arrivals| && |stderrTail| <= TAIL_LINES
    }

    constructor (defaultTimeout: nat, writesLeft: Option<nat>)
      ensures Valid() && nextId == 1 && arrivals == [] && taken == 0 && notifications == [] && sent == []
      ensures this.defaultTimeout == defaultTimeout && this.writesLeft == writesLeft
    {
      this.defaultTimeout, this.writesLeft := defaultTimeout, writesLeft;
      nextId, arrivals, taken, waited := 1, [], 0, 0;
      notifications, sent, stderrTail := [], [], [];
    }

    /** The reader thread: every line becomes one queue item, and the end of the stream, by EOF or by an error, one more. */
    method ReadLoop(lines: seq<Line>, waits: seq<nat>, last: nat)
      requires Valid() && |waits| == |lines|
      modifies `arrivals
      ensures Valid() && |arrivals| == |old(arrivals)| + |lines| + 1 && arrivals[..|old(arrivals)|] == old(arrivals)
      ensures forall i | 0 <= i < |lines| :: arrivals[|old(arrivals)| + i] == Arrival(waits[i], ItemOf(lines[i]))
      ensures forall i | 0 <= i < |lines| ::
                match lines[i]
                case Object(m) => arrivals[|old(arrivals)| + i].item == Msg(m)
                case NullLine => arrivals[|old(arrivals)| + i].item == Eof
                case PlainValue => IsNotice(arrivals[|old(arrivals)| + i].item)
                case OddValue => arrivals[|old(arrivals)| + i].item == Unusable
                case _ => arrivals[|old(arrivals)| + i].item == BadFrame
      ensures arrivals[|arrivals| - 1].item == Eof
    {
      for i := 0 to |lines|
        invariant |arrivals| == |old(arrivals)| + i && arrivals[..|old(arrivals)|] == old(arrivals)
        invariant forall j | 0 <= j < i :: arrivals[|old(arrivals)| + j] == Arrival(waits[j], ItemOf(lines[j]))
      {
        arrivals := arrivals + [Arrival(waits[i], ItemOf(lines[i]))];
      }
      arrivals := arrivals + [Arrival(last, Eof)];
    }

    /** The stderr thread keeps the last fifty lines. */
    method DrainStderr(lines: seq<string>)
      requires Valid()
      modifies `stderrTail
      ensures Valid() && stderrTail == LastLines(old(stderrTail) + lines)
      ensures |old(stderrTail)| + |lines| <= 50 ==> stderrTail == old(stderrTail) + lines
      ensures |old(stderrTail)| + |lines| > 50 ==> stderrTail == (old(stderrTail) + lines)[|old(stderrTail)| + |lines| - 50..]
    {
      assert old(stderrTail) + lines[..0] == old(stderrTail);
      for i := 0 to |lines|
        invariant Valid() && stderrTail == LastLines(old(stderrTail) + lines[..i])
      {
        LastLinesStep(old(stderrTail) + lines[..i], lines[i]);
        assert old(stderrTail) + lines[..i + 1] == old(stderrTail) + lines[..i] + [lines[i]];
        stderrTail := LastLines(stderrTail + [lines[i]]);
      }
      assert lines[..|lines|] == lines;
    }

    method Send(message: Outgoing) returns (ok: bool)
      modifies `sent, `writesLeft
      ensures ok <==> old(writesLeft) != Some(0)
      ensures sent == if ok then old(sent) + [message] else old(sent)
      ensures writesLeft == if ok && old(writesLeft).Some? then Some(old(writesLeft).value - 1) else old(writesLeft)
    {
      if writesLeft == Some(0) {
        return false;
      }
      if writesLeft.Some? {
        writesLeft := Some(writesLeft.value - 1);
      }
      sent := sent + [message];
      return true;
    }

    /** Takes the next item if it comes within `timeout`. */
    method Recv(timeout: nat) returns (r: Result<Message, ClientError>)
      requires Valid()
      modifies `taken, `waited
      ensures Valid()
      ensures r == Err(TimedOut) <==> old(taken) == |arrivals| || arrivals[old(taken)].wait > timeout + old(waited)
      ensures r == Err(TimedOut) ==> taken == old(taken)
      ensures r != Err(TimedOut) ==>
                && taken == old(taken) + 1 && waited == 0
                && r == match arrivals[old(taken)].item
                        case Msg(m) => Ok(m)
                        case BadFrame => Err(BadFraming)
                        case Unusable => Err(NotAMessage)
                        case Eof => Err(ServerClosed)
    {
      if taken == |arrivals| {
        return Err(TimedOut);
      }
      var next := arrivals[taken];
      if next.wait > timeout + waited {
        waited := waited + timeout;
        return Err(TimedOut);
      }
      taken, waited := taken + 1, 0;
      match next.item {
        case Msg(m) => return Ok(m);
        case BadFrame => return Err(BadFraming);
        case Unusable => return Err(NotAMessage);
        case Eof => return Err(ServerClosed);
      }
    }

    function Limit(timeout: Option<nat>): nat {
      if timeout.Some? then timeout.value else defaultTimeout
    }

    /** Stashes a notification, refuses a server request, drops a response to some other id. */
    method PassOver(msg: Message) returns (ok: bool)
      modifies `notifications, `sent, `writesLeft
      ensures notifications == old(notifications) + NoticeOf(Msg(msg)) == old(notifications) + if msg.id.None? then [msg] else []
      ensures ok ==> sent == old(sent) + RefusalOf(Msg(msg))
      ensures old(writesLeft).None? ==> ok && writesLeft.None?
      ensures ok && msg.id.Some? && msg.hasMethod ==> sent == old(sent) + [Refusal(msg.id.value, -32601)]
      ensures !ok ==> sent == old(sent) && writesLeft == Some(0) && msg.id.Some? && msg.hasMethod
    {
      if msg.id.None? {
        notifications := notifications + [msg];
        return true;
      }
      if msg.hasMethod {
        ok := Send(Refusal(msg.id.value, METHOD_NOT_FOUND));
        return ok;
      }
      return true;
    }

    /** The waiting loop of one request. */
    method Await(id: int, limit: nat) returns (r: Result<Payload, ClientError>)
      requires Valid()
      modifies `taken, `waited, `notifications, `sent, `writesLeft
      ensures Valid() && old(taken) <= taken
      ensures InTime(arrivals, old(taken), taken, old(waited), limit)
      ensures notifications == old(notifications) + Notices(arrivals, old(taken), taken)
      ensures Concluded(arrivals, old(taken), taken, id, r) && GivesResult(arrivals, taken, r)
      ensures sent == old(sent) + WaitTraffic(arrivals, old(taken), taken, r)
      ensures r == Err(TimedOut) && taken < |arrivals| ==>
                arrivals[taken].wait > limit + if taken == old(taken) then old(waited) else 0
      ensures r == Err(StdinClosed) ==> old(taken) < taken && writesLeft == Some(0)
      ensures old(writesLeft).None? ==> writesLeft.None?
    {
      ghost var stashed: seq<Message>, refused: seq<Outgoing> := [], [];
      while true
        invariant Valid() && waited == if taken == old(taken) then old(waited) else 0
        invariant PassedOver(arrivals, old(taken), taken, id, old(waited), limit, stashed, refused)
        invariant notifications == old(notifications) + stashed && sent == old(sent) + refused
        invariant old(writesLeft).None? ==> writesLeft.None?
        decreases |arrivals| - taken
      {
        ghost var next := taken;
        var received := Recv(limit);
        if received.Err? {
          r := Err(received.error);
          if taken > next {
            WaitEnds(arrivals, old(taken), next, id, old(waited), limit, stashed, refused, r);
          }
          return;
        }
        var msg := received.value;
        if msg.id.None? || !SameId(msg.id.value, id) {
          var ok := PassOver(msg);
          if !ok {
            r := Err(StdinClosed);
            WaitEnds(arrivals, old(taken), next, id, old(waited), limit, stashed, refused, r);
            return;
          }
          PassedNext(arrivals, old(taken), next, id, old(waited), limit, stashed, refused);
          ConcatAssociative(old(notifications), stashed, NoticeOf(Msg(msg)));
          ConcatAssociative(old(sent), refused, RefusalOf(Msg(msg)));
          stashed, refused := stashed + NoticeOf(Msg(msg)), refused + RefusalOf(Msg(msg));
          continue;
        }
        if msg.error.Some? {
          r := Err(Rpc(msg.error.value));
        } else {
          r := Ok(if msg.result.Some? then msg.result.value else EMPTY);
        }
        WaitEnds(arrivals, old(taken), next, id, old(waited), limit, stashed, refused, r);
        return;
      }
    }

    /**
     Sends one request and waits for its answer. Of what it consumes it stashes every
     notification, refuses every server request it passes over, drops other responses, and
     takes nothing past the first message that carries its own id. The timeout is per message.
     */
    method Call(name: string, cursor: Option<string>, timeout: Option<nat>) returns (r: Result<Payload, ClientError>)
      requires Valid()
      modifies `nextId, `taken, `waited, `notifications, `sent, `writesLeft
      ensures Valid() && old(taken) <= taken && nextId == old(nextId) + 1
      ensures Concluded(arrivals, old(taken), taken, old(nextId), r) && GivesResult(arrivals, taken, r)
      ensures InTime(arrivals, old(taken), taken, old(waited), if timeout.Some? then timeout.value else defaultTimeout)
      ensures notifications == old(notifications) + Notices(arrivals, old(taken), taken)
      ensures sent == old(sent) + CallTraffic(arrivals, old(taken), taken, Request(old(nextId), name, cursor), r)
      ensures old(writesLeft) == Some(0) <==> r == Err(StdinClosed) && taken == old(taken)
      ensures old(writesLeft).None? ==> writesLeft.None? && r != Err(StdinClosed)
      ensures r == Err(TimedOut) && taken < |arrivals| ==>
                arrivals[taken].wait > (if timeout.Some? then timeout.value else defaultTimeout) + if taken == old(taken) then old(waited) else 0
      ensures ResponseIffLate(arrivals, old(taken), taken, old(nextId), r)
    {
      var id := nextId;
      nextId := nextId + 1;
      var ok := Send(Request(id, name, cursor));
      if !ok {
        return Err(StdinClosed);
      }
      r := Await(id, Limit(timeout));
      ConcatAssociative(old(sent), [Request(id, name, cursor)], WaitTraffic(arrivals, old(taken), taken, r));
      AnswerIsAResponseIffNoCollision(arrivals, old(taken), taken, id, r);
      ConcludedGivesResult(arrivals, old(taken), taken, id, r);
    }

    /**
     Any number of requests one after another, some of which may time out. A call that is
     answered gets the first message, from where the call before it ended, that carries its own
     id; ids never repeat, so a late reply to an earlier call is never returned. Every
     notification consumed is stashed once, in order, and every server request passed over is
     refused once, in order, between the requests of the calls. What answered the calls were
     responses, unless the server used one of their ids for a request first.
     */
    method Session(calls: seq<(string, Option<nat>)>)
      returns (results: seq<Result<Payload, ClientError>>, ends: seq<nat>, ghost stashed: seq<Message>, ghost out: seq<Outgoing>)
      requires Valid()
      modifies `nextId, `taken, `waited, `notifications, `sent, `writesLeft
      ensures Valid() && |results| == |ends| == |calls| && nextId == old(nextId) + |calls|
      ensures taken == Begin(old(taken), ends, |calls|)
      ensures notifications == old(notifications) + stashed && sent == old(sent) + out
      ensures Conducted(arrivals, old(taken), old(nextId), calls, results, ends, stashed, out)
      ensures ResponsesIffLate(arrivals, old(taken), old(nextId), results, ends)
      ensures forall k | 0 <= k < |calls| :: GivesResult(arrivals, ends[k], results[k])
    {
      results, ends := [], [];
      stashed, out := [], [];
      for i := 0 to |calls|
        invariant Valid() && |results| == |ends| == i && nextId == old(nextId) + i && taken == Begin(old(taken), ends, i)
        invariant Conducted(arrivals, old(taken), old(nextId), calls, results, ends, stashed, out)
        invariant notifications == old(notifications) + stashed && sent == old(sent) + out
      {
        ghost var from, request := taken, Request(nextId, calls[i].0, None);
        var r := Call(calls[i].0, None, calls[i].1);
        CallAdded(arrivals, old(taken), old(nextId), calls, results, ends, stashed, out, request, r, taken);
        ghost var seen, written := Notices(arrivals, from, taken), CallTraffic(arrivals, from, taken, request, r);
        ConcatAssociative(old(notifications), stashed, seen);
        ConcatAssociative(old(sent), out, written);
        stashed, out := stashed + seen, out + written;
        results, ends := results + [r], ends + [taken];
      }
      SessionGetsResponses(arrivals, old(taken), old(nextId), results, ends);
      SessionGivesResults(arrivals, old(taken), old(nextId), results, ends);
    }

    /** One page, and the one request that asks for it. */
    method ListPage(cursor: Option<string>) returns (page: Result<Payload, ClientError>)
      requires Valid()
      modifies `nextId, `taken, `waited, `notifications, `sent, `writesLeft
      ensures Valid() && nextId == old(nextId) + 1
      ensures Concluded(arrivals, old(taken), taken, old(nextId), page)
      ensures old(writesLeft).None? ==> writesLeft.None? && page != Err(StdinClosed)
      ensures page == Err(TimedOut) && taken < |arrivals| ==> arrivals[taken].wait > defaultTimeout
      ensures page.Ok? ==> RequestsIn(sent) == RequestsIn(old(sent)) + [Request(old(nextId), "tools/list", cursor)]
    {
      page := Call("tools/list", cursor, None);
      if page.Ok? {
        PageSent(old(sent), Request(old(nextId), "tools/list", cursor), arrivals, old(taken), taken, page);
      }
    }

    /**
     `tools/list` to the last page: the tools of all pages in order, each page asked for with
     the cursor of the one before and answered under that request's id, until a page has no
     cursor or an empty one. A failure is that of the request after the pages received.
     */
    method ListTools() returns (r: Result<seq<string>, ClientError>, ghost pages: seq<Payload>, ghost ends: seq<nat>)
      requires Valid()
      modifies `nextId, `taken, `waited, `notifications, `sent, `writesLeft
      ensures Valid()
      ensures Paged(arrivals, old(taken), old(nextId), pages, ends)
      ensures r.Ok? ==>
                && pages != [] && r.value == Tools(pages)
                && CursorAfter(pages).None? && AllContinue(pages[..|pages| - 1])
                && RequestsIn(sent) == RequestsIn(old(sent)) + PageRequests(old(nextId), pages)
                && nextId == old(nextId) + |pages| && taken == Begin(old(taken), ends, |ends|)
      ensures r.Err? ==>
                && AllContinue(pages)
                && nextId == old(nextId) + |pages| + 1
                && AnsweredRightly(arrivals, old(taken), old(nextId), Oks(pages) + [Err(r.error)], ends + [taken], |pages|)
                && (r.error.TimedOut? && taken < |arrivals| ==> arrivals[taken].wait > defaultTimeout)
                && (old(writesLeft).None? ==> !r.error.StdinClosed?)
    {
      var tools: seq<string> := [];
      var cursor: Option<string> := None;
      pages, ends := [], [];
      ghost var requests: seq<Outgoing> := [];
      while true
        invariant Valid() && Listed(arrivals, old(taken), old(nextId), pages, ends, tools, requests)
        invariant taken == Begin(old(taken), ends, |pages|) && nextId == old(nextId) + |pages|
        invariant Truthy(cursor) == CursorAfter(pages) && AllContinue(pages)
        invariant RequestsIn(sent) == RequestsIn(old(sent)) + requests
        invariant old(writesLeft).None? ==> writesLeft.None?
        decreases |arrivals| - taken
      {
        var page := ListPage(Truthy(cursor));
        if page.Err? {
          return Err(page.error), pages, ends;
        }
        PageAdded(arrivals, old(taken), old(nextId), pages, ends, tools, requests, page.value, taken);
        ContinueNext(pages, page.value);
        ConcatAssociative(RequestsIn(old(sent)), requests, [Request(nextId - 1, "tools/list", Truthy(cursor))]);
        requests := requests + [Request(nextId - 1, "tools/list", Truthy(cursor))];
        pages, ends := pages + [page.value], ends + [taken];
        tools := tools + page.value.tools;
        cursor := page.value.nextCursor;
        if Truthy(cursor).None? {
          return Ok(tools), pages, ends;
        }
      }
    }
  }

  /** Each page is the answer to its own request, and consumption goes on where the page before ended. */
  ghost predicate Paged(arrivals: seq<Arrival>, start: nat, first: int, pages: seq<Payload>, ends: seq<nat>) {
    |ends| == |pages| && forall k | 0 <= k < |pages| :: AnsweredRightly(arrivals, start, first, Oks(pages), ends, k)
  }

  /** A listing so far: its pages, the tools they hold and the requests that asked for them. */
  ghost predicate Listed(arrivals: seq<Arrival>, start: nat, first: int, pages: seq<Payload>, ends: seq<nat>,
                         tools: seq<string>, requests: seq<Outgoing>)
  {
    Paged(arrivals, start, first, pages, ends) && tools == Tools(pages) && requests == PageRequests(first, pages)
  }

  lemma PagedNext(arrivals: seq<Arrival>, start: nat, first: int, pages: seq<Payload>, ends: seq<nat>, page: Payload, end: nat)
    requires Paged(arrivals, start, first, pages, ends)
    requires AnsweredRightly(arrivals, start, first, Oks(pages) + [Ok(page)], ends + [end], |pages|)
    ensures Paged(arrivals, start, first, pages + [page], ends + [end])
  {
    SessionStep(arrivals, start, first, Oks(pages), ends, Ok(page), end);
    assert Oks(pages) + [Ok(page)] == Oks(pages + [page]);
  }

  lemma TotalsNext(first: int, pages: seq<Payload>, page: Payload)
    ensures Tools(pages + [page]) == Tools(pages) + page.tools
    ensures CursorAfter(pages + [page]) == Truthy(page.nextCursor)
    ensures PageRequests(first, pages + [page])
         == PageRequests(first, pages) + [Request(first + |pages|, "tools/list", CursorAfter(pages))]
  {
    assert (pages + [page])[..|pages|] == pages;
  }

  lemma ContinueNext(pages: seq<Payload>, page: Payload)
    requires AllContinue(pages)
    ensures (pages + [page])[..|pages|] == pages
    ensures CursorAfter(pages + [page]).Some? ==> AllContinue(pages + [page])
  {
    assert (pages + [page])[..|pages|] == pages;
  }

  lemma PageAdded(arrivals: seq<Arrival>, start: nat, first: int, pages: seq<Payload>, ends: seq<nat>,
                  tools: seq<string>, requests: seq<Outgoing>, page: Payload, end: nat)
    requires Listed(arrivals, start, first, pages, ends, tools, requests)
    requires AnsweredRightly(arrivals, start, first, Oks(pages) + [Ok(page)], ends + [end], |pages|)
    ensures Listed(arrivals, start, first, pages + [page], ends + [end], tools + page.tools,
                   requests + [Request(first + |pages|, "tools/list", CursorAfter(pages))])
    ensures CursorAfter(pages + [page]) == Truthy(page.nextCursor)
  {
    PagedNext(arrivals, start, first, pages, ends, page, end);
    TotalsNext(first, pages, page);
  }

  lemma SessionStep(arrivals: seq<Arrival>, start: nat, first: int, results: seq<Result<Payload, ClientError>>, ends: seq<nat>,
                    r: Result<Payload, ClientError>, end: nat)
    requires |results| == |ends|
    requires forall k | 0 <= k < |ends| :: AnsweredRightly(arrivals, start, first, results, ends, k)
    requires AnsweredRightly(arrivals, start, first, results + [r], ends + [end], |ends|)
    ensures forall k | 0 <= k <= |ends| :: AnsweredRightly(arrivals, start, first, results + [r], ends + [end], k)
  {
    forall k | 0 <= k <= |ends|
      ensures AnsweredRightly(arrivals, start, first, results + [r], ends + [end], k)
    {
      if k < |ends| {
        assert AnsweredRightly(arrivals, start, first, results, ends, k);
        assert Begin(start, ends + [end], k) == Begin(start, ends, k);
      }
    }
  }
}
