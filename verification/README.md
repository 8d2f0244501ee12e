# Verified model of the shared memory server

Several MCP server processes share one SQLite file of facts. Every tool call that changes
something, and by default every read, commits one event to an append-only, hash-chained event
table in the same transaction. This project models that store and the tools around it, and proves
what they promise:

- **The store as a protocol** (`MemoryTools`, `Protocol`, `Refinement`, `Runs`, `Outcomes`, `Races`,
  `Replay`). Any number of processes, old and new, with or without embeddings, take their steps in
  any order: open and migrate, read, lock, each statement, tail read, sequence read, insert,
  commit, answer; they fail, time out and crash anywhere, between a commit and its answer too. Every
  such run is one sequential run of whole operations in commit order that respects real time, and
  from that follow replay, no lost update, create-only exclusivity, chain and vector invariants and
  attribution.
- **The tools as the server runs them** (`Sqlite`, `MemoryServer`, `Audit`, `Auth`): imperative
  methods on one connection, each proved equal to the same transaction function `Apply` (or
  `AppendEvent`, `SealTable`, `Verdict`, `Identify`) that the protocol's commits are proved equal to.
- **The event chain** (`CanonicalJson`, `EventPayload`, `HashChain`): the canonical JSON payload is
  modelled character by character and decoded again. SHA-256 is an arbitrary function; what a head
  binds is stated as a reduction that returns the colliding texts.
- **The raw JSON-RPC client** (`RawClient`, `Pipes`), **the thread locks around the model**
  (`ModelLock`), **prefix listing** (`LikePrefix`), **backup and restore** (`Admin`, `Recovery`).

SQLite is three rules: one writer at a time, a writer that gets the lock sees the latest committed
content, and a commit publishes everything at once. Hash, embedding, similarity, message texts,
clocks, the order of steps and what other processes do are arbitrary parameters; a fact's
`updated_at` and its event's timestamp are two separate clock readings. In `Protocol`, `log`,
`replies` and `lost` are history variables: what was committed, what callers were told, and the
answers that were due but never given. A process there is one worker, so the threads of one server
process are several of them.

Properties that do not hold as documented, each with the exact condition under which it does:

- `memory_list` promises keys that start with the prefix (server/memory_server.py:453). SQLite's
  LIKE ignores the case of ASCII letters, so the promise holds exactly for prefixes without
  ASCII letters: `LikePrefix.LiteralPrefixIff`.
- A request of the server's own that carries the pending id is returned as the answer
  (client/raw_client.py:181-191). What is returned is a response exactly if in the inbound stream
  every such request comes after a response with that id: `RawClient.AnswerIsAResponseIffNoCollision`,
  with the concrete run in `RawClient.CollidingRequestIsReturned`. Replies to older ids, which a comment says should not
  happen, do happen after a timeout, and are dropped.
- Callers are not told of every write that succeeded: a process can die, or its trace write can
  raise (server/memory_server.py:289-293), after the commit. A shared counter equals what its callers
  were told exactly if no answer was lost and none is due: `Races.CounterEqualsTheToldIff`, with a
  concrete run in `Races.AnswersGetLost`.
- A server with embeddings off leaves the old vector in place when it overwrites a fact. The
  vectors stay fresh exactly when its write loses or the texts have equal embeddings:
  `Replay.LeanWriteKeepsFreshIff`.
- The ASCII-escaped payload confuses a pair of lone surrogates with the character it spells. Two
  texts are written alike exactly if their UTF-16 forms are equal:
  `CanonicalJson.EscapeEqualIffUtf16Equal`, `CanonicalJson.LoneSurrogatesCollide`. SQLite stores no
  lone surrogates, so on stored events the payload is injective without condition.

## Model

| member | source | states |
|---|---|---|
| CanonicalJson.EscapeIsEscapedUtf16 | server/audit.py:13-14 | the ASCII escape of a text, surrogate pairs included, is the unit-by-unit escape of its UTF-16 form |
| CanonicalJson.Utf16RoundTrip | server/audit.py:13-14 | pairs of surrogates written for large code points are read back as the same text |
| CanonicalJson.EscapeEqualIffUtf16Equal | server/audit.py:13-14 | two texts are escaped alike if and only if their UTF-16 forms are equal |
| CanonicalJson.LoneSurrogatesCollide | server/audit.py:13-14 | two different texts with lone surrogates that are escaped alike |
| CanonicalJson.PlainTextUnescaped | server/audit.py:13-14 | printable ASCII without quotes and backslashes is written as it is |
| CanonicalJson.EscapesSpelledOut | server/audit.py:13-14 | the two-character escapes, and the bounds of what needs none, as literals |
| CanonicalJson.HexEscapesSpelledOut | server/audit.py:13-14 | control, DEL, Latin-1 and 16-bit characters as \u with four lower-case hex digits, as literals |
| CanonicalJson.PairSpelledOut | server/audit.py:13-14 | a character beyond 16 bits as its two surrogates, as literals |
| CanonicalJson.DecimalInjective | server/audit.py:13-14 | integers written in decimal are never confused |
| CanonicalJson.DecodeEncodeItems | server/audit.py:13-14 | the decoder reads every list of encoded values back, commas and brackets included |
| CanonicalJson.DecodeEncodeArray | server/audit.py:12-14 | decoding undoes encoding for every array of nulls, integers and scalar texts |
| EventPayload.PayloadSays | server/audit.py:8-15 | the hashed text decodes to the tag mcp-memory-events-v1, the predecessor's hash, id, timestamp, client, action, key and value, in this order |
| EventPayload.PayloadSpelledOut | server/audit.py:8-15 | one whole hashed text as literals, with six different fields, an accent, a line break and a surrogate pair |
| EventPayload.PayloadInjective | server/audit.py:11-15 | a payload determines the predecessor's hash and all six event fields: null, text and integer stay distinct |
| HashChain.GenesisIs64Zeros | server/audit.py:7 | the hash before the first event is 64 zeros |
| HashChain.CanonicalDigest | server/audit.py:11-15 | a digest is the hash function applied to exactly that text |
| HashChain.CanonicalIsFaithful | server/audit.py:11-15 | the digest as the server computes it leaves no doubt what was hashed |
| HashChain.AppendWrites | server/audit.py:47-58 | append adds one row with the id after the last issued one, the fields it was given, the last row's hash or GENESIS, and the hash of its own text |
| HashChain.AppendKeepsSealed | server/audit.py:47-58 | append to a chained table succeeds and keeps it verifiable after any tail was cut off from outside, with an id above every id ever issued |
| HashChain.FindBreak | server/audit.py:61-76 | two verified chains with one head are equal row for row, or the result is a collision or a preimage of GENESIS made of texts that their rows were hashed from |
| HashChain.TrustedHeadBindsEveryRow | server/audit.py:61-76 | against a trusted head, verify accepts exactly the tables with the original's rows, so every edit, insertion, reorder or truncation is rejected, or the hash function is broken by two texts it returns |
| HashChain.MismatchNamesTheSmallestBadId | server/audit.py:67-71 | a rejection names the smallest id whose link or digest is wrong |
| HashChain.SealedRowsLinked | server/audit.py:32-37 | the sealed form of any legacy table is well linked and keeps every event |
| HashChain.SealingKeepsEvents | server/audit.py:22-44 | sealing keeps all six fields of every event and the issued ids, and the result verifies |
| HashChain.LinkedIsUnique | server/audit.py:61-76 | at most one well-linked table holds a given list of events |
| HashChain.SealingEqualsAppending | server/audit.py:22-58 | sealing a legacy table writes exactly the rows, ids and hashes that append would have written for the same events, gaps in the ids included |
| Audit.SetLinksChangesOneRow | server/audit.py:35-36 | the UPDATE by id changes exactly the row being sealed |
| Audit.ResealNext | server/audit.py:33-37 | one turn of the loop seals one more row and carries its hash on |
| Audit.SealEach | server/audit.py:32-37 | the loop writes exactly the sealed form of the legacy rows, link by link, and touches nothing else |
| Audit.Migrate | server/audit.py:22-44 | seals a legacy table under the lock in one transaction, does nothing if it or a racing migrator already did, and rolls everything back on any error |
| Audit.MigrateAgain | server/audit.py:22-44 | whenever a migration succeeded, alone or in a race, the next one succeeds and changes nothing; and a first one succeeds exactly on a chained or legacy table |
| Audit.Append | server/audit.py:47-58 | takes the lock if it is not held, adds exactly the linked row with the next id, and leaves the content alone on error; the caller commits |
| Audit.Verify | server/audit.py:61-76 | accepts exactly the well-linked tables (with the expected head, if given) and returns the row count and the last hash or GENESIS; reports a missing chain exactly if a column is missing, a wrong head with the expected and the found one, and otherwise the first bad event |
| Sqlite.Connection.Begin | server/audit.py:49-50 | the lock holder sees the latest committed content; without the lock nothing changes |
| Sqlite.Connection.Rollback | server/memory_server.py:335-383 | everything since the lock was taken is forgotten |
| MemoryTools.LosesIff | server/memory_server.py:336-365 | a create-only write loses exactly on an existing key, a compare-and-swap exactly on another value or none, and nothing else loses |
| MemoryTools.LoserCanRetry | server/memory_server.py:346-365 | a loser is told what the key really holds, so that the retry it suggests wins on the same content |
| MemoryTools.LogEventIsAppend | server/memory_server.py:263-264 | the logging step of every tool is append |
| MemoryTools.ApplyKeepsTable | server/audit.py:47-58 | ids stay in order and below the issued maximum through any transaction |
| MemoryServer.Server.GuardedSet | server/memory_server.py:318-387 | memory_set in its three modes: which refusal on which input, which facts, vectors and event otherwise, also for a model that fails; it succeeds only on an absent key or the expected value when asked so, and a losing call changes nothing, tells what the key holds and commits that as its event |
| MemoryServer.Server.WriteFact | server/memory_server.py:336-372 | the INSERT, conditional UPDATE or upsert stores the fact or reports the conflict it met |
| MemoryServer.Server.FinishSet | server/memory_server.py:374-387 | after the fact statement: vector, event and commit give exactly the whole transaction's result, or all of it is rolled back |
| MemoryServer.Server.LogAndFinish | server/memory_server.py:374-383 | the event commits with the statements before it, or all of them are rolled back |
| MemoryServer.Server.Delete | server/memory_server.py:527-540 | fact and vector go together, one delete event is logged even if there was nothing to delete, and the answer says whether there was |
| MemoryServer.Server.LogRead | server/memory_server.py:426-432 | a read is logged as one get or search event in a transaction of its own, on whatever content it finds, and changes nothing else |
| MemoryServer.Server.Get | server/memory_server.py:419-447 | the answer is the row seen before the event was logged, with the key's write history as read afterwards if asked for; a failed log fails the call |
| MemoryTools.RankingIsNotEmpty | server/memory_server.py:485-495 | where anything can be found, the first of the ranking is a best hit |
| MemoryServer.Server.Rank | server/memory_server.py:487-494 | exactly the facts that have a vector, each once, by falling score against the query |
| MemoryServer.Server.Search | server/memory_server.py:469-502 | shows the first top_k of that ranking, at least one and at most all, logs the best as a search event with query and score, and fails only when disabled, without a model, locked out or refused by the event table |
| Auth.LoadClientTokens | server/memory_server.py:578-592 | accepts exactly the files with well-formed ids and tokens and no shared token, and otherwise reports the fault of the first bad member |
| Auth.TableHoldsEarlierTokens | server/memory_server.py:582-591 | a header is already in the table exactly if an earlier client has its token |
| Auth.LoadedTableIsExact | server/memory_server.py:578-592 | the table maps each client's header to that client and holds nothing else |
| Auth.OneEntryPerClient | server/memory_server.py:578-592 | the table has as many entries as the file has clients |
| Auth.TokenTableIsInjective | server/memory_server.py:589-591 | each client has one header and each header one client |
| Auth.Authenticate | server/memory_server.py:607-634 | a request passes exactly if it has one authorization header and that is a known credential |
| Auth.Attribute | server/memory_server.py:253-260 | bearer check and client id together give the specified attribution for stdio, shared-token and per-client servers |
| Auth.IdentityIsTheTokenHolder | server/memory_server.py:253-260 | with per-client tokens a request acts for a client exactly when its only authorization header holds that client's token, whatever it claims |
| Auth.IdsAndTokens | server/memory_server.py:583-587 | lengths and characters that ids and tokens may and may not have |
| Auth.AuthorizationHeader | server/memory_server.py:614 | the authorization header is found whatever the case of its name, and no other header is |
| Auth.BearerTokenActsForItsClient | server/memory_server.py:588-616 | with an accepted file, the one header Authorization: Bearer and a client's token acts for that client, whatever it claims |
| Auth.OtherHeadersActForNobody | server/memory_server.py:614-625 | a header value that is not Bearer and a listed token, such as the bare token, acts for nobody |
| Auth.OneHeaderIsNeeded | server/memory_server.py:614-616 | two authorization headers, or none, act for nobody |
| Auth.OthersNameThemselves | server/memory_server.py:253-260 | stdio and shared-token callers are who they claim to be, or else the default |
| Replay.ApplyAddsOneEvent | server/audit.py:47-58 | a committed transaction adds one row at the end and touches no older one |
| Replay.EventSays | server/memory_server.py:374-383 | the event of every kind of call, with its literal action, key, value, client, time and next id |
| Replay.TablesSay | server/memory_server.py:336-380 | the facts and vectors that every kind of call leaves, with the embedded text key: value |
| Replay.ApplyKeepsExplained | server/memory_server.py:335-383 | values and sources stay the in-order replay of the set and delete events |
| Replay.OnlySetAndDeleteChangeTheStore | server/memory_server.py:374-383 | cas_fail, get and search events leave facts and vectors alone, and no operation touches another key |
| Replay.HistoryListsTheWrites | server/memory_server.py:505-524 | a key's history is exactly its set, delete and cas_fail events, each once and in id order |
| Replay.HistoryExplainsFact | server/memory_server.py:505-524 | the last entry of a key's write history that is not a failed attempt says what the replay of all events holds for that key |
| Replay.ApplyKeepsVectors | server/memory_server.py:374-380 | vectors belong to live facts, and are fresh as long as writers embed |
| Replay.LeanWriteKeepsFreshIff | server/memory_server.py:332 | a write by a server with embeddings off keeps the vectors fresh if and only if it loses or the embedding does not change |
| Refinement.StepKeepsLocks | server/audit.py:49-50 | exactly the process named as the writer is inside a transaction |
| Refinement.StepKeepsWork | server/memory_server.py:335-383 | the writer's working copy is the latest committed content plus exactly the statements it has run, and the tail and sequence it read are still current |
| Refinement.OnlyCommitsPublish | server/memory_server.py:335-383 | a step that is not a commit, so also any error, timeout or crash inside a transaction, changes no committed table |
| Refinement.EntryKeepsStoreOk | server/audit.py:22-58 | one whole operation keeps the table either untouched legacy or sealed, and never loses the chain |
| Refinement.StepExtendsLog | server/memory_server.py:318-387 | every commit appends one operation that succeeds on the content it finds |
| Refinement.StepKeepsReplies | server/memory_server.py:384-387 | every answer, given however long after the commit, is what the operation yields at its place in the log, inside its call |
| Refinement.StepKeepsInv | server/memory_server.py:318-387 | every step of every process keeps the whole invariant |
| Runs.EveryRunIsSerial | server/memory_server.py:318-387 | at every moment of every interleaving the committed content is the sequential result of the committed operations, and every answer, in whatever order answers are given, agrees with that order |
| Runs.SerialOrderRespectsRealTime | server/memory_server.py:318-387 | if one call was answered before another began, all the later one saw or wrote comes after the earlier one's place |
| Runs.EveryPrefixWasCommitted | server/memory_server.py:335-383 | the result of every prefix of the log was the committed content at some moment |
| Runs.GetReturnsACommittedValue | server/memory_server.py:425-432 | every answered get returned what was committed at one moment between its start and its answer, wherever its event landed |
| Runs.FactsAreTheReplayOfEvents | server/memory_server.py:335-387 | in every reachable state value and source of every key are the replay of the event table |
| Runs.HistoryExplainsEveryFact | server/memory_server.py:505-524 | in every reachable state a key's write history alone tells whether the fact exists, and its value and source |
| Runs.RowsGrow | server/audit.py:47-58 | no event is lost or altered by any sequence of operations, and no chained row changes |
| Runs.ChainHoldsFromMigrationOn | server/audit.py:22-44 | with old servers, new servers and racing migrators: once the chain exists every committed table verifies and has no unhashed row, and every earlier head verifies the same prefix later |
| Runs.ReadyServersNeverLackTheChain | server/memory_server.py:138-186 | a server that opened the store is never refused by the chain's columns or trigger |
| Runs.VectorsFollowFacts | server/memory_server.py:374-380 | in every reachable state vectors belong to live facts, and if all servers embed they are exactly those facts' embeddings |
| Runs.SearchRanksLiveFacts | server/memory_server.py:481-502 | a search answers with a fact that was live during the call and logs it with its score; if all servers embed, none was then closer to the query |
| Runs.EachCommitOwnsOneEvent | server/memory_server.py:374-383 | every committed call owns exactly one event row, in commit order, and there are no others |
| Runs.EveryFactHasItsWriter | server/memory_server.py:335-372 | every fact is an initial one or the outcome of one successful write in the log, value, source and time |
| Runs.AttributionIsTheTokenHolder | server/memory_server.py:253-260 | every event and every fact that a server with per-client tokens stored names the client whose token the call carried, whatever other servers share the file, and every fact of the store is an initial one or was stored by some committed call |
| Outcomes.StepKeepsApart | server/memory_server.py:384-387 | no two outcomes, told, lost or due, report the same committed operation |
| Outcomes.EveryCommitHasOneOutcome | server/memory_server.py:384-387 | in every run each committed call has exactly one outcome, told to its caller, lost after the commit or still due, and it says what the operation met |
| Outcomes.EveryOutcomeWasCommitted | server/memory_server.py:384-387 | whatever was told, lost or is due reports an entry that was committed for that call |
| Outcomes.EveryEntryDoesItsCall | server/memory_server.py:390-416 | every committed operation is the one its call asked for, argument by argument, under the call's own identity |
| Outcomes.ToldMeansDone | server/memory_server.py:384-387 | a caller told of success has its value and name in the store at its place in the log, one told of a conflict was told what the key held there, and a delete was told whether the key existed |
| Races.SwapsNeverExceedArrivals | server/memory_server.py:348-365 | arrivals at and departures from a value balance, and successful swaps away from it never exceed the times it became current |
| Races.NoUpdateIsLost | server/memory_server.py:348-365 | the same bound in every state of every run |
| Races.CounterLosesNoIncrement | server/memory_server.py:348-365 | along every log in which only swaps from n to n+1 change a key, its value is the start plus the successes, whatever else was tried in vain |
| Races.EverySuccessIsAccountedFor | server/memory_server.py:384-387 | in every run the number of successful writes to a key is the number told to callers plus those whose answer was lost after the commit plus those still due |
| Races.CounterCountsTheSuccesses | server/memory_server.py:348-387 | in every run a shared counter is its start plus the successes told, lost and due |
| Races.CounterEqualsTheToldIff | server/memory_server.py:348-387 | the counter never falls short of what callers were told, and equals it if and only if no answer was lost after a commit and none is due |
| Races.AnswersGetLost | server/memory_server.py:383-387 | a concrete run of one hash-chaining server on a chained table that dies between commit and answer, so that the counter exceeds what callers were told |
| Races.KeysLeaveByDeleteOnly | server/memory_server.py:527-540 | a key that was there and is gone was deleted by a committed delete in between |
| Races.CreateOnlyIsExclusive | server/memory_server.py:336-347 | in every run a create-only write that takes effect after any other successful write to the key has a committed delete of it in between, whether or not anyone was told |
| Races.ToldCreatorsAreApart | server/memory_server.py:336-347 | two callers told that they created a key, in whatever order they were told, have a delete of it between their writes |
| Races.LosersLeaveOneTrace | server/memory_server.py:346-386 | every attempt that loses in its transaction commits one cas_fail event under its caller's identity that tells what the key held, so that the retry it suggests wins on that content, and changes nothing else, whether or not the caller is told |
| Races.ToldLosersLeftOneTrace | server/memory_server.py:382-386 | a caller told that it lost owns one such event of its own, inside its call, and was told the conflict it met |
| RawClient.SameIdIff | client/raw_client.py:181 | the ids that match a pending integer are that integer, the equal float, and true or false for 1 or 0 |
| RawClient.OneRequestPerItem | client/raw_client.py:181 | a message answers at most one request id, numbers and booleans compared by value |
| RawClient.EveryNoticeIsStashed | client/raw_client.py:176-180 | every message without an id is stashed, after as many as came before it |
| RawClient.OnlyNoticesAreStashed | client/raw_client.py:176-180 | nothing else is stashed |
| RawClient.EveryRequestIsRefused | client/raw_client.py:182-186 | every server request passed over is refused under its own id with -32601, after as many as came before it |
| RawClient.OnlyRequestsAreRefused | client/raw_client.py:182-186 | nothing else is refused |
| RawClient.ConcludedGivesResult | client/raw_client.py:188-191 | an answered call comes to the error or the result of the message it ended on, or an empty result if that has neither |
| RawClient.AnswerIsAResponseIffNoCollision | client/raw_client.py:181-191 | an answered call took a response if and only if in the inbound stream every server request with the pending id comes after a response with that id |
| RawClient.CollidingRequestIsReturned | client/raw_client.py:181-191 | a server request with the pending id is returned as an empty result and not refused |
| RawClient.Client.ReadLoop | client/raw_client.py:138-149 | every line, whatever JSON or junk it holds, becomes one queue item in order, and the end of the stream one last item |
| RawClient.Client.DrainStderr | client/raw_client.py:120-127 | the last fifty lines are kept |
| RawClient.Client.Send | client/raw_client.py:111-118 | the message is written whole or the call fails |
| RawClient.Client.Recv | client/raw_client.py:151-162 | takes the next item if it comes in time, and tells timeout, end, bad framing and unusable values apart |
| RawClient.Client.PassOver | client/raw_client.py:176-187 | a notification is stashed, a server request refused with -32601 under its own id, another response dropped |
| RawClient.Client.Await | client/raw_client.py:174-191 | passes over exactly the messages before the first with its id, stashing and refusing as it must, and consumes nothing past it |
| RawClient.Client.Call | client/raw_client.py:164-191 | one request with a fresh id: its result, what it consumed, stashed and sent, and whether the answer was a response, for every inbound stream and every way to fail |
| RawClient.SessionGetsResponses | client/raw_client.py:181-191 | over a session each answered call got a response exactly if colliding requests come late in what was left of the stream, and all did if the server uses none of the session's ids |
| RawClient.Client.Session | client/raw_client.py:164-191 | over any sequence of calls and timeouts each answered call gets the first message with its own id after the point where the one before stopped, every notification is stashed once, and what is sent is each call's request followed by one refusal per server request it passed over |
| RawClient.Client.ListPage | client/raw_client.py:228-229 | one page costs one request, whatever server requests are refused meanwhile |
| RawClient.Client.ListTools | client/raw_client.py:223-233 | the tools of all pages in order, each the answer to its own request, which carries the cursor of the page before, up to the first page without one |
| RawClient.PageRequestsListed | client/raw_client.py:228-231 | request i of a listing carries the cursor that page i - 1 named |
| RawClient.TwoPagesAreListed | client/raw_client.py:223-233 | a concrete stream of two pages with a notification between them is listed whole, with two requests |
| Ascii.FoldEqualIff | server/memory_server.py:460-462 | folding confuses the two cases of one ASCII letter and nothing else |
| LikePrefix.EscapeIsOnePass | server/memory_server.py:458 | the three replacements in sequence equal one escape per character |
| LikePrefix.UnescapedListsMore | server/memory_server.py:454-458 | without the escape an underscore or percent sign in the prefix lists other keys, with it it does not |
| LikePrefix.OnePassIsExact | server/memory_server.py:458-463 | the escaped pattern matches exactly the keys that the prefix starts, up to the case of ASCII letters |
| LikePrefix.ListIsThePrefixMatch | server/memory_server.py:450-466 | memory_list shows exactly those keys |
| LikePrefix.LiteralPrefixIff | server/memory_server.py:453-463 | the listing is the literal prefix match in every store if and only if the prefix has no ASCII letter |
| Pipes.StuckOnlyIfQuietOrWedged | client/raw_client.py:86-102 | with both drain threads nothing is blocked unless both sides wait with empty pipes; without the stderr thread the wedge is the one other such state |
| Pipes.PipeStepsDecreaseRank | client/raw_client.py:111-149 | every movement of data lowers the rank |
| Pipes.UndisturbedPipesDrain | client/raw_client.py:86-102 | with both drain threads and nothing new decided, all data comes to rest within the rank: output pipes empty, the server's write complete, the client blocked only by a server that does not read |
| Pipes.OnlyReleasingStepsCount | client/raw_client.py:120-149 | while the server writes, its own writes and the two drain threads lower the write rank, and no client step, timeout or new request changes it |
| Pipes.SomethingReleases | client/raw_client.py:92-102 | with both drain threads a writing server is never without such a step |
| Pipes.BlockedServerIsReleased | client/raw_client.py:120-149 | in any run, whatever the client does, a server stays in a write for fewer releasing steps than the write rank, one more is always possible, and what follows the write is a free server |
| Pipes.UndrainedStderrWedges | docs/NOTES.md:51-62 | with stderr piped and unread, a server that logs one unit more than the buffer blocks both sides, for any buffer size |
| ModelLock.StepKeepsLocks | server/memory_server.py:286-288 | each lock names exactly the thread in its section |
| ModelLock.ModelLoadsAtMostOnce | server/memory_server.py:222-242 | over every interleaving of tool threads and the preload thread a process loads its model at most once, whoever holds the write lock neither loads nor waits for it, and with embeddings on no set or search reaches its transaction before the model is there |
| ModelLock.SomeThreadCanMove | server/memory_server.py:286-288 | no deadlock: while any call is under way some thread can take its next step, even without timeouts |
| ModelLock.StepsDecreaseRank | server/memory_server.py:222-250 | every step brings a call nearer its end |
| ModelLock.EveryScheduleFinishes | server/memory_server.py:330-335 | with no new calls every schedule ends within the rank, and only with every call finished |
| Admin.CheckDatabase | tools/memory_admin.py:27-31 | integrity first, then the chain, and the error of whichever fails |
| Admin.ChecksPassIff | tools/memory_admin.py:27-31 | the checks pass exactly on intact databases with both chain columns and well-linked events, and damage is reported before anything else |
| Admin.Publish | tools/memory_admin.py:34-40 | links the staged file to its name unless the name exists, in which case no file is touched |
| Admin.Backup | tools/memory_admin.py:43-55 | success means the archive holds exactly the snapshot and its checksum, and the snapshot is intact and well linked; failure has the first cause there is; every archive any effect creates is such a one, and no file is ever replaced |
| Admin.FindSidecar | tools/memory_admin.py:59-61 | finds the first sidecar in the order checked, and none exactly if no sidecar exists |
| Admin.NoFaultIff | tools/memory_admin.py:64-73 | an archive is without fault exactly if it holds, under the two names and no other, a sound database and its checksum line |
| Admin.FaultsSpelledOut | tools/memory_admin.py:64-66 | which fault a missing, plain or wrongly filled archive has |
| Admin.Restore | tools/memory_admin.py:58-75 | success means the archive had no fault and the destination holds its intact, well-linked database byte for byte; a faulty archive or an existing -wal, -shm or -journal file is refused; every file any effect creates under the name is the archive's own sound database, and no file is ever replaced |
| Admin.BackupThenRestore | tools/memory_admin.py:43-75 | restoring a fresh backup gives back the snapshot's bytes with the same count and head; only a taken name or a sidecar can stop it |
| Recovery.SnapshotsOfLiveStoresVerify | tools/memory_admin.py:27-31 | a snapshot of any committed state of any run passes the checks, and its head verifies the same prefix of the live table ever after |

## Left out

- SQLite's own machinery (WAL, page-level backup, `integrity_check`, busy handling) and power loss: the three rules above stand for it, and a snapshot is an atomic copy of one committed state.
- SHA-256, the embedding model, cosine arithmetic and the wording of messages: arbitrary functions.
- The order of `memory_list` and of equal scores in `memory_search`, result strings, the debug log, the demo tool `lock_hold`, environment parsing.
- HTTP sockets, uvicorn, SDK sessions, host allow-lists, `RawHTTPMCPClient`, the start-up check for exactly one credential, process start and teardown.
- Event cells that are not text, null or integer ids (a hand-edited file can hold blobs), and edits of `sqlite_sequence` from outside.
- NUL characters in keys and prefixes, and prefixes beyond SQLite's limit on LIKE patterns, which the server lets SQLite reject.
- `error` members that are no objects and results that are no objects: the client raises Python errors or passes them on. Arrays and strings that it stashes like notifications appear as notifications without content.
- `initialize` of the raw client: two more uses of the same request and send operations.
- ZIP entry checksums and I/O errors by kind: each disk operation may fail. The sidecar check of `restore` is made once, as in the code; a sidecar that appears later is not noticed.
- In `Protocol` sealing is one step under the lock; the row-by-row loop is `Audit.SealEach`.
- The server lock orders the threads of one process in `ModelLock` only; `Protocol` lets them interleave freely.
- Calls in `Protocol` begin after their key and value were accepted; the refusals before that are part of `MemoryServer`.
