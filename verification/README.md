# A verified model of the ScyllaDB PHP driver's asynchronous core

The driver is a PHP extension written in C over a C/C++ driver. This project models six of
its components in Dafny and proves what they promise. `dafny verify dfyconfig.toml` checks
all of it.

**The completion reactor** (`ReactorModel`, `ReactorInvariant`, `ReactorTheorems`,
`ReactorRuns`, `ReactorPolls`, `ReactorLists`). Driver IO threads and the PHP thread share a mutex-guarded ready-list, one
descriptor, a compare-and-swap flag per record, a registered-list and two levels of
reference count. The threads are a step system whose steps interleave freely; the theorems
are about every reachable state and every run. Each add() gets a ticket, so that delivery
and order can be stated. `ReactorLists` has the same lists as heap objects with their
pointers, updated in place.

**The address parser and printer** (`InetGrammar`, `InetReference`, `InetLanguage`,
`InetParser`, `InetFormat`, `InetCase`). The grammar is section 3.2.2 of RFC 3986 as derivation trees
with the bytes they denote. A recursive-descent reference is proved equal to it. The
nine-state machine, with its pointer rollback and in-place expansion of "::", is proved to
keep what the reference makes of the remaining text, one token at a time.

**The per-future notifier and the poll loop** (`NotifierModel`, `NotifierTheorems`,
`PollLoop`). The notifier is a step system over its atomic accesses. The loop is a class
whose callbacks are arbitrary scripts of calls back into it, to any depth.

**Result paging** (`Paging`, `PagingObjects`). Rows and FutureRows objects of one executed
statement, with the references to driver results that move between them.

**The persistent cache** (`CacheKey`, `PersistentCache`). One table for clusters, sessions
and prepared statements with counters and caps, and the FNV-1a keys it is indexed by.

**Map and Set iteration** (`Iteration`, `Collections`). A current and a look-ahead pointer
over an insertion-ordered list that changes underneath.

Assumptions about the environment, each stated where it is used:

- The C/C++ driver accepts at most one callback per future; a resolved future stays
  resolved. For record lifetime in the reactor: an accepted callback has taken the
  compare-and-swap before readiness shows to the PHP thread. `EagerDriverFaults` shows that
  this is needed.
- The server's page is determined by the paging state the statement holds when executed.
- The hash table behind Map and Set keeps insertion order.
- The polling context gives a watcher a handle that no live watcher has; that of a watcher
  the user removed may come back.
- The engine frees an object only when nothing refers to it.

I/O outcomes, timeouts, decode results, the wait() answers and user code are parameters.

Where the code does not meet a property, the exact condition is proved and an instance is
given:

- the 32-bit cast of poll()'s limit (`LimitExact`, `CastTakesOne`);
- the unexpected-future exception when decoding is not deterministic (`NextPage`,
  `UnexpectedFutureReached`);
- a FutureSession whose shared entry is gone and that evicts a session handed out since
  (`Get`, `LentGoesIff`, `StaleGetEvictsLent`), reading freed memory on the way
  (`ReadsFreedIffStale`);
- a cluster or statement whose key collides with that of a lent session (`Build`,
  `Prepare`, `CollidingBuildEvictsLent`);
- keyspaces that differ behind a NUL (`SessionStreamDetermines`, `TruncatedKeyspacesMeet`);
- the current entry of an iterator whose entry is removed (`CurrentDanglesIff`, `Current`,
  `CurrentCanDangle`).

In the address parser the test for two stored bytes before a rollback never fails, because a
decimal field has always stored them.

## Model

| member | source | states |
|---|---|---|
| ReactorInvariant.StepInv | src/Async/Reactor.c:124-562 | Every step of either thread (add, callback, append, signal, poll, requeue, reclaim, reset) keeps the whole invariant: list shape, slots, pins, ledger, order, wakeup, lifetime. |
| ReactorTheorems.ReachableInv | src/Async/Reactor.c:124-562 | The invariant holds in every state a run of a conforming driver and of PHP can reach. |
| ReactorTheorems.ExactlyOnce | src/Async/Reactor.c:124-232 | In every reachable state each add() ever accepted is in exactly one of: awaiting its callback, being appended, ready-list, held by the running poll, over (delivered, discarded or withdrawn). |
| ReactorRuns.OverForGood | src/Async/Reactor.c:124-232 | A ticket delivered, dropped or withdrawn stays so, and in the same way, under every step of either thread. |
| ReactorRuns.DeliveredAtMostOnce | src/Async/Reactor.c:124-283 | Along every run from a reachable state the steps that take a ticket out of the reactor number at most one, and exactly one if it is over at the end and was not at the start. |
| ReactorPolls.DeliveredAsAsked | src/Async/Reactor.c:477-524 | Along every run from a fresh reactor the i-th accepted add() is ticket i; it is called only if a callback was given and returned only if none was, and every record and collected item, also one put back after a throw, is for the future that was given. |
| ReactorPolls.ClaimedOnce | src/Async/Reactor.c:484-488 | In every reachable state a future is in the reactor or has a descriptor of its own, never both, and add() is refused exactly for those. |
| ReactorTheorems.Counters | src/Async/Reactor.c:154-191 | pending equals the length of the registered-list, the reactor refcount is one plus the live records, every live record has two references. |
| ReactorTheorems.NoLostWakeup | src/Async/Reactor.c:547-561 | Outside the drain-to-splice window a non-empty ready-list means a readable descriptor, or a thread that holds the lock and is about to signal, which it can do. |
| ReactorTheorems.ReadyIsOutstanding | src/Async/Reactor.c:197-224 | Outside poll() the ready-list is exactly what was appended and not yet delivered or dropped, in append order. |
| ReactorTheorems.ConsumeIsFifo | src/Async/Reactor.c:243-283 | The record poll() takes next is the first outstanding one after those it has already collected. |
| ReactorTheorems.PollReturns | src/Async/Reactor.c:527-562 | A poll that returns took the first min(limit, spliced) records of what it spliced, delivered each of them, and left everything else ready in append order. |
| ReactorPolls.PollDelivers | src/Async/Reactor.c:527-562 | A whole poll without a throw, under any interleaving: of what was ready at its start and had arrived when it spliced it delivers the first ones, all of them without a limit and otherwise as many as the limit cast to 32 bits (0 being none), and nothing else; the others stay ready, followed by later arrivals. |
| ReactorPolls.PollDrains | src/Async/Reactor.c:547-550 | Such a poll that takes everything while no completion is signalled leaves the descriptor unreadable. |
| ReactorPolls.ThrowStopsPoll | src/Async/Reactor.c:277-279 | From the step in which a callback throws until the poll is over no record can be consumed and no ticket becomes called or returned; at the end the collected futures, the unreached records, what was ready and what arrived are ready in that order. |
| ReactorTheorems.ThrowRestoresOrder | src/Async/Reactor.c:552-561 | After a throwing callback the ready-list is the futures already collected, then the unconsumed remainder, then what was ready or arrived meanwhile: nothing lost, nothing twice, whatever the IO threads do during the unwinding. |
| ReactorTheorems.AddThatThrows | src/Async/Reactor.c:495-517 | An add() whose callback the driver refuses on a pending future leaves the registered-list, both counters, slots and pins as they were before it and withdraws its ticket, for every interleaving with the IO threads. |
| ReactorRuns.RefusedAddIsInvisible | src/Async/Reactor.c:495-517 | The whole state after such an add() is that of running the interleaved IO steps without it, but for the record and ticket numbers used up and the withdrawn ticket. |
| ReactorTheorems.DriverRunFrame | src/Async/Reactor.c:226-232 | No sequence of driver steps touches what belongs to the PHP thread. |
| ReactorTheorems.ResetAccounting | src/Async/Reactor.c:366-387 | During a reset, twice the registered count minus the queued count falls by exactly the appends and consumptions made. |
| ReactorRuns.TurnMakesProgress | src/Async/Reactor.c:366-387 | Every turn of the reset loop, from one wait to the next, consumes a record or sees an append finish, if appends in flight at the splice are let finish in that turn. |
| ReactorRuns.ResetTerminates | src/Async/Reactor.c:366-412 | Such a reset takes at most twice as many turns as there are records; after that many, or once no record is left, it can end and ends with both lists empty, every record freed, every pin released. |
| ReactorPolls.PhpGoesOn | src/Async/Reactor.c:366-562 | In every reachable state the next step of the PHP thread is enabled, or an IO thread about to signal holds the lock, or a reset waits for a future the driver has not resolved; whether a callback throws is open until it has run. |
| ReactorTheorems.ResetNeverStuck | src/Async/Reactor.c:372-386 | A reset that finds the ready-list empty with records left has an append in flight that can finish. |
| ReactorTheorems.ResetEndsEmpty | src/Async/Reactor.c:389-412 | A finished reset leaves both lists empty, every record freed, every pin released, no callback outstanding and the descriptor drained. |
| ReactorTheorems.NoUseAfterFree | src/Async/Reactor.c:162-175 | No step touches a freed record; every record a thread or list can reach is live, its slot points back at it and its future is pinned. |
| ReactorTheorems.FreedForGood | src/Async/Reactor.c:162-175 | A freed record never comes back, so no record is freed twice. |
| ReactorTheorems.LateCallbackFaults | src/Async/Reactor.c:131 | A record consumed while its accepted callback has yet to run is freed before that callback touches it. |
| ReactorTheorems.EagerDriverFaults | src/Async/Reactor.c:504-524 | A driver that shows readiness before it runs an accepted callback reaches a use of a freed record: the lifetime claim needs the assumption. |
| ReactorTheorems.LimitExact | src/Async/Reactor.c:550 | poll(max) takes min(max, ready) records for every ready-list a 32-bit count can hold if and only if max is below 2^32 or its low 32 bits are all zeros or all ones. |
| ReactorLists.CastTakesOne | src/Async/Reactor.c:550 | With a limit of 2^32 + 1 and two ready records, poll() returns one and leaves the other ready. |
| ReactorLists.Reactor.RegCreate | src/Async/Reactor.c:124-156 | A fresh record becomes the head of the doubly linked registered-list, with the counts following. |
| ReactorLists.Reactor.Dispose | src/Async/Reactor.c:158-192 | Unlinking a record anywhere in the registered-list removes exactly it, keeps the links of the rest, and drops both references. |
| ReactorLists.Reactor.Enqueue | src/Async/Reactor.c:197-224 | Only the first caller appends, at the tail, and signals once. |
| ReactorLists.Reactor.AddResolved | src/Async/Reactor.c:495-500 | A future resolved on construction is registered and goes to the end of the ready-list with one signal. |
| ReactorLists.Reactor.Splice | src/Async/Reactor.c:355-364 | The whole ready chain is taken and the list left empty. |
| ReactorLists.Reactor.Requeue | src/Async/Reactor.c:288-304 | The remainder goes in front of what is ready now, head and tail stay well formed, one signal. |
| ReactorLists.Reactor.Consume | src/Async/Reactor.c:243-283 | Records are disposed of from the front until the batch, the limit or a throw ends it; it throws exactly if a callback among those taken throws, which is then the last one; what is collected and what is called are the records without and with a callback, in order. |
| ReactorLists.DispatchSplits | src/Async/Reactor.c:256-281 | What is called and what is collected of two lists in a row is that of the first followed by that of the second; a single record is called if it has a callback and collected if not (`DispatchOne`). |
| ReactorLists.Reactor.ReRegister | src/Async/Reactor.c:313-343 | Collected futures become fresh registered records, chained in order. |
| ReactorLists.Reactor.Reclaim | src/Async/Reactor.c:313-352 | The collected futures stand again in front of the ready-list, in order. |
| ReactorLists.Reactor.TakeBatch | src/Async/Reactor.c:547-554 | Drain, splice, consume and requeue leave exactly the untaken suffix ready and a readable descriptor if it is not empty. |
| ReactorLists.Reactor.Poll | src/Async/Reactor.c:527-562 | A limit below one is refused without effect; otherwise a prefix is taken, the whole list without a limit, up to the first callback that throws; after a throw the ready-list is the collected futures followed by the untaken suffix, and without one the descriptor is readable exactly if something is left. |
| ReactorLists.ThrowKeepsTheRest | src/Async/Reactor.c:552-561 | Of two ready futures the first one throws in its callback: poll() returns nothing and the second stays ready. |
| InetLanguage.ParseIffDenotes | src/InetUtil.c:124-449 | The recursive reference parser yields an address if and only if the text is an RFC 3986 section 3.2.2 IPv4address or IPv6address that denotes it. |
| InetLanguage.TreeIsParsed | src/InetUtil.c:186-251 | The text of every IPv6address derivation is read as the 16 bytes the derivation denotes. |
| InetLanguage.ParseSound | src/InetUtil.c:186-251 | Every text read successfully has a derivation with those bytes. |
| InetLanguage.DenotesLength | src/InetUtil.c:148-154 | No valid address is longer than 45 characters, so the limit of 49 refuses none. |
| InetLanguage.DenotesAlphabet | src/InetUtil.c:141-146 | A valid address holds only hex digits, colons and dots, so the NUL test refuses none. |
| InetReference.DecOctetIff | src/InetUtil.c:298-316 | The leading-zero and range tests on a decimal token accept exactly the rule dec-octet. |
| InetParser.Tokenize | src/InetUtil.c:69-122 | The token at a position is the longest run of at most four hex digits (decimal or not), a colon, a dot, the end, or one illegal character; nothing past the terminator is read. |
| InetParser.OnField | src/InetUtil.c:215-251 | One turn in the field state keeps the meaning of the remaining text: two bytes stored, or the end after "::", or a refusal, or an overflow that must be refused. |
| InetParser.OnDot | src/InetUtil.c:277-289 | Rolling the input pointer and the two bytes back re-reads the digits as an octet without changing what the text means. |
| InetParser.OnIpv4Byte | src/InetUtil.c:297-344 | One octet is stored, or refused exactly when it is no dec-octet, or overflows into a refusal; the fourth decides the family. |
| InetParser.FromCompressed | src/InetUtil.c:196-366 | Each of the states from COMPRESSED on keeps the meaning of the text, or stops with bytes that have it, or throws only when there is none. |
| InetParser.OneTurn | src/InetUtil.c:168-366 | The same for a whole turn with its fall-throughs; the measure (IPv4 phase not entered, text left) goes down. |
| InetParser.ExpandZeros | src/InetUtil.c:389-415 | The overlapping in-place move yields prefix, zeros, suffix; the index guard never fires. |
| InetParser.Conclude | src/InetUtil.c:377-448 | Byte counts decide: what the loop left is expanded, accepted or refused exactly as the reference parser says, never with IndexOutOfBounds. |
| InetParser.RunMachine | src/InetUtil.c:156-448 | The loop terminates, keeps every byte past pos zero, and answers as the reference parser does; an error names the token at its position. |
| InetParser.ParseIpAddress | src/InetUtil.c:124-449 | A string is accepted with an address if and only if the RFC 3986 grammar derives it with that address; NUL and length errors arise exactly for NUL and for more than 49 characters. |
| InetCase.CaseDoesNotMatter | src/InetUtil.c:85-91 | A text and the same text in capitals denote the same addresses. |
| InetCase.HexValueIsPlace | src/InetUtil.c:85-91 | A hex digit of either case has the value of its place in the alphabet of sixteen. |
| InetFormat.FormatIsDenoted | src/InetUtil.c:451-465 | The printed form of every 4- or 16-byte address is a valid address that denotes it. |
| InetFormat.FormatIsPlain | src/InetUtil.c:451-462 | An IPv6 address is printed as eight groups of lower-case digits without leading zeros, none left out. |
| InetFormat.FormatThenParse | src/InetUtil.c:124-465 | Parsing the printed form gives back the same family and bytes. |
| NotifierTheorems.StepInv | src/FutureNotifier.c:125-330 | Every atomic step of the PHP thread, the callback and the handles keeps the notifier invariant. |
| NotifierTheorems.RefcountExact | src/FutureNotifier.c:125-164 | In every reachable state the count is the Future slot plus the outstanding callback plus the live poll handles (plus what a call in progress holds), and the notifier lives exactly while that is positive. |
| NotifierTheorems.NeverTouchesFreed | src/FutureNotifier.c:166-177 | No interleaving pokes, counts on or unrefs a freed notifier, and the extra reference is never the last. |
| NotifierTheorems.ClosedOnce | src/FutureNotifier.c:142-164 | The descriptor is closed once, exactly when the last holder has let go. |
| NotifierTheorems.ClosedForGood | src/FutureNotifier.c:142-164 | From then on no run pokes, counts or closes it again. |
| NotifierTheorems.ReadableMeansResolved | src/FutureNotifier.c:303-326 | A readable descriptor means the future is resolved. |
| NotifierTheorems.ResolvedMeansReadable | src/FutureNotifier.c:321-329 | After ensure_notifier, a resolved future with no callback under way has a readable descriptor. |
| NotifierTheorems.EnsureEnds | src/FutureNotifier.c:290-330 | ensure_notifier always goes on, and ends with the notifier stored, or without one exactly if the driver refused the callback of a future that has not resolved. |
| NotifierTheorems.WakeupComes | src/FutureNotifier.c:166-177 | A resolved but unreadable notifier is at most two driver steps from readable, and those steps are enabled. |
| NotifierTheorems.AllReleased | src/Async/PollHandle.c:74-79 | With the Future, its handles and its callback gone, every notifier ever created is closed once and freed. |
| PollLoop.Loop.Watch | src/Async/Poll.c:224-281 | A new future is watched under its handle with its callback; an entry left under that handle, whose watcher the user removed, is destroyed and lost, and nothing else changes. |
| PollLoop.Loop.Take | src/Async/Poll.c:348-371 | The entry leaves the table before the context is asked; a failed remove loses exactly that future. |
| PollLoop.Loop.RunCallback | src/Async/Poll.c:422-425 | Arbitrary re-entrant user code keeps the ledger, cannot put an entry under a handle still in a ready array, and cannot move older entries; it ends as its script says, with a throw or without. |
| PollLoop.Loop.PassOne | src/Async/Poll.c:396-432 | The first pass fails exactly if one of the callbacks it ran threw or one of its removes failed; otherwise no ready entry with a callback is left. It hands nothing out. |
| PollLoop.Loop.PassTwo | src/Async/Poll.c:434-462 | The second pass hands out exactly the ready entries still watched, in ready order, none of which has a callback. |
| PollLoop.PickSplits | src/Async/Poll.c:434-462 | What a pass over ready handles finds is read off them one after the other, each entry once. |
| PollLoop.Loop.PollTick | src/Async/Poll.c:381-466 | A tick is its first pass and then its second, or stops after the first at a throw with nothing handed out; it fails exactly if a callback it ran threw or a remove it made failed. |
| PollLoop.Loop.Tick | src/Async/Poll.c:468-491 | tick() does the same, and nothing at all when nothing is watched. |
| PollLoop.Loop.Run | src/Async/Poll.c:493-518 | run() ticks while something is watched: it throws exactly when a tick fails, which is then its last, and otherwise ends with nothing watched; it loses nothing unless a remove throws or the user removes watchers. |
| PollLoop.ExactlyOnce | src/Async/Poll.c:348-466 | Every future ever watched is watched under one handle or left the loop once: called if it had a callback, handed out otherwise, or lost. |
| PollLoop.TickDispatches | src/Async/Poll.c:381-466 | A tick that does not throw dispatches every ready future; every callback among them comes before anything the tick hands out. |
| PollLoop.ThrowKeepsWatched | src/Async/Poll.c:427-430 | A tick one of whose callbacks throws fails and leaves every ready future without a callback watched, unless a tick inside a callback took it. |
| PollLoop.ThrowKeepsTheOther | src/Async/Poll.c:427-430 | From an empty loop: two ready futures, the callback of the first throws; the tick fails, hands out nothing, and the second is still watched. |
| PagingObjects.Execution.RowsCreate | src/Database/Rows.c:26-56 | A new Rows shows the page after that of its parent and takes the result over if and only if pages follow; a failed decode changes nothing. |
| PagingObjects.Execution.IsLastPage | src/Database/Rows.c:199-213 | True if and only if no further page exists, whatever was called before. |
| PagingObjects.Execution.NextPage | src/Database/Rows.c:215-299 | In any state the answer for page i is page i + 1, none exactly for the last page; a failed request is reported exactly if one had to be made and failed, a failed decode exactly if the page was at hand undecoded; the unexpected future is thrown exactly when a FutureValue stands without a next_result, which deterministic decoding excludes. |
| PagingObjects.Execution.ObtainNext | src/Database/Rows.c:225-293 | next_result is filled with the result of page i + 1, from the pending future or from the server. |
| PagingObjects.Execution.FetchNext | src/Database/Rows.c:253-291 | The page asked for is the one after the paging state set from this Rows object, however the shared statement was used before. |
| PagingObjects.Execution.NextPageAsync | src/Database/Rows.c:301-346 | A future stored before is returned again and nothing else happens; otherwise it is a ready value if the page is at hand, or a new request with the paging state of this page; a null value exactly for the last page. |
| PagingObjects.Execution.ReadyNow | src/Database/Rows.c:315-324 | A FutureValue for a page at hand gets its Rows object, or stays without a value if the decode throws. |
| PagingObjects.Execution.ValueGet | src/FutureValue.c:29-44 | get() gives the Rows object of the page the value stands for; with deterministic decoding it gives one whenever that page can be decoded. |
| PagingObjects.Execution.FutureGetResult | src/FutureRows.c:27-52 | The result of the driver future is fetched once and fetched again only after it was moved out. |
| PagingObjects.Execution.FutureGet | src/FutureRows.c:58-95 | However often it is called, get() answers with the page the future was asked for; it throws exactly if the result is not at hand and the request failed, or the rows are not and cannot be decoded. |
| PagingObjects.Execution.RowsFree | src/Database/Rows.c:432-458 | Both results are freed and the statement share dropped; the rest stays valid. |
| PagingObjects.Execution.FutureFree | src/FutureRows.c:146-163 | The result is freed and the statement share dropped; the rest stays valid. |
| PagingObjects.Execution.ValueFree | src/FutureValue.c:94-108 | Freeing a FutureValue that no Rows points to touches no reference and no statement share. |
| PagingObjects.Execution.Execute | src/DefaultSession.c:621-663 | A request that fails leaves nothing; a page that cannot be decoded has its result freed; otherwise there is one Rows object, which keeps result and statement exactly if pages follow, the result being freed if not. |
| PagingObjects.Execution.Walk | src/Database/Rows.c:199-346 | Walking on, each step synchronous or through a future at will, yields the concatenation of the pages up to the first whose request or decode fails, and the whole result set if none does. |
| PagingObjects.ConcatSplits | src/Database/Rows.c:199-346 | The rows of a run of pages are those of its first part followed by those of the rest. |
| PagingObjects.OneOwner | src/Database/Rows.c:43-55 | Each result reference has exactly one owner among Rows.result, Rows.next_result and FutureRows.result, and is not freed while owned. |
| PagingObjects.StatementHeldIff | src/Database/Rows.c:444-447 | The statement count is the number of Rows and FutureRows holding it, and zero exactly when none does. |
| PagingObjects.NothingLeaks | src/FutureRows.c:146-180 | With all Rows and FutureRows gone no result reference and no statement share is left. |
| PagingObjects.UnexpectedFutureReached | src/Database/Rows.c:227-237 | With decoding that fails once and then succeeds, the unexpected-future exception is thrown. |
| Paging.CreatedOk | src/Database/Rows.c:43-55 | Making a Rows object keeps ownership, labels, counts and the settled state of every object. |
| CacheKey.StepIsBijective | include/php_scylladb_cache_key.h:39-42 | For each byte, one FNV-1a step is a bijection on 64-bit states. |
| CacheKey.StreamIsInjective | include/php_scylladb_cache_key.h:44-51 | Mixing any stream keeps different states different. |
| CacheKey.OneByteSeparates | include/php_scylladb_cache_key.h:44-51 | Streams that differ in exactly one byte never share a key. |
| CacheKey.MixBytes | include/php_scylladb_cache_key.h:44-51 | The loop folds the step over the buffer. |
| CacheKey.KnownHashes | include/php_scylladb_cache_key.h:32-51 | Three published values of the 64-bit FNV-1a hash. |
| CacheKey.EightBytesOrder | include/php_scylladb_cache_key.h:53-69 | Integers are mixed least significant byte first. |
| CacheKey.MixCstr | include/php_scylladb_cache_key.h:81-91 | The characters up to the first NUL and one separator are mixed; for a null pointer the separator alone. |
| CacheKey.EncodeDetermines | src/Cluster/Builder.c:160-212 | Equal streams of one layout come from equal fields, a null string counting as empty. |
| CacheKey.ProfilesDetermined | src/Cluster/Builder.c:214-228 | The profile part of the stream determines how many profiles there are and each name and fingerprint. |
| CacheKey.ClusterKeyStreamDetermines | src/Cluster/Builder.c:160-230 | The bytes mixed into a cluster key determine every mixed field and profile. |
| CacheKey.ClusterKey | src/Cluster/Builder.c:160-230 | Threading h through the mixers computes the key of that stream. |
| CacheKey.SessionStreamDetermines | src/Cluster/DefaultCluster.c:69-72 | Session streams are equal if and only if cluster key and keyspace agree, the keyspace as far as its first NUL, which is all of it if it has none. |
| CacheKey.TruncatedKeyspacesMeet | src/Cluster/DefaultCluster.c:71 | The keyspaces a and a-NUL-b share a session stream. |
| CacheKey.SessionKey | src/Cluster/DefaultCluster.c:69-72 | The mixers compute the key of the session stream. |
| CacheKey.PreparedStreamDetermines | src/DefaultSession.c:848-851 | Prepared-statement streams are equal if and only if session key, query and keyspace (up to a NUL) agree, though the query is not terminated. |
| CacheKey.PreparedKey | src/DefaultSession.c:848-851 | The mixers compute the key of the prepared-statement stream. |
| PersistentCache.Cache.CanCache | src/php_scylladb.c:706-749 | There is room exactly if the cap is negative or above the counter; the warning is given once. |
| PersistentCache.Cache.Delete | src/php_scylladb.c:271-318 | Removing an entry frees what it owns and lowers the counter of its kind, which was positive. |
| PersistentCache.Cache.Update | src/Cluster/DefaultCluster.c:106-115 | Inserting over an entry of any kind keeps every counter equal to its number of entries and below its cap. |
| PersistentCache.Cache.Build | src/Cluster/Builder.c:232-246 | A cluster persists exactly if it was asked to and is a hit or there is room; the table is the old one with the cluster under its key, so another kind of entry goes exactly if it collides with a cached miss. |
| PersistentCache.CollidingBuildEvictsLent | src/Cluster/Builder.c:232-246 | A cluster key equal to the key of a lent session evicts that session. |
| PersistentCache.Cache.Begin | src/Cluster/DefaultCluster.c:181-226 | The shared lookup of both connects borrows, caches or stays private, and evicts no lent session even under a colliding key. |
| PersistentCache.Cache.Connect | src/Cluster/DefaultCluster.c:65-152 | A hit hands out the cached session exactly if its future resolves well; a miss is cached under its key unless the pool is full; a failed attempt leaves no entry; no lent session is evicted or freed. |
| PersistentCache.Cache.Finish | src/Cluster/DefaultCluster.c:118-151 | Only an entry whose future timed out or failed is evicted, and such an entry was never lent. |
| PersistentCache.Cache.ConnectAsync | src/Cluster/DefaultCluster.c:154-227 | A FutureSession shares the entry under its key, cached now on a miss unless the pool is full, or owns a private session; no lent session is evicted. |
| PersistentCache.Cache.Get | src/FutureSession.c:31-123 | For each fate of the future and each way the wait ends: what is handed out, whether an exception is recorded, what is lent, freed and evicted; a session handed out before is handed out again with nothing changed; the entry of a lent session goes if and only if the call evicts and that session stands under its key, which cannot be while the entry it was made with does. |
| PersistentCache.HandedForGood | src/FutureSession.c:53-55 | What get() handed out once it hands out at every later call, whatever becomes of the futures. |
| PersistentCache.GetTwice | src/FutureSession.c:53-55 | From any cache: an asynchronous connect that misses and resolves well hands out a session, and the same one at the next get(), however that one waits. |
| PersistentCache.LentGoesIff | src/FutureSession.c:84-108 | A get() takes a lent session out of the table exactly if its future is bad, or times out under a non-zero key, and a lent session stands under that key. |
| PersistentCache.CurrentSparesLent | src/FutureSession.c:84-108 | Such a FutureSession is stale: its own entry is no longer in the table. |
| PersistentCache.ReadsFreedIffStale | src/FutureSession.c:80-108 | A get() that comes to wait does so on a freed future, with a freed session, exactly if the FutureSession is stale. |
| PersistentCache.StaleGetEvictsLent | src/FutureSession.c:84-108 | From an empty cache: two asynchronous connects share an entry, the first times out, a connect succeeds under the key, and the second timeout evicts and frees the session that was handed out. |
| PersistentCache.Cache.Prepare | src/DefaultSession.c:845-922 | It succeeds exactly if a good usable statement is cached, which is reused, or the server prepares one; a bad one is dropped and never kept; a new one is cached if there is room; a session under the key goes exactly if a statement is cached over it, and every entry under another key is kept. |
| PersistentCache.Cache.Await | src/FutureUtil.c:23-58 | A resolved future is never waited for, so a good one can neither time out nor fail. |
| PersistentCache.PoolBounded | src/php_scylladb.c:706-749 | Each counter is the number of entries of its kind and never exceeds a non-negative cap. |
| PersistentCache.PoolsAreTable | src/php_scylladb.c:255-268 | The three counters add up to the size of the table. |
| Iteration.RewoundOk | src/Map.c:364-369 | rewind() starts a schedule of all entries. |
| Iteration.AdvancedOk | src/Map.c:351-356 | next() keeps the schedule, and what becomes current is a live entry. |
| Iteration.InsertedOk | src/Map.c:57-68 | A new entry joins the end of the schedule unless the look-ahead has run out. |
| Iteration.DeletedOk | src/Map.c:108-119 | Removing an entry, the look-ahead one included, takes exactly it off what is ahead. |
| Iteration.IterationComplete | src/Map.c:351-369 | At the end the entries present at rewind that became current are exactly those not removed before their turn, each once, in insertion order. |
| Iteration.KeptEntriesAreVisited | src/Map.c:95-122 | For any interleaving of next, insert and remove, an entry present at rewind and never removed becomes current once, in insertion order. |
| Iteration.SkippedNeverCurrent | src/Map.c:108-119 | An entry removed before its turn never becomes current. |
| Iteration.LookAheadLive | src/Map.c:111-113 | The look-ahead is null or a live entry, and so is everything after it. |
| Iteration.CurrentDanglesIff | src/Map.c:95-122 | After any calls since rewind(), the current entry is live if and only if its own removal is not among them. |
| Iteration.CurrentLastsUntilRemoved | src/Map.c:108-119 | Between two calls of next(), from any position, the iterator stays where it is and its entry is live exactly as long as no call removes it. |
| Iteration.CurrentCanDangle | src/Map.c:108-119 | Removing the current entry leaves the iterator pointing at it. |
| Collections.OrderedMap.Set | src/Map.c:29-71 | A known key keeps its entry and place, a new one goes last; a refused argument changes nothing. |
| Collections.OrderedMap.Get | src/Map.c:73-93 | The value stored under the key, or none. |
| Collections.OrderedMap.Del | src/Map.c:95-122 | Exactly the entry with the key goes, and the iterator steps over it. |
| Collections.OrderedMap.Rewind | src/Map.c:364-369 | The iterator stands on the first entry with the second ahead. |
| Collections.OrderedMap.Next | src/Map.c:351-356 | The look-ahead becomes current and is an entry of the map. |
| Collections.OrderedMap.Current | src/Map.c:337-349 | The entry under the iterator; it dangles if and only if that entry was removed by a call since rewind(). |
| Collections.OrderedSet.Add | src/Set.c:30-57 | A new value goes last; a known one changes nothing, not even the dirty mark. |
| Collections.OrderedSet.Del | src/Set.c:59-85 | Exactly that value goes, and the iterator steps over it. |
| Collections.OrderedSet.Rewind | src/Set.c:268-275 | The iterator stands on the first value with index zero. |
| Collections.OrderedSet.Next | src/Set.c:250-257 | The look-ahead becomes current, and while there is one the index is its place among those visited. |

## Left out

- The C/C++ driver, libuv, the eventfd and pipe system calls and stream wrapping: a descriptor is a counter or a flag, a driver future a small state machine.
- Re-entrant poll() or add() from inside a reactor callback: reactor callbacks return or throw. Re-entrancy is modelled in the poll loop.
- Memory ordering: each step of the reactor and of the notifier is one atomic access, so the steps are sequentially consistent.
- The pipe backend's limited capacity: a descriptor counter does not saturate, which only matters for how many signals are pending, not for readability.
- The coroutine bridge and the coroutine branch of the waits.
- What the driver does with a freed future or session: the model says when get() reaches one, and lets the read see the last state.
- ReactorLists.Reactor.Poll: the heap lists are sequential; arrivals in the middle of a poll are in the step system.
- That a cached cluster equals a fresh one: build() does not mix every builder setting into the key.
- Ownership of private sessions and futures outside the cache: it would only add easy members.
- Rows, FutureRows and FutureValue objects are records in tables keyed by identity, not heap objects, so aliasing between two PHP variables is not modelled; the row cursor, count, offsets, first() and wasApplied() are left out as easy.
- A batch whose result has further pages: execute() drops the result; batches return none.
- InetParser.ParseIpAddress: an error names the token at its position, or a wrong count of bytes; which kind of error a text with several faults gets is not promised.
- A wait of the polling context that itself fails: the tick ends with nothing changed.
- Hash and comparison of Map and Set keys: keys are compared by equality; type validation is a parameter.
- The texts of error messages; parser errors carry their kind, token and position.
- Bind dispatch, result decoding by type, schema metadata, builder setters, INI handlers, logging and class registration.
- Blob, date, time, duration and UUID conversions.
