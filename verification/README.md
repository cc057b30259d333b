# Verified model of the Fastly Compute C++ SDK

A Dafny 4.11 model of the parts of the SDK that hold real state: the buffered HTTP bodies, the cache transaction
protocol with the simple cache on top of it, and the ownership of pending requests. Check everything with
`dafny verify dfyconfig.toml`.

## What is modelled

**Bodies.** `Bodies.dfy` has `Body` and `StreamingBody` as classes with their two 512-byte arrays and pointer offsets,
over a host body (`HostIo.dfy`) that takes any part of what it is offered, possibly nothing, and hands out any
non-empty part of what it holds. Every method adds what it did to a ghost log, and an object is valid only while the
log explains its fields; `StreamLog.dfy` proves the theorems about all logs, `StreamTags.dfy` the exact ones, in which
each written byte carries its number so that equal bytes can be told apart. Calls of the base class follow section
29.6.3 of ISO C++20: an insertion is as if by repeated `sputc`, `sbumpc` on an empty get area goes through the default
`uflow`, and insertions and flushes do nothing on a stream that is no longer good. `char` is signed, as on wasm32.
A host error inside the buffered operations ends the process, which is the outcome `Aborted`; the host body keeps a
record of its calls and answers, so that this, and nothing else, is proved to end it.

**Simple cache.** `CacheProtocol.dfy` is a step system of any number of callers of `get_or_set_with`, new calls, purges
and expiry, with the host's answers and the closures' results as free parts of the steps. `CacheTheorems.dfy` proves
what holds of every run, `CacheWaits.dfy` who can return, `CacheDeadlocks.dfy` which closures may use the cache
themselves, `CacheMap.dfy` that sequential use is a map. `SimpleCache.dfy` has the functions themselves as
methods, with arbitrary steps of others between any two host calls, and shows each is a run of that system.
A step carries the host's free choice in it: which call fails, how much of an entry the move into `append` gets to the
host, whether a lookup left without an owner is still answered.
`SurrogateKeys.dfy` and `ListEncoding.dfy` hold the key derivation and the flat list encodings, `AbiOptions.dfy` and
`Builders.dfy` the option records, `FoundReads.dfy` metadata and ranges, `Handles.dfy` the shared host handles.

**Requests and iterators.** `PendingRequests.dfy` models the boxes that panic when emptied twice, over a host that keeps
a record of its answers, `IteratorRange.dfy`
the adapter from a one-shot `next()` to a C++ range.

Some functions of the source are several methods here: the drain loop that both `overflow` functions repeat is
`Bodies.DrainLoop` with `Offer`, `as_abi(WriteOptions &)` is cut in two with the block each optional field repeats in
`AbiOptions.SetOption`, and `get_or_set_with` is `GetOrSetWith` with `ReadFound`, `Fill` and `InsertAndReadBack`.

## Assumptions

- The host's cache rules are those include/fastly/cache/core.h documents at lines 391-396, 508-512 and 691-740: a lookup
  waits while another client holds the obligation for its key, and is answered once that client has provided the item's
  metadata or has given the obligation up, with an item or with the obligation.
- Closing the last handle of a transaction whose obligation is unmet gives the obligation back. The header promises this
  for `cancel_insert_or_update` and for errors; for a closed handle it is assumed. A handle that is never closed keeps
  its lookup alive: the host may answer it at any time.
- All use of the keys in question is by `get_or_set_with`, from the program's processes and from its closures, beside
  lookups outside any transaction and purges. A closure ends once the calls it makes have ended.
- A host call fails exactly if its status is not zero; statuses have the numbers of src/cpp/fastly.h:14-29.
- An insertion whose `finish` fails leaves no usable item.
- The host splits a surrogate-key option at its spaces, and a purge removes the items with that key.
- SHA-256 (section 6.2 of FIPS 180-4) is a parameter. Where a result needs it, it is assumed not to collide on the inputs
  that belong to the keys in question, and nothing more.
- With `always_use_requested_range`, a stream of a range that goes beyond the body yields what there is of it first.
- A metadata call that does not fail otherwise either fills the buffer or reports the length it needs.
- The selection behind `select` returns the request that became ready and all the others, and panics on an empty list.

## What turned out not to hold in general

Each has its exact condition in the table.

- A drain that is cut off by a zero-length write keeps the whole buffer, so a retry sends the accepted prefix twice; a
  move ignores that its drain fell short and drops the buffer; `append` and raw writes overtake buffered bytes, and raw
  reads skip unread ones, although include/fastly/http/body.h:48 calls reads and writes buffered
  (`StreamTags.OnceExact`, `StreamTags.NothingLostExact`, `StreamTags.ConservationExact`).
- When the state query inside a transactional lookup fails (src/cpp/cache/core.cpp:328), the handle has no owner yet
  and is never closed. If the host answers that lookup with the obligation, nobody can meet it or give it back, and
  later callers of the key wait for ever (`CacheTheorems.ObligationLeaksExact`, `CacheDeadlocks.LeakHappens`).
- A closure runs while its caller holds the obligation. One that calls the function for its own key, or two that call it
  for each other's, wait for ever without any failure (`CacheDeadlocks.DeadlockExact`, `CacheWaits.ReturnsExact`).
- The entry of a closure reaches the cache only as far as the drain of its move goes, and without what had been read into
  its get area; the insertion succeeds all the same and every caller shares the rest (`CacheTheorems.CutEntryIsShared`).
- `finish` ignores the outcome of its flush (`Bodies.StreamingBody.Finish`), and `StreamingBody::append` does not flush
  its argument (`StreamLog.AppendsAllExact` with a stream that does not flush).
- `take_body_string` stops at a refill that starts with 0xFF; only contents without 0xFF survive every host
  (`ReadRuns.SafeContentExact`).
- A purge reaches a second key if one is the other followed by the POP name (`SurrogateKeys.PurgeReachExact`).

## Model

| member | source | states |
|---|---|---|
| StreamLog.Conservation | src/cpp/http/body.cpp:8-83 | for every run of puts, flushes, gets, raw reads and writes, appends and moves, whatever partial sizes the host picks: if no event breaks the stream, the bytes read, then the get area, the host queue and the put area, are exactly the bytes written, in order |
| StreamTags.ConservationExact | src/cpp/http/body.cpp:25-83 | for every run on any bytes, each told apart by its number, in which raw reads skip nothing or raw writes and appends overtake nothing: the bytes come out in the order written if and only if no event broke the run: no put or flush gave up half-way, no move's drain fell short, nothing overtook buffered bytes, nothing skipped unread ones; no later event repairs a break |
| StreamTags.OnceExact | src/cpp/http/body.cpp:25-83 | in every run on any bytes each numbered byte is read or held exactly once if and only if no drain was cut off half-way and no move's drain fell short, whatever was reordered |
| StreamTags.SkippedForGood | src/cpp/http/body.cpp:63-73 | with whole drains and no overtaking, what was read is the beginning of what was written, byte by numbered byte, if and only if no raw read skipped unread bytes |
| StreamTags.NothingLostExact | src/cpp/http/body.cpp:25-73 | in every run on any bytes each numbered byte is still read or held if and only if no move's drain fell short: a short move loses the last buffered byte for good |
| StreamTags.TagRun | src/cpp/http/body.cpp:8-83 | numbering the written bytes changes nothing: without the numbers the numbered run is the run, and no two written bytes have the same number |
| StreamTags.TagBreaks | src/cpp/http/body.cpp:25-83 | the numbered run has its cut drains, short moves, overtaking writes and skipping reads at the same events |
| StreamLog.ReorderingsCanCancel | src/cpp/http/body.cpp:58-73 | a concrete run with both kinds of reordering, in which a skipping read undoes an overtaking append: there no condition on single events is exact |
| StreamLog.NothingLost | src/cpp/http/body.cpp:25-73 | as a multiset of bytes, numbers aside, what is read or held contains what was written unless a move's drain fell short |
| StreamLog.StreamsThatBreak | src/cpp/http/body.cpp:39-73 | concrete runs in which a raw read skips, an append overtakes, a retried flush doubles its prefix, and a move loses a byte |
| StreamLog.RetryAfterShort | src/cpp/http/body.cpp:28-46 | a drain that fell short followed by one that succeeds hands over the accepted prefix and then the whole buffer |
| StreamLog.PendingBounded | include/fastly/http/body.h:142 | in every run the put area holds at most 512 bytes |
| StreamLog.PutsFill | src/cpp/http/body.cpp:28-50 | the first 512 bytes put are all buffered, whatever the host would do |
| StreamLog.MovesTransparentExact | include/fastly/http/body.h:70-79 | any chain of moves keeps the unread bytes, and keeps all bytes held exactly when nothing was buffered or the first move's drain did not fall short |
| StreamLog.AppendsAllExact | src/cpp/http/body.cpp:58-61 | an append delivers all its argument holds exactly when the argument's get area is empty and its flush took place in full |
| Bodies.DrainLoop | src/cpp/http/body.cpp:28-45 | each offer is all that is left of the buffer; the loop commits a prefix in order, succeeds exactly when all of it was taken, gives up exactly on a zero-length write, ends the process exactly on a host error, and terminates |
| Bodies.Body.constructor | include/fastly/http/body.h:65-69 | a new body is empty, good and has an empty log |
| Bodies.Body.FromHandle | include/fastly/http/body.h:147-151 | a body around a host handle holds exactly the handle's bytes |
| Bodies.Body.Overflow | src/cpp/http/body.cpp:25-51 | success commits the whole buffer and leaves `val` or nothing buffered; a zero-length write returns EOF, commits a prefix and leaves the buffer as it was; a host error aborts; the process ends exactly on a host error, and the offers are those of the drain loop |
| Bodies.Body.Sputc | src/cpp/http/body.cpp:47-50 | the byte is buffered after what was there, or refused with EOF when a full buffer could not be drained; with room no host call is made |
| Bodies.Body.Sync | src/cpp/http/body.cpp:53-56 | -1 exactly when the drain fell short; the process ends exactly on a host error |
| Bodies.Body.FlushStream | src/cpp/http/body.cpp:59 | a flush turns the stream bad exactly when its drain falls short, and is a no-op on a bad stream; the process ends exactly on a host error |
| Bodies.Body.Insert | include/fastly/http/body.h:87-89 | `<<` puts the bytes in order; on a stream left good all were written and the run is still unbroken, otherwise those before the refused one, whose drain fell short; it goes bad exactly on a zero-length write and ends the process exactly on a host error |
| Bodies.Body.Underflow | src/cpp/http/body.cpp:8-23 | an empty get area is refilled by one read of up to 512 bytes from the front of the host queue; the answer is EOF at the end of the host body, else the first byte as a signed char; the process ends exactly if the read failed, and no call is made for a get area that is not empty |
| Bodies.Body.Sgetc | include/fastly/http/body.h:115-118 | peeks without consuming; a byte already in the get area is never EOF; a host error, and nothing else, ends the process |
| Bodies.Body.Sbumpc | include/fastly/http/body.h:115-118 | takes exactly the next byte; EOF, at the end or on a refill that starts with 0xFF, takes nothing; a host error, and nothing else, ends the process |
| Bodies.Body.Write | src/cpp/http/body.cpp:75-83 | a raw write adds the accepted prefix behind the host queue, in front of the buffered bytes |
| Bodies.Body.Read | src/cpp/http/body.cpp:63-73 | a raw read takes the front of the host queue past the get area, nothing only at the end, and the body goes on; a host error changes nothing |
| Bodies.Body.MoveFrom | include/fastly/http/body.h:70-79 | the new body continues the old one's log by one move, with good state and get pointers inside its own array; the old one loses its host body; a host error, and nothing else, ends the process |
| Bodies.Body.Rebased | include/fastly/http/body.h:73-78 | the rebased get pointers delimit the same bytes in the new array |
| Bodies.Body.Append | src/cpp/http/body.cpp:58-61 | adds the argument's host queue after its flush, in front of the bytes still buffered here; the argument's get area is dropped; a host error, and nothing else, ends the process |
| Bodies.Body.FromString | include/fastly/http/body.h:87 | what was written is a prefix of the string; if the stream stayed good the run is unbroken and the host queue is the string, and if it went bad the host holds fewer bytes than the string has; the stream goes bad exactly on a zero-length write, and the process ends exactly on a host error |
| Bodies.Body.TakeOne | include/fastly/http/body.h:115-118 | one step of the copying loop returns the next byte, or stops at the end or at a refill that looks like EOF |
| Bodies.Body.TakeBodyString | include/fastly/http/body.h:115-118 | returns the unread bytes and then every refill up to, not including, the first that starts with 0xFF; the rest stays in the body; the process ends exactly if the host failed, so reading to the end never ends it |
| Bodies.Body.StringRoundTrip | include/fastly/http/body.h:87-118 | string to body to string: the result is the string if and only if the stream did not go bad and no refill started with 0xFF; on a stream gone bad it is shorter; the process ends exactly if the host failed |
| ReadRuns.TakenAllExact | src/cpp/http/body.cpp:17-22 | for one way of cutting the body into refills, everything is returned if and only if no refill starts with 0xFF |
| ReadRuns.SafeContentExact | src/cpp/http/body.cpp:17-22 | a content survives every behaviour of the host if and only if it contains no byte 0xFF |
| ReadRuns.WorstReading | src/cpp/http/body.cpp:22 | a host behaviour that cuts any content off at its first 0xFF |
| Bodies.StreamingBody.FromHandle | include/fastly/http/body.h:197-205 | a streaming body over a host handle, nothing buffered |
| Bodies.StreamingBody.Overflow | src/cpp/http/body.cpp:104-130 | as `Body.Overflow` |
| Bodies.StreamingBody.Sputc | src/cpp/http/body.cpp:126-129 | as `Body.Sputc` |
| Bodies.StreamingBody.Sync | src/cpp/http/body.cpp:132-135 | as `Body.Sync` |
| Bodies.StreamingBody.FlushStream | src/cpp/http/body.cpp:138 | as `Body.FlushStream` |
| Bodies.StreamingBody.Write | src/cpp/http/body.cpp:152-162 | as `Body.Write` |
| Bodies.StreamingBody.Append | src/cpp/http/body.cpp:148-150 | adds the argument's host queue only: no flush of the argument, so its buffered bytes are dropped |
| Bodies.StreamingBody.Finish | src/cpp/http/body.cpp:137-146 | the receiver gets everything held exactly when nothing was buffered or the stream was good and the flush did not fall short; the host body is ended whatever the flush did and its answer is returned; the process ends exactly if a write failed |
| Bodies.StreamingBody.MoveFrom | include/fastly/http/body.h:183-187 | as `Body.MoveFrom` |
| Bodies.DeliverEntry | include/fastly/cache/simple.h:234-237 | of an entry's body moved any number of times, appended by value and finished, the unread bytes never reach the host, and the rest does exactly when the first move's drain did not fall short; so all of it does exactly when, besides, nothing was unread; the answer is that of the host to `finish`, and the process ends exactly if a write failed |
| HostIo.HostBody.Write | src/http/body.rs:38-40 | assumption: the host takes any prefix of what it is offered, or fails; each call and its answer is recorded |
| HostIo.HostBody.Read | src/http/body.rs:34-36 | assumption: the host hands out any non-empty prefix of what it holds, nothing at the end, or fails; each call and its answer is recorded |
| HostIo.HostBody.Append | src/http/body.rs:23-25 | assumption: bodies are spliced end to end |
| ListEncoding.JoinStrings | src/cpp/cache/core.cpp:36-48 | the joined string splits back to the items when there are items and none holds the delimiter |
| ListEncoding.SplitJoinExact | src/cpp/cache/core.cpp:36-48 | splitting undoes joining if and only if there is an item and none holds the delimiter |
| ListEncoding.HeaderValueBytes | src/cpp/cache/core.cpp:64-69 | the header buffer decodes to the values exactly when none holds a NUL |
| ListEncoding.TerminatedExact | src/cpp/cache/core.cpp:64-69 | the same for any terminator |
| SurrogateKeys.SurrogateKeyForCacheKey | src/cache.rs:7-21 | 64 characters, of which 2i and 2i+1 spell byte i of the hash of the key, or for the POP scope of key and POP name, in upper-case hexadecimal with the high digit first |
| SurrogateKeys.HexSpells | src/cache.rs:17-19 | the digits of a text spell its bytes, by the values of the characters |
| SurrogateKeys.HexInjective | src/cache.rs:16-20 | different digests have different texts |
| SurrogateKeys.HexLength | src/cache.rs:16-20 | two characters a byte |
| SurrogateKeys.HexPrintable | src/cache.rs:16-20 | every character is a printable non-space |
| SurrogateKeys.StoredKeysSplit | include/fastly/cache/simple.h:220-228 | the stored option splits into exactly the two surrogate keys |
| SurrogateKeys.PurgeReachesItsKey | src/cpp/cache/simple.cpp:100-105 | a purge at either scope reaches the item of its own key, with no assumption on the hash |
| SurrogateKeys.PurgeReachExact | src/cache.rs:7-21 | without collisions a purge reaches exactly the item of its key and that of a key equal to it up to the POP name |
| SurrogateKeys.PurgeConfusesKeys | src/cache.rs:9-14 | a concrete pair of keys purged together because nothing separates key and POP name |
| CacheProtocol.InvStep | include/fastly/cache/core.h:691-740 | every step of every client, of closures that make calls and of the host, failing ones included, keeps the obligation, item, client and nesting invariants |
| CacheProtocol.InvRun | include/fastly/cache/core.h:508-512 | the invariants hold in every reachable state |
| CacheProtocol.ErrorsKeepTheirCode | src/cpp/cache/simple.cpp:31-47 | through both conversions, host status 3 becomes InvalidOperation, 5 Unsupported, 13 LimitExceeded and any other Other |
| CacheProtocol.DeliveredExact | src/cpp/http/body.cpp:148-150 | what `append` takes of an entry is all of it if and only if nothing of it was unread and its move's drain was not cut short |
| CacheTheorems.ObligationLeaksExact | src/cpp/cache/core.cpp:320-331 | at every moment a returned call holds the obligation of a key if and only if the host gave it to a lookup whose state query had failed; no two calls hold that of one key, and a closure can run only for a key without usable item, by its holder |
| CacheTheorems.AnsweredIsLeakFree | src/cpp/cache/core.cpp:326-328 | a run in which no state query of a call for the key fails does not leak its obligation |
| CacheTheorems.LeakedBlocks | src/cpp/cache/core.cpp:326-328 | a call waiting on a leaked key keeps waiting or ends in an error, in every continuation of the run |
| CacheWaits.HangsExact | include/fastly/cache/core.h:508-518 | following lookups to obligation holders and closures to the calls they made, nobody on the way can go on if and only if the way leads to a leaked key or into a cycle |
| CacheWaits.Progress | include/fastly/cache/core.h:508-518 | no deadlock but by a leak or a cycle of calls and closures: on the way of waits of any other call somebody can go on |
| CacheWaits.HangsForEver | include/fastly/cache/core.h:508-512 | a call whose way of waits leads to a leak or into a cycle stays so in every continuation in which the host gives up no hanging lookup |
| CacheWaits.ReturnsExact | include/fastly/cache/simple.h:194-247 | in every reachable state a call that has not returned can return without such a giving up if and only if its way of waits leads neither to a leaked key nor into a cycle |
| CacheDeadlocks.EveryCallReturns | include/fastly/cache/simple.h:194-247 | n calls, those of closures included, take at most 6 n client steps; when none can go on, the calls for a key have all returned and its obligation is free if and only if it was not leaked and none of them waits for a leak or a cycle; any other call does, and no item is half-written |
| CacheDeadlocks.DeadlockExact | include/fastly/cache/simple.h:188-214 | for any relation of which keys the closures of which keys may ask for: no run ends in a cycle of waits if and only if no key is asked for, however indirectly, by its own closure |
| CacheDeadlocks.RankedIsAcyclic | include/fastly/cache/simple.h:188-214 | it is so when closures ask only for keys of lower rank |
| CacheDeadlocks.AcyclicCallsReturn | include/fastly/cache/simple.h:194-247 | with such closures, when no client can go on, every call has returned and every obligation is free if and only if none was leaked |
| CacheDeadlocks.CyclicDeadlocks | include/fastly/cache/simple.h:188-214 | from any cycle of asking, a run without a failure or a leak in which a call and the closures above it wait for each other |
| CacheDeadlocks.SelfNested | include/fastly/cache/core.h:508-512 | the concrete run in which a closure asks for its own key |
| CacheDeadlocks.CrossNested | include/fastly/cache/core.h:508-512 | the concrete run in which the closures of two calls ask for each other's key |
| CacheDeadlocks.LeakHappens | src/cpp/cache/core.cpp:326-328 | a concrete run in which the state query fails, the call returns its error, the host gives the dropped handle the obligation, and a second caller waits with nothing left that could happen to its key |
| CacheTheorems.ClosureCountExact | include/fastly/cache/simple.h:178-180 | closure runs of a key equal its setbacks (failed closure, insertion or finish, purge, expiry) plus the change in whether an item or entry is there |
| CacheTheorems.CachedStays | include/fastly/cache/simple.h:201-208 | a present item without setback stays, and no closure runs |
| CacheTheorems.RequestCollapsing | include/fastly/cache/simple.h:194-247 | any interleaving, no setback for the key: at most one closure runs, and every stream returned is of the one item, which holds what came through of that closure's entry: all of it if and only if nothing of it was unread and its move was not cut short |
| CacheTheorems.CollapsesToOne | include/fastly/cache/simple.h:194-247 | if nothing fails for the key, once all its calls returned exactly one closure ran and each caller got its item, with all of the entry exactly under the same condition |
| CacheTheorems.CutEntryIsShared | include/fastly/cache/simple.h:236-247 | for every entry and every cut of its move there is a run in which nothing fails and two callers both read just the part that came through: of a buffered "ab" cut after one byte, "a" |
| CacheMap.OpRefines | src/cpp/cache/simple.cpp:56-111 | each operation run alone, any host call or the closure failing, changes the contents and answers as the map does; one that returns an error leaves its key with the old value or, if only the read-back failed, the new one |
| CacheMap.SequentialRefinesMap | src/cpp/cache/simple.cpp:56-111 | any sequence of get, get_or_set and purges, whatever fails in it and whichever leaked obligations the host grants, leaves the contents of the plain map that went through the same events, with answers that map gives; the value set is what came through of the entry |
| CacheMap.Performable | src/cpp/cache/simple.cpp:56-111 | every operation can be carried out without an error in every quiet state, for any entry and any cut of its move, unless the obligation of its key is leaked |
| CacheMap.PurgeExact | src/cpp/cache/simple.cpp:100-111 | a purge removes its key, and nothing else exactly when no stored key is confused with it |
| SimpleCache.LookupState | src/cpp/fastly.h:127-134 | assumption: the state of a resolved lookup is the number 3 on a hit, and with the obligation 8, or 13 if there is a stale item; the predicates read off it that it is found exactly on a hit or with a stale item, and must be inserted exactly with the obligation |
| SimpleCache.Cache.QueryState | src/cpp/cache/core.cpp:229-237 | a state query after the lookup answers with these bits, or ends the process exactly if the host call failed |
| SimpleCache.Cache.AwaitAnswer | include/fastly/cache/core.h:508-512 | while anything happens, new calls, purges and expiry included, the wait for the obligation holder ends with an answer unless its way of waits leads to a leak or a cycle; the waiter is left as it was |
| SimpleCache.Cache.AwaitReturn | include/fastly/cache/simple.h:213-214 | a closure's wait for a call it made ends with that call unless the same holds |
| SimpleCache.Cache.CallKeys | include/fastly/cache/simple.h:213-214 | the closure's calls are made one after the other; afterwards it runs on, or the process ended, or one of them hangs and the closure with it |
| SimpleCache.Cache.GetOrSetWith | include/fastly/cache/simple.h:190-248 | under interference between any two host calls the function extends the run by a new client that takes exactly the steps of one of its paths, in their order, and ends with the result, the abort or the endless wait of that path; a path with a failure is taken exactly when that host call failed, and its status, or GetOrSet exactly for a closure without entry, decides the error; it waits for ever only on a leak or a cycle; success carries a body, the InvalidOperation branch is dead, an item stored holds what came through of the entry |
| SimpleCache.Cache.LookUp | src/cpp/cache/core.cpp:320-331 | the lookup is answered with an item or the obligation, or it failed or its state query failed, as the host said, or its way of waits leads to a leak or a cycle |
| SimpleCache.Cache.ToStream | include/fastly/cache/simple.h:203-206 | a stream of the item, or the error the status of the failed call decides |
| SimpleCache.Cache.InsertAndReadBack | include/fastly/cache/simple.h:219-247 | from entry to result, the run only extended: which calls were made, in which order, and what each failure returns |
| SimpleCache.Cache.ExecuteAndStreamBack | src/cpp/cache/core.cpp:466-479 | the item is stored with the surrogate keys of its key |
| SimpleCache.Cache.StreamAndReadBack | include/fastly/cache/simple.h:236-247 | append, finish and read-back are made in this order and no further after a failure, which is returned as the code does; the item holds what came through of the entry |
| SimpleCache.SurrogateKeysOption | include/fastly/cache/simple.h:220-228 | both keys of the cache key, joined |
| SimpleCache.Cache.GetOrSet | src/cpp/cache/simple.cpp:76-94 | a new client of an extended run with the result of its path: never the closure error, the abort for want of a body is unreachable, and it never waits in its closure |
| SimpleCache.Cache.Get | src/cpp/cache/simple.cpp:56-74 | with interference before the lookup and between it and the stream: an error exactly if a host call failed, decided by its status, and else the item that was current at a moment within the call, which is still there to be read, or nothing if there was none |
| SimpleCache.Cache.PurgeWithOpts | src/cpp/cache/simple.cpp:100-111 | an error exactly if the host call failed: Purge, and nothing changed; success is one purge step, after which the key has no current item |
| AbiOptions.AsAbiWrite | src/cpp/cache/core.cpp:103-166 | bit by bit in numbers, each of bits 1 to 10 is set exactly if its option is given, each field holds the option's value or zero, and no other bit is set; the host decodes exactly the options given |
| AbiOptions.FirstWriteFields | src/cpp/cache/core.cpp:107-137 | the same for bits 1 to 5 |
| AbiOptions.LastWriteFields | src/cpp/cache/core.cpp:139-163 | the same for bits 6 to 10, leaving the earlier bits alone |
| AbiOptions.AsAbiLookup | src/cpp/cache/core.cpp:78-99 | the same for lookup options, bits 1 to 3 |
| AbiOptions.AsAbiReplace | src/cpp/cache/core.cpp:169-195 | the same for replace options, bits 1 to 4, of which bit 2 is always set, with strategy number 0, 1 or 2 |
| AbiOptions.ToUnsigned | src/cpp/cache/core.cpp:107 | a negative nanosecond count is stored 2 to the 64 higher, any other as it is, and both are read back |
| Builders.WriteBuilder.Set | src/cpp/cache/core.cpp:398-454 | each setter changes its own field; empty lists and repeated header calls change nothing |
| Builders.BuildAndEncode | src/cpp/cache/core.cpp:398-463 | for any list of setter calls the bits and fields are those of the last effective value of every option and of the first request handle, and the host decodes them so |
| Builders.SettersCommute | src/cpp/cache/core.cpp:398-454 | setters of different fields commute |
| Builders.LookupAndEncode | src/cpp/cache/core.cpp:296-325 | the same for any chain on a lookup builder |
| Builders.ReplaceAndEncode | src/cpp/cache/core.cpp:819-849 | the same for any chain on a replace builder |
| FoundReads.UserMetadata | src/cpp/cache/core.cpp:609-644 | exactly the stored bytes for any size, in one call if they fit 16 KiB and two otherwise |
| FoundReads.ToStreamFromRange | src/cpp/cache/core.cpp:650-684 | an error exactly for `to` before `from`; the documented slice, inclusive at both ends, or the tail, for a range honoured within the body; the whole body without an error otherwise, except that with always_use_requested_range a range beyond the body ends in a read error |
| PendingRequests.PendingRequest.Poll | src/cpp/http/request.cpp:10-28 | the host is asked once, and what it answered is returned: the same request pending, its response, or its error; the handle is emptied and no conversion panics |
| PendingRequests.PendingRequest.Wait | src/cpp/http/request.cpp:30-40 | the response or the error the host gave; the handle is emptied |
| PendingRequests.PollRepeatedly | src/http/request.rs:46-92 | over any number of polls either one handle is left, after as many answers that it was pending, or no handle and the last answer; nothing panics |
| PendingRequests.PendingRequestPoll | src/http/request.rs:84-92 | the host's answer in the variant of its kind, payload included |
| PendingRequests.PendingRequestWait | src/http/request.rs:94-103 | the host's response in one out-parameter or its error in the other |
| PendingRequests.PollResultIntoPending | src/http/request.rs:53-58 | panics exactly on another variant |
| PendingRequests.PollResultIntoResponse | src/http/request.rs:60-65 | panics exactly on another variant |
| PendingRequests.PollResultIntoError | src/http/request.rs:67-72 | panics exactly on another variant |
| PendingRequests.BoxVec.ExtractReq | src/http/request.rs:40-44 | empties its box; panics exactly on an empty one |
| PendingRequests.FSelect | src/http/request.rs:111-123 | the response or error returned and the others, in their order, are the host's answer; each box is extracted once without panic, and requests in are the winner and the others, on both paths |
| PendingRequests.Select | src/cpp/http/request.cpp:46-69 | the same across the whole call; it panics exactly on an empty list, and every handle given is emptied |
| PendingRequests.AsyncStreamRes.TakeBody | src/http/request.rs:131-133 | empties its box and leaves the other; panics exactly on an empty one |
| PendingRequests.AsyncStreamRes.TakeReq | src/http/request.rs:135-137 | empties its box and leaves the other; panics exactly on an empty one |
| PendingRequests.SendAsyncStreaming | src/cpp/http/request.cpp:210-222 | the host's error, or without one body and pending handle of the one request; no box is taken twice |
| PendingRequests.Rebox | src/cpp/http/request.cpp:58-61 | the returned boxes become handles of the same requests in order |
| IteratorRange.HeadersIter.Next | src/http/header.rs:55-71 | copies name, value bytes and sensitivity of the next header and advances by one |
| IteratorRange.Range.Next | include/fastly/http/header.h:79-90 | the element made of the next header and nothing else, or nothing at the end |
| IteratorRange.Iterator.Begin | include/fastly/detail/rust_iterator_range.h:30-34 | what lies ahead of a begin iterator is what the source held |
| IteratorRange.Iterator.Increment | include/fastly/detail/rust_iterator_range.h:36-48 | drops the current element from what lies ahead; at the end it changes nothing |
| IteratorRange.RangeFor | include/fastly/detail/rust_iterator_range.h:29-70 | for every element type and every derived `next`, a range-for visits exactly the elements made of what the source held, once each and in order, and exhausts it |
| IteratorRange.StaysAtEnd | include/fastly/detail/rust_iterator_range.h:36-48 | an end iterator stays at the end under any number of increments |
| Handles.InvStep | src/cpp/cache/core.cpp:203-205 | every API step keeps reference counts, open handles and close calls in agreement |
| Handles.UseIsOpen | src/cpp/cache/core.cpp:466-479 | every handle a step passes to the host is open at that moment, also after `execute` has reset the existing object |
| Handles.HandlesClosedOnce | src/cpp/cache/core.cpp:244-275 | over every run no handle is used closed or closed twice, it is open exactly while owned, and once all objects are gone every handle was closed exactly once |
| Handles.LookupLifecycle | src/cpp/cache/core.cpp:244-342 | the concrete run of an asynchronous lookup that is waited for, found, inserted and streamed back, with the handles open and closed after it |

## Left out

- `Body(std::vector<uint8_t>)`: the guard of its copying loop is zero from the start (include/fastly/http/body.h:153-156), so the loop never runs; no claim is made about it.
- CacheDeadlocks.EveryCallReturns: speaks of processes that go on. A later state query that fails, or a host error while an entry is moved, ends the process (`SimpleCache.Cache.GetOrSetWith` says where); what the host then does with its handles is not documented and not modelled.
- Trailers, and `set_body` and the other users of bodies outside the cache: single forwarding calls.
- `execute_async` and `PendingTransaction` in the protocol: callers of `get_or_set_with` never use them; their handles are in `Handles.dfy`.
- `Transaction::update` and `cancel_insert_or_update` in the protocol. A stale item that is found together with the obligation is not an item of the protocol: `get_or_set_with` asks first whether it must insert, and then never reads it.
- CacheMap.SequentialRefinesMap: is about calls made one after the other, so about closures that make no calls themselves.
- The rule that a `Found` has one active stream at a time: each call of the simple cache opens one stream of its own `Found`.
- `RequestHandle` and its lifetime: the class has a closing destructor and no move, so the handle stored in the options is closed by the temporary it was copied from (src/cpp/cache/core.cpp:61); only the number in the record is modelled.
- The raw handles dropped when a plain lookup finds nothing (src/cpp/cache/core.cpp:730-733) or when a state query fails right after a lookup: the exactly-once claim of `Handles.dfy` is about handles that got an owner. What the second kind does to the cache is in `CacheTheorems.ObligationLeaksExact`.
- AbiOptions.AsAbiWrite: a mask is the set of its bit positions, since every constant is one bit; pointers with lengths are the bytes they denote.
- The Rust iterators over names only and over the values of one header: `IteratorRange.HeadersIter` with fewer fields; the ranges over them are `Range` with another element type.
- Clocks, purge delay, hit counts and ages, the ESI, KV, backend, logging, geolocation and security wrappers: one call and an error check each.
