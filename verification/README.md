# Verified models of the concurrency, parsing and arithmetic demos

This project models the parts of the repository in which something can go wrong that a reader does not see at once, and
proves what they promise for every input and every run.

**The asynchronous session server** (`grpcdemo/server_async.cc`; `Tags`, `Sessions`, `Server`, `ServerInvariant`,
`ServerSteps`, `ServerTheorems`, `ServerLiveness`, `ServerReads`, `ServerFailures`, `ServerProgress`, `ServerStop`,
`ServerBound`, `ServerAvailability`). Accepter, worker, broadcaster and `Stop` are four
threads of a transition system. Each thread has a program counter that stops before and after every lock operation and
between any two operations that another thread can see. The reader/writer lock, the mutex of every session, the two
completion queues and the 64-bit tags are explicit. A queue hands out each operation that was started at most once, in any
order, with any outcome, and ends only after it was shut down; stream operations complete on `cq_readwrite_` and requests
for a connection on `cq_conn_`. A completed read brings an arbitrary name. A run is any sequence of enabled actions from
the state right after `Start`. The session object itself is also given as a class updated in place, whose methods are
proved to do what the steps of the transition system do.

Beside the laws that hold in every state, there are laws about what comes next: a connected session always has its next
read under way, a failed completion takes its session out of the map, `Stop` comes to every session, and from every
reached state in which its locks are free, the broadcaster's or the worker's own steps complete a round or a reply.

All theorems about runs hold as long as at most 2^62 sessions have been made; `ServerBound` shows that this bound is
exact, by building the run with one session more in which two sessions are confused. Up to that bound the server is
safe, but it does not stay available: after the first accept that fails it never asks for a connection again, and
`ServerAvailability` shows that it goes on accepting exactly until then.

**The HTTP/1 request parser** (`misc/fsmlite_test.cpp`; `HttpParser`, `HttpGrammar`, `HttpLanguage`, `HttpLength`). In each state the
first row of the transition table whose guard holds is taken, and an event without a row is ignored. The lookups of the
length and the type of the body in the recorded headers are parameters: the theorems hold for every pair of functions of
the recorded headers. `HttpLength` then takes a library that reads the length, with `atoi`, from some header of a given
name, and shows what the parser makes of the body. The language is given by character codes of its own, and
`HttpGrammar.GuardsMean` and `HttpGrammar.HttpMeans` tie the guards of the table to them.

**Smaller parts.** The condition-variable producer and consumers (`ProducerConsumer`), Fibonacci numbers by matrix powers
(`FastPower`), the ip:port list flag (`IpPorts`), the two timers on a strand (`Timer`) and the in-place HMAC (`Hmac`).

Where code and comments disagree, the models follow the code: the parser assigns the version numbers to a copy of the
request, so that they are not recovered, and it does not clear its buffer between header lines, so that the second and all
later headers are recorded under the name of the first one (`HttpLanguage.HeadersReadBack` says exactly when the recorded
headers are those sent, and `HttpLength.BodyReadBack` that the body is found only if its length is in the first header,
while the request of the driver sets its host first, misc/fsmlite_test.cpp:197-200); and `f4` squares its matrix once more than it needs, so that it overflows from n = 33 on although
its result fits up to n = 46 (`FastPower.FitsExactly`, `FastPower.ResultFitsExactly`).

## Model

| member | source | states |
|---|---|---|
| `Tags.TagRoundTrip` | grpcdemo/server_async.cc:30-39 | a tag fits 64 bits, gives its event back always, and its id exactly when the id is below 2^62 |
| `Tags.TagsCollideExactly` | grpcdemo/server_async.cc:30-33 | two tags are equal exactly when the events are and the ids are congruent modulo 2^62 |
| `Sessions.HalvesKeepBalance` | grpcdemo/server_async.cc:101-140 | both halves of an event keep accepted = written + queued, replies = names answered, and an empty queue unless a write is under way |
| `Sessions.SendAppends` | grpcdemo/server_async.cc:142-153 | a connected session takes on exactly the given message, at the end, with the replies and broadcast copies counted right |
| `Sessions.GreeterSession.constructor` | grpcdemo/server_async.cc:93-98 | a new session waits for its connection with nothing queued, and has issued the tag of that connection |
| `Sessions.GreeterSession.Respond` | grpcdemo/server_async.cc:142-153 | the object does what the step of the transition system does, and issues the tags of the operations it starts |
| `Sessions.GreeterSession.ProcessEvent` | grpcdemo/server_async.cc:101-140 | the same for the two halves of an event one after the other; the tags issued, in order, after a connect or a read always that of the next read; and the session stays balanced |
| `ServerSteps.StepInv` | grpcdemo/server_async.cc:191-339 | every step of every thread keeps the invariant of locks, map, queues, sessions, histories and broadcast round |
| `ServerTheorems.ReachedInv` | grpcdemo/server_async.cc:173-189 | the invariant holds in every state of every run with at most 2^62 sessions |
| `ServerTheorems.Conservation` | grpcdemo/server_async.cc:101-153 | in every run, messages accepted are messages written then queued, in order; replies are one per answered name, in the order of the reads; a session of the map with no message at hand has answered all it received |
| `ServerTheorems.ReplyNeverDropped` | grpcdemo/server_async.cc:105-118 | whenever a completed read is processed, the reply to the message just received is taken on: the status guard never drops it |
| `ServerTheorems.SingleFlight` | grpcdemo/server_async.cc:104-129 | at most one accept, read and write per session is under way or unprocessed; for a session of the map a write is under way exactly in status WaitWriteDone; otherwise the queue is empty |
| `ServerReads.AlwaysListens` | grpcdemo/server_async.cc:104-118 | in every run, a connected session of the map has exactly one read under way or in hand, but for the moment between a reply and the next read, and one more read was started than names were answered |
| `ServerReads.ReadsAccounted` | grpcdemo/server_async.cc:110-118 | of the reads started, all but the one in the queue have brought in a name |
| `ServerTheorems.StartedOnlyInMap` | grpcdemo/server_async.cc:241-259 | no step starts a read or write, or takes on a message, on a session that is not in the map |
| `ServerTheorems.RemovedForGood` | grpcdemo/server_async.cc:336-339 | a session that left the map stays out for the rest of the run, and nothing is ever started on it again |
| `ServerTheorems.TagsResolve` | grpcdemo/server_async.cc:318-334 | every tag in a queue or in the hands of a thread tells its owner and event, is unique, resolves to its owner or to nothing, and that of an accept always to its owner |
| `ServerTheorems.LookupsFindOwner` | grpcdemo/server_async.cc:327-334 | what a thread has looked up is the session that started the operation, or nothing exactly when that has left the map; the accepter always finds it |
| `ServerTheorems.ErasesOwner` | grpcdemo/server_async.cc:336-339 | a failed completion takes the session that started the operation, and no other, out of the map |
| `ServerFailures.FailureRemoves` | grpcdemo/server_async.cc:210-214 | whenever the accepter or the worker is handed a failed completion of any operation, by the next time it waits for one the session that started it has left the map, for good |
| `ServerTheorems.Routing` | grpcdemo/server_async.cc:199-222 | no assertion fails, every event is processed on the session that started it and by the right thread, and at most one session of the map waits for a connection |
| `ServerTheorems.RoundFreezesMap` | grpcdemo/server_async.cc:274-282 | during a broadcast round the map stays the same, and so does what was noted about the sessions visited, whatever the other threads do |
| `ServerTheorems.VisitedOnce` | grpcdemo/server_async.cc:277-280 | along any part of a round, each session is visited once if it is newly visited at the end, otherwise not at all |
| `ServerTheorems.BroadcastRound` | grpcdemo/server_async.cc:274-282 | from the start to the end of a round every session is visited exactly once, and takes on exactly one more copy if it was connected when visited, otherwise none |
| `ServerTheorems.Visit` | grpcdemo/server_async.cc:277-280 | a visit appends the broadcast to a connected session and leaves a waiting one and the queues unchanged |
| `ServerProgress.RunsOn` | grpcdemo/server_async.cc:194-276 | while the server is running, no thread has left its loop, and the broadcaster is not about to |
| `ServerProgress.RoundStarts` | grpcdemo/server_async.cc:274-277 | from every running state between rounds in which the map can be read, the broadcaster's own steps lead to the start of a round over the whole map |
| `ServerProgress.BroadcastGoesOut` | grpcdemo/server_async.cc:274-282 | with its locks free, the broadcaster's own steps lead through a whole round to the next: every connected session of the map, and no other, has taken on one copy |
| `ServerProgress.ReplyGoesOut` | grpcdemo/server_async.cc:238-259 | with its locks free, the worker's own steps turn a completed read into its reply and the next read, leave all other sessions alone, and lead back to the wait |
| `ServerStop.StopReachesAll` | grpcdemo/server_async.cc:292-303 | from taking to releasing the map's lock, under any interleaving, `Stop` comes to cancel each session of the map exactly once |
| `ServerLiveness.NoDeadlock` | grpcdemo/server_async.cc:275-297 | whenever a thread is blocked on a lock, some lock is held by a thread that can step |
| `ServerLiveness.RestsOnlyFinished` | grpcdemo/server_async.cc:288-316 | when no thread can step, all locks are free and all four threads have finished |
| `ServerAvailability.AcceptsUntilRefused` | grpcdemo/server_async.cc:194-222 | in every run, while the server is running, an accept is under way, in hand or about to be made exactly if no accept has failed so far |
| `ServerAvailability.DeafForGood` | grpcdemo/server_async.cc:210-213 | after a failed accept no session is ever made again while the server runs |
| `ServerAvailability.AcceptsNobody` | grpcdemo/server_async.cc:199-213 | a run that leaves the running server waiting for a connection it has not asked for |
| `ServerBound.GrownComes` | grpcdemo/server_async.cc:194-222 | every number of sessions up to 2^62 + 1 is made in some run, all but the last connected and reading |
| `ServerBound.Confusion` | grpcdemo/server_async.cc:200-219 | with one session more than 2^62, the accept of the last is taken for the first, which starts a second read |
| `ServerBound.BoundIsExact` | grpcdemo/server_async.cc:30-39 | no session has two reads under way in the runs with at most n sessions, exactly for n up to 2^62 |
| `HttpParser.HttpRequestParser.AppendToBuffer` | misc/fsmlite_test.cpp:57-59 | the character goes to the string that the buffer pointer points at |
| `HttpParser.HttpRequestParser.OnHeaderLineFinish` | misc/fsmlite_test.cpp:115-125 | the header of the whole buffer is recorded unless its name is empty |
| `HttpParser.HttpRequestParser.OnBodyFinish` | misc/fsmlite_test.cpp:143-149 | the buffer with the last character is the body, with the type found in the headers, and is cleared |
| `HttpParser.HttpRequestParser.ProcessRequestLine` | misc/fsmlite_test.cpp:155-173 | the rows of the request line |
| `HttpParser.HttpRequestParser.ProcessEvent` | misc/fsmlite_test.cpp:154-187 | one event takes the parser where the table says |
| `HttpParser.HttpRequestParser.Drive` | misc/fsmlite_test.cpp:208-219 | the driver loop, with its early exits, ends where feeding all of the input ends, and reports an error exactly in state Error |
| `HttpGrammar.GuardsMean` | misc/fsmlite_test.cpp:47-69 | the character guards by ASCII codes: a uri is any text of visible characters |
| `HttpGrammar.HttpMeans` | misc/fsmlite_test.cpp:79-81 | the protocol name is accepted exactly if it is "http", each letter in either case |
| `HttpLanguage.TrimMeans` | misc/fsmlite_test.cpp:118-121 | trimming takes off blanks at both ends, and all of them |
| `HttpLanguage.HeaderMeans` | misc/fsmlite_test.cpp:115-121 | a line is split at its first colon and both parts are trimmed; without a colon it is a name with an empty value |
| `HttpLanguage.BareLine` | misc/fsmlite_test.cpp:120-121 | a first header line without a colon is recorded with an empty value |
| `HttpGrammar.NameNeverEmpty` | misc/fsmlite_test.cpp:118-124 | a recorded name is never empty: the other branch is not reachable |
| `HttpGrammar.FeedLines` | misc/fsmlite_test.cpp:174-181 | after k header lines the buffer is all of them run together, and one header is recorded for each prefix of them |
| `HttpGrammar.FeedBody` | misc/fsmlite_test.cpp:137-149 | a body of recorded length n ends after exactly n characters of any kind, not before, and is those characters |
| `HttpGrammar.AcceptsText` | misc/fsmlite_test.cpp:154-187 | every request of the language is accepted whatever follows it, with its parts recorded |
| `HttpLanguage.AcceptsExactly` | misc/fsmlite_test.cpp:154-187 | the driver reaches Finish exactly on inputs that begin with a request of the language |
| `HttpLanguage.NotBefore` | misc/fsmlite_test.cpp:210-219 | a request is recognised at its last character and at no earlier one |
| `HttpLanguage.RecordedNames` | misc/fsmlite_test.cpp:115-125 | one header is recorded per line, each under the name of the first |
| `HttpLanguage.HeadersReadBack` | misc/fsmlite_test.cpp:111-125 | after any printed request the headers that the parser holds are the headers sent exactly when there is at most one |
| `HttpLanguage.RoundTrip` | misc/fsmlite_test.cpp:154-187 | parsing undoes printing for method, uri, headers and body of a well-formed request exactly when it has at most one header |
| `HttpLength.LengthRead` | misc/fsmlite_test.cpp:127-131 | the length that the parser goes by is the one declared if that header comes first, otherwise 0 |
| `HttpLength.BodyReadBack` | misc/fsmlite_test.cpp:127-149 | the body of a printed request is read back exactly if it is a POST request whose first header tells its length; otherwise the parser finishes without a body |
| `ProducerConsumer.NothingLost` | misc/producer_consumer.cpp:16-42 | with any number of consumers and spurious wake-ups, consumed then buffered items are 0, 1, 2, ...; with the mutex free the flag says whether the buffer is non-empty, and no consumer is left waiting then; no consumer passes the test of the flag in vain |
| `ProducerConsumer.AnyoneConsumes` | misc/producer_consumer.cpp:29-40 | with the mutex free and something in the buffer, the steps of any one consumer alone consume all of it in order, put the flag down and release the mutex |
| `ProducerConsumer.WaitsForItems` | misc/producer_consumer.cpp:29-32 | with nothing in the buffer, a consumer that asks for the mutex ends up waiting |
| `ProducerConsumer.NextIsProduced` | misc/producer_consumer.cpp:17-24 | with the mutex free, the producer's own steps push the next item, put the flag up and wake everyone |
| `ProducerConsumer.AlwaysMoves` | misc/producer_consumer.cpp:16-42 | the holder of the mutex can always move, and the producer when it is free |
| `ProducerConsumer.Shared.Produce` | misc/producer_consumer.cpp:21-22 | the item goes to the end of the buffer and the flag goes up |
| `ProducerConsumer.Shared.Drain` | misc/producer_consumer.cpp:36-40 | the loop takes everything in order and leaves buffer and flag empty |
| `ProducerConsumer.DrainSteps` | misc/producer_consumer.cpp:36-39 | the steps of the loop in the transition system do what the method does |
| `FastPower.F4` | misc/matrix_fast_power.cpp:25-46 | the n-th Fibonacci number of the recursive definition, 0 for n below 1, in as many rounds as n - 1 has bits; every product and sum on the way fits a 32-bit int exactly for n up to 32 |
| `FastPower.BitLengthMeans` | misc/matrix_fast_power.cpp:36-42 | the number of rounds is the number of the highest bit set |
| `FastPower.RoundKeeps` | misc/matrix_fast_power.cpp:36-42 | a round keeps the result so far times the power still to be taken |
| `FastPower.PowerIsFib` | misc/const_expr.cpp:6 | the powers of the base matrix are made of the recursive Fibonacci numbers |
| `FastPower.FitsExactly` | misc/matrix_fast_power.cpp:10-19 | every product and sum of f4 fits a 32-bit int exactly for n up to 32 |
| `FastPower.ResultFitsExactly` | misc/matrix_fast_power.cpp:45 | the result fits exactly for n up to 46 |
| `IpPorts.ParseFlag` | common/abseil_flag_ipport.cpp:14-35 | the entries before the first bad piece are appended; success exactly when there is none; otherwise the error of that piece; every port appended is a number from 0 to 32767 |
| `IpPorts.GoodPieceMeans` | common/abseil_flag_ipport.cpp:19-31 | a piece is accepted exactly if it is an address, one colon and a port that reads as a number from 0 to 32767 |
| `IpPorts.ErrorMeans` | common/abseil_flag_ipport.cpp:20-31 | which error is reported for a piece, by the number of its colons and by what the library makes of the port |
| `IpPorts.UnparseParsed` | common/abseil_flag_ipport.cpp:7-12 | printing what an accepted text appends to an empty list gives the text back |
| `IpPorts.ParseUnparsed` | common/abseil_flag_ipport.hpp:8-14 | parsing a printed list appends that list exactly when every entry is valid |
| `Timer.CountsDown` | asio/timer/timer5.cpp:8-44 | for every order of the callbacks, the numbers c, c - 1, ... are printed, never below 1, and a run is over after exactly c + 1 callbacks with nothing pending |
| `Timer.DownAt` | asio/timer/timer5.cpp:26-27 | the i-th number printed is c - i |
| `Timer.Counter.Print1` | asio/timer/timer5.cpp:22-32 | the callback object does what the step of the model does |
| `Timer.Counter.Print2` | asio/timer/timer5.cpp:34-44 | the same for the other timer |
| `Timer.Counter.Run` | asio/timer/timer5.cpp:54-68 | the event loop ends, under any scheduling, with count 0, nothing pending and all numbers printed |
| `Hmac.DoSha256` | openssl/hmac.cpp:58-66 | the digest is returned and left in the global buffer |
| `Hmac.XorBlock` | openssl/hmac.cpp:71-73 | the first loop puts the inner pad on the block |
| `Hmac.SwapPad` | openssl/hmac.cpp:77-80 | the second loop leaves the outer pad on the original block |
| `Hmac.DoMyHmac` | openssl/hmac.cpp:68-85 | for every hash with a 32-byte result and every key of at most 64 bytes, the HMAC of section 2 of RFC 2104, in 64 hexadecimal digits from which it can be read back |
| `Hmac.MacMeans` | openssl/hmac.cpp:68-83 | both hashes byte by byte, with 0x36 and 0x5c on the padded key |
| `Hmac.HexRoundTrip` | openssl/hmac.cpp:84 | two digits per byte, the upper half first, from which the bytes can be read back |

## Left out

- The RPC library, message encoding, thread groups and logging; the lifetime of session objects while operations are under way, and restarting the server after `Stop`. `Stop` is a thread of its own and runs once, not a signal handler on a thread that may hold a lock.
- Fairness: the theorems say that some thread can step, not that every thread does.
- The writer preference of the shared mutex: a reader may enter whenever no writer holds the lock.
- HTTP version numbers, which the parser does not keep; what `setBody` does to the header list; what the library's `trim` and lower-casing do beyond ASCII; `atoi` of numbers that do not fit an `int`.
- The 32-bit counter of the producer, which overflows after 2^31 items, and the 64-bit result of the recursive Fibonacci function.
- Keys longer than the block in the HMAC, which the code does not hash down first but copies past the end of its buffer.
- ParseFlag: the list and the error behind the pointer arguments are passed in and returned as values, so that aliasing between them is not modelled.
- The RPC clients, the synchronous server, and the TLS, HTTP, OpenSSL listing, ioctl, allocator, signal, container, regular-expression and protobuf demos, and timers 1 to 4: input and output, or easier forms of what is here.
