# Verified model of mrd2

This project models the parts of mrd2, a small event-driven network library with a ping-pong benchmark
beside it, where bytes, buffers and callbacks have to be kept straight, and proves what those parts are
for. `dafny verify dfyconfig.toml` checks all of it.

**Ping-pong.** `Duplex` is the double-buffered echo protocol both sessions follow. `ServerSession` and
`ClientSession` hold the sessions as classes over two real blocks, with the operating system as an
environment that completes reads and writes on the blocks they were started with, in any pieces and with
any errors; the properties of all their runs are lemmas. `PingPongLoop` closes the loop over two bounded
channels, `PingPongDeadlock` says exactly when it can stop, `PingPongSystem` shows that the joint runs of the
two sessions are the runs of the loop as long as nothing fails, and what they read whatever fails, and
`PingPongProgress` bounds how long they can go without reading. `HandlerAllocator` is the arena behind their
handlers.

**Byte buffer.** `ByteBuffer` is the growable buffer on an array, compaction over overlapping ranges
included, refined to snapshots and from there to plain sequences in `ByteBufferRuns`. `Endian` and `Codec`
are the integers as bytes, on a host of either order, and `TypedStream` the buffer as a queue of values.

**Connection.** `EvtChannel` is the interest mask, `ConnectionSpec` what a connection does as functions,
with the kernel's answers and everything user callbacks do, nested to any depth, as input; `Connection` is
the object, on real byte buffers and masks, each method tied to its function; `ConnectionScripts` reads off
a callback what it does, and `ConnectionEffects` says outright what each operation and each reported flag
leads to; `ConnectionRuns` is what holds over every run, `ConnectionShutdown` when the last
assertion does, and `ConnectionReading` how a connection stops being read; `EchoServer` is the library's echo
program on top.

**Task queue.** `TaskQueue` is the loop's queue under any interleaving of submitting threads.

## Where the code departs from its purpose

Two lines of `src/muradin/net/connection.cpp` do not do what the code around them is for. Line 107 caches a
short direct write from `data` instead of `data+ret`. Line 171 discards a second time what line 166 already
discarded, against the assertion in `discard`. The model takes the program text as a parameter: `AsWritten`
is the code as it stands, `Intended` differs in these two places only. Conservation of the output stream is
stated for both, as an equivalence with a condition on the run: it fails for either text when a direct write
of some data is refused with an error other than EAGAIN, because that data is dropped, and for the text as
written also when a short direct write of data that does not repeat itself or a partial flush is met; for
nothing else (`ConnectionRuns.StreamConservation`, with the per-call conditions in `AsWrittenDirectWrite` and
`AsWrittenFlush` and concrete inputs in `DeparturesWitness`). The assertion in `discard` has its own exact
condition in `OverdrawnExactlyWhen`. The one in `final_destory` holds exactly as long as nothing that runs
during the close calls `shutdown` (`ConnectionShutdown.DestroyAssertionFailsExactlyWhen`).

A request for writability tells the kernel the stored mask, which the last ready set has overwritten. If that
lacks EPOLLIN, the kernel no longer watches the open connection for input (`ConnectionReading`, with the exact
condition in `ReadInterestLostExactlyWhen` and an input in `DeafeningWitness`), and once no read flag at all is
left, nothing more is ever received (`NothingMoreIsReceived`). The disabling branches intersect with the flags
instead of removing them; the masks are modelled as written.

Callers of the integer reads have to check that enough bytes are readable; that demand is a precondition
here. The header `src/muradin/net/bytebuffer.h` is not UTF-8 text, so the rows about its inline `retrieve_*`
functions, which read and then discard, cite the functions of `bytebuffer.cpp` they call. `discard` and
`rollback_write` assert and then handle the excess anyway; the model follows the code with assertions
compiled out and records a violated assertion in the connection as a flag.

## Model

| member | source | states |
|---|---|---|
| `ServerSession.Session.constructor` | example/asio/pingpong/server.cpp:24-35 | a new session owns two distinct blocks and has nothing outstanding |
| `ServerSession.Session.Start` | example/asio/pingpong/server.cpp:48-67 | either the first read is outstanding on the read block and counted, or the deletion is posted |
| `ServerSession.Session.SwapBlocks` | example/asio/pingpong/server.cpp:109-120 | with neither block in use, the bytes held in the read block become the outstanding write, byte for byte, and the read is started on the other block |
| `ServerSession.Session.HandleRead` | example/asio/pingpong/server.cpp:69-97 | the whole new state after a completed or failed read, for the bytes that read left in the block |
| `ServerSession.Session.HandleWrite` | example/asio/pingpong/server.cpp:99-126 | the whole new state after a completed or failed write |
| `ServerSession.Session.CompleteRead` | example/asio/pingpong/server.cpp:56-61 | a read outstanding on the block it captured completes as one step of the session and keeps buffer ownership |
| `ServerSession.Session.TakeBytes` | example/asio/pingpong/server.cpp:81-85 | the kernel drains the captured write block in pieces: exactly the next bytes go to the output |
| `ServerSession.Session.CompleteWrite` | example/asio/pingpong/server.cpp:110-114 | an outstanding write completes as one step of the session and keeps buffer ownership |
| `ServerSession.StepKeepsInv` | example/asio/pingpong/server.cpp:69-126 | every completion keeps: op_count_ is the number of outstanding operations, the deletion is posted exactly when it is zero, output plus unsent write is a prefix of the input |
| `ServerSession.Echo` | example/asio/pingpong/server.cpp:69-126 | against any peer and any failures the bytes handed to the kernel are a prefix of the bytes read; until a failure, read bytes are handed-over bytes, rest of the write and held read in that order |
| `ServerSession.EchoOfEvents` | example/asio/pingpong/server.cpp:69-126 | as a function of the completions alone: the bytes handed to the kernel are the first ones the reads delivered, exactly as many as it took, whatever fails |
| `ServerSession.Teardown` | example/asio/pingpong/server.cpp:71-96 | in every run at most two operations are outstanding, the deletion is posted at most once, exactly when none is, and no handler can run after that |
| `ServerSession.WindingDown` | example/asio/pingpong/server.cpp:101-125 | after a failure each completion lowers the outstanding count by exactly one, nothing new is started, and the deletion is posted exactly when the count has run out |
| `ServerSession.FailedSessionCanFinish` | example/asio/pingpong/server.cpp:95-96 | a failed session that is not yet destroyed always has an operation that can still complete, or its deletion posted |
| `ServerSession.DeletionIsFinal` | example/asio/pingpong/server.cpp:128-131 | nothing is enabled after the deletion, so no run continues, and it leaves the histories and counts alone |
| `ClientSession.Session.constructor` | example/asio/pingpong/client.cpp:54-68 | the fill loop leaves i mod 128 at every position i of the first block |
| `ClientSession.PatternCounts` | example/asio/pingpong/client.cpp:66-67 | position i of the pattern holds i mod 128 |
| `ClientSession.Session.HandleConnect` | example/asio/pingpong/client.cpp:92-125 | on success the whole first block is the outstanding write and a read is outstanding; on failure the socket is closed and connected anew, which is counted, or given up, as the code does |
| `ClientSession.ConnectOutcome` | example/asio/pingpong/client.cpp:92-125 | over any sequence of attempts: as many retries as attempts fail with an address left before the first other one, which decides; connected if and only if that succeeds and the option is set, and then with the whole block being written and a read outstanding; otherwise nothing is started |
| `ClientSession.Session.SwapBlocks` | example/asio/pingpong/client.cpp:163-175 | as for the server: the held bytes become the write and the other block the target of the read, with neither in use |
| `ClientSession.Session.HandleRead` | example/asio/pingpong/client.cpp:127-152 | the whole new state, byte counter included, after a completed or failed read |
| `ClientSession.Session.HandleWrite` | example/asio/pingpong/client.cpp:154-178 | the whole new state after a write; a failed or empty one changes nothing |
| `ClientSession.Session.CompleteRead` | example/asio/pingpong/client.cpp:109-114 | a read outstanding on its captured block completes as one step and keeps buffer ownership |
| `ClientSession.Session.TakeBytes` | example/asio/pingpong/client.cpp:103-108 | the kernel takes exactly the next bytes of the captured write block |
| `ClientSession.Session.CompleteWrite` | example/asio/pingpong/client.cpp:164-169 | an outstanding write completes as one step and keeps buffer ownership |
| `ClientSession.StepKeepsInv` | example/asio/pingpong/client.cpp:127-178 | every completion keeps: written + in flight + lost in a failed write = block + read - held |
| `ClientSession.Accounting` | example/asio/pingpong/client.cpp:131-164 | in every error-free run bytes_written_ plus the write in flight is block_size plus bytes_read_ minus the held read; in every run at all the two counters differ by at most one block |
| `ClientSession.ReadsAreDelivered` | example/asio/pingpong/client.cpp:127-131 | in every run the bytes read are those the successful completions delivered, in order |
| `ClientSession.EmptyWriteCountsForNothing` | example/asio/pingpong/client.cpp:154-157 | a write of no bytes that completes is ignored, exactly as a failed one |
| `PingPongLoop.StepKeepsInv` | example/asio/pingpong/client.cpp:127-178 | every transfer and completion on either side keeps the ring, the two histories and the shapes of both endpoints |
| `PingPongLoop.RingConservation` | example/asio/pingpong/client.cpp:66-67 | in every reachable state, channel up, client write, client held read, channel down, server write and server held read together are the first block rotated by what the server has read |
| `PingPongLoop.BothSidesReadTheBlockRepeated` | example/asio/pingpong/server.cpp:69-126 | the i-th byte either side ever reads is the i-th of the first block repeated, and the server is never more than one block ahead of the client |
| `PingPongDeadlock.StandstillShape` | example/asio/pingpong/server.cpp:76-92 | a state in which nothing can happen has both counts at two, both channels full and bytes in all four session buffers |
| `PingPongDeadlock.LargeBlockDeadlocks` | example/asio/pingpong/client.cpp:134-150 | for every block of at least both capacities plus four bytes there is a run to such a standstill |
| `PingPongDeadlock.DeadlockBound` | example/asio/pingpong/client.cpp:160-176 | for all capacities, server blocks and client blocks: a standstill is reachable if and only if the client block is at least both capacities plus four |
| `PingPongSystem.SessionsStartTheLoop` | example/asio/pingpong/client.cpp:102-114 | a freshly connected client session and a started server session, with both channels empty, make the initial loop |
| `PingPongSystem.StepFollows` | example/asio/pingpong/server.cpp:69-126 | each step of the loop is an event of one of the two sessions that the channels allow, with the same effect |
| `PingPongSystem.SessionStepIsLoopStep` | example/asio/pingpong/client.cpp:127-178 | each failure-free event of either session that the channels allow is an enabled step of the loop, with the same effect on everything: ends, channels and all bytes read |
| `PingPongSystem.SessionRunIsLoopRun` | example/asio/pingpong/server.cpp:69-126 | every joint run of the two sessions without failures is a run of the loop, byte for byte |
| `PingPongSystem.LoopRunIsSessionRun` | example/asio/pingpong/client.cpp:127-178 | every run of the loop is a joint run of the two sessions without failures, byte for byte |
| `PingPongSystem.SessionsConserveThePattern` | example/asio/pingpong/client.cpp:66-67 | in every joint run without failures the bytes in the channels and in the blocks of both sessions are the fill pattern, rotated by what the server has read |
| `PingPongSystem.SessionsStallExactlyWhen` | example/asio/pingpong/client.cpp:160-176 | the two sessions can stall each other if and only if the client block is at least both capacities plus four |
| `PingPongSystem.RunProjects` | example/asio/pingpong/client.cpp:127-178 | every joint run, failures included, projects to a run of the client session and a run of the server session that end in the states the joint run ends in |
| `PingPongSystem.PatternComesBack` | example/asio/pingpong/client.cpp:66-67 | in every joint run, whatever fails on either side and when, the i-th byte either session reads is the one the fill loop put at i modulo the block size, and client input <= server input <= block followed by client input, as prefixes |
| `PingPongProgress.RunLength` | example/asio/pingpong/server.cpp:76-92 | every run of the loop is at most as long as the block plus one step plus three steps for every byte read |
| `PingPongProgress.LongRunsRead` | example/asio/pingpong/client.cpp:134-150 | whatever the scheduling, the client has read m bytes after 4 blocks + 1 + 6m steps |
| `PingPongProgress.CirculatesExactlyWhen` | example/asio/pingpong/client.cpp:127-178 | from every reachable state the client can go on to read any number of bytes, if and only if the block is at most both capacities plus three |
| `PingPongProgress.SessionsReadOn` | example/asio/pingpong/client.cpp:127-152 | the same bound for the joint runs of the two sessions without failures: after 4 blocks + 1 + 6m events the client session has read m bytes |
| `HandlerAllocator.Allocator.Allocate` | example/asio/pingpong/handler_allocator.hpp:30-39 | the inline block exactly when it is free and the size is below its capacity, else the heap block; never a block somebody holds |
| `HandlerAllocator.Allocator.Deallocate` | example/asio/pingpong/handler_allocator.hpp:41-51 | the inline slot is freed or the heap block deleted, and nothing else |
| `HandlerAllocator.StepKeepsInv` | example/asio/pingpong/handler_allocator.hpp:30-51 | the slot is marked exactly while the inline block is live, and the block handed out is distinct from all live ones |
| `HandlerAllocator.EveryRun` | example/asio/pingpong/handler_allocator.hpp:30-51 | over every well-formed sequence the number of live blocks balances, and every heap address was deleted exactly as often as it was handed out, once less while it is live |
| `HandlerAllocator.HeapOnlyForLargeHandlers` | example/asio/pingpong/handler_allocator.hpp:17-20 | with one operation at a time, and whatever addresses the heap gives, the heap is used if and only if some handler does not fit the slot |
| `Endian.SwapReverses2` | src/muradin/net/endian.h:28-31 | for every value the 2-byte swap reverses the base-256 digits and is an involution |
| `Endian.SwapReverses4` | src/muradin/net/endian.h:32-35 | the same for the 4-byte swap |
| `Endian.SwapReverses8` | src/muradin/net/endian.h:37-48 | the same for the 8-byte swap |
| `Endian.ConvertedStore2` | src/muradin/net/endian.h:75-93 | on either host, converting to an order and storing natively lays the digits down in that order |
| `Endian.ConvertedStore4` | src/muradin/net/endian.h:80-98 | the same for four bytes |
| `Endian.ConvertedStore8` | src/muradin/net/endian.h:85-103 | the same for eight bytes |
| `Endian.LoadedDigits2` | src/muradin/net/endian.h:107-110 | loading natively and converting puts together the digits as they lie in the protocol order |
| `Endian.LoadedDigits4` | src/muradin/net/endian.h:111-114 | the same for four bytes |
| `Endian.LoadedDigits8` | src/muradin/net/endian.h:115-118 | the same for eight bytes |
| `Endian.StoreLoad8` | src/muradin/net/endian.h:85-103 | storing and loading on one host, and converting twice, give every 64-bit value back |
| `Codec.DecodeEncode` | src/muradin/net/bytebuffer.cpp:59-114 | an integer read with the format it was appended with is the same, for all widths, both buffer orders, both hosts, conversion on or off |
| `Codec.EncodedDigits` | src/muradin/net/bytebuffer.cpp:84-114 | the bytes of an appended integer are its digits in the buffer order with conversion, in the host order without |
| `Codec.DecodeOtherFormat` | src/muradin/net/bytebuffer.cpp:65-81 | read with another format of the same width the value survives if and only if both formats lay digits out alike or the digits are a palindrome |
| `Codec.EncodeDecode` | src/muradin/net/bytebuffer.cpp:59-81 | every byte string of the right length is the encoding of the value read from it |
| `Codec.EncodedBytes16` | src/muradin/net/bytebuffer.cpp:89-96 | byte by byte as shifts of the value: with conversion to big-endian order the high byte first on either host, to little-endian the low byte first, without conversion as the host has it |
| `Codec.EncodedBytes32` | src/muradin/net/bytebuffer.cpp:98-105 | the same for the four bytes |
| `Codec.EncodedBytes64` | src/muradin/net/bytebuffer.cpp:107-114 | the same for the eight bytes |
| `Codec.DecodedBytes16` | src/muradin/net/bytebuffer.cpp:65-69 | the value read has each of the two bytes at its shift, by the same rule |
| `Codec.DecodedBytes32` | src/muradin/net/bytebuffer.cpp:71-75 | the same for the four bytes |
| `Codec.DecodedBytes64` | src/muradin/net/bytebuffer.cpp:77-81 | the same for the eight bytes |
| `Codec.BytesWitness` | src/muradin/net/endian.h:50-54 | 0x1234 in big-endian order is 0x12, 0x34 on every host, and 0x12345678 unconverted is as the host has it |
| `TypedStream.StepHolds` | src/muradin/net/bytebuffer.cpp:148-157 | each append, retrieval or compaction keeps the readable bytes the encodings of the queued values, and a read finds the oldest value |
| `TypedStream.TypedFifo` | src/muradin/net/bytebuffer.cpp:59-157 | over every interleaving of typed appends, retrievals, compactions and shrinks: values retrieved from the bytes, then those left, are those there before, then those appended, in order |
| `ByteBuffer.CopyForward` | src/muradin/net/bytebuffer.cpp:230-232 | the forward copy over overlapping ranges moves the old source range to the destination and changes nothing else |
| `ByteBuffer.ByteBuffer.constructor` | src/muradin/net/bytebuffer.cpp:47-55 | an empty zero-filled buffer of the given size plus the reserved prefix |
| `ByteBuffer.ByteBuffer.MakeSpace` | src/muradin/net/bytebuffer.cpp:222-237 | grows if and only if compaction would not do, compacts otherwise; keeps the readable bytes and leaves the room asked for |
| `ByteBuffer.ByteBuffer.Append` | src/muradin/net/bytebuffer.cpp:121-129 | the readable bytes are extended by exactly the data |
| `ByteBuffer.ByteBuffer.AppendBuffer` | src/muradin/net/bytebuffer.cpp:116-119 | the readable bytes are extended by those of the other buffer, which is unchanged, or by its own when they need not move |
| `ByteBuffer.ByteBuffer.HasWritten` | src/muradin/net/bytebuffer.cpp:136-141 | the bytes lying behind the write index become readable |
| `ByteBuffer.ByteBuffer.EnsureWriteSpace` | src/muradin/net/bytebuffer.cpp:143-146 | room for the request, same readable bytes |
| `ByteBuffer.ByteBuffer.Discard` | src/muradin/net/bytebuffer.cpp:148-157 | drops the first bytes, or all if there are not as many |
| `ByteBuffer.ByteBuffer.RollbackWrite` | src/muradin/net/bytebuffer.cpp:159-168 | drops the last bytes, or all if there are not as many |
| `ByteBuffer.ByteBuffer.DiscardAll` | src/muradin/net/bytebuffer.cpp:170-174 | nothing readable, indices back to the prefix |
| `ByteBuffer.ByteBuffer.Shrink` | src/muradin/net/bytebuffer.cpp:238-247 | the same readable bytes in a container with exactly the reserve asked for |
| `ByteBuffer.ByteBuffer.Swap` | src/muradin/net/bytebuffer.cpp:214-221 | two buffers exchange container, indices and byte order |
| `ByteBuffer.ByteBuffer.FindChar` | src/muradin/net/bytebuffer.cpp:249-254 | one plus the first position of the character among the readable bytes, zero exactly if it is not there |
| `ByteBuffer.ByteBuffer.AppendUint8` | src/muradin/net/bytebuffer.cpp:84-87 | appends exactly that byte |
| `ByteBuffer.ByteBuffer.ReadUint8` | src/muradin/net/bytebuffer.cpp:59-63 | the first readable byte, not consumed |
| `ByteBuffer.ByteBuffer.AppendUint16` | src/muradin/net/bytebuffer.cpp:89-96 | appends exactly the encoding of the value in the buffer format |
| `ByteBuffer.ByteBuffer.ReadUint16` | src/muradin/net/bytebuffer.cpp:65-69 | decodes the first readable bytes and consumes nothing |
| `ByteBuffer.ByteBuffer.AppendUint32` | src/muradin/net/bytebuffer.cpp:98-105 | appends exactly the encoding of the value in the buffer format |
| `ByteBuffer.ByteBuffer.ReadUint32` | src/muradin/net/bytebuffer.cpp:71-75 | decodes the first readable bytes and consumes nothing |
| `ByteBuffer.ByteBuffer.AppendUint64` | src/muradin/net/bytebuffer.cpp:107-114 | appends exactly the encoding of the value in the buffer format |
| `ByteBuffer.ByteBuffer.ReadUint64` | src/muradin/net/bytebuffer.cpp:77-81 | decodes the first readable bytes and consumes nothing |
| `ByteBuffer.ByteBuffer.RetrieveUint8` | src/muradin/net/bytebuffer.cpp:59-63 | decodes the first readable bytes and consumes exactly those |
| `ByteBuffer.ByteBuffer.RetrieveUint16` | src/muradin/net/bytebuffer.cpp:65-69 | decodes the first readable bytes and consumes exactly those |
| `ByteBuffer.ByteBuffer.RetrieveUint32` | src/muradin/net/bytebuffer.cpp:71-75 | decodes the first readable bytes and consumes exactly those |
| `ByteBuffer.ByteBuffer.RetrieveUint64` | src/muradin/net/bytebuffer.cpp:77-81 | decodes the first readable bytes and consumes exactly those |
| `ByteBuffer.MakeSpaceFits` | src/muradin/net/bytebuffer.cpp:222-237 | making room keeps contents and index order, never shrinks the container, and suffices |
| `ByteBuffer.AppendExtends` | src/muradin/net/bytebuffer.cpp:121-129 | on snapshots: appending extends the readable bytes by the data |
| `ByteBuffer.ShrinkKeeps` | src/muradin/net/bytebuffer.cpp:238-247 | shrinking keeps the readable bytes and leaves exactly the reserve |
| `ByteBufferRuns.PairRefines` | src/muradin/net/bytebuffer.cpp:214-221 | each operation on two buffers, exchange and append of one to the other included, is the same operation on two plain sequences |
| `ByteBufferRuns.RunRefines` | src/muradin/net/bytebuffer.cpp:121-174 | every sequence of operations behaves as on plain sequences and keeps prefix <= read <= write <= size |
| `ByteBufferRuns.GrowthStep` | src/muradin/net/bytebuffer.cpp:224-225 | the container grows exactly when discardable plus writeable is less than the request, and then to the write index plus the request |
| `ByteBufferRuns.FreshTakesItsSize` | src/muradin/net/bytebuffer.cpp:47-55 | a new buffer is empty, takes as many bytes as its size without growing beyond 8 more than that, and no more |
| `ByteBufferRuns.StorageBound` | src/muradin/net/bytebuffer.cpp:222-237 | in every run without shrinking, with requests up to b and up to r readable bytes at each, the container never exceeds the larger of its first size and 8 + r + 2b - 1 |
| `ByteBufferRuns.StorageBoundIsMet` | src/muradin/net/bytebuffer.cpp:222-237 | for every b and every positive amount held there is a run that reaches 8 + r + 2b - 1 |
| `ByteBufferRuns.StorageBoundWhenEmpty` | src/muradin/net/bytebuffer.cpp:148-174 | from a new buffer, or any that is reset if it is empty, with nothing readable at any request, the container never exceeds the larger of its first size and 8 + b, because discard and rollback reset an emptied buffer |
| `ByteBufferRuns.StorageBoundWhenEmptyIsMet` | src/muradin/net/bytebuffer.cpp:222-237 | and a run reaches 8 + b |
| `EvtChannel.EvtChannel.JoinToService` | src/muradin/net/ep_poller.cpp:43-58 | the stored mask becomes the registered interest, or nothing changes if the kernel refuses |
| `EvtChannel.EvtChannel.RemoveFromService` | src/muradin/net/ep_poller.cpp:60-72 | the kernel no longer knows the descriptor, or nothing changes if it refuses |
| `EvtChannel.EvtChannel.EnableRead` | src/muradin/net/evt_channel.cpp:62-71 | both masks after switching reads on or, as written, intersecting with the read flags |
| `EvtChannel.EvtChannel.EnableWrite` | src/muradin/net/evt_channel.cpp:73-85 | both masks and the progress flag, early return included |
| `EvtChannel.EvtChannel.SaveEvtStatus` | src/muradin/net/ep_poller.cpp:104 | the ready set replaces the stored mask and leaves the kernel interest alone |
| `EvtChannel.MaskEffect` | src/muradin/net/evt_channel.cpp:62-85 | which flags enabling adds and disabling keeps, when the interest follows, and that a request in progress swallows the next |
| `EvtChannel.WriteEnabledReachesKernel` | src/muradin/net/evt_channel.cpp:76-84 | if a request in progress had reached the kernel, a new one has too |
| `EvtChannel.DisablingBothClears` | src/muradin/net/connection.cpp:193-194 | switching reads and then writes off empties both masks |
| `Connection.Connection.constructor` | src/muradin/net/connection.cpp:16-36 | an unconnected connection with two empty caches |
| `Connection.Connection.Start` | src/muradin/net/connection.cpp:42-49 | registered for reads and connected, then the connect callback |
| `Connection.Connection.WriteInLoop` | src/muradin/net/connection.cpp:72-116 | the whole new state for every answer of send, with the write callback and all it does run inside, on the real cache and masks |
| `Connection.Connection.KeepRest` | src/muradin/net/connection.cpp:105-109 | what a short direct write puts into the cache, in either text |
| `Connection.Connection.HandleRead` | src/muradin/net/connection.cpp:128-149 | the whole new state for end of file, data and failure, callbacks included |
| `Connection.Connection.HandleWrite` | src/muradin/net/connection.cpp:151-177 | the whole new state for every answer of send, second discard included where the text has it |
| `Connection.Connection.HandleClose` | src/muradin/net/connection.cpp:188-205 | disconnected, masks cleared, connect callback, then unregistered |
| `Connection.Connection.FinalDestroy` | src/muradin/net/connection.cpp:50-54 | unregisters and records whether the assertion held |
| `Connection.Connection.ProcessWork` | src/muradin/net/evt_channel.cpp:87-118 | the four branches in order, each on the mask the ones before left |
| `Connection.Connection.Turn` | src/muradin/net/evt_channel.cpp:120-133 | reporting, processing or commands of others at any time, also between the report and the processing, are one step of the specification |
| `ConnectionScripts.PlayAsPredicted` | src/muradin/net/connection.cpp:72-126 | what a script does to the cache, the channel and the output stream, and whether it comes to a shutdown, through nested completion callbacks, follows from the script, the program text and whether something was cached before |
| `ConnectionEffects.StartEffect` | src/muradin/net/connection.cpp:42-49 | a started connection is connected, registered for EPOLLIN, EPOLLHUP and EPOLLPRI, and empty |
| `ConnectionEffects.WriteEffect` | src/muradin/net/connection.cpp:72-116 | which bytes a direct write hands to the kernel and which it caches, for every answer and either text, and when it asks for writability |
| `ConnectionEffects.WriteCallsBack` | src/muradin/net/connection.cpp:99-115 | the write callback runs, on that state, exactly when nothing was cached and the kernel refused or took something |
| `ConnectionEffects.FlushEffect` | src/muradin/net/connection.cpp:151-177 | for every cache and every count: the kernel gets the front; the intended text leaves the rest, the text as written drops as many bytes again, or all |
| `ConnectionEffects.FlushCallsBack` | src/muradin/net/connection.cpp:157-174 | EAGAIN only asks for writability, an error only runs the callback, and otherwise it runs exactly when something was taken |
| `ConnectionEffects.ReadEffect` | src/muradin/net/connection.cpp:131-141 | all that recv delivers up to 32768 bytes becomes received and readable, and nothing else changes |
| `ConnectionEffects.CloseOutright` | src/muradin/net/connection.cpp:188-202 | a close without a callback: disconnected, both masks empty, unregistered, one close more, nothing else |
| `ConnectionEffects.PlaySubmits` | src/muradin/net/connection.cpp:60-116 | what is submitted by a script is all it writes, completion callbacks included, in order |
| `ConnectionEffects.PlayConsumes` | src/muradin/net/bytebuffer.cpp:148-157 | what a script takes off the read cache is as many bytes from the front as it asks for, or all |
| `ConnectionEffects.ReportReceives` | src/muradin/net/evt_channel.cpp:87-111 | a report followed by processing, in terms of the flags reported: hangup without input closes; input, urgent input or half-close receives what recv delivers or closes at the end of file; nothing else does either |
| `ConnectionEffects.ReportFlushes` | src/muradin/net/evt_channel.cpp:113-117 | the cache is flushed exactly if EPOLLOUT is reported and the kernel takes something, and by how much |
| `ConnectionEffects.ReportRunsErrors` | src/muradin/net/evt_channel.cpp:98-103 | the error callback runs exactly if EPOLLERR is reported |
| `ConnectionEffects.ReceivesWhatArrives` | src/muradin/net/connection.cpp:128-149 | over every run, as a function of the events alone: what is received is what recv delivered in the turns that followed a report of input, in order, and closed means a hangup without input or an end of file was processed |
| `ConnectionEffects.StatusUntilClose` | src/muradin/net/connection.cpp:47 | over every run, until the close, the status is connected, or shutting down if somebody called shutdown |
| `ConnectionRuns.StreamConservation` | src/muradin/net/connection.cpp:72-177 | for either text and every run: accepted bytes plus cache are the submitted bytes if and only if the run, as a condition on its events and the states before them, comes to no refused direct write of data and, as written, to no short direct write of data that does not repeat and no partial flush; reports total the accepted bytes; received bytes are consumed ones plus read cache |
| `ConnectionRuns.IntendedConservation` | src/muradin/net/connection.cpp:72-116 | with the intended text, in every run without a hard error of a direct write, accepted bytes plus cache are all submitted bytes in order and the reports add up |
| `ConnectionRuns.KeptExactly` | src/muradin/net/connection.cpp:107 | caching from data instead of data+ret is right if and only if the data repeats itself at the distance of what was sent |
| `ConnectionRuns.AsWrittenDirectWrite` | src/muradin/net/connection.cpp:106-109 | a direct write as written keeps a clean stream clean, up to its completion callback, if and only if all or nothing is sent or the data repeats; no callback can make good what is lost |
| `ConnectionRuns.AsWrittenFlush` | src/muradin/net/connection.cpp:166-171 | a flush as written keeps a clean stream clean, up to its callback, if and only if it sends nothing or everything; with any callback it respects the assertion in discard if and only if it sends at most half; hence it does both only when it sends nothing |
| `ConnectionRuns.DeparturesWitness` | src/muradin/net/connection.cpp:107-171 | three bytes on which each of the two lines as written goes wrong, the assertion in discard included, and three that are refused and lost by either text |
| `ConnectionRuns.OverdrawnExactlyWhen` | src/muradin/net/connection.cpp:151-177 | over every run the assertion in discard is violated if and only if the text is the one as written and some flush sends more than half of the cache; the intended text never violates it |
| `ConnectionRuns.CloseEffect` | src/muradin/net/connection.cpp:188-202 | closing leaves at most the write flag, empties the kernel mask and unregisters, whatever the connect callback does |
| `ConnectionRuns.StepKeepsLife` | src/muradin/net/evt_channel.cpp:87-118 | every report, processing and foreign command keeps: registered exactly until the one close, listed as active only before it, and cached bytes have the kernel watching |
| `ConnectionRuns.CloseAtMostOnce` | src/muradin/net/connection.cpp:188-202 | over every run handle_close runs at most once, the channel is registered exactly until then, and is not processed again |
| `ConnectionRuns.NoLostWriteInterest` | src/muradin/net/evt_channel.cpp:73-118 | over every run, before the close, a non-empty cache or a write in progress implies EPOLLOUT in the kernel mask, also with writes of others between a report and its processing |
| `ConnectionReading.ReadInterestLostExactlyWhen` | src/muradin/net/evt_channel.cpp:62-85 | over every run on a kernel that reports only what it was asked for, errors and hangups, before the close: EPOLLIN has left the kernel mask if and only if some request for writability, not swallowed by one in progress, met a stored mask without it |
| `ConnectionReading.NothingMoreIsReceived` | src/muradin/net/evt_channel.cpp:87-118 | once no read flag is in either mask, no continuation of the run receives another byte |
| `ConnectionReading.DeafeningWitness` | src/muradin/net/evt_channel.cpp:73-85 | three cached bytes, a report of writability alone and a flush of one byte bring an open connection there, in either text |
| `ConnectionShutdown.CloseBreaksExactlyWhen` | src/muradin/net/connection.cpp:188-205 | one close violates the assertion in final_destory if and only if its connect callback comes to a shutdown |
| `ConnectionShutdown.DestroyAssertionFailsExactlyWhen` | src/muradin/net/connection.cpp:50-54 | over every run that assertion is violated if and only if the close, by hangup or end of file, runs a callback that comes to a shutdown |
| `ConnectionShutdown.DestroyAssertionHolds` | src/muradin/net/connection.cpp:50-54 | if no callback that runs during a close calls shutdown, the assertion holds in every run |
| `ConnectionShutdown.ShutdownInCloseBreaksIt` | src/muradin/net/connection.cpp:117-119 | a shutdown called anywhere in the connect callback during the close breaks it, on every connection |
| `EchoServer.EchoExactly` | example/echo.cpp:12-20 | in every run of the echo program the received bytes are what recv delivered in the turns after a report of input, and accepted bytes plus cache are the received bytes if and only if no turn finds the cache empty and has its reply refused or, as written, cut short where it does not repeat, and none, as written, flushes a part of the cache |
| `EchoServer.IntendedEcho` | example/echo.cpp:12-20 | with the intended text a hard send error is the only way to lose an echo |
| `TaskQueue.IoService.RunTask` | src/muradin/net/io_service.cpp:113-122 | run at once in the loop thread; queued at the end, with a wake-up, from elsewhere |
| `TaskQueue.IoService.QueueTask` | src/muradin/net/io_service.cpp:123-129 | one task more at the end of the pending ones, and the loop woken up unless its own thread queues the task outside a batch |
| `TaskQueue.IoService.RunPendingTask` | src/muradin/net/io_service.cpp:156-171 | runs exactly what had been enqueued before the swap; what arrives meanwhile is pending, in order |
| `TaskQueue.IoService.Run` | src/muradin/net/io_service.cpp:60-78 | the iterations up to the first that finds quit set, each waiting, processing its active channels one by one, and a swap and a batch; every submission from elsewhere and the quit wake the loop once |
| `TaskQueue.RoundQueuesAll` | src/muradin/net/io_service.cpp:64-77 | an iteration queues all that is submitted while it waits, then while it processes each channel, then while each task of its batch runs, and executes all but the last of these |
| `TaskQueue.Linearity` | src/muradin/net/io_service.cpp:113-171 | under any interleaving executed, rest of batch and pending tasks are the enqueued ones in order; executed is a prefix, for each producer too |
| `TaskQueue.SubmissionsRecorded` | src/muradin/net/io_service.cpp:113-129 | in every run what is run directly is what the loop thread submits, and what is queued is what the others submit, all of it, in order |
| `TaskQueue.EveryTaskOnce` | src/muradin/net/io_service.cpp:113-171 | under any interleaving each task submitted, from any thread, is exactly once among those run directly, executed, left in the batch and pending |
| `TaskQueue.BatchCompleteness` | src/muradin/net/io_service.cpp:156-171 | an iteration executes everything enqueued before its swap and nothing enqueued after |
| `TaskQueue.DrainIsARun` | src/muradin/net/io_service.cpp:167-169 | running a batch in the loop object is one of the interleavings of the atomic steps |
| `TaskQueue.LoopLeavesOnlyLateTasks` | src/muradin/net/io_service.cpp:60-84 | when the loop ends, everything enqueued before the swap of its last round has run, and what is pending is exactly what arrived while that last batch was running, in order |

## Left out

- Sockets, epoll, eventfd, signals and threads are environment steps: their answers are inputs of the model.
- Prompt wake-up of the loop: the wake-up write adds zero to the eventfd, so progress rests on the poll timeout; order and completeness of batches are claimed, not latency.
- Calls from other threads on a connection: the unsynchronised connection map, raw pointers in queued tasks and the race in start off the loop thread. Start is one completed step and a queued write is a task of the loop.
- The weak tie between channel and connection: a connection lives as long as its runs.
- In the runs of a connection: failed poller calls, and a null error callback other than as one that does nothing.
- A user callback of the connection may write, shut down and discard input; it cannot destroy the connection.
- ByteBuffer.ByteBuffer.AppendBuffer: a buffer appended to itself is excluded where making space would move its bytes, because the pointer it passes then points at freed memory after growing, or at other bytes after compacting.
- Wrap-around of the client's byte counters at the width of size_t; counters are unbounded.
- Byte buffer: as_string, retrieve_string, resize, append_str and the setter of the byte order.
- uint64_hton and uint64_ntoh take 32-bit parameters, so no 64-bit round trip holds for them; the other network-order wrappers are the conversions of Endian for big-endian order.
- Base-256 digits are taken by shifts and masks on bit vectors; their reading as sums over unbounded integers is not stated.
- Logging, timestamps, system errors, addresses, the blocking counter, the service pool, the acceptor, timers, command lines and the rest of the preprocessor layer.
