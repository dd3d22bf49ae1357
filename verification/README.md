# Verified model of the screen-mirroring client

A Dafny model of the parts of the client where a mistake is hard to see: threads that
interrupt each other, bytes that pass through many buffers, sockets that must be closed on
every path, and text that another program has to read back. `dafny verify dfyconfig.toml`
checks everything.

## What is modelled

**Interrupting a blocking call** (`SocketMemory`, `InterruptProtocol`, `NetIntr`, `ProcessPipe`).
One worker thread publishes the socket or process it is about to block on; any number of other
threads call `intr_interrupt()`. On Windows and macOS a socket is a heap wrapper whose atomic flag
decides who closes the raw handle. Every lock, load, store, test-and-set, close and free is a step
of its own, in any interleaving. A joint invariant over the slots, the program counters and the
memory gives: no interrupt is lost, no call starts after one, every handle is closed exactly once,
nothing freed is touched. Whoever holds the lock is never stuck and gives it back after at most
eleven steps of its own, so an interrupt completes. The classes of `NetIntr` do the same in the form
of the program; their effects are the functions that the critical sections of the step system are
shown to have.

**Mutex ownership** (`LockOwnership`). The debug field `locker_` against the mutex it describes, for
any number of threads. With `sc_cond_timedwait` alone, `held()` is true to the fact at every assert.
`sc_cond_wait` does not restore the field: after it `held()` is right if and only if no other thread
locked, came back from a timed wait or unlocked meanwhile, and a run is given in which an assert
fails.

**From the socket to the file** (`Bits`, `Framing`, `Merging`, `Codecs`, `PacketSource`, `Adts`,
`FileSink`, `Demuxer`, `EndToEnd`). Byte stream, codec header, 12-byte framing, in-place config
merger, fan-out to sinks, files. Methods work on arrays and objects and may fail at every
allocation, receive, open, push, write, flush and close; their contracts tie each run to functions
on sequences. The end-to-end lemmas say what a given packet list leaves in a file, also for a stream
cut short or a run in which something fails.

Some things one would expect of the files are not so, and the lemmas say exactly when they are. The
sink looks at no result of a write, flush or close: on a full disk it goes on accepting packets and
drops them (`DiskFull`). The file is always a prefix of what the accepted packets make, and the
stream is broken at the end if and only if something failed on the disk (`FileAfterAnyRun`).
Whatever fails while a packet is received is reported as the end of the stream (`EndsAfter`). Frames
of AAC longer than 8184 bytes overflow the 13-bit length of the ADTS header: the written file can be
walked back if and only if no frame is longer. The header has the channels in another place than
section 6.2 of ISO/IEC 13818-7 (`StandardChannelsReadBackIff`), announces a checksum that is not
there although the comment beside it says the contrary (`ChecksumIsAnnounced`), and tells 44100 Hz
for rates it does not list (`RateReadBackIff`).

**Connecting** (`Connection`, `RunServer`). The port search, the retry loop, `sc_server_connect_to`
with its cleanup, and `run_server`, with nondeterministic outcomes of every system call and
interrupts at any moment. Sockets are the wrappers of `SocketMemory`, so "closed once" is the same
notion throughout. Three exits are not clean, and the contracts say exactly which: in forward mode
with no stream enabled the first socket is never closed (`leaked`); an interrupted port search
leaves its last `adb reverse` rule on the device (`ruleKept`); and connecting succeeds with the
handle of the first stream closed if an interrupt strikes while the device information is read but
the read has what it wants (`read.Struck?`).

**Text and arithmetic** (`StrUtil`, `Numerals`, `ServerParams`, `CmdFormat`, `CmdArguments`,
`CmdBuilder`, `ServerCommand`, `Orientation`, `Tick`, `TimedWait`). The command line that starts the
server is read back to the parameters it was printed from, and has exactly the arguments they call
for; splitting undoes joining; orientations are image transforms and form a group; the clock
conversion is exact; waits are never early.

Outcomes of the outside world are `*` or calls of `Env.Try` and `World.Try`, which count failures so
that contracts can say what happens when there are none. Bytes and words are natural numbers with
explicit bounds, bit operations are defined on them in `Bits`. Values of `nat` are never negative,
so the truncating division of C is the division here.

## Model

| member | source | states |
|---|---|---|
| `SocketMemory.WrapKeeps` | src/net.cpp:165-186 | a new wrapper, or a failed one whose handle is closed at once, keeps "the flag of a wrapper counts the closes of its handle" and the one-owner-per-handle rule |
| `SocketMemory.SetFlagKeeps` | src/net.cpp:155-195 | whoever sets the flag first owes the close; whoever finds it set owes nothing |
| `SocketMemory.CloseRawKeeps` | src/net.cpp:36-43 | the close that is owed brings the count of that handle to one and no other |
| `SocketMemory.FreeKeeps` | src/net.cpp:149-163 | only a wrapper whose handle is closed is freed |
| `SocketMemory.ClosedOnceUnlessLive` | src/net.cpp:149-202 | with no close owed, a handle without a live wrapper has been closed exactly once |
| `InterruptProtocol.StepKeepsInv` | src/util/sc_intr.cpp:7-107 | every step of the worker and of any interrupter keeps the joint invariant: at most one slot set, none after an interrupt, a published wrapper is live, close counts match flags |
| `InterruptProtocol.RunKeepsInv` | src/util/sc_intr.cpp:7-107 | the invariant holds in every state of every interleaving |
| `InterruptProtocol.NoLostInterrupt` | src/util/sc_intr.cpp:20-39 | in every state from the first complete interrupt on, also while further interrupters are in the critical section, a worker still in its call has its socket closed or its process terminated |
| `InterruptProtocol.RaisedForever` | src/util/sc_intr.cpp:7-39 | what a complete interrupt leaves, the flag up and both slots empty, stays so in every later state |
| `InterruptProtocol.NoCallAfterInterrupt` | src/util/sc_intr.cpp:46-107 | once the flag is up, a worker not already past its check never starts a blocking call again |
| `InterruptProtocol.ExactlyOneClose` | src/net.cpp:149-202 | in every run each raw handle is closed at most once, and exactly once when its wrapper has been freed |
| `InterruptProtocol.NoTouchAfterFree` | src/net.cpp:135-202 | in every state of every run a wrapper that the worker is about to read, flag or free is live, and the asserts of `set_socket` and `set_process` hold |
| `InterruptProtocol.NoInterruptAfterFree` | src/util/sc_intr.cpp:20-39 | the same of every interrupter, and the assert of `intr_interrupt` holds |
| `InterruptProtocol.SetSlotIsAtomic` | src/util/sc_intr.cpp:7-18 | from lock to unlock a `set_*` call acts as one step: it stores unless interrupted, and only then goes on to block |
| `InterruptProtocol.InterruptIsAtomic` | src/util/sc_intr.cpp:20-39 | from lock to unlock `intr_interrupt` leaves the flag up, both slots empty, and what was published closed or terminated |
| `InterruptProtocol.CallComesBackClosed` | src/util/sc_intr.cpp:84-95 | a run in which the handle is closed while the socket is still published, and the call nevertheless comes back like any other |
| `InterruptProtocol.AcceptedThenClosed` | src/util/sc_intr.cpp:71-82 | a run in which accept brings a socket that is then interrupted and closed, while the listening socket stays open |
| `InterruptProtocol.ProcessIsWaitedFor` | src/util/process_intr.cpp:4-15 | a run in which the worker waits for a process that is published |
| `InterruptProtocol.CallTouchesOnlyItsSocket` | src/util/sc_intr.cpp:46-95 | while the worker is in a call on a socket, no handle is closed but that of this socket, and only if at some moment of the call it is published and the interrupt flag is up |
| `InterruptProtocol.HolderIsEnabled` | src/util/sc_intr.cpp:7-39 | in every reachable state whoever holds the lock can take its next step |
| `InterruptProtocol.GivesBack` | src/util/sc_intr.cpp:7-39 | within eleven steps of its own the holder has given the lock back, whatever the others do in between |
| `InterruptProtocol.InterruptCompletes` | src/util/sc_intr.cpp:20-39 | after eleven steps of an interrupter that has taken the lock, flag and slots are as a complete interrupt leaves them, and a worker still in its call has its socket closed or its process terminated |
| `InterruptProtocol.CloseTakesEffect` | src/net.cpp:149-202 | when the worker is back from `net_close` or `net_interrupt`, the handle of the socket has been closed exactly once, and the wrapper is freed by the one and live after the other |
| `InterruptProtocol.CloseReturns` | src/net.cpp:149-202 | until then the worker is never stuck, and it is back after at most four steps of its own, whatever the others do |
| `InterruptProtocol.CallBlocks` | src/util/sc_intr.cpp:46-95 | a call that has come back has blocked on its target, or an interrupt came first |
| `InterruptProtocol.IdleHoldsNothing` | src/util/sc_intr.cpp:46-95 | after every call both slots are empty |
| `InterruptProtocol.SocketIsMade` | src/net.cpp:165-186 | a new socket is open and owns its handle; without memory the handle has been closed once and there is no wrapper |
| `NetIntr.Net.WrapRaw` | src/net.cpp:165-186 | without memory the handle is closed once and no socket comes back |
| `NetIntr.Net.NetInterrupt` | src/net.cpp:188-202 | the socket stays allocated and its handle has been closed exactly once, whoever came first |
| `NetIntr.Net.NetClose` | src/net.cpp:149-163 | the wrapper is gone and its handle has been closed exactly once |
| `NetIntr.Intr.SetSocket` | src/util/sc_intr.cpp:7-18 | stores and succeeds if and only if not interrupted |
| `NetIntr.Intr.SetProcess` | src/util/sc_intr.cpp:97-107 | stores and succeeds if and only if not interrupted |
| `NetIntr.Intr.IntrInterrupt` | src/util/sc_intr.cpp:20-39 | the published socket is shut or the published process terminated, both slots are emptied, the flag is up |
| `ProcessPipe.Pipe.ReadAll` | src/util/sc_process.cpp:234-247 | the buffer holds a prefix of the output and nothing is lost or read twice; without failure it is filled as far as the output goes |
| `ProcessPipe.Pipe.ReadAllIntr` | src/util/process_intr.cpp:4-15 | after an interrupt nothing is read; otherwise the process is published while the output is read as far as it fits, and the slot is empty afterwards |
| `LockOwnership.StepKeepsInv` | src/util/sc_thread.cpp:68-149 | lock, unlock and timed wait keep: between its own stores the thread that has the mutex is the locker, and a stale name belongs to a waiting thread |
| `LockOwnership.HeldIsTruthful` | src/util/sc_thread.cpp:68-149 | without `sc_cond_wait`, at every assert of every run `held()` says whether the thread has the mutex, and the assert holds |
| `LockOwnership.MutualExclusion` | src/util/sc_thread.cpp:120-149 | two threads are never between lock and unlock at once, whatever waits are used |
| `LockOwnership.NoDeadlock` | src/util/sc_thread.cpp:120-149 | in every reachable state the thread that has the mutex can go on, and if nobody has it every thread can |
| `LockOwnership.HeldAfterWaitIff` | src/util/sc_thread.cpp:53-66 | after `sc_cond_wait` `held()` is right if and only if meanwhile no other thread took the mutex by lock, got it back from a timed wait, or unlocked |
| `LockOwnership.UnlockAfterWaitFailsIff` | src/util/sc_thread.cpp:53-66 | however much later the waiter unlocks, the assert of unlock holds if and only if there was no such thread |
| `LockOwnership.WaitMakesAssertFail` | src/util/sc_thread.cpp:53-66 | a concrete run of two threads that reaches the assert of unlock with `held()` false |
| `Bits.Read32beIsBigEndian` | src/util/binary.h:4-7 | or-ing the shifted bytes gives the big-endian value of four bytes |
| `Bits.Read64beIsBigEndian` | src/util/binary.h:9-14 | the same for eight bytes |
| `Bits.BigEndianUndoesBe32` | src/util/binary.h:4-7 | the big-endian value undoes big-endian writing of every 32-bit value |
| `Bits.BigEndianUndoesBe64` | src/util/binary.h:9-14 | the big-endian value undoes big-endian writing of every 64-bit value |
| `Framing.WordRoundTrip` | src/codec/demuxer.cpp:119-129 | flags and timestamp put into the header word come out again; a config packet has no timestamp |
| `Framing.RoundTrip` | src/codec/demuxer.cpp:76-131 | reading packet after packet from the encoding of any packet list gives the list back |
| `Framing.EncodeThen` | src/codec/demuxer.cpp:76-131 | reading one packet uses up exactly 12 + length bytes |
| `Framing.Truncation` | src/codec/demuxer.cpp:76-131 | a stream cut at any byte yields exactly the packets that arrived whole |
| `Framing.NoPtsMeansConfig` | src/codec/demuxer.cpp:119-129 | on anything received, "no timestamp" agrees with bit 63 of the word, and other timestamps lie in [0, 2^62) |
| `Merging.MergeAllAt` | src/codec/packet_merge.cpp:12-45 | what comes out at a place is read off the input alone: a media packet gets the config packet directly before it |
| `Merging.MergeConserves` | src/codec/packet_merge.cpp:12-45 | output bytes are the input bytes plus those of each config packet that directly precedes a media packet |
| `Merging.MemMoveUp` | src/codec/packet_merge.cpp:36-36 | the overlapping move keeps every byte |
| `Merging.Merger.Merge` | src/codec/packet_merge.cpp:12-45 | growing, moving and copying in place is one step of the pending-config fold; without memory a media packet and what is pending stay as they were |
| `PacketSource.Source.OpenSinks` | src/codec/packet_source.cpp:21-32 | opens in order; at the first failure the ones already open are closed, last first |
| `PacketSource.Source.PushPacket` | src/codec/packet_source.cpp:34-45 | hands the packet to each sink in order up to the first that refuses it |
| `PacketSource.Source.CloseSinks` | src/codec/packet_source.cpp:47-51 | closes all, last first |
| `PacketSource.Source.DisableSinks` | src/codec/packet_source.cpp:53-61 | disables each sink once |
| `PacketSource.Source.CloseFirsts` | src/codec/packet_source.cpp:63-69 | closes the given number of sinks, last first |
| `PacketSource.SinkProtocol` | src/codec/packet_sink.h:14-28 | for every outcome and every sink the calls are: none, one disable, one failed open, or an open, pushes and one close |
| `PacketSource.LaterSinksLag` | src/codec/packet_source.cpp:34-45 | a later sink accepts a prefix of what an earlier one accepts, shorter by at most one |
| `PacketSource.ClosesReverseOpens` | src/codec/packet_source.cpp:21-69 | in every run, failed opens and refused packets included, the sinks closed are those opened, each once, in the reverse order |
| `Adts.CreateAdtsHeader` | src/codec/packet_sink.cpp:212-255 | the seven bytes written in place are those of the header function |
| `Adts.LengthReadBack` | src/codec/packet_sink.cpp:244-247 | the length spread over bytes 3 to 5 is read back for every length below 2^13 |
| `Adts.ChannelsReadBack` | src/codec/packet_sink.cpp:235-247 | the channel bits share byte 3 with the length and are read back from where they were put |
| `Adts.StandardChannelsReadBackIff` | src/codec/packet_sink.cpp:229-239 | from where ISO/IEC 13818-7 has the channel configuration the number of channels is read back if and only if it is 0 |
| `Adts.ChecksumIsAnnounced` | src/codec/packet_sink.cpp:222-227 | every header starts with the bytes 0xFF 0xF0 and so announces a checksum, although none is written |
| `Adts.FormatReadBack` | src/codec/packet_sink.cpp:229-233 | profiles 1 to 4 and every index of a sample rate are read back |
| `Adts.FullnessReadBack` | src/codec/packet_sink.cpp:249-254 | buffer fullness is 0x7FF, whatever the length |
| `Adts.SyncReadBack` | src/codec/packet_sink.cpp:220-227 | every header starts with the syncword |
| `Adts.WalkRecoversExactlyIfFramesFit` | src/codec/packet_sink.cpp:188-255 | walking the file by syncword and length gives back the non-empty frames in order if and only if every frame has at most 8184 bytes |
| `FileSink.Sink.FileOpen` | src/codec/packet_sink.cpp:32-129 | a file that is opened is empty and takes the AAC parameters of the codec context; opening again succeeds but leaves the stream broken |
| `FileSink.RateReadBackIff` | src/codec/packet_sink.cpp:70-113 | the header tells the sample rate of the codec context if and only if it is one of twelve, and 44100 Hz otherwise |
| `FileSink.Sink.FilePush` | src/codec/packet_sink.cpp:143-186 | accepts exactly while the file is open, also when the disk does not take the packet; a stream that is not broken gets the packet in the form of its codec, all of it or, if the write or the flush fails, a part, and is broken from then on |
| `FileSink.Sink.WriteAac` | src/codec/packet_sink.cpp:188-210 | appends header and frame, or nothing for an empty frame; if one of the two writes fails, a part of both is left and the stream is broken |
| `FileSink.FileAfterRun` | src/codec/packet_sink.cpp:131-186 | a sink that was opened, given packets and closed has written a prefix of what those packets make, all of it if nothing failed; its stream is broken if and only if something did |
| `FileSink.OpenedAgainDropsAll` | src/codec/packet_sink.cpp:62-67 | a sink opened again while open accepts every packet and writes none |
| `FileSink.OpenSinkAccepts` | src/codec/packet_sink.cpp:143-177 | a file sink that was opened never refuses a packet |
| `FileSink.AcceptsWhateverFails` | src/codec/packet_sink.cpp:143-186 | whichever writes, flushes and closes fail, every packet is accepted |
| `FileSink.DiskFull` | src/codec/packet_sink.cpp:155-186 | a run in which a packet is accepted and the file stays empty |
| `FileSink.FlushedStays` | src/codec/packet_sink.cpp:170-174 | whenever the packet count has reached a multiple of 100 without a failure, no later failure takes what is in the file by then |
| `Demuxer.Socket.RecvAll` | src/net.cpp:297-301 | delivers the bytes asked for or what is left, or fails and delivers nothing |
| `Demuxer.RecvCodecId` | src/codec/demuxer.cpp:51-61 | four bytes, big-endian; fails only at the end of the stream or on a fault |
| `Demuxer.RecvVideoSize` | src/codec/demuxer.cpp:63-74 | eight bytes as width and height |
| `Demuxer.RecvPacket` | src/codec/demuxer.cpp:76-131 | the packet filled in place is the decoded one and exactly its bytes are consumed |
| `Demuxer.Demux.OnePacket` | src/codec/demuxer.cpp:238-261 | one turn of the loop moves one packet from what is still to come to every sink, or says why not |
| `Demuxer.Demux.PacketLoop` | src/codec/demuxer.cpp:232-261 | whatever fails, what was pushed is a prefix of what the stream holds; without failure it is all of it |
| `Demuxer.Demux.StreamToSinks` | src/codec/demuxer.cpp:220-278 | between opening and closing the sinks a prefix of the stream is pushed, and all of it if nothing fails |
| `Demuxer.Demux.RunDemuxer` | src/codec/demuxer.cpp:133-278 | the end is reported exactly once; the sinks see one of the protocol's logs; without failure the outcome is the function of the bytes, and after one the first call that failed decides whether the sinks are disabled, left alone, opened in vain or closed, and what is reported |
| `EndToEnd.MergedFile` | src/codec/packet_merge.cpp:12-45 | the file written from the merged packets is the fold over the packets sent |
| `EndToEnd.AudioIsStreamed` | src/codec/demuxer.cpp:17-49 | a stream that starts with the bytes of "opus", "flac", 0 "aac" or 0 "raw", cut anywhere, is pushed packet by packet, config packets unmerged |
| `EndToEnd.Av1IsStreamed` | src/codec/demuxer.cpp:17-49 | the same for 0 "av1" behind a video header if FFmpeg has AV1; otherwise the sinks are disabled |
| `EndToEnd.H26xIsStreamed` | src/codec/demuxer.cpp:17-49 | "h264" and "h265" are pushed with each config packet merged into the next packet |
| `EndToEnd.OthersAreNotStreamed` | src/codec/demuxer.cpp:133-186 | id 0 disables, id 1 and a cut id or video size leave the sinks alone with an error, every other id disables them with an error |
| `EndToEnd.VideoEndToEnd` | src/codec/demuxer.cpp:133-278 | an H.264 or H.265 stream, cut anywhere after its header, leaves in every file sink whose disk does not fail the config and media payloads of the whole packets, each media payload after the pending config |
| `EndToEnd.AacEndToEnd` | src/codec/packet_sink.cpp:143-255 | from the file of an AAC stream, if the disk does not fail, the frames sent can be walked back if and only if each fits the length field |
| `EndToEnd.FileAfterAnyRun` | src/codec/packet_sink.cpp:32-177 | after any run the file of a sink that was opened is a prefix of what the packets it accepted make, and all of it if no write, flush or close failed; the stream is broken if and only if one did |
| `EndToEnd.FileIfNotOpened` | src/codec/packet_sink.cpp:32-177 | a sink that was not opened in the run, or failed to open, leaves its file as it was |
| `EndToEnd.FileIsPrefix` | src/codec/demuxer.cpp:133-278 | whatever fails, on the stream, in a sink or on the disk, the file of a sink that was opened is a prefix, byte by byte, of what the whole stream makes |
| `EndToEnd.LaterFileLags` | src/codec/packet_source.cpp:34-45 | of two sinks one file is always a prefix of the other; if neither disk fails, the later sink's lacks at most the last packet of the earlier one's |
| `Connection.World.NewHandlesClosedOnce` | src/net.cpp:149-202 | every handle made in between was closed exactly once or belongs to one of the sockets that are kept |
| `Connection.World.ShutIsClosed` | src/net.cpp:149-202 | the handle of a wrapper has been closed once if its flag is set and is open otherwise |
| `Connection.World.Block` | src/util/sc_intr.cpp:46-95 | a blocking call is refused after an interrupt; only an interrupt during the call closes its handle, and the call may succeed all the same |
| `Connection.ListenOnPort` | src/adb/adb_tunnel.cpp:43-55 | a socket that cannot listen is closed again; the handle of the one returned is open if and only if no interrupt struck the call |
| `Connection.Tunnel.EnableReverseAnyPort` | src/adb/adb_tunnel.cpp:26-83 | ends even at port 65535; on success it holds the least port of the range whose listen succeeded, with socket, port and flag agreeing, and the listening handle is open if and only if no interrupt struck that listen; it gives up only if adb failed, an interrupt came or the last port failed too; on failure no socket stays open and the tunnel stays disabled |
| `Connection.Tunnel.Open` | src/adb/adb_tunnel.cpp:7-24 | enabled if and only if it succeeds; forced forward mode always fails; otherwise the whole range is searched, and with no failure and no interrupt the first port is taken |
| `Connection.Tunnel.Close` | src/adb/adb_tunnel.cpp:97-119 | the tunnel is disabled and its listening socket closed once |
| `Connection.ConnectAndReadByte` | src/server/server.cpp:37-53 | on success the socket is connected to the port and a byte was read; never succeeds after an interrupt, and leaves the socket to its owner |
| `Connection.ConnectToServer` | src/server/server.cpp:391-421 | gives up only if interrupted, stopped, or after as many tries as asked for, 2^32 for 0, with a sleep after each but the first of 2^32; every socket but the one returned is closed, and that one is connected to the port and was read from |
| `Connection.Server.AcceptStreams` | src/server/server.cpp:261-281 | the connections of the device are handed out in the order video, audio, control, one to each enabled stream, all distinct and with open handles; on failure exactly the sockets made so far |
| `Connection.Server.ConnectStreams` | src/server/server.cpp:282-333 | the same in forward mode after at most 100 tries, every socket connected to the port of the parameters or else of the tunnel; the first socket belongs to no stream if and only if none is enabled |
| `Connection.FirstWasMadeFirst` | src/server/server.cpp:346-353 | the socket that the device information is read from is the first of the connections made |
| `Connection.Server.ConnectTo` | src/server/server.cpp:245-389 | every exit leaves the tunnel disabled; with no failure and no interrupt it succeeds if and only if a stream is enabled; success gives the enabled streams the sockets made last, in the order video, audio, control, all handles open but the first one's exactly if an interrupt struck while the device information was read from it; every other handle made is closed exactly once, but for the socket that leaks exactly if forward mode connects with no stream enabled |
| `RunServer.Runner.Run` | src/server/server.cpp:445-566 | with no failure and no interrupt the result is 0, on the first port of the range, if and only if forward mode is not forced, the serial in use is not empty and a stream is enabled; each run makes exactly the calls of the end it came to: one of the two callbacks, adb killed if asked for and no serial was known yet or the session is over, the process handle closed once if there was one; the tunnel stays open only when the observer could not be created; no socket remains after a failure |
| `Orientation.ApplyComposes` | src/util/options.cpp:49-83 | transforming any image by the composed orientation is transforming by one and then by the other |
| `Orientation.FoldHasSameEffect` | src/util/options.cpp:49-83 | a list of orientations of any length folds to one with the same effect |
| `Orientation.Group` | src/util/options.cpp:49-83 | associative, with 0 as unit and an inverse for each orientation |
| `Orientation.EffectDetermines` | src/util/options.cpp:49-83 | different orientations act differently on some image |
| `StrUtil.StrJoin` | src/str_util.cpp:134-156 | the loop gives the joined text, and what was reserved is exactly what is used |
| `StrUtil.JoinLength` | src/str_util.cpp:134-156 | the length is that of the tokens plus one separator between each two |
| `StrUtil.SplitUndoesJoinIffFree` | src/str_util.cpp:134-156 | splitting gives the tokens back if and only if none contains the separator |
| `StrUtil.BuildCmd` | src/util/sc_process.cpp:215-223 | succeeds if and only if the command line is shorter than the limit; it splits back if and only if no argument has a space |
| `Numerals.ReadPrint` | src/server/sc_server_cmd_builder.cpp:107-112 | reading a printed number gives the number, in base 10 and 16 |
| `Numerals.PrintStartsWithDigit` | src/server/sc_server_cmd_builder.cpp:107-112 | no printed number has a leading zero |
| `CmdFormat.NamesDistinct` | src/server/sc_server_cmd_builder.cpp:114-246 | no two parameters share a key |
| `CmdFormat.CutAtFirstEquals` | src/server/sc_server_cmd_builder.hpp:71-76 | cutting an argument at its first '=' gives key and value, whatever the value contains |
| `CmdFormat.LookupFinds` | src/server/sc_server_cmd_builder.hpp:71-76 | looking a key up among printed arguments finds what was printed under it |
| `CmdFormat.OrientationReadBack` | src/server/sc_server_cmd_builder.cpp:149-162 | lock and orientation are read back; "@" alone keeps the lock and drops the orientation |
| `CmdFormat.ListReadBack` | src/server/sc_server_cmd_builder.cpp:234-243 | the five list flags are read back to the five low bits |
| `CmdFormat.DecodePrinted` | src/server/sc_server_cmd_builder.cpp:114-246 | reading the arguments with the builder's own defaults gives the parameters, normalized |
| `CmdFormat.PrintedIffTextsClean` | src/server/sc_server_cmd_builder.cpp:97-105 | printing goes through if and only if no text that is present has a forbidden character |
| `CmdArguments.EveryArgument` | src/server/sc_server_cmd_builder.cpp:10-246 | for each of the 46 keys, written out, and every text v: the argument "key=v" is in the vector if and only if the parameters call for it, with all names of the enumerations written out |
| `CmdArguments.RefusedCharacters` | src/server/sc_server_cmd_builder.hpp:30-43 | a text is refused if and only if it holds one of these 24 characters |
| `CmdBuilder.Builder.AddValidated` | src/server/sc_server_cmd_builder.cpp:97-105 | succeeds if and only if the value has no forbidden character, and adds nothing otherwise |
| `CmdBuilder.Builder.BuildFromParams` | src/server/sc_server_cmd_builder.cpp:114-246 | the vector grows by the printed parameters, up to the first refused text; the result is true if and only if no present text is refused, and then the new part has exactly the arguments that the parameters call for and reads back to them |
| `ServerCommand.Argv` | src/server/server.cpp:169-221 | a vector results if and only if no text is refused; it starts with the ten fixed arguments, the others are those that the parameters call for and read back to them; joining and splitting preserve it if and only if adb path and serial have no space |
| `Tick.TickNowIsExact` | src/util/tick.cpp:44-53 | both branches give counter * 10^6 / frequency rounded down, so they agree |
| `Tick.TickNowIsMonotone` | src/util/tick.cpp:44-53 | a later counter never gives an earlier time |
| `Tick.FitsExactly` | src/util/tick.cpp:44-53 | for 64-bit counter and frequency the first branch never overflows, and the second exactly if 10^6 times the remainder or the result does not fit |
| `Tick.NoOverflow` | src/util/tick.cpp:44-53 | in the second branch nothing leaves 64 bits if 10^6 * (frequency - 1) and the result fit |
| `TimedWait.RoundedUpByLessThanOneMs` | src/util/sc_thread.cpp:68-80 | the wait in milliseconds covers the time asked for by less than one more |
| `TimedWait.Monitor.CondTimedWait` | src/util/sc_thread.cpp:68-97 | a timeout is reported only at or after the deadline; the wait ends less than a millisecond, and the time between reading the two clocks, beyond it |
| `TimedWait.Monitor.ServerSleep` | src/server/server.cpp:423-434 | under any spurious wake-ups true only at or after the deadline and only if none of them set the flag, false as soon as one has |
| `TimedWait.Monitor.ObserverTimedWait` | src/util/sc_process.cpp:317-328 | true only if the process has terminated, as soon as a wake-up tells it; false only at or after the deadline |

## Normalization of the parameters

`CmdFormat.Normalize` says what the arguments do not tell: the audio source of a server without
audio; the capture orientation when the device's initial one is locked; the part of the screen-off
timeout below a millisecond (and any negative value is -1); bits of the list beyond the five known
ones. `audio_dup` prints as "1", all other flags as "true" or "false"; a flag at its default, a zero
and a missing text are not printed. The argument `tunnel_forward`, which `execute_server` puts
before the builder's own, is outside the part that is read back.

## Left out

- Real sockets, adb, FFmpeg, processes, files, logging and environment variables: only their outcomes and the resources they create are modelled.
- What a broken stream keeps in its own buffer: a failed write, flush or close leaves a prefix of the bytes given so far, at least the flushed ones, and closing adds none.
- Reuse of addresses and raw handles by the system: in the model a freed wrapper's address and a closed handle never come back.
- The socket variant without wrappers, where an interrupt is a `shutdown` and no handle changes owner.
- Relaxed memory orderings: steps are interleaved on one memory.
- `net_recv_all` and `net_interrupt` by the demuxer threads on sockets they were handed; only the worker that owns a socket closes it in the protocol model.
- Termination of a blocked worker after its handle is closed, which is up to the operating system.
- ProcessPipe.Pipe.ReadAllIntr: an interrupt in the middle of the read is a matter of the step system, not of this method.
- `sc_process_execute_p`, `run_observer`, and the controller, device, main, env and common files: finite branch sets around system calls.
- The adb output parser and device selection: they appear as the outcome "selected".
- `sc_str_parse_integer`, whose base 0 the library function it calls does not define; `str_util_trim` and the quoting helper.
- Conformance of the ADTS fields that no lemma names, and a walk that skips the checksum announced.
- Destruction of a packet source, which closes its sinks once more; the sink protocol is for one run.
- Demuxer.RecvPacket: asks for a packet length other than zero, which the source asserts.
- Allocations larger than the 32-bit limit of the library, which the model counts among the failures.
- Which host is connected to; the port is modelled.
- The forward tunnel, which is a stub in the source; the code behind it is modelled as if it were enabled.
- Whether `on_disconnected` can follow `on_connection_failed`, exceptions thrown after `on_connected`, and an observer thread that waits on a closed process handle.
- The wait for stop is one event, not a loop. It is an untimed wait on the server's mutex (src/server/server.cpp:536-541), so by `LockOwnership.UnlockAfterWaitFailsIff` a build with asserts fails there once another thread has locked that mutex to set the stop flag.
- Sockets of a finished session are shut but freed elsewhere.
- TimedWait.Monitor.ServerSleep: the wake-ups before the timeout form a finite list of any length.
- CmdBuilder.Builder.BuildFromParams: the source appends to a vector of its caller; here the builder owns the vector, so aliasing is not captured, and the long method is cut into sections.
- The defaults of the Android server: the reader of the arguments uses those of the builder.
- The debug arguments of a server built with a debugger.
