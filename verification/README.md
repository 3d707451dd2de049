# A verified model of the lkh2 HTTP/2 client

The repository is a browser-imitating HTTP client. This project models its native HTTP/2 stack in Dafny
and proves what that stack promises, for all inputs, all runs and all interleavings:

- the frame codec, header splitting and CONTINUATION assembly (`Wire`, `Frames`, `Codec`, `HeaderBlocks`);
- streams, connection state and two-level flow control (`Streams`, `Connection`, `ConnObject`);
- the sans-I/O engine: body sender, receive credit, SETTINGS, GOAWAY (`Sender`, `Policy`, `Engine`,
  `EngineObject`), with an invariant over every run (`Runs`, `SendRuns`, `EngineRuns`, `EngineLaws`), the
  laws that follow from it (`EngineTheorems`, `StreamCredit`), its state and answers read off the frames
  received and sent (`History`, `Answers`) and runs that reach its weak spots (`Witnesses`);
- the driver as a step machine over the engine: queue, pending streams, permits, cancellation,
  dispatch, shutdown (`RequestDesk`, `Driver`, `DriverObject`, `DriverRuns`, `DriverTheorems`, `DriverHistory`,
  `Endings`);
- from caller to wire and back: what goes out for a request (`CallerRequests`), what each frame brings its
  caller, response bodies, what a complete-looking response is worth, and whether engine and driver agree
  on who still waits (`Replies`, `ResponseBodies`, `WholeBodies`, `WireReplies`, `CompleteResponses`,
  `Waiters`), with a run that misleads a caller (`DriverWitnesses`);
- the way from a profile over the wire to the independent fingerprint parser (`Profiles`, `Fingerprint`),
  and randomized profiles (`Shuffle`, `Synthesis`);
- the C interface's outstanding-operation counter and operation result (`Outstanding`, `Operations`).

Where the source computes, the model is functions and datatypes; where it updates in place, the model is
classes and loops (`H2Codec`, `ContinuationAssembler`, `ConnState`, `H2Engine`, `DriverState`, `OpObject`,
`Rng`) whose methods are proved against those functions. A run of the engine (`EngineLaws.Run`) is any
sequence of requests and of inbound frames the codec can deliver; a run of the driver
(`DriverTheorems.SysRun`) is any interleaving of caller steps and loop turns. `EngineObject.ProcessReaches`
and `DriverRuns.DispatchSound` tie the two levels together, so a law of engine runs is a law of the bytes
processed and of the driver's connection.

The code is followed where it and its documentation disagree. These are the places where a promise
fails, each with the exact condition under which it holds:

- `is_goaway` is documented as "has received a GOAWAY" but only a non-zero code sets it. After a graceful
  GOAWAY dispatch goes on opening streams (`GracefulGoAwayStillOpens`, `DispatchOpensIff`).
- A response that looks complete need not be. It is whole if and only if no graceful GOAWAY cut it off
  after its headers and none of its DATA frames met a branch of `handle_data` that drops it
  (`CompleteIsWholeIff`, `BodyWholeIff`, `LooksCompleteIff`). The second happens without any GOAWAY: DATA dropped
  after the engine's own reset, and more of it accepted once the stream has left the table
  (`HoleAhead`, `HoleIsReachable`).
- Engine and driver disagree on a waiting caller's stream if and only if the engine reset it itself or an
  interim response on it carried END_STREAM; the caller is then not told (`WaitersAgree`).
- A stream the engine itself has reset still sends its buffered body when credit arrives
  (`SendRespectsState`, `OnlyOwnResetsViolate`, `ResetStreamStillSends`, `SendsAfterResetIsReachable`).
- DATA dropped on the two reset paths never returns its connection credit. The connection is used up with
  nothing announced if and only if a frame fills its window and the threshold lies above the initial
  window less the bytes dropped, with the presets' threshold once more than half is gone; from then on no
  connection credit is ever announced (`ConnectionStallsIff`, `DroppedCreditIsLost`, `ConnectionStallIsReachable`,
  `AllCreditLostIsReachable`). At ratio one rounding can lift the threshold that high without any drop
  (`FullRatioMayExceed`).
- A stream's receive threshold is taken of the peer's initial window, not of ours, so a stream can be used
  up with nothing announced (`StreamStallsIff`, `StallIsReachable`).
- A stream's receive increment that does not fit its window is announced and not applied
  (`AccountKeptIff`).
- A profile whose SETTINGS exceed the fingerprint parser's 32768 bytes is not read at all
  (`OversizedSettingsHideAll`, `RecoversExactlyIff`).
- SETTINGS that raise a window, accepted or refused half-way, do not send what they unblock
  (`SettingsMayUnblock`).
- The SOCKS5 probe overwrites a cancelled operation (`ProbeSingleAssignmentIff`, `CancelledProbeDelivers`).
- Stream ids repeat after 2^31 requests, and on the wire after 2^30 (`IdsDistinctIff`, `WireIdsDistinctIff`).

## Model

| member | source | states |
|---|---|---|
| Frames.HeaderRoundTrip | lkh2/src/frame.rs:146-191 | the nine header bytes parse back to the header, for every 24-bit length and 31-bit stream id, whatever follows |
| Frames.FlagByte | lkh2/src/frame.rs:86-133 | each flag set is the flag read, independently of the others |
| Codec.ReadSettings | lkh2/src/codec.rs:273-305 | the offset loop of `decode_settings` yields the parameters in order |
| Codec.PayloadRoundTrip | lkh2/src/codec.rs:142-429 | every payload of all ten frame types decodes to the frame encoded, with padding, embedded priority and 31-bit fields |
| Codec.RoundTrip | lkh2/src/codec.rs:66-140 | a well-formed frame within the cap decodes from its encoding and leaves any suffix untouched |
| Codec.ListRoundTrip | lkh2/src/codec.rs:433-661 | the concatenated encodings of any list of well-formed frames decode to exactly that list, then to whatever the suffix gives |
| Codec.DecoderImage | lkh2/src/codec.rs:66-429 | a known frame comes out of the decoder for some bytes if and only if it is well formed and within the cap |
| Codec.DecodeStable | lkh2/src/codec.rs:66-140 | a frame takes at least nine bytes; later bytes never change a verdict; NeedMoreData(n) stands until n bytes have come |
| Codec.DecodedLength | lkh2/src/codec.rs:66-429 | a frame is taken with exactly as many bytes as its encoding has, so no payload of a wrong length passes |
| Codec.NeedIsExact | lkh2/src/codec.rs:66-95 | the number of bytes asked for completes the header, or else the frame |
| Codec.UnknownSkipped | lkh2/src/codec.rs:66-140 | a frame of unknown type is skipped whole, whatever its size, and leaves any suffix untouched |
| Codec.HeaderOnTheWire | lkh2/src/frame.rs:146-191 | the nine octets of every frame are those of section 4.1 of RFC 7540: length, type, flags, stream id |
| Codec.SettingOnTheWire | lkh2/src/codec.rs:560-579 | the octets of every setting: two of id, four of value |
| Codec.PayloadOnTheWire | lkh2/src/codec.rs:533-616 | the octets of the control frames' payloads, as section 6 of RFC 7540 lays them out |
| Codec.BytesOnTheWire | lkh2/src/codec.rs:458-630 | in DATA, HEADERS and CONTINUATION the bytes stand behind pad length and priority and in front of the padding |
| Codec.ChunkingIndependent | lkh2/src/engine.rs:353-375 | any cutting of the input into reads yields the frames of one read of the whole, up to and including the first error |
| Codec.H2Codec.SetMaxFrameSize | lkh2/src/codec.rs:56-58 | a size below 16384 becomes 16384, one above 16777215 becomes that, one between is kept |
| Codec.H2Codec.DecodeNext | lkh2/src/codec.rs:66-140 | whenever the buffer starts with the encoding of a well-formed frame within the cap, that frame and exactly its bytes are taken, whatever follows; a frame costs at least nine bytes; what stays is the end of what was there, and all of it when more is needed |
| Codec.H2Codec.EncodeFrames | lkh2/src/engine.rs:655-659 | appends the encodings in order and nothing else |
| Codec.H2Codec.DecodeLoop | lkh2/src/engine.rs:359-372 | the decode loop terminates with all complete frames, the first error if any, and the rest |
| HeaderBlocks.Split | lkh2/src/engine.rs:432-497 | the slicing loop of `build_headers` produces the split block |
| HeaderBlocks.SplitIsLegal | lkh2/src/engine.rs:432-497 | every frame fits the peer's size including the priority bytes, and only the last carries END_HEADERS |
| HeaderBlocks.SplitAssemble | lkh2/src/engine.rs:86-177 | assembling a split block gives the block and END_STREAM bit back if and only if it fits one frame or the size limit and 64 CONTINUATIONs; otherwise it is rejected |
| HeaderBlocks.SplitCount | lkh2/src/engine.rs:457-494 | exactly which block lengths need at most n CONTINUATIONs |
| HeaderBlocks.DefaultLimitRecovers | lkh2/src/engine.rs:86-177 | with the default limit a block survives at every legal frame size if and only if it is at most 256 KB or fits one frame; the 64-frame bound never bites |
| HeaderBlocks.BlockOverTheWire | lkh2/src/engine.rs:432-497 | encoded and decoded, the frames of a split block come back with any suffix left over; assembled they give the block if and only if it fits one frame, or the size limit and 64 CONTINUATIONs |
| HeaderBlocks.AssemblerFollows | lkh2/src/engine.rs:86-177 | on any sequence of HEADERS and CONTINUATION frames, interleaved as a peer likes, every frame completes, waits or is rejected exactly as the frames alone determine; a block that comes out is one stream's own |
| HeaderBlocks.ContinuationAssembler.AddContinuation | lkh2/src/engine.rs:114-177 | the check of both limits before the update, and the update after it, amount to the assembler function: wrong stream, frame count, size, completion |
| Streams.StreamStepsInRange | lkh2/src/stream.rs:157-202 | no stream operation leaves the i32 range; each moves window minus initial size by exactly its bytes or credit, a new size not at all |
| Streams.ResizeForgets | lkh2/src/stream.rs:193-202 | after any sequence of accepted sizes the window is what the last size alone gives (section 6.9.2 of RFC 7540) |
| Connection.ParamsKeepValid | lkh2/src/conn_state.rs:52-97 | whatever parameters a peer or a profile lists, the settings in force stay within their legal ranges |
| Connection.ParamsSet | lkh2/src/conn_state.rs:52-97 | a list of parameters is accepted if and only if all are legal; up to the first illegal one each of the six settings takes the last value with its id, other ids change nothing |
| Connection.ProfileSets | lkh2/src/conn_state.rs:343-355 | the same for a profile's list, with illegal values skipped |
| Connection.SettingsVerdict | lkh2/src/conn_state.rs:357-389 | SETTINGS is accepted if and only if every parameter is legal and no stream overflows, whatever the hash order; then every stream is at the new size |
| Connection.ConnStepsInRange | lkh2/src/conn_state.rs:433-471 | the connection windows: spending stops at zero, a receipt is refused if and only if the window is short, an increment if and only if it passes 2^31-1; an accepted step moves its own window by its amount and no cast loses a bit |
| ConnObject.ConnState.constructor | lkh2/src/conn_state.rs:212-244 | a client with the profile's SETTINGS pending and its window update applied |
| ConnObject.ConnState.ApplyProfileSettings | lkh2/src/conn_state.rs:343-355 | queued until acknowledged: each setting has the last legal value the profile lists for its id, invalid ones are skipped |
| ConnObject.OpenAddsOne | lkh2/src/conn_state.rs:309-335 | opening a stream adds at most one to the active ones, so a stream opened below the peer's limit stays within it |
| ConnObject.ConnState.ApplyParameters | lkh2/src/conn_state.rs:375-379 | succeeds if and only if every parameter is legal; up to the first illegal one each setting takes the last value listed for its id, the others stay |
| ConnObject.ConnState.ResizeStreams | lkh2/src/conn_state.rs:381-386 | the loop over the table, in any order, stops at the first overflow and has moved exactly the streams visited |
| ConnObject.ConnState.ApplyRemoteSettings | lkh2/src/conn_state.rs:357-389 | both loops together, including the half-applied state of a failure; on success every setting is the last value the list has for its id |
| Sender.CutShape | lkh2/src/engine.rs:577-604 | the frames carry the data in order, all but the last exactly full, END_STREAM on the last only |
| Sender.BuildDataIsGreedy | lkh2/src/engine.rs:555-622 | sends exactly the prefix of length min(data, connection credit, stream credit) in full frames, buffers the rest, and leaves something only when a window is exhausted |
| Sender.DrainLeavesBlocked | lkh2/src/engine.rs:629-640 | after a drain every buffered body has zero usable credit |
| Sender.OldestFirst | lkh2/src/engine.rs:629-640 | buffered bodies are served in order: bytes of a later one go out only if the earlier one is sent whole or held back by its own stream |
| Policy.GroupFrames | lkh2/src/policy.rs:85-118 | grouping loses and reorders nothing and leaves no write empty; a frame kind to be isolated is alone in its write; consecutive other frames share one |
| Policy.RatioPolicy | lkh2/src/policy.rs:198-238 | however the arithmetic rounds, the threshold of a window of sixteen or more is positive, and up to a ratio of 0.8 it does not exceed the window |
| Policy.FullRatioMayExceed | lkh2/src/policy.rs:236-238 | at ratio one, single precision lifts the threshold of the largest window above it |
| Policy.PolicyConserves | lkh2/src/policy.rs:171-250 | received bytes are announced or held, never lost; other streams' counts are untouched |
| EngineObject.H2Engine.constructor | lkh2/src/engine.rs:286-344 | a fresh client engine; its receive cap is the first SETTINGS_MAX_FRAME_SIZE of the profile clamped, or 16384; its assembler limit the first SETTINGS_MAX_HEADER_LIST_SIZE, or the default |
| EngineObject.H2Engine.BuildData | lkh2/src/engine.rs:555-622 | the `while` loop ends in the state and frames of the one-line specification |
| EngineObject.H2Engine.DrainPending | lkh2/src/engine.rs:629-640 | the loop over taken entries, re-buffering what does not fit |
| EngineObject.H2Engine.OnWindowUpdate | lkh2/src/engine.rs:990-1040 | zero increments, overflow, unknown streams and the drain, each with its exact output |
| EngineObject.H2Engine.OnData | lkh2/src/engine.rs:895-988 | both receive windows, both reset paths, both credit decisions and the clean-up |
| EngineObject.H2Engine.OnHeaderFrame | lkh2/src/engine.rs:804-851 | HEADERS and CONTINUATION through the assembler |
| EngineObject.H2Engine.OnSettings | lkh2/src/engine.rs:756-802 | acknowledgement, success or partial application with GOAWAY |
| EngineObject.H2Engine.OnFrame | lkh2/src/engine.rs:733-754 | one inbound frame is one step of the engine's transition relation |
| EngineObject.H2Engine.Request | lkh2/src/engine.rs:1084-1120 | a request opens the next stream and emits its header block and as much body as credit allows |
| EngineObject.H2Engine.Process | lkh2/src/engine.rs:353-375 | `process` is a chain of such steps over exactly the frames the bytes decode to, with their outputs in order and GOAWAY on a decoding error |
| EngineObject.ChainReaches | lkh2/src/engine.rs:353-375 | handling decoded frames one by one from a reachable state ends in a reachable state whose output grew by exactly the frames emitted |
| EngineObject.ProcessReaches | lkh2/src/engine.rs:353-375 | whatever bytes arrive, the engine stays within its runs, so every law below holds of it |
| EngineLaws.HandledFixed | lkh2/src/engine.rs:733-754 | no inbound frame changes the next stream id, clears an error or breaks the settings' ranges |
| History.PeerSettings | lkh2/src/conn_state.rs:357-389 | in every reachable state each of the peer's settings is the last legal value received with its id, up to the first illegal parameter of each frame, or the default |
| History.OwnSettings | lkh2/src/conn_state.rs:302-307 | over every run our settings are the profile's, pending until acknowledged and in force after; every stream opens with the window the profile announces |
| History.FailedIff | lkh2/src/engine.rs:1054-1062 | the connection has an error if and only if a GOAWAY with a non-zero code came in, and it is the last such code |
| History.PingsEchoed | lkh2/src/engine.rs:1042-1052 | every PING is answered once, in order, with its own data, and nothing else with a PING |
| History.HeadersFollow | lkh2/src/engine.rs:804-851 | in every run a header frame completes, waits or is rejected as the header frames received so far determine |
| History.ActiveIff | lkh2/src/conn_state.rs:330-335 | the streams counted against the peer's limit are those on which either side may still send |
| Answers.ErrorsAnswered | lkh2/src/engine.rs:733-1040 | in every step of every run: exactly which frames are connection errors and which stream errors, answered with GOAWAY or RST_STREAM and the right code; accepted SETTINGS are acknowledged; nothing else is answered so |
| Answers.TableCleared | lkh2/src/engine.rs:977-982 | in every step of every run: the end of a response and RST_STREAM clear exactly the streams that are over out of the table, no other frame changes who is in it |
| EngineLaws.RunInv | lkh2/src/engine.rs:353-1120 | the combined invariant (bodies, credit ledgers, ranges, ids, streams' local sides) holds in every state of every run |
| EngineTheorems.BodyConserved | lkh2/src/engine.rs:555-640 | in every reachable state the DATA payloads sent on a stream, then its buffered bytes, are the request's body |
| EngineTheorems.EndStreamOnce | lkh2/src/engine.rs:487-619 | among the HEADERS, CONTINUATION and DATA frames of a stream: no END_STREAM while bytes are buffered, one once none are, and after it only the CONTINUATIONs of the block that carried it; RST_STREAM and WINDOW_UPDATE may follow |
| EngineTheorems.SendLedger | lkh2/src/conn_state.rs:433-460 | connection and stream send windows are initial size plus accepted increments minus bytes sent, in every reachable state |
| EngineTheorems.NeverOverspends | lkh2/src/engine.rs:555-622 | bytes sent on the connection never exceed the credit granted to it |
| StreamCredit.StreamNeverOverspends | lkh2/src/engine.rs:560-600 | in every step of every run the bytes sent on a stream are within its own window with the increment that came with the step; a window below zero lets nothing out |
| EngineTheorems.SettingsHistoryForgotten | lkh2/src/conn_state.rs:381-386 | after accepted SETTINGS every window follows from the latest size alone |
| EngineTheorems.WindowsInRange | lkh2/src/stream.rs:157-202 | every reachable stream send window is in [-(2^31-1), 2^31-1], all others in [0, 2^31-1]; no cast wraps |
| EngineTheorems.ReceiveLedger | lkh2/src/engine.rs:895-988 | for every threshold function: receive window, held bytes and dropped bytes add up to the initial window; increments announced are legal; without drops less than the threshold is missing |
| History.ConnectionCredit | lkh2/src/engine.rs:895-963 | over every run the peer's view of the connection's credit is the engine's: 65535, the profile's update and the increments sent, less data, pad length and padding of the DATA frames taken |
| History.StreamCreditSeen | lkh2/src/engine.rs:928-975 | the same for a stream from its opening: the size our SETTINGS announce and the increments sent on it, less its bytes; exact while its balance fits 31 bits, never below the engine's window |
| History.UnknownAnnounces | lkh2/src/engine.rs:949-976 | DATA on a stream not in the table is credited by the threshold of the default window |
| StreamCredit.DroppedCreditIsLost | lkh2/src/engine.rs:916-941 | over every run: dropped bytes never come back; once what they leave lies below the threshold no connection credit is ever announced again and the window only shrinks; once it is empty every non-empty DATA frame is a connection error |
| StreamCredit.StreamReceiveLedger | lkh2/src/engine.rs:895-988 | from the request that opened it for as long as the peer may send, a stream's receive window and held bytes add up to the size announced plus bytes that came before it was opened, or less if that sum passes 2^31-1 |
| StreamCredit.AccountKeptIff | lkh2/src/engine.rs:965-975 | a frame leaves that sum alone if and only if it is within 2^31-1 or nothing is announced |
| StreamCredit.HandledAccount | lkh2/src/engine.rs:733-988 | no inbound frame moves that sum while it is within 2^31-1, none raises it, and none refills an exhausted stream |
| StreamCredit.StreamStallsIff | lkh2/src/stream.rs:72-80 | the threshold is taken of the peer's size: a stream is used up with nothing announced if and only if the frame fills its window and that threshold lies above the stream's own account |
| StreamCredit.ConnectionStallsIff | lkh2/src/engine.rs:954-963 | with any number of bytes dropped: the connection is used up with nothing announced if and only if the frame fills its window and its threshold lies above the initial window less those bytes |
| Witnesses.ConnectionStallIsReachable | lkh2/src/engine.rs:916-963 | a run with the presets' threshold that drops just over half the window and reaches a stalled connection |
| Witnesses.StallIsReachable | lkh2/src/stream.rs:72-80 | a run with the presets' threshold that reaches a stalled stream |
| Witnesses.AllCreditLostIsReachable | lkh2/src/engine.rs:916-941 | a run in which the whole connection window has been dropped |
| EngineTheorems.SendRespectsState | lkh2/src/engine.rs:560-600 | the sender ignores the stream's state: exactly when it sends although the stream may not |
| EngineTheorems.OnlyOwnResetsViolate | lkh2/src/engine.rs:663-671 | in a run only streams the engine itself reset have buffered bytes they may not send |
| EngineTheorems.ResetStreamStillSends | lkh2/src/engine.rs:996-1034 | and those do send when credit comes |
| Witnesses.SendsAfterResetIsReachable | lkh2/src/engine.rs:996-1034 | a run in which the engine resets a stream and later sends DATA on it |
| EngineTheorems.UpdateLeavesBlocked | lkh2/src/engine.rs:1030-1034 | a WINDOW_UPDATE that is not refused, on whatever stream, leaves nothing sendable behind |
| EngineTheorems.SettingsMayUnblock | lkh2/src/engine.rs:756-802 | exactly when SETTINGS, accepted or refused, leave a body sendable and unsent |
| EngineTheorems.RequestGetsNthId | lkh2/src/conn_state.rs:316-328 | the k-th request's id is 2k+1, unused and above all earlier ones |
| EngineTheorems.IdsDistinctIff | lkh2/src/conn_state.rs:316-328 | the u32 counter gives distinct ids for n requests if and only if n is at most 2^31 |
| EngineTheorems.WireIdsDistinctIff | lkh2/src/frame.rs:146-191 | with the top bit masked on the wire, if and only if n is at most 2^30 |
| RequestDesk.OpenHeadKeeps | lkh2/src/driver.rs:744-787 | a dispatched request's fresh stream id displaces no pending entry, and all bookkeeping invariants stay |
| RequestDesk.OnEventKeeps | lkh2/src/driver.rs:899-994 | no event breaks the one-place, one-reply and order invariants |
| RequestDesk.NotifyAllKeeps | lkh2/src/driver.rs:1027-1034 | every pending stream in the order is told and removed, the queue untouched, invariants kept |
| RequestDesk.NotifyWaitingKeeps | lkh2/src/driver.rs:1007-1025 | everything queued is told and removed, pending streams untouched, invariants kept |
| RequestDesk.RemoveWaitingKeeps | lkh2/src/driver.rs:996-1005 | cancelling a queued request, or an unknown id, keeps the invariants |
| Endings.CancelRemoves | lkh2/src/driver.rs:996-1005 | a cancel takes the one queued request with its id out, drops its channels and gives its permit back; all else stays |
| Endings.CancelledIsDropped | lkh2/src/driver.rs:596-605 | in every step: the cancelled caller sees its channels close and nothing else, and no stream is opened for it |
| Endings.OthersStay | lkh2/src/driver.rs:596-605 | a cancel ends no other queued caller that is still there, unless a lost write ends the loop |
| DriverObject.DriverState.RemoveWaitingRequest | lkh2/src/driver.rs:996-1005 | if some queued request has the id, the first such leaves, the others keep their order, its permit and channels go; otherwise nothing changes |
| DriverObject.DriverState.NotifyWaitingError | lkh2/src/driver.rs:1007-1025 | the draining loop delivers both errors to each queued caller in order |
| DriverObject.DriverState.NotifyAllError | lkh2/src/driver.rs:1027-1034 | the draining loop visits every pending stream once, in some order |
| DriverObject.DriverState.RejectStale | lkh2/src/driver.rs:971-987 | the graceful GOAWAY visits every pending stream and rejects exactly those above the last id |
| DriverObject.DriverState.HandleEvent | lkh2/src/driver.rs:899-994 | the event handler in place, against the desk function |
| DriverObject.DriverState.DispatchWaiting | lkh2/src/driver.rs:726-802 | the dispatch loop in place, against the dispatch function, on the engine object |
| DriverRuns.DispatchSound | lkh2/src/driver.rs:726-802 | dispatch keeps engine and bookkeeping in step: reachable engine state, ids handed out in order |
| DriverRuns.DispatchMoves | lkh2/src/driver.rs:744-802 | permits are given back one for one, and each stream opened is one request's |
| DriverRuns.DispatchExhausts | lkh2/src/driver.rs:744-802 | unless a write fails, dispatch goes on until the queue is empty or the limit reached |
| DriverRuns.StepKeeps | lkh2/src/driver.rs:586-721 | every step of every caller and every arm of the loop, the closing of the cancel channel included, keeps the system invariant |
| DriverTheorems.SysRunInv | lkh2/src/driver.rs:503-721 | the system invariant holds in every state of every run, with or without a first request |
| DriverTheorems.ExactlyOnePlace | lkh2/src/driver.rs:586-721 | each accepted request is in exactly one of queue, pending map and finished, and on one stream at most |
| DriverTheorems.RepliesOnce | lkh2/src/driver.rs:895-994 | over the whole log: header channel used at most once, never for a 1xx status, nothing sent after the end |
| DriverTheorems.ExitIsClean | lkh2/src/driver.rs:586-721 | on every exit of the loop queue, map and channel are empty and every accepted request is finished |
| Endings.EveryoneIsTold | lkh2/src/driver.rs:607-643 | when the connection closes, a write is lost or the shutdown time is over, every caller on a stream and every queued one is told the fault once on each open channel, then dropped |
| Endings.ShutdownCompletes | lkh2/src/driver.rs:682-721 | a driver shutting down accepts nothing more and ends as soon as nothing is left; the loop ends for no reason but a closed connection, a lost write, the time limit of a shutdown or that |
| DriverTheorems.OpenedInOrder | lkh2/src/driver.rs:744-787 | streams open in arrival order with ids 1, 3, 5, ..., before everything still queued, and replies go to the request opened on the stream |
| DriverTheorems.PermitsConserved | lkh2/src/driver.rs:154-192 | free permits plus requests being sent, in the channel or queued equal the limit in every interleaving; no permit returns twice or while held |
| Endings.PermitsBound | lkh2/src/driver.rs:183-192 | with a limit of n never more than n requests are being sent, in the channel or queued, and never more than 64 in the channel |
| DriverTheorems.PermitsComeBack | lkh2/src/driver.rs:493-501 | after the driver and all senders are gone every permit is free |
| DriverTheorems.NothingOpensAfterError | lkh2/src/driver.rs:736-742 | once an error is on record no stream is ever opened again and nothing stays queued |
| DriverHistory.NothingOpensAfterGoAway | lkh2/src/driver.rs:736-742 | over every run: that is so from the first GOAWAY frame with a non-zero code on, and not before |
| DriverHistory.GoAwayLeaves | lkh2/src/driver.rs:956-987 | after a GOAWAY frame, wherever it stands in a read, exactly the streams up to its last id are still waited for if its code is zero, and none otherwise |
| DriverHistory.GoAwayRead | lkh2/src/driver.rs:586-721 | and so at the end of the loop's turn, dispatch included |
| DriverTheorems.DispatchWithinLimit | lkh2/src/driver.rs:744-787 | dispatch opens only below MAX_CONCURRENT_STREAMS: having opened any, the active count is within the limit |
| DriverHistory.LimitHonoured | lkh2/src/driver.rs:744-787 | if the last MAX_CONCURRENT_STREAMS received is n, a dispatch that opens a stream ends with at most n active |
| DriverTheorems.DispatchOpensIff | lkh2/src/driver.rs:736-750 | dispatch opens a stream if and only if there is no error, room below the limit and a queued caller still there |
| DriverTheorems.GracefulGoAwayStillOpens | lkh2/src/engine.rs:721-724 | a GOAWAY with code zero makes no difference to dispatch |
| DriverTheorems.DriverConservesBodies | lkh2/src/driver.rs:586-802 | body conservation holds of the driver's connection in every system run |
| CallerRequests.RequestGoesOut | lkh2/src/driver.rs:645-680 | over every run: on the stream opened for a request go out the header block, with its priority, and the body that its caller enqueued, or that the client was started with |
| CallerRequests.FirstInFirstOut | lkh2/src/driver.rs:645-680 | commands are taken in the order they were enqueued, none is skipped |
| Replies.CallersAreIsolated | lkh2/src/driver.rs:899-994 | what a caller is sent for an event depends on its own stream and that event only, not on other streams or hash order |
| WireReplies.CallerGets | lkh2/src/driver.rs:615-632 | in every step of every run a frame brings a waiting caller exactly what the frame and its own stream call for: its data, the decoded headers of a final response, the code of a reset, a GOAWAY by its last id and code |
| ResponseBodies.ResponseBodyDelivered | lkh2/src/driver.rs:615-635 | over every run: while a caller waits, the chunks it was sent are exactly the DATA payloads the engine accepted on its stream since it was opened; once finished, a prefix of them |
| ResponseBodies.StepDelivers | lkh2/src/driver.rs:586-721 | every step brings a waiting caller exactly what its read accepted on its stream, and nobody else's bytes |
| ResponseBodies.EventsChunks | lkh2/src/driver.rs:932-950 | over any events a caller gets its own stream's data in order, all of it if it still waits at the end |
| ResponseBodies.EventsExact | lkh2/src/driver.rs:899-994 | exactly the data reported on the stream up to and including the event that finishes the caller |
| WholeBodies.ChunksAreTaken | lkh2/src/driver.rs:615-635 | over every run, for waiting and finished callers: the chunks sent are what the engine took on the stream while the caller waited |
| WholeBodies.BodyWholeIff | lkh2/src/engine.rs:906-941 | over every run: the chunks sent are all DATA payloads the peer sent on the stream while the caller waited if and only if none of those frames met a dropping branch (connection window short, stream not receiving, stream window short); otherwise they are fewer |
| Replies.LooksCompleteIff | lkh2/src/driver.rs:899-987 | which events make a response look complete: the peer ending the stream with or after the final headers, or a graceful GOAWAY cutting it off after its headers |
| CompleteResponses.RunExplained | lkh2/src/driver.rs:586-994 | over every run: a response looks complete only if the peer ended it or a graceful GOAWAY cut it off, never both; nothing else the driver does makes it look so |
| CompleteResponses.CompleteIsWholeIff | lkh2/src/driver.rs:899-994 | over every run: a response that looks complete has all DATA payloads up to the peer's END_STREAM if and only if no graceful GOAWAY cut it off and none of its frames was dropped |
| DriverWitnesses.HoleAhead | lkh2/src/engine.rs:895-1008 | every run with two callers waiting goes on to one in which a caller sees a complete response, ended by the peer, with the second of two pieces of its body only |
| DriverWitnesses.HoleIsReachable | lkh2/src/engine.rs:895-1008 | and such a run exists from a fresh client, for any two pieces within the window |
| Waiters.FrameStops | lkh2/src/engine.rs:733-1040 | for every frame: a stream receives afterwards if and only if it did before and the output has no RST_STREAM for it and no event that ends it |
| Waiters.WaitersAgree | lkh2/src/driver.rs:899-994 | over every run: a stream some caller waits for still receives unless, while the caller waited, the engine reset it itself or an interim response carried END_STREAM, and then it does not |
| Profiles.WireIds | lkprofile/src/h2.rs:166-197 | wire ids round trip; setting ids do if and only if no named id is spelled as a raw number |
| Fingerprint.WritePreface | lkh2/src/driver.rs:529-548 | for every write policy the bytes written are the magic and the frames' encodings in order |
| Fingerprint.ParseSettings6 | lkprofile/src/h2.rs:275-291 | the offset loop reads every whole parameter and ignores the rest |
| Fingerprint.ParseFrames | lkprofile/src/h2.rs:701-750 | the frame loop stops at its limit or at the first unreadable frame |
| Fingerprint.FingerprintRecovers | lkh2/src/profile.rs:889-964 | the parser reads back settings in order, window update, PRIORITY frames and the first request's priority, up to 31 bits and one hundred frames, whatever follows the HEADERS |
| Fingerprint.RecoversExactlyIff | lkprofile/src/h2.rs:245-316 | parsing the bytes written gives the profile back unchanged if and only if no named setting is spelled as a raw number, ids and window update fit 31 bits, there are at most one hundred frames and the settings fit 32768 bytes |
| Fingerprint.FingerprintOfAny | lkprofile/src/h2.rs:245-316 | on any client's frames in any order: of the first hundred, the last SETTINGS that is no acknowledgement, the last WINDOW_UPDATE of the connection and all PRIORITY frames before the first HEADERS, and that frame's priority |
| Fingerprint.OversizedSettingsHideAll | lkprofile/src/h2.rs:245-271 | one byte over the parser's 32768 and nothing of the profile is read |
| Shuffle.ShuffleInjective | lkh2/src/synthesis.rs:138-143 | on distinct elements different choice sequences give different orders |
| Shuffle.ShuffleSurjective | lkh2/src/synthesis.rs:138-143 | every permutation is reached by some choice sequence |
| Shuffle.ShufflePermutes | lkh2/src/synthesis.rs:138-143 | a shuffle loses and duplicates nothing |
| Synthesis.ShuffleInPlace | lkh2/src/synthesis.rs:138-143 | the in-place loop computes the shuffle of the choices drawn |
| Synthesis.Validate | lkh2/src/synthesis.rs:58-100 | the loops with counters and seen-set report the first fault, and none if and only if the specification is valid |
| Synthesis.VerdictIff | lkh2/src/synthesis.rs:58-100 | acceptance is exactly: each pseudo-header once, distinct ids, values in range, window within 2^31-1 |
| Synthesis.VerdictIgnoresOrder | lkh2/src/synthesis.rs:58-100 | acceptance does not change under any permutation of settings or pseudo-headers |
| Synthesis.DrawsReachAll | lkh2/src/synthesis.rs:138-143 | every choice sequence is drawn by some random stream |
| Synthesis.Synthesize | lkh2/src/synthesis.rs:151-157 | a shuffled base; valid bases give a valid result for every random stream |
| Synthesis.RandIn | lkh2/src/synthesis.rs:160-162 | the value drawn is within its inclusive bounds |
| Synthesis.Perturb | lkh2/src/synthesis.rs:173-186 | ids and order stay, each redrawn value is the next draw in its range, the others are kept |
| Synthesis.RedrawsReachAll | lkh2/src/synthesis.rs:160-186 | every choice of values within the ranges is drawn by some random stream |
| Synthesis.SynthesizeFull | lkh2/src/synthesis.rs:173-186 | the same with redrawn values; valid bases give a valid result for every random stream |
| Outstanding.RunInv | lkrequest-ffi/src/handles_state.rs:127-145 | the counter and winner invariants hold after any interleaving of loads, compare-exchanges, takes and releases |
| Outstanding.CounterIsExact | lkrequest-ffi/src/handles_state.rs:127-145 | the counter is reservations in flight plus live handles, within the limit, and positive at every release |
| Outstanding.OneWinner | lkrequest-ffi/src/request.rs:54-68 | of concurrent sends on one request, asynchronous, streaming or blocking, at most one obtains the configuration |
| Outstanding.LosersGiveBack | lkrequest-ffi/src/request.rs:708-735 | once all calls have returned only live handles are counted |
| Outstanding.LateSendsRefused | lkrequest-ffi/src/request.rs:70-80 | a send that finds its request consumed when it looks never reserves and never obtains anything |
| Operations.OpObject.TakeKind | lkrequest-ffi/src/op.rs:93-164 | a matching payload leaves, anything else is put back, an empty success is consumed; the status says done exactly when something was handed over, and busy exactly while in progress |
| Operations.OpObject.TakeErr | lkrequest-ffi/src/op.rs:167-202 | the same for the error |
| Operations.ResultIsSingleAssignment | lkrequest-ffi/src/op.rs:65-202 | in every interleaving, with a payload, an empty success or an error, the result only moves from in progress to one outcome to consumed |
| Operations.PayloadLeavesOnce | lkrequest-ffi/src/op.rs:93-202 | at most one payload or error leaves, it is the one the operation completed with, and a matching take has it |
| Operations.CleanupOnce | lkrequest-ffi/src/handles_state.rs:736-755 | the hook runs at most once, exactly when an operation in progress is cancelled or freed |
| Operations.ProbeSingleAssignmentIff | lkrequest-ffi/src/proxy_probe.rs:231-233 | the unguarded completer keeps single assignment if and only if no cancel came before it |
| Operations.CancelledProbeDelivers | lkrequest-ffi/src/proxy_probe.rs:231-233 | a cancelled probe's report can still be taken, which the guard would prevent |

## Left out

- HPACK: header blocks are opaque bytes, and what the decoder makes of a block is an input of the step; dynamic-table resizing is not modelled.
- Header ordering, pseudo-header extraction and per-request priority resolution in `build_request`: the encoded block and the priority fields are inputs.
- Policy.RatioPolicy: does not compute single-precision values; rounding is any function within a tenth. The laws of runs need none of this, since they hold for every threshold function.
- The u32 counters of the threshold policy's held bytes: modelled as unbounded, `EngineTheorems.ReceiveLedger` bounds the connection's.
- Streams as objects: the source's hash map owns its streams, so the model keeps them as values in the table and the connection object replaces entries; aliasing cannot arise.
- The debug build's panic when the stream counter overflows: the counter wraps, and runs end at the 2^31 streams it has room for.
- Profiles whose window update would overflow the connection window: runs start from an update of at most 2^31-1-65535, which is what `validate` accepts.
- Frames of unknown type in the round trip: the encoder rewrites their type and the decoder drops their payload.
- Frames interleaved with a header block: the source does not check for them, so they are handled as they come.
- Decoding after the first error: the chunking law and `process` go up to and including it.
- Sockets, TLS records, timers, scheduling and `select!` bias: loop arms are steps in any order, and a write's success is a choice of the step.
- `HashMap` iteration: an arbitrary order, given to each step.
- The u64 request-id counter's wrap-around: ids are natural numbers.
- HPACK scanning, priority-configuration inference and hashes in the fingerprint parser, and the Akamai string: best-effort text processing over library calls.
- Browser presets, header-order tables, JSON, TLS and QUIC profiles, the HTTP/3 wrappers, the adapter over the driver, and the C interface's handle plumbing: data tables or thin wrappers that would add only easy members.
