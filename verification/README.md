# continuous-ssh: resumable output, exactly once

`xssh` keeps a remote shell's output flowing across any number of broken connections. A daemon
holds the output in a tiered history buffer, a client shows it and acknowledges it, and on every
reconnect the two compare chunk manifests, agree on a resend point and continue. When the daemon
stops without a client, the buffer is kept as segment files and a replay daemon delivers the rest.

This project models that machinery in Dafny and proves that all of it agrees with one simple
object: the byte sequence the shell has produced so far.

## How it is laid out

| file | models |
|---|---|
| `bytes.dfy` | bytes, big-endian integers, slicing and division facts |
| `history.dfy` | what a buffer stands for (`View`), and how appends and acknowledgements move it |
| `buffer.dfy` | the `Buffer` class: RAM window, rotating segment files, incremental digests |
| `segments.dfy` | listing the segment files a closed buffer leaves behind |
| `chunk.dfy`, `hello.dfy` | manifests and the resend rule; the HELLO payload codec |
| `proto.dfy` | frames on the wire |
| `altscreen.dfy` | the alt-screen scanner |
| `client.dfy` | the client's receive and acknowledge path, and what its terminal is fed |
| `streaming.dfy` | the daemon's handshake, live streaming, ACK handling and segment replay |
| `delivery.dfy` | client, daemon, replays, connections and what cuts leave behind, as one transition system |
| `invariant.dfy` | its invariant and the proof that every step keeps it |
| `theorems.dfy` | safety over all runs; the concrete senders as runs |
| `acks.dfy` | what acknowledgements let the daemon give up |
| `completion.dfy` | every attempt ends, and how |
| `replay.dfy` | the replay daemon, and when it removes the session |
| `refinement.dfy` | the end of a daemon in `delivery.dfy` against the flags of `lifecycle.dfy` |
| `losses.dfy`, `recovery.dfy` | exactly what can be lost, and what can still be completed |
| `scenarios.dfy` | runs from the start in which output is lost or shown twice |
| `lifecycle.dfy` | attach ownership, listener shutdown, the preserve decision |
| `diskcap.dfy` | the host-wide disk cap |

The classes are proved against functions on values: a `Buffer`'s fields are all functions of its
`View`, and each method says which view it leaves behind. The transition system moves views,
clients and replays with the same functions, so its theorems rest on the proved methods. SHA-256 is
a parameter `H` (any function from bytes to digests); nothing assumes it is collision free.

## Main results

- **Exactly once** (`Theorems.ExactlyOnce`): over every interleaving of output, frames,
  acknowledgements, cuts, reconnects, late acknowledgements, abandoned attaches and replays, shutdown
  and replay, the client has received a prefix of the shell's output, its terminal has been fed that
  prefix with one inserted sequence per alt-screen resync, and nothing it lacks has been trimmed or
  is missing from preserved files. The terminal has seen the bare prefix exactly if no resync
  happened (`TerminalExactIff`).
- **No gap, no early EXIT** (`NoGap`, `DrainedConnection`, `ExitMeansComplete`, `OrderlyExit`):
  frames continue exactly where the client stands; in an orderly run, one where nothing left over
  from an earlier connection gets in the way, EXIT at the client means it has everything.
- **Acknowledgements arrive** (`WatermarkSent`, `DaemonReleases`): a watermark that has moved was sent, so
  once what is on its way is processed the daemon holds less than 5 MiB of what the client received
  since HELLO.
- **Attempts end complete** (`AttemptBounded`, `AttemptCompletes`): an uncut attempt on an ended
  session makes a bounded number of moves, and every orderly one that has no move left has ended
  with EXIT and everything received, or could not send its HELLO_ACK.
- **Exactly when an uncut attempt can lose output**: a live one if an acknowledgement of an earlier
  connection can overtake it and there is output past the client (`LiveLosesIff`, `StarvesIff`); a
  replay if an abandoned replay daemon can still remove files it has not opened (`ReplayLosesIff`).
- **Exactly which disconnected clients can still get everything** (`RecoverableIff`). This is about
  what can happen: for a daemon that has written no EXIT, or beside an abandoned replay (`VanishesIff`),
  it can also go the other way. `DialIff` says when dialling at once is as good as waiting.
- **The buffer refines a plain sequence** (`Buffer.ReadAt`, `Buffer.Append`, `Buffer.TrimTo`), with
  digests that do not depend on how the stream was cut (`HistoryIndependent`), acknowledgements
  that form a join (`AcksAreAJoin`) and a bounded disk footprint (`DiskFootprint`).

## Where the code does less than it says

Each of these is proved about the code as it stands, with the exact condition beside it.

- A terminal can see bytes the shell never sent (`ResyncShowsTwice`, condition `TerminalExactIff`):
  the client writes its own alt-screen sequence on HELLO_ACK, and then the stream's copy too.
- A late ACK can lose output (`LateAckLosesOutput`, conditions `StarvesIff`, `LiveLosesIff`).
  `serveAttach` clamps the resend point before it closes the previous attach, whose reader may still
  trim; `streamLoop` then meets an offset below the trim point and returns, and the exit branch still
  writes EXIT. The comment at internal/daemon/daemon.go:1079 promises the buffer is drained first.
- EXIT written is not EXIT seen (`WrittenNotSeen`, condition `RecoverableIff`). The comment at
  internal/daemon/daemon.go:416-417 says the client already has everything; once the daemon no longer
  listens, a cut with frames in flight leaves it without them for good.
- A replay can delete what it was to deliver (`AbandonedReplayDeletes`, `UnheardReplayDeletes`).
  `ReplayDaemon.ReplayRun` removes the session directory exactly when HELLO cannot be read, HELLO_ACK
  cannot be written, or a clean session was sent to its end with EXIT after it; the last of these while
  its reader is short of the end exactly if the connection breaks before the last OUTPUT frame is over
  (`RemovedUnreadIff`). A disconnected client's files can vanish exactly while a replay daemon that it
  gave up on has not ended (`VanishesIff`). The comment at internal/daemon/daemon.go:1457-1469 promises
  that anything going wrong leaves the files for the next attempt; and the first two branches do not ask
  whether the shutdown was clean, while README.md:960-962 says that an unclean session is left in place.
- Two replays can run at once (`SecondReplayLoses`, condition `ReplayLosesIff`): a replay daemon stops
  listening after its one accept, so a reconnect spawns another beside it, and the first to finish
  removes the files under the second, which ends with EXIT.
- A reconnect at the wrong moment is turned away for good (`TurnedAwayWhileClosing`, condition `DialIff`,
  beside `RecoverableIff` for a client that waits): between the last
  accept and the end of a daemon the socket is gone, and the client is sent an EXIT that says the
  session no longer exists or was not shut down cleanly, although its files are about to be preserved.
- A client that has seen about 2 TiB can no longer say HELLO (`HelloFitsFrame`): its digest list is
  never trimmed and outgrows the 64 MiB frame limit. It is stranded (`OversizeHelloStrands`, condition
  `RecoverableIff`).
- A failing `Accept` deletes the session (`AcceptFailureDeletes`, condition `RemovedIff`): the
  accept loop ends, and the preserve decision can be made before the command's exit is recorded.
- So can an attach that dials between the listener's closing and the daemon's end (`IntruderDeletes`,
  condition `RemovedIff`): it finds segment files but no socket and spawns a replay daemon on the live
  directory, which refuses to serve it but removes the directory if its HELLO does not arrive.
- The disk cap does not bound the host (`UncountedEscape`, condition `EnforcedIff`). `GrowingCount`
  counts active and stale sessions only, so a session shown as idle, catchup or stalled counts as
  nothing; the sweeper stops with the shell, so a counted session that is still draining stops
  nobody; nor do the bytes that dead sessions left.
- A stray ESC hides an alt-screen sequence (`StrayEscapeHides`, condition `HeardIffIdle`), and only
  the first 32 parameter bytes are looked at (`FromIdle`).

Two comments differ from the code without any proof needed: the disk-cap comment at
internal/daemon/daemon.go:783-786 says a sealed buffer is drained to a connected client, but the
shutdown branch closes the connection at once; and internal/daemon/daemon.go:782 gives the reserve
as 100 MiB per session where the code takes the smaller of that and 1% of the free disk. The model
follows the code.

## Assumptions

- One client process, there from the start or at least holding everything trimmed: the invariant's
  `trim <= Len`. `ClampReachesClient` shows the clamp stays reachable exactly under that condition;
  a new process attaching with `--session` after a trim is outside it.
- A connection that is lost before HELLO_ACK has been taken ends the client process, with status 1 or
  137; one lost later is retried. ssh failing to reach the host at all, which is retried too, is not a
  connection.
- Disk operations succeed, and a connection whose write failed stays broken.
- `Append` and the alt-screen scan in the PTY pump are one step, as is each section under a mutex.
  In `Delivery.Accept` the clamp, the alt-screen sample and the HELLO_ACK write are one step, as are
  HELLO and HELLO_ACK of a replay.
- The stream stays below 2^64 bytes; where untrusted counters are added or scaled
  (`ResendFrom`) the uint64 wrap-around is modelled.
- Timers are steps that may happen at any moment.
- An abandoned attach may write EXIT or end at any moment; an abandoned replay daemon moves like any
  other. Removing a directory is one step, and so is scanning it when a replay daemon is spawned: a scan
  that meets a half-done removal, whose listing has a gap, is not covered.
- In `Delivery` an attach that dials a daemon which no longer listens ends its client. The replay daemon
  it may spawn on that daemon's unfinished directory is a step of `Lifecycle` (`LateDial`).
- "Produced" is what the daemon has taken from the PTY into its buffer. Bytes the PTY yields after the
  disk-cap sweeper has sealed the buffer are dropped by the code and are not part of the stream.

## Model

| member | source | states |
|---|---|---|
| History.ContiguousIsTiles | internal/buffer/buffer.go:46-69 | the segment list of a buffer is the only list that is contiguous, non-empty and full except at its end |
| History.TilesExtend | internal/buffer/buffer.go:220-263 | spilling extends the list by a new segment or lengthens the last, never anything else |
| History.TileHolds | internal/buffer/buffer.go:358-371 | any range inside a segment is, in its file, the same range of the stream |
| History.DropStep | internal/buffer/buffer.go:420-426 | deleting the oldest file leaves exactly the files of the remaining segments |
| History.HashPartial | internal/buffer/buffer.go:277-295 | bytes that do not complete a chunk change no digest of the finished stream |
| History.HashComplete | internal/buffer/buffer.go:285-293 | bytes that complete a chunk add exactly its digest, taken from what was gathered since the boundary |
| History.HashesDrop | internal/buffer/buffer.go:439-452 | dropping digests from the front equals hashing the finished stream from a later chunk |
| History.AppendedWellFormed | internal/buffer/buffer.go:269-319 | appending keeps every relation between trim point, window, segments and digests, with and without a disk |
| History.TrimmedWellFormed | internal/buffer/buffer.go:409-453 | trimming keeps them too, and the trim point becomes the larger of itself and the clamped offset |
| History.WindowSlides | internal/buffer/buffer.go:297-313 | exactly the overflow leaves the RAM window, to disk or off the back |
| History.TrimmedJoin | internal/buffer/buffer.go:409-453 | two trims equal one trim to the larger offset, in every field |
| History.AcksAreAJoin | internal/daemon/daemon.go:1197-1205 | between two appends, any order, repetition or loss of ACKs ends in the state the largest arrival alone would give |
| History.DiskFootprint | internal/buffer/buffer.go:6-10 | segment files total less than the unacknowledged spill plus one segment, and none lies wholly below the trim point |
| History.ManifestBounded | internal/buffer/buffer.go:70-76 | digests reach the last complete chunk; on disk their number is bounded by held bytes |
| History.NothingForgotten | internal/buffer/buffer.go:297-313 | over any history nothing is given up but what was acknowledged and, without a disk, what lies more than the RAM tail back |
| History.TrimmedDigests | internal/buffer/buffer.go:439-452 | after a trim the digests start with the chunk the trim point lies in |
| History.HistoryKeeps | internal/buffer/buffer.go:80-84 | over any history the stream is what was appended, and the trim point rises and stays within it |
| History.HistoryIndependent | internal/buffer/buffer.go:12-15 | for equal trim points, RAM window and digests do not depend on how the stream was cut or when it was acknowledged; without a disk, digests agree wherever both lists reach |
| Buffers.Buffer.constructor | internal/buffer/buffer.go:97-122 | zero limits select the defaults; the buffer starts empty and leftover segment files are removed |
| Buffers.Buffer.Rotate | internal/buffer/buffer.go:220-237 | an empty file opens where the last segment ends, or at the window when there is none |
| Buffers.Buffer.SpillToDisk | internal/buffer/buffer.go:241-263 | segments and files now cover the spilled bytes, whatever the sizes involved |
| Buffers.Buffer.Absorb | internal/buffer/buffer.go:277-295 | digests, hasher and counter are those of the longer stream |
| Buffers.Buffer.Append | internal/buffer/buffer.go:269-319 | the view grows by exactly the appended bytes; a sealed buffer refuses and keeps its view |
| Buffers.Buffer.SegmentContaining | internal/buffer/buffer.go:324-331 | returns a segment that holds the offset, or none does |
| Buffers.Buffer.ReadAt | internal/buffer/buffer.go:340-386 | the held bytes at an offset, as many as fit, across files and RAM; EOF and below-trim errors exactly where the source gives them, the not-in-any-segment error never |
| Buffers.Buffer.TrimTo | internal/buffer/buffer.go:409-453 | files, window and digests become those of the trimmed view |
| Buffers.Buffer.ChunkHashes | internal/buffer/buffer.go:464-470 | the digests held are those of hashing the finished stream |
| Buffers.Buffer.Stats | internal/buffer/buffer.go:506-525 | all counters: held bytes split exactly into RAM and disk, the files hold the disk part and less than one segment more, with their exact size and number, digests reach the last complete chunk |
| Buffers.Buffer.Poll | internal/buffer/buffer.go:530-551 | wakes with the total while there are bytes past the offset, with EOF only when sealed and drained |
| Buffers.Buffer.Close | internal/buffer/buffer.go:570-604 | keeping files leaves the stream from the oldest segment to its very end on disk; removing leaves none |
| SegmentFiles.ScanSegments | internal/buffer/buffer.go:136-159 | a listing sorted by offset with one true entry per file, in whatever order the directory yields them |
| SegmentFiles.SortedUnique | internal/buffer/buffer.go:157-158 | such a listing is unique |
| SegmentFiles.ScanOfClosed | internal/buffer/buffer.go:580-604 | scanning what a closed buffer kept yields gap-free segments with the stream's bytes up to its end |
| Chunks.ResendFrom | internal/chunk/chunk.go:163-195 | for any two manifests the lower of the first divergent chunk and the sender's last complete one, in uint64 arithmetic, with every index in bounds |
| Chunks.DivergentResent | internal/chunk/chunk.go:178-186 | a chunk both sides have with different digests is sent again |
| Chunks.AgreedSkipped | internal/chunk/chunk.go:178-194 | where all shared digests are equal, the result is the end of what is shared or the sender's last complete chunk |
| Chunks.ModularOffsets | internal/chunk/chunk.go:163-194 | ends and offsets are the sums and products modulo 2^64 |
| Chunks.RaggedEdge | internal/chunk/chunk.go:147-154 | below 2^64 the result never passes the start of the sender's last complete chunk, is that or the divergent chunk's start, and is 0 without any chunk |
| Chunks.ResendExact | internal/daemon/daemon.go:977-983 | for truthful manifests: the client's last complete chunk's end if it is behind, and a whole chunk further back if it is level |
| Chunks.AgreementUnique | internal/chunk/chunk.go:178-185 | the divergence point is the first index of the overlap whose digests differ, or its end |
| Chunks.ResendWithinPeer | internal/chunk/chunk.go:147-162 | whatever the sender's manifest says, torn or not, the result is within the chunks the peer announced |
| Chunks.PrefixAgrees | internal/chunk/chunk.go:156-160 | digests of a prefix agree with the longer stream's wherever both have one |
| Chunks.ResendPointCorrect | internal/daemon/daemon.go:977-983 | truthful manifests give a clamped point between trim point and client length, under two chunks back |
| Chunks.ClampReachesClient | internal/daemon/daemon.go:979-983 | the clamped point is no further than the client exactly when the client has everything trimmed |
| Hellos.Encode | internal/chunk/chunk.go:64-99 | the payload layout, version defaults and the session-id limit |
| Hellos.HelloLayout | internal/chunk/chunk.go:64-99 | where each field lies in the payload, with its width, byte order and default |
| Hellos.DecodeHello | internal/chunk/chunk.go:106-145 | the fields or the first truncation found |
| Hellos.HelloRoundTrip | internal/chunk/chunk.go:64-145 | decoding inverts encoding, whatever follows on the wire; an unset major comes back as this build's version |
| Hellos.OldPeer | internal/chunk/chunk.go:139-143 | without the last byte a payload reads as a 1.0 peer's, not in alt-screen |
| Hellos.CutHelloRejected | internal/chunk/chunk.go:107-132 | any shorter cut is rejected, with the error that names what is missing first |
| Hellos.HelloFitsFrame | internal/proto/frame.go:59-62 | which HELLOs fit the frame limit, exactly, in terms of digest count and id length |
| Proto.Conn.WriteFrame | internal/proto/frame.go:99-119 | header and payload reach the stream as one frame, or an error and no frame; a broken link stays broken |
| Proto.Conn.ReadFrame | internal/proto/frame.go:121-141 | the frame at the head of the stream, or a short-read or oversize error |
| Proto.ParseIs | internal/proto/frame.go:121-141 | what becomes of any byte stream: fewer than 13 bytes or a short payload is cut off, a length over 64 MiB is refused, the rest is the frame and what follows it |
| Bytes.BigEndian64 | internal/proto/frame.go:99-141 | integers travel most significant byte first |
| Proto.CutAnywhere | internal/proto/frame.go:99-141 | however the stream is cut, the reader gets exactly the frames sent whole, unaltered |
| Proto.WholeFramesMaximal | internal/proto/frame.go:121-141 | and that is the largest number that fits in the cut |
| Proto.RoundTrip | internal/proto/frame.go:99-141 | uncut, every list of frames is read back |
| AltScreen.Scanner.Scan | internal/altscreen/altscreen.go:32-73 | state and last event of feeding the bytes through the state machine |
| AltScreen.SplitJoins | internal/altscreen/altscreen.go:62 | the fields contain no semicolon and joined with semicolons give the string back |
| AltScreen.FieldIff | internal/altscreen/altscreen.go:62-63 | a string is among the fields exactly if it stands in the parameters between semicolons or their ends |
| AltScreen.Recognised | internal/altscreen/altscreen.go:53-69 | from idle, h and l report entering and leaving exactly if 47, 1047 or 1049 is among the fields of the first 32 parameter bytes; another final byte reports nothing |
| AltScreen.ScanComposes | internal/altscreen/altscreen.go:18-30 | the result does not depend on how the stream is cut |
| AltScreen.FromIdle | internal/altscreen/altscreen.go:53-69 | parameter bytes past the 32nd change nothing, and the scanner is idle again after the final byte |
| AltScreen.HeardIffIdle | internal/altscreen/altscreen.go:36-52 | after any prefix, a sequence is heard if and only if the scanner is idle |
| AltScreen.StrayEscapeHides | internal/altscreen/altscreen.go:41-46 | ESC ESC [ ? 1049 h is not recognised |
| Clients.ClientState.HandleOutputFrame | internal/client/client.go:1085-1111 | overlap skipped, gap refused, the rest shown, scanned and stored; an ACK is sent exactly when 5 MiB are unacknowledged, and on a link whose writes go through the watermark is the ACK sent last or what HELLO announced |
| Clients.TruthfulFrame | internal/client/client.go:1092-1100 | a truthful frame at any offset, past a gap too, leaves a prefix of the stream a prefix |
| Clients.EnterAltHeard | internal/client/client.go:781-785 | what the client inserts is what its own scanner hears as entering alt-screen |
| Clients.ClientState.TryToAck | internal/client/client.go:1132-1152 | an ACK for everything held, exactly when connected and enough is unacknowledged; the watermark moves even if the write fails |
| Clients.ClientState.OnHelloAck | internal/client/client.go:780-792 | alt-screen resync, the sequence it writes to the terminal, the redraw kick it asks for, and the watermark reset |
| Clients.ResyncsAdd | internal/client/client.go:781-785 | the terminal's output is the received stream exactly if nothing was inserted, and eight bytes longer per insertion |
| Streaming.StreamRound | internal/daemon/daemon.go:1121-1158 | on a buffer left alone, sends consecutive true pieces of the stream of exactly the size one read yields; ends at the end, broken, or overtaken, and says which |
| Streaming.StreamStep | internal/daemon/daemon.go:1131-1153 | one read and write, whatever appends and trims went before: the next piece as the buffer stands, or why not |
| Streaming.ServeHello | internal/daemon/daemon.go:977-983 | the manifest of the buffer and the clamped resend point |
| Streaming.OnAck | internal/daemon/daemon.go:1197-1205 | trims to the announced offset; short payloads are ignored |
| Streaming.StreamSegments | internal/daemon/daemon.go:1241-1294 | whatever the listing, each segment is passed over or sent to its end, in order, from the client's offset; success means none is left, failure a broken link or a segment that could not be opened |
| Invariant.StartOk | internal/daemon/daemon.go:80-115 | a fresh daemon and client satisfy the delivery invariant |
| Invariant.AcceptKeeps | internal/daemon/daemon.go:977-1017 | accepting an attach keeps it, with a manifest torn across three locks and ACKs trimming meanwhile |
| Invariant.OutputKeeps | internal/client/client.go:1085-1111 | taking a frame keeps it |
| Invariant.ProcessAckKeeps | internal/daemon/daemon.go:1197-1205 | processing an ACK keeps it |
| Invariant.LateAckKeeps | internal/daemon/daemon.go:1197-1205 | so does an ACK from an abandoned connection, at any time |
| Invariant.PreserveKeeps | internal/buffer/buffer.go:580-604 | shutting down with the files kept keeps it, with frames still on their way to the client or not |
| Invariant.ReplayAcceptKeeps | internal/daemon/daemon.go:1395-1439 | a replay starts at the length the client announced, which the kept files reach back to |
| Invariant.ReplayMoveKeeps | internal/daemon/daemon.go:1243-1290 | passing over, opening and sending segments keeps it, even after the files were removed |
| Invariant.ReplayMoveOk | internal/daemon/daemon.go:1243-1290 | what a replay sends is the next piece of the stream |
| Invariant.FlagAdvances | internal/client/client.go:1102-1104 | the alt-screen flag stays right, or ahead only until the position it was resynced to |
| Theorems.StepKeeps | internal/daemon/daemon.go:938-1119 | every step of client, daemon, replay, link and whatever a cut leaves behind keeps the invariant |
| Theorems.ExactlyOnce | internal/client/client.go:1085-1111 | in every run the client has received a prefix of the output, its terminal was fed that with one insertion per resync, and nothing it lacks is trimmed or missing from preserved files |
| Theorems.TerminalExactIff | internal/client/client.go:781-785 | the terminal was fed the received prefix and nothing else exactly if no HELLO_ACK found alt-screen set with the client out of it |
| Theorems.ExitMeansComplete | internal/daemon/daemon.go:1078-1105 | EXIT at the client means everything was received unless the sender was overtaken or its files were gone |
| Theorems.NoGap | internal/client/client.go:1092-1100 | every frame starts where the previous ended; the gap branch is never taken |
| Theorems.DrainedConnection | internal/daemon/daemon.go:1121-1158 | a drained connection has delivered everything up to the cursor |
| Theorems.AcksBehindStreamer | internal/client/client.go:787-792 | within an attach no ACK passes the streamer, and under 5 MiB lies past the watermark |
| Acknowledgements.WatermarkSent | internal/client/client.go:1117-1152 | in every run the watermark of an attached client is what HELLO announced, an ACK on its way, or trimmed already |
| Acknowledgements.DaemonReleases | internal/client/client.go:1117-1128 | once the ACKs on their way are processed the daemon holds under 5 MiB of what the client received since HELLO, and none of it after an idle ACK |
| Acknowledgements.IdleAckCovers | internal/client/client.go:1117-1128 | the idle ACK covers everything received whenever anything is unacknowledged |
| Acknowledgements.GreetedAt | internal/client/client.go:780-792 | taking HELLO_ACK sets the watermark to what is held and leaves the client in alt-screen if the daemon is |
| Theorems.AltScreenAgrees | internal/client/client.go:781-785 | the client's flag is that of its own output once past the last resync, and the daemon's when caught up |
| Theorems.GreetingTells | internal/daemon/daemon.go:984-1000 | in every run the flag in HELLO_ACK is that of the output up to a position the client, if it must switch, has not passed |
| Theorems.MissingNeverGrows | internal/daemon/daemon.go:1467-1469 | after the stream has ended, what the client lacks never grows |
| Theorems.NoSegmentsNothingMissing | internal/daemon/daemon.go:1337-1346 | a clean shutdown that leaves no segments leaves nothing to replay |
| Theorems.OrderlyExit | internal/daemon/daemon.go:1078-1105 | in a run where no old ACK overtakes an attach and no abandoned replay removes files in use, EXIT at the client means completeness |
| Theorems.RoundIsRun | internal/daemon/daemon.go:1130-1152 | what the streaming round is proved to send is a run of the transition system |
| Theorems.ReplayIsRun | internal/daemon/daemon.go:1241-1294 | what segment replay is proved to do and send is a run of it too |
| Theorems.CutIsDeliveries | internal/proto/frame.go:121-141 | a client whose byte stream breaks anywhere gets as far as some deliveries followed by a cut take it |
| Completion.AttemptBounded | internal/daemon/daemon.go:1121-1158 | an uncut attempt on an ended session makes a bounded number of moves, whatever happens around it |
| Completion.AttemptCompletes | internal/daemon/daemon.go:1078-1105 | every orderly uncut attempt on an ended session that has no move left has ended complete, or could not send HELLO_ACK |
| Completion.ReplayCompletes | internal/daemon/daemon.go:1433-1473 | from preserved files, a replay that is left alone leaves the client with exactly the whole stream, if its HELLO fits a frame |
| Completion.LiveCompletes | internal/daemon/daemon.go:1078-1105 | so does a reconnect to a listening daemon, if HELLO and HELLO_ACK fit |
| Completion.ReconnectOverlap | internal/daemon/daemon.go:977-983 | an uninterrupted reconnect resends less than two chunks |
| Losses.StarvesIff | internal/daemon/daemon.go:979-1010 | a new attach can be overtaken if and only if an older ACK under way lies beyond its resend point |
| Losses.LiveLosesIff | internal/daemon/daemon.go:979-1105 | a new attach can lose output uncut if and only if that, and there is or may yet be output past the client |
| Losses.ReplayLosesIff | internal/daemon/daemon.go:1241-1294 | a replay can lose output uncut if and only if an abandoned replay may remove the files, or has, and the open file does not reach the end |
| Recovery.RecoverableIff | internal/attach/attach.go:77-117 | a disconnected client of an ended session can still get everything if and only if it has it, or its HELLO fits and files, a daemon without EXIT, or a listening one able to answer remain |
| Recovery.DialIff | internal/attach/attach.go:77-117 | dialling now lets a disconnected client of an ended session get everything if and only if it has it, or its HELLO fits and files or a listening daemon able to answer are there |
| Losses.VanishesIff | internal/daemon/daemon.go:1366-1472 | preserved files can be deleted without the client attaching if and only if a replay daemon it gave up on has not ended |
| ReplayDaemon.ReplayRun | internal/daemon/daemon.go:1334-1476 | the directory is removed exactly if no HELLO could be read, HELLO_ACK not be written, or a clean session's frames end in EXIT 133 or 134; these then reach the end of every segment; and which EXIT is written when |
| ReplayDaemon.HeardIff | internal/daemon/daemon.go:1377-1389 | a hello is heard in a HELLO frame and in no other |
| ReplayDaemon.AnswerTells | internal/daemon/daemon.go:1395-1409 | HELLO_ACK announces the length, no digests, this build's version and no alt-screen |
| ReplayDaemon.TotalSizeIs | internal/daemon/daemon.go:1334-1346 | the length announced is the stream's |
| ReplayDaemon.RemovedUnreadIff | internal/daemon/daemon.go:1444-1472 | of a replay that ended in removal, a reader cut after k bytes has everything if and only if the cut is not before the end of the last OUTPUT frame |
| Scenarios.ResyncShowsTwice | internal/client/client.go:781-785 | a run in which the terminal sees an alt-screen sequence twice that the shell sent once |
| Scenarios.LateAckLosesOutput | internal/daemon/daemon.go:979-1010 | a run in which a late ACK costs the client its last byte |
| Scenarios.WrittenNotSeen | internal/daemon/daemon.go:1097-1118 | a run in which EXIT is written, the session removed and the output still on its way |
| Scenarios.AbandonedReplayDeletes | internal/daemon/daemon.go:1444-1472 | a replay given up after HELLO_ACK goes on to EXIT and deletes output its client never gets |
| Scenarios.UnheardReplayDeletes | internal/daemon/daemon.go:1377-1414 | a replay cut before HELLO_ACK deletes it too, and its client gives up |
| Scenarios.SecondReplayLoses | internal/attach/attach.go:95-105 | a second replay beside an abandoned one ends with EXIT at a client that has nothing |
| Scenarios.TurnedAwayWhileClosing | internal/attach/attach.go:86-117 | a client that dials a closing daemon gives up although its output is then preserved |
| Scenarios.OversizeHelloStrands | internal/client/client.go:684-702 | a client whose digests outgrow a frame can never get another byte after a cut |
| Lifecycle.Daemon.Register | internal/daemon/daemon.go:1007-1017 | the new attach owns the slot with a new epoch; the previous connection is the one to close |
| Lifecycle.StaleReaderHarmless | internal/daemon/daemon.go:1053-1058 | a reader of an older attach that ends late changes nothing for the current owner |
| Lifecycle.ReaderEndSupersedes | internal/daemon/daemon.go:1044-1059 | the end of its own reader takes the session from an attach |
| Lifecycle.GoneClientLeaves | internal/daemon/daemon.go:1044-1076 | in every reachable state an attach whose client has gone has lost the session and can leave |
| Lifecycle.FlagsRecord | internal/daemon/daemon.go:816-1118 | each flag is up exactly if the event it stands for has happened |
| Lifecycle.SlotHeldIff | internal/daemon/daemon.go:1007-1118 | the slot is held by the attach that registered last until it has left, and EXIT is written only after the command's exit |
| Lifecycle.StopsIff | internal/daemon/daemon.go:903-923 | when the listener may stop, in terms of what has happened |
| Lifecycle.LeavesIff | internal/daemon/daemon.go:1061-1078 | when a waiting attach leaves its loop and when it goes on to send EXIT, in the same terms |
| Lifecycle.StopsUnowned | internal/daemon/daemon.go:903-923 | without a shutdown request the listener stops only on an exited command and a session nobody owns, after an EXIT or the grace period |
| Lifecycle.SingleOwner | internal/daemon/daemon.go:1061-1064 | in every reachable state a current attach owns the slot, and there is at most one |
| Lifecycle.OnlyNewerOrSelfSupersedes | internal/daemon/daemon.go:1044-1059 | only a newer attach, its own reader or its own departure ends an attach's ownership |
| Lifecycle.SupersededLeaves | internal/daemon/daemon.go:1061-1076 | a superseded attach never owns the session again and can always leave |
| Lifecycle.RemovedIff | internal/daemon/daemon.go:225-267 | the daemon's verdict exactly, and that the directory is gone exactly if it says so or a replay daemon spawned too early has wiped it |
| Lifecycle.NeverDeletedUnasked | internal/daemon/daemon.go:225-267 | the directory goes only with a written EXIT, a client's SHUTDOWN, a failed accept, or an attach that dialled a closing daemon |
| Lifecycle.IntruderDeletes | internal/attach/attach.go:86-105 | an attach that dials too late alone can delete a session the daemon has decided to keep |
| Lifecycle.Daemon.Perform | internal/daemon/daemon.go:816-1118 | the daemon's critical sections make exactly the moves of the runs, verdicts included |
| Refinement.VerdictRefines | internal/daemon/daemon.go:225-267 | the delivery system's end of a daemon is enabled and keeps the files exactly as the flags decide |
| Refinement.VerdictExcludes | internal/daemon/daemon.go:225-267 | and in no other way: kept without an EXIT only, removed as delivered with one only |
| Refinement.AbortIff | internal/daemon/daemon.go:225-230 | its unasked removal is the verdict exactly if nothing was delivered, nobody asked to keep, and the client aborted or the command was not seen to exit |
| Lifecycle.AcceptFailureDeletes | internal/daemon/daemon.go:925-929 | a failed accept alone can delete the session |
| DiskCap.GrowingCount | internal/sessions/diskcap.go:69-77 | the size of the set of active and stale rows |
| DiskCap.TotalDiskUsage | internal/sessions/diskcap.go:58-66 | the sum of all non-negative sizes, dead sessions included |
| DiskCap.UsageAdds | internal/sessions/diskcap.go:58-66 | each session adds what it holds, whatever its status |
| DiskCap.DiskBudget | internal/sessions/diskcap.go:33-54 | the budget of the counted sessions, never below zero |
| DiskCap.BudgetBounds | internal/sessions/diskcap.go:1-14 | at most 2 GiB and 20% of the free disk, and lowered by 100 MiB or 1% of it for each counted session until nothing is left |
| DiskCap.CheckDiskCap | internal/daemon/daemon.go:787-813 | stops exactly when over budget and over the fair share |
| DiskCap.SparedIff | internal/daemon/daemon.go:787-813 | nobody is stopped exactly if the host is within budget or counts nobody, and nobody within the fair share ever is |
| DiskCap.SparedFit | internal/sessions/diskcap.go:11-14 | counted sessions within the fair share fit in the budget together |
| DiskCap.CountedOverShare | internal/sessions/diskcap.go:11-14 | counted sessions that exceed the budget together include one the rule selects |
| DiskCap.EnforcedIff | internal/daemon/daemon.go:754-813 | the cap holds for all sizes and disks if and only if every session still sweeps and either all are counted or at least 21 are |
| DiskCap.UncountedEscape | internal/sessions/diskcap.go:68-77 | a lone stalled session, or what a dead one left, is over budget and stops nobody |

## Left out

- Processes, sockets, PTY, signals, terminal modes and ssh: connections are queues that can be cut.
- Disk write, close and stat failures, and a buffer after a failed spill.
- Recovery without the clean marker, which the code refuses, and the exit codes it prints.
- ScanSegments: a file is keyed by the offset its name encodes; formatting and parsing the twenty digits, and a failing Stat, are not modelled.
- The RESIZE codec, stdin forwarding, `~.` escapes, CRLF translation, health markers, listing and rendering: thin.
- AcksAreAJoin: the stream is fixed; with appends in between, HistoryIndependent gives window and digests, but where segment files are cut depends on what had spilled by then.
- StreamRound: one pass of `streamLoop` between two waits on a buffer nobody touches; StreamStep is the unit that interleaves, and cancellation and the wait itself are scheduling.
- RoundIsRun: the same pass, as a run without other steps in between; the transition system has the rest.
- ServeHello: the buffer does not change between its three reads; Invariant.AcceptKeeps covers a manifest torn across them.
- StreamSegments: a read may be short but neither a read nor a seek fails, and a file is as long as it was listed.
- ReplayIsRun: the files stay in place and no other step comes between; the transition system has the rest.
- OnHelloAck: says that a redraw is asked for; the Ctrl-L frame is stdin.
- Budget: the two ratios are integer floors; rounding of float products is not modelled.
- WriteFrame: a write that fails part-way counts as a cut, so the bytes of the unfinished frame are not tracked on the sender.
- SingleOwner: the window in which a kicked connection's goroutines are still draining is covered by the epoch only.
- SupersededLeaves: leaving stays possible; that the scheduler lets the goroutine run is not claimed.
- RecoverableIff: says what can happen; whether an abandoned process finishes first, or a client abort removes the session, is up to the environment.
