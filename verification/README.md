# A verified model of the TeamSpeak CLI bridge

`ts` is a command-line client that talks to a plugin inside the TeamSpeak client. Two sockets join
them: a control socket for single calls, and a media socket that carries speaker events, received
audio and audio to be played. This project models the code on both ends of the two sockets, and the
files and printers around them, and proves what they keep and what they promise.

| files | what they model |
|---|---|
| `Bytes`, `Wire` | byte strings, trimming, splitting, decimal and hexadecimal numbers, lines of tab-separated fields, results and errors |
| `MediaFrames` | the frames and commands of the media socket as bytes, with the readers of both ends |
| `MediaState`, `MediaBridge` | the state behind the mutex of the media bridge: each locked block as a function of the state, and as a method of an object proved against that function |
| `PlaybackTrack`, `MediaClient` | the playback client as a program over frames, the relation between it and the bridge that holds at every moment, and `send_playback_file` loop by loop |
| `MediaWorld`, `MediaTheorems`, `MediaRefusal`, `MediaPublish` | the bridge with all its threads, connections and clients as one machine, its invariants, and the theorems about every run |
| `Records`, `Control`, `Proxy` | the records, requests and replies of the control socket; a backend called through the socket refines the backend |
| `Takeover` | how the plugin takes the capture device over and gives it back |
| `Handover` | bridge and plugin as one machine: whose activations the plugin serves, and that every snapshot is given back |
| `Json`, `Config`, `Wave`, `Inbox`, `Lifecycle` | the JSON printer, the two configuration loaders and the writer, the WAVE reader, the message journal, connecting and disconnecting |

## How the media machine is built

A step of the machine is one block that the source runs under its mutex, one read or write on a
socket, or one move of a client. `Run(steps)` is the state after any list of steps, so a lemma about
`Run(steps)` speaks of every schedule of the accept, reader, writer and audio threads, the
publishers, any number of consumers one after another, failed writes, time-outs, disconnects and
restarts. Each connection has a number of its own. `playback.start` asks the host to switch its
capture device outside the lock; the machine therefore takes it in two steps, and a disconnect may
come between them.

The history fields `ledger`, `marks`, `sent` and `origin` record what was accepted, played and
discarded, which "started" and "drained" frames were queued, what was written to whom, and which
thread queued it. No step depends on them.

A client is either `send_playback_file` or a stranger that writes any bytes. The main theorem,
`PlaybackEndToEnd`, composes the client's loop, the byte framing, the command reader, the bounded
queue and the audio thread: if the client succeeds, the samples popped since `playback.start` are the
samples of its file, in order, each once. `SamplesArePlayed` says so of the numbers that a writer laid
out as bytes, and `AudioIsSentOrCounted` accounts for the audio of the other direction.
`SucceedsExactlyWhenEven` shows that this is not empty, and
`RefusedChunkIsFatal` that a refused chunk is never papered over.

## What the code does not do

Some properties one would expect are false of the code. Each is stated with the condition under
which it holds.

* A "drained" frame can be sent to a consumer that has not sent any command
  (`DrainedForAnother`). A reader goes on with the commands left in its socket after the writer has
  failed, and so leaves a stop pending for the next consumer. In any run it happens exactly when a
  stop is pending when the consumer is accepted (`StrayDrainExactlyWhenPending`). The window is
  short: `handle_client_disconnect` closes the descriptor right after it releases the lock
  (src/teamspeak_cli/bridge/media_bridge.cpp:760-761), while the model lets the reader take whatever
  was left in the socket. The playback client is not misled by it.
* The documentation says that the previous capture device is restored after playback
  (docs/sdk-integration.md:181). `RestoredExactlyWhen` gives the hosts, and the outcomes of the
  calls, with which it is, and `HostComesBackExactly` says the same of whole runs; a host that can
  close but not open its device loses it without any playback (`ClosedForGood`).
* Taken alone, the plugin does not hand every snapshot to a restore: a second activation that is
  committed over an active session overwrites the first one's snapshot and joins its running loop
  with the mutex held (`OverlapLosesSnapshot`). `ExactlyOneRestore` and `FaultsExactlyWhen` say
  exactly when. Only a caller other than this bridge can bring it about: `reader_loop` makes the only
  call of `activate_media_playback`, and the accept loop joins one reader before it starts the next,
  so in every run of the program each snapshot is handed to exactly one restore
  (`NothingIsLost`, `EverySnapshotComesBack`).
* A remote call is not always the local call: `TransparentExactlyWhen` and `BrokenCalls` list what
  is lost. A failing `plugin_info` whose code is `socket_connect_failed` becomes a success.
* The frame count that a chunk declares is not always the number of samples it adds: a count that
  is too large by 2^63 is accepted (`DeclaredCountWraps`). Of an accepted chunk the count is right
  exactly when it is below 2^63 (`DeclaredCountRightExactly`). The samples are not affected.
* The WAVE reader accepts a file cut off inside an unknown chunk of even size (`CutUnknownChunk`).
* NDJSON of an array without items is one empty line (`NdjsonSplitsBack`).
* The documentation names "drained" as the only stop reason (docs/media-bridge.md:158-167); a stop
  is answered with "inactive" exactly when nothing plays (`StopAnswer`), and no other reason is
  ever given (`StopReasons`).

## Model

| member | source | states |
|---|---|---|
| `MediaTheorems.PlaybackEndToEnd` | src/teamspeak_cli/bridge/media_client.cpp:911-986 | In every run, a client that has succeeded got the reason "drained", and the samples the audio thread popped since its start are exactly those of its file, in order, each once |
| `MediaTheorems.SamplesArePlayed` | src/teamspeak_cli/bridge/media_client.cpp:911-986 | The same in terms of numbers: a file laid out from a list of samples, two bytes each with the low one first, is played as exactly that list |
| `MediaTheorems.SucceedsExactlyWhenEven` | src/teamspeak_cli/bridge/media_client.cpp:940-975 | Some run in which the client succeeds exists exactly for files with an even number of bytes |
| `MediaRefusal.RefusedChunkIsFatal` | src/teamspeak_cli/bridge/media_bridge.cpp:637-656 | In any run, once the bridge refuses a chunk of a client that is sending, that client succeeds in no continuation |
| `MediaRefusal.FateIsFinal` | src/teamspeak_cli/bridge/media_client.cpp:757-759 | A client with an error ahead of any "stopped", or closed without one, never leaves that condition but by failing |
| `MediaTheorems.AcceptedWaveCanBePlayed` | src/teamspeak_cli/bridge/media_client.cpp:267-367 | Every file the WAVE reader accepts can be played to the end |
| `MediaTheorems.PlayedIsWritten` | src/teamspeak_cli/bridge/media_bridge.cpp:474-495 | What counts as played is the non-silent part of what is written to the host's buffer; the rest is silence |
| `MediaTheorems.PlaybackInvariant` | src/teamspeak_cli/bridge/media_bridge.cpp:29-53 | In every reachable state: inactive means empty and no stop pending; a pending stop means active and not empty; at most 1,440,000 samples; accepted = played, discarded and queued together; a "started" between any two "drained" |
| `MediaTheorems.ConsumerIsolation` | src/teamspeak_cli/bridge/media_bridge.cpp:513-549 | Over any number of reconnects a consumer's stream begins with its greeting and holds no frame queued by another connection's reader or acceptor; connections have numbers of their own |
| `MediaTheorems.SpeakerMirror` | src/teamspeak_cli/bridge/media_bridge.cpp:400-414 | Folding the speaker frames sent and queued since the hello, read from their fields alone, gives the active speakers, however much audio was dropped |
| `MediaPublish.AudioIsSentOrCounted` | src/teamspeak_cli/bridge/media_bridge.cpp:416-454 | In every run the audio in the consumer's stream, written or waiting, is exactly what was published since it was accepted, in order and each chunk once, without the chunks that found 256 frames waiting; and the drop counter is the number of those |
| `MediaPublish.SpeakersArePublished` | src/teamspeak_cli/bridge/media_bridge.cpp:400-414 | In every run the active speakers are those published and not stopped, whatever the consumers do |
| `MediaPublish.SecondConsumerIsTurnedAway` | src/teamspeak_cli/bridge/media_bridge.cpp:513-529 | While one consumer is connected another reads one "client_busy" error and the end, and nothing else changes |
| `MediaTheorems.DrainedForAnother` | src/teamspeak_cli/bridge/media_bridge.cpp:720-758 | A run in which a consumer that sent nothing is told "drained" |
| `MediaTheorems.StrayDrainExactlyWhenPending` | src/teamspeak_cli/bridge/media_bridge.cpp:484-491 | After any run, a newcomer that sends nothing can be told that playback stopped in some continuation if and only if a stop was pending when it was accepted |
| `MediaWorld.AlwaysGood` | src/teamspeak_cli/bridge/media_bridge.cpp:497-770 | The invariants of bridge, streams and clients hold after every list of steps |
| `MediaWorld.MirrorIsReadable` | src/teamspeak_cli/bridge/media_bridge.cpp:187-195 | The picture made from the fields a consumer reads is the one made from the frames |
| `MediaWorld.InstalledMirror` | src/teamspeak_cli/bridge/media_bridge.cpp:530-542 | The greeting alone brings a newcomer's picture up to date |
| `MediaWorld.LockstepReads` | src/teamspeak_cli/bridge/media_client.cpp:724-763 | A client that reads gets the oldest unread frame and nothing else, or nothing, also behind a frame cut off by a failed write |
| `PlaybackTrack.ReadIsHear` | src/teamspeak_cli/bridge/media_client.cpp:765-780 | Reading a frame's bytes moves the client program as the frame itself does |
| `PlaybackTrack.FramesMove` | src/teamspeak_cli/bridge/media_client.cpp:765-780 | Of any readable frame only the awaited one moves the client; a stop without a readable reason is "unknown"; an error or a malformed frame is the end |
| `PlaybackTrack.ObeyChunk` | src/teamspeak_cli/bridge/media_bridge.cpp:621-662 | A chunk of the file is accepted whole, or an error the client must read before any "stopped" is on its way |
| `PlaybackTrack.ObeyOnTrack` | src/teamspeak_cli/bridge/media_bridge.cpp:562-715 | Whatever command of the client the bridge carries out, client and bridge stay in relation |
| `PlaybackTrack.FillOnTrack` | src/teamspeak_cli/bridge/media_bridge.cpp:456-495 | Popping samples, and finishing a stop, keeps the relation |
| `PlaybackTrack.SendOnTrack` | src/teamspeak_cli/bridge/media_client.cpp:940-971 | The client's next write keeps the relation: the chunks under way are always the right stretch of the file |
| `PlaybackTrack.HearOnTrack` | src/teamspeak_cli/bridge/media_client.cpp:765-817 | Reading any frame keeps the relation |
| `PlaybackTrack.DisconnectOnTrack` | src/teamspeak_cli/bridge/media_bridge.cpp:743-758 | So does a disconnect of any connection at any moment |
| `MediaState.DoKeepsConsistent` | src/teamspeak_cli/bridge/media_bridge.cpp:400-758 | Every locked block of every thread keeps the playback invariant and conserves the samples |
| `MediaState.DrainedMeansPlayed` | src/teamspeak_cli/bridge/media_bridge.cpp:484-492 | A stop queues "drained" only when all that was accepted has been played |
| `MediaState.ChunkAcceptedOrRefused` | src/teamspeak_cli/bridge/media_bridge.cpp:621-662 | A chunk adds exactly half its bytes as samples and has even length, or queues one error frame that is never dropped and leaves the samples alone |
| `MediaState.DeclaredCountRightExactly` | src/teamspeak_cli/bridge/media_bridge.cpp:631-662 | Of an accepted chunk the declared count is the number of samples added if and only if it is below 2^63, and otherwise it is too large by exactly 2^63; a right count with room for it is always accepted |
| `MediaState.SizeCheckExactly` | src/teamspeak_cli/bridge/media_bridge.cpp:637 | A payload passes the size check if and only if it is even and the count is half its size, or that plus 2^63 |
| `MediaState.DeclaredCountWraps` | src/teamspeak_cli/bridge/media_bridge.cpp:637 | Two bytes declared as 2^63 + 1 samples are accepted as one |
| `MediaState.StopAnswer` | src/teamspeak_cli/bridge/media_bridge.cpp:665-681 | A stop is answered "inactive" if and only if nothing plays, "drained" if and only if something plays and the queue is empty, and not yet if and only if samples are left |
| `MediaState.StopReasons` | src/teamspeak_cli/bridge/media_bridge.cpp:484-492 | Of all frames that any locked block puts into the queue, none gives another reason, and only a stop without playback gives "inactive" |
| `MediaState.AudioQueuedOrDropped` | src/teamspeak_cli/bridge/media_bridge.cpp:233-240 | Audio goes behind everything queued, untouched, while fewer than 256 frames wait, and is counted as dropped otherwise; without a consumer nothing happens |
| `MediaState.OthersAreNeverDropped` | src/teamspeak_cli/bridge/media_bridge.cpp:233-240 | Every other frame is queued, however many wait |
| `MediaState.SpeakersAreKept` | src/teamspeak_cli/bridge/media_bridge.cpp:400-414 | A start and a stop change the entry of their own speaker alone, and tell a consumer that is there |
| `MediaState.StatusTellsState` | src/teamspeak_cli/bridge/media_bridge.cpp:197-207 | The status that is asked for, read by position, is the state at that moment, counter by counter |
| `MediaState.GreetingMeans` | src/teamspeak_cli/bridge/media_bridge.cpp:530-542 | A newcomer's queue frame by frame: hello with the path, a status that says it is connected, one start for each active speaker in the order of the keys |
| `MediaState.RefusalReasons` | src/teamspeak_cli/bridge/media_bridge.cpp:561-606 | Which error frame and last error each unreadable command is refused with; none of them counts as a dropped chunk |
| `MediaState.ChunkReasons` | src/teamspeak_cli/bridge/media_bridge.cpp:637-656 | A chunk is refused for its size, then for nothing playing, then for a full queue, each exactly under its guard; only the last is counted |
| `MediaState.StartAndClear` | src/teamspeak_cli/bridge/media_bridge.cpp:612-709 | A start begins with an empty queue and no stop pending, a clear ends playback and empties it; each is answered by its own frame |
| `MediaState.DisconnectForgets` | src/teamspeak_cli/bridge/media_bridge.cpp:743-758 | The current consumer's disconnect leaves nothing of it behind; no one else's has an effect |
| `MediaState.ShutdownForgets` | src/teamspeak_cli/bridge/media_bridge.cpp:359-372 | A stop keeps the counters and the last error and forgets everything else |
| `Bytes.SortedKeysAscend` | src/teamspeak_cli/bridge/media_bridge.cpp:539-541 | The keys of a map are visited in strictly ascending order |
| `Bytes.LessMeans` | src/teamspeak_cli/bridge/media_bridge.cpp:29-53 | The order of the keys is the byte order of the texts |
| `MediaBridge.MediaBridgeState.constructor` | src/teamspeak_cli/bridge/media_bridge.cpp:37-53 | The initial state is empty and consistent |
| `MediaBridge.MediaBridgeState.PublishSpeakerStart` | src/teamspeak_cli/bridge/media_bridge.cpp:400-406 | The speaker is recorded, and the consumer told if there is one |
| `MediaBridge.MediaBridgeState.PublishSpeakerStop` | src/teamspeak_cli/bridge/media_bridge.cpp:408-414 | The speaker is forgotten, and the consumer told if there is one |
| `MediaBridge.MediaBridgeState.PublishAudioChunk` | src/teamspeak_cli/bridge/media_bridge.cpp:416-454 | The samples are copied two bytes each, low one first, and queued, only for a consumer and only if there are any |
| `MediaBridge.MediaBridgeState.FillPlaybackSamples` | src/teamspeak_cli/bridge/media_bridge.cpp:456-495 | The buffer holds the queued samples, then silence, in every channel, and is untouched if nothing is active |
| `MediaBridge.InterleaveAt` | src/teamspeak_cli/bridge/media_bridge.cpp:474-482 | The sample of frame f is at f*channels+c for every channel c |
| `MediaBridge.MediaBridgeState.Accept` | src/teamspeak_cli/bridge/media_bridge.cpp:513-543 | A second consumer changes nothing; a first one is greeted with hello, status and the speakers in order of their keys |
| `MediaBridge.MediaBridgeState.TakeChunk` | src/teamspeak_cli/bridge/media_bridge.cpp:637-662 | The checks in their order, then sample by sample |
| `MediaBridge.MediaBridgeState.Execute` | src/teamspeak_cli/bridge/media_bridge.cpp:562-715 | One command changes the state as its block does |
| `MediaBridge.MediaBridgeState.TakeFrame` | src/teamspeak_cli/bridge/media_bridge.cpp:723-734 | The writer gets the oldest frame, and only while its consumer is connected |
| `MediaBridge.MediaBridgeState.HandleDisconnect` | src/teamspeak_cli/bridge/media_bridge.cpp:743-758 | Only the current consumer's disconnect does anything |
| `MediaBridge.MediaBridgeState.Finish` | src/teamspeak_cli/bridge/media_bridge.cpp:359-372 | Nothing is left after a stop |
| `MediaBridge.MediaBridgeState.ServeCommand` | src/teamspeak_cli/bridge/media_bridge.cpp:575-709 | A start begins playback only if the host agrees; a stop or clear that ends playback tells the host afterwards, and its failure is recorded |
| `MediaBridge.ServeMeans` | src/teamspeak_cli/bridge/media_bridge.cpp:595-709 | Playback begins exactly when the host agrees, and a refusal is passed on to the consumer; what the host says to the end of playback changes the last error alone |
| `MediaBridge.MediaBridgeState.ReadAndExecute` | src/teamspeak_cli/bridge/media_bridge.cpp:553-718 | For any bytes and any answers of the host, the reader executes exactly the commands that the bytes alone say, whatever it refuses |
| `MediaBridge.ServingKeepsConsistent` | src/teamspeak_cli/bridge/media_bridge.cpp:553-718 | Whatever the bytes and the answers of the host are, the reader keeps the playback invariant |
| `MediaFrames.Framing` | src/teamspeak_cli/bridge/media_bridge.cpp:140-148 | Any frames but errors, written back to back with any payload bytes, are read back one by one to the end of the stream |
| `MediaFrames.ReadFrameExact` | src/teamspeak_cli/bridge/media_client.cpp:724-763 | One frame is read exactly, an error frame as its code and message, and the bytes behind it are untouched |
| `MediaFrames.ReadFrameStable` | src/teamspeak_cli/bridge/media_client.cpp:724-763 | A frame that can be read is not changed by bytes that come later |
| `MediaFrames.CutFrameIsIncomplete` | src/teamspeak_cli/bridge/media_bridge.cpp:124-148 | No proper beginning of a frame reads as a frame |
| `MediaFrames.SpeakerFrameReadable` | docs/media-bridge.md:115-130 | A speaker frame read by position means the change it was written for, and no other frame means one |
| `MediaFrames.StatusFrameReadable` | docs/media-bridge.md:100-113 | Every status field is at its documented position |
| `MediaFrames.AudioFrameReadable` | docs/media-bridge.md:132-152 | Every audio field is at its documented position and the payload follows |
| `MediaFrames.CommandsRoundTrip` | src/teamspeak_cli/bridge/media_client.cpp:819-901 | A well-formed command sequence is decoded to itself from its bytes, to the last byte |
| `MediaFrames.ReadCommandExact` | src/teamspeak_cli/bridge/media_bridge.cpp:553-636 | One command, payload and all, is decoded to itself |
| `MediaFrames.ReadCommandStable` | src/teamspeak_cli/bridge/media_bridge.cpp:553-636 | A complete command is not changed by bytes that come later |
| `MediaFrames.SamplesAppend` | src/teamspeak_cli/bridge/media_bridge.cpp:658-661 | Samples of consecutive chunks are the samples of the whole |
| `MediaFrames.SamplesOfPcm` | src/teamspeak_cli/bridge/media_bridge.cpp:658-661 | The samples read from a buffer laid out from numbers, low byte first, are those numbers, for every list of 16-bit samples |
| `MediaFrames.PcmOfSamples` | src/teamspeak_cli/bridge/media_bridge.cpp:658-661 | Every buffer of even length is laid out from exactly the samples read from it |
| `MediaFrames.PublishedIsHeard` | src/teamspeak_cli/bridge/media_bridge.cpp:422-454 | A consumer that reads an audio frame by position hears the samples and the speaker that were published |
| `MediaFrames.HelloFrameReadable` | docs/media-bridge.md:87-98 | Every field of a hello is at its documented position |
| `MediaFrames.CommandMeaning` | src/teamspeak_cli/bridge/media_bridge.cpp:560-572 | Which lines are which command without arguments, and which are malformed or unknown, each exactly, whoever wrote them |
| `MediaFrames.StartMeaning` | src/teamspeak_cli/bridge/media_bridge.cpp:575-593 | A start is accepted exactly if it names signed 16-bit little-endian, 48000 Hz, mono; otherwise it is unreadable or unsupported |
| `MediaFrames.ChunkMeaning` | src/teamspeak_cli/bridge/media_bridge.cpp:621-636 | A chunk takes exactly the bytes it announces and waits for them; without two numbers it takes none |
| `MediaFrames.FrameMeaning` | src/teamspeak_cli/bridge/media_client.cpp:691-763 | What the client makes of any line: an error as its code and message or their stand-ins, audio passed over with its payload, anything else handed on |
| `MediaClient.ChunksCoverFile` | src/teamspeak_cli/bridge/media_client.cpp:943-971 | The chunks' payloads are the file, in order |
| `MediaClient.ChunksAreWellSized` | src/teamspeak_cli/bridge/media_client.cpp:862-885 | Every chunk declares its size correctly exactly when the file is even |
| `MediaClient.ChunkSizes` | src/teamspeak_cli/bridge/media_client.cpp:943-971 | Every chunk but the last is ten milliseconds, none is empty |
| `MediaClient.PlaybackClient.DiscardPayload` | src/teamspeak_cli/bridge/media_client.cpp:673-689 | Exactly the payload is read, 4096 bytes at most at a time |
| `MediaClient.PlaybackClient.ReadMediaFrame` | src/teamspeak_cli/bridge/media_client.cpp:724-763 | The loop reads what the frame reader reads |
| `MediaClient.PlaybackClient.WaitForFrame` | src/teamspeak_cli/bridge/media_client.cpp:765-780 | It stops at the first frame that moves the client program, or fails |
| `MediaClient.PlaybackClient.DrainReadyFrames` | src/teamspeak_cli/bridge/media_client.cpp:782-817 | Frames between chunks are read and only errors matter |
| `MediaClient.PlaybackClient.SendPlaybackFile` | src/teamspeak_cli/bridge/media_client.cpp:911-986 | Every write and read is a move of the client program; on success the whole script was written, on failure a beginning of it |
| `Bytes.TrimText` | src/teamspeak_cli/util/strings.cpp:10-22 | Two cursors compute the trimmed text |
| `Bytes.TrimIsTrimmed` | src/teamspeak_cli/util/strings.cpp:10-22 | Neither end is white space, and only blank text becomes empty |
| `Bytes.TrimPadded` | src/teamspeak_cli/util/strings.cpp:10-22 | White space around a trimmed text is all that goes |
| `Bytes.EqualsIgnoringCaseMeans` | src/teamspeak_cli/util/strings.cpp:24-34 | Two texts are equal but for case exactly when each byte is the same or the other case of one letter |
| `Bytes.SplitText` | src/teamspeak_cli/util/strings.cpp:36-49 | One pass yields the parts |
| `Bytes.SplitJoin` | src/teamspeak_cli/bridge/protocol.cpp:115-140 | Splitting inverts joining for parts without the delimiter |
| `Bytes.JoinSplit` | src/teamspeak_cli/util/strings.cpp:36-49 | Joining inverts splitting for every text |
| `Bytes.JoinText` | src/teamspeak_cli/util/strings.cpp:81-90 | The loop computes the join |
| `Bytes.ParseDecimal` | src/teamspeak_cli/util/strings.cpp:51-68 | Every printed 64-bit number is read back, also as 16-bit if it fits |
| `Bytes.ParseSignedDecimal` | src/teamspeak_cli/util/strings.cpp:51-60 | A printed number is read back unless it is negative |
| `Bytes.ParseU64Exactly` | src/teamspeak_cli/util/strings.cpp:51-60 | A number is read from exactly the texts that are its digits behind any zeros: no sign, no space, no overflow |
| `Bytes.ParseU16Exactly` | src/teamspeak_cli/util/strings.cpp:62-68 | A 16-bit number is read exactly from the texts of one below 65536 |
| `Bytes.TerminatedLines` | src/teamspeak_cli/config/config_store.cpp:436 | Lines written with newlines are the lines read |
| `Wire.HexRoundTrip` | src/teamspeak_cli/bridge/protocol.cpp:142-185 | Every byte string survives hexadecimal |
| `Wire.HexEncodeText` | src/teamspeak_cli/bridge/protocol.cpp:142-152 | The loop computes the encoding |
| `Wire.HexDecodeText` | src/teamspeak_cli/bridge/protocol.cpp:154-185 | The loop decodes either case of digit, and fails on odd length or the first bad pair |
| `Wire.HexDecodeExactly` | src/teamspeak_cli/bridge/protocol.cpp:154-185 | A text decodes to bytes exactly if it is their encoding in either case; which error it is otherwise |
| `Wire.HexIsLower` | src/teamspeak_cli/bridge/protocol.cpp:142-152 | Encoded text has lower-case digits only |
| `Wire.ReadLineLoop` | src/teamspeak_cli/bridge/protocol.cpp:187-203 | The bytes before the first newline, and those after it |
| `Wire.LineRoundTrip` | src/teamspeak_cli/bridge/protocol.cpp:115-140 | A printed field list is read back and nothing behind its line is touched |
| `Records.ErrorRoundTrip` | src/teamspeak_cli/bridge/protocol.cpp:223-251 | An error comes back without its details; one with a negative exit code as another error |
| `Records.CastKeepsLowBits` | src/teamspeak_cli/bridge/protocol.cpp:244-250 | The exit code that is decoded is the number sent modulo 2^32, as an int |
| `Records.PluginInfoRoundTrip` | src/teamspeak_cli/bridge/protocol.cpp:253-496 | All 36 fields come back |
| `Records.ShortPluginInfo` | src/teamspeak_cli/bridge/protocol.cpp:295-298 | The short form of an older plugin is read without diagnostics |
| `Records.StateRoundTrip` | src/teamspeak_cli/bridge/protocol.cpp:498-566 | Decoding inverts encoding |
| `Records.ServerRoundTrip` | src/teamspeak_cli/bridge/protocol.cpp:568-624 | Decoding inverts encoding, but channel 0 is read as none |
| `Records.ChannelsRoundTrip` | src/teamspeak_cli/bridge/protocol.cpp:626-698 | A list of channels comes back, parent 0 read as none |
| `Records.ClientsRoundTrip` | src/teamspeak_cli/bridge/protocol.cpp:700-772 | A list of clients comes back, channel 0 read as none |
| `Records.DecodeLines` | src/teamspeak_cli/bridge/protocol.cpp:687-698 | The first line that cannot be decoded decides |
| `Records.RecordAcceptedExactly` | src/teamspeak_cli/bridge/protocol.cpp:253-772 | A line is accepted exactly if it has its tag, the number of fields of its record, and each field acceptable; otherwise its shape or the first bad field is blamed |
| `Records.FieldMeans` | src/teamspeak_cli/bridge/protocol.cpp:19-89 | What each kind of field accepts and means, and the error of one that is not accepted |
| `Records.OneLineOnly` | src/teamspeak_cli/bridge/protocol.cpp:295-848 | Records that stand alone are read from exactly one line |
| `Records.ApplicationRoundTrip` | src/teamspeak_cli/bridge/protocol.cpp:774-834 | With and without a client, the application comes back |
| `Records.ApplicationMismatch` | src/teamspeak_cli/bridge/protocol.cpp:774-834 | The line of the client must be there exactly when the first line says so |
| `Records.EventRoundTrip` | src/teamspeak_cli/bridge/protocol.cpp:836-897 | Decoding inverts encoding with the time cut to milliseconds; an event a millisecond or more before the epoch cannot be decoded |
| `Records.MillisTruncate` | src/teamspeak_cli/bridge/protocol.cpp:836-842 | Times are cut towards the epoch, also before it |
| `Records.EventCountIsExact` | src/teamspeak_cli/bridge/protocol.cpp:872-876 | Although the length check wraps at 2^64, a decoded event had exactly 5 fields and twice the declared count |
| `Records.EncodeEventLine` | src/teamspeak_cli/bridge/protocol.cpp:91-107 | The loop writes the fields in the order of their keys |
| `Records.DecodePairs` | src/teamspeak_cli/bridge/protocol.cpp:877-889 | The loop reads pair by pair and keeps the first value of a key |
| `Records.FirstValueWins` | src/teamspeak_cli/bridge/protocol.cpp:877-889 | Of the values given for one key the first is kept |
| `Control.RequestArrives` | src/teamspeak_cli/sdk/socket_backend.cpp:269-593 | The server decodes each of the 17 requests to the call that was made, or to the stated refusal |
| `Control.ResponseRoundTrip` | src/teamspeak_cli/bridge/socket_server.cpp:84-90 | Any payload lines up to "end" are read back as sent |
| `Control.CutReply` | src/teamspeak_cli/sdk/socket_backend.cpp:635-687 | A reply cut at any byte is read as the whole reply or reported as cut, never as another reply |
| `Control.CommandWords` | src/teamspeak_cli/bridge/socket_server.cpp:351-706 | Each command word selects its own branch |
| `Control.UnknownRequests` | src/teamspeak_cli/bridge/socket_server.cpp:338-350 | A line without the magic word is an invalid request, one with another word an unknown command, named in the message |
| `Control.RefusalsAreUsage` | src/teamspeak_cli/bridge/socket_server.cpp:92-112 | Every refusal of a line is the bridge's own and a usage error, but for text that is not hexadecimal |
| `Control.ConnectMeaning` | src/teamspeak_cli/bridge/socket_server.cpp:363-427 | A connect is accepted exactly with eight readable arguments; the port keeps its low 16 bits |
| `Control.DisconnectMeaning` | src/teamspeak_cli/bridge/socket_server.cpp:428-442 | A disconnect without a reason has the default one |
| `Control.SelectorMeaning` | src/teamspeak_cli/bridge/socket_server.cpp:474-602 | A selector is the first argument, hexadecimal, and what is behind it is not looked at |
| `Control.RenameMeaning` | src/teamspeak_cli/bridge/socket_server.cpp:498-522 | A rename is accepted exactly with two readable texts |
| `Control.FlagMeaning` | src/teamspeak_cli/bridge/socket_server.cpp:524-577 | A flag is exactly "0" or "1", and the number of arguments is checked |
| `Control.MessageMeaning` | src/teamspeak_cli/bridge/socket_server.cpp:604-643 | The texts are read before the kind of target is looked at; each refusal has its condition |
| `Control.GroupMeaning` | src/teamspeak_cli/bridge/socket_server.cpp:645-690 | A database id must be a number, a client may be any text; each refusal has its condition |
| `Control.NextEventMeaning` | src/teamspeak_cli/bridge/socket_server.cpp:692-705 | A time-out of 2^63 milliseconds and more is taken for a negative one |
| `Proxy.RemoteRefinesLocal` | src/teamspeak_cli/sdk/socket_backend.cpp:269-688 | For every backend, state and call, any exit code included: one call of the backend with the delivered arguments and its result seen through the wire, or a refusal that leaves the backend alone |
| `Proxy.TransparentExactlyWhen` | src/teamspeak_cli/bridge/socket_server.cpp:334-709 | A call that arrives intact has the local effect, and the local result exactly when the result survives the wire |
| `Proxy.BrokenCalls` | src/teamspeak_cli/sdk/socket_backend.cpp:551-593 | What becomes of a server-group request without exactly one target and of a negative time-out |
| `Proxy.UnreachablePlugin` | src/teamspeak_cli/sdk/socket_backend.cpp:310-343 | A plugin that cannot be connected to is described, field by field, with the paths of this client; every other operation, and any other error, fails |
| `Proxy.WrongTypeIsRefused` | src/teamspeak_cli/sdk/socket_backend.cpp:236-249 | A reply of another type than the operation has is refused, and named |
| `Proxy.SessionRefines` | src/teamspeak_cli/sdk/socket_backend.cpp:269-688 | A whole remote session of any calls, each over a connection that works or fails, leaves the backend as the local session of the calls that arrived does, and each result is the local one seen through the wire or an error of that connection |
| `Proxy.EveryLineIsAnswered` | src/teamspeak_cli/bridge/socket_server.cpp:338-350 | Any line that is no call gets one complete error reply and the backend is left alone |
| `Proxy.AtMostOnce` | src/teamspeak_cli/sdk/socket_backend.cpp:595-688 | Whatever the connection does, the call is made whole, or the caller gets an error of the connection and the backend was called with the arguments sent once or not at all; not if the request did not leave |
| `Proxy.PayloadLines` | src/teamspeak_cli/bridge/protocol.cpp:253-841 | No payload line can be mistaken for the end of the reply |
| `Proxy.SocketBridgeServer.HandleClient` | src/teamspeak_cli/bridge/socket_server.cpp:334-709 | One request line in, the reply lines out, the backend called at most once |
| `Proxy.SocketBridgeServer.SendOk` | src/teamspeak_cli/bridge/socket_server.cpp:84-90 | Header, payload line by line, end |
| `Proxy.SocketBackend.Exchange` | src/teamspeak_cli/sdk/socket_backend.cpp:595-688 | Nothing is sent before initialisation; otherwise the request goes out and the reply is parsed to the end line, or the connection fails before, during or after the request |
| `Proxy.SocketBackend.ReceivePayload` | src/teamspeak_cli/sdk/socket_backend.cpp:666-679 | The loop collects the lines before "end" |
| `Proxy.SocketBackend.Perform` | src/teamspeak_cli/sdk/socket_backend.cpp:269-593 | An operation of the class is the remote call over that connection |
| `Takeover.RestoredExactlyWhen` | src/teamspeak_cli/sdk/plugin_host_backend.cpp:1300-1467 | Mode, device and input flags are back after a snapshot, a takeover and a restore in which any queries and calls succeeded or failed, the ignored close included, if and only if the stated conditions hold |
| `Takeover.EquippedHostRecovers` | src/teamspeak_cli/sdk/plugin_host_backend.cpp:1300-1467 | On a host that offers everything and answers every query, and did not have the custom device open, they are back whenever the restore's calls succeed |
| `Takeover.ClosedForGood` | src/teamspeak_cli/sdk/plugin_host_backend.cpp:1353-1372 | A host that can close but not open its device loses it, although nothing was taken over, once a close succeeds |
| `Takeover.HostComesBackExactly` | src/teamspeak_cli/sdk/plugin_host_backend.cpp:1170-1265 | For any serialised activations and deactivations, whatever their calls return: whenever the plugin does not play the host is as it was found, if and only if no takeover was ended against the condition of `RestoredExactlyWhen` |
| `Takeover.HostComesBack` | src/teamspeak_cli/sdk/plugin_host_backend.cpp:1170-1265 | A condition on the events alone: if the rollback of each attempt, and each deactivation after it, would restore the host's state, it is always as it was found |
| `Takeover.EquippedHostComesBack` | src/teamspeak_cli/sdk/plugin_host_backend.cpp:1170-1265 | So it is on a host that offers everything and did not have the custom device open, if the queries and the calls of the restores succeed, whichever calls of the takeovers fail |
| `Takeover.OneRoundSpoils` | src/teamspeak_cli/sdk/plugin_host_backend.cpp:1170-1265 | An attempt that gets as far as the takeover, followed by a deactivation, leaves the host as it was if and only if its takeover and restore meet the condition |
| `Takeover.LoopGivesBack` | src/teamspeak_cli/sdk/plugin_host_backend.cpp:1469-1533 | The capture loop gives the host back exactly when a buffer is refused, or not filled after one that was; and then the host is as before exactly when its restore meets the condition |
| `Takeover.AtMostOneRestore` | src/teamspeak_cli/sdk/plugin_host_backend.cpp:1223-1265 | Under any interleaving no snapshot is handed to two restores or kept after being handed out |
| `Takeover.FaultsExactlyWhen` | src/teamspeak_cli/sdk/plugin_host_backend.cpp:1170-1265 | For any blocks: a snapshot is overwritten if and only if a takeover was committed over an active session, dropped if and only if a session was cleared without the host's functions, and a running loop joined if and only if a commit found one |
| `Takeover.ExactlyOneRestore` | src/teamspeak_cli/sdk/plugin_host_backend.cpp:1170-1265 | Once playback is over, every snapshot was handed to exactly one restore if and only if neither of the first two ever happened |
| `Takeover.OverlapLosesSnapshot` | src/teamspeak_cli/sdk/plugin_host_backend.cpp:1186-1220 | Blocks in which two activations overlap, the first one's snapshot is lost and its running loop is joined |
| `Handover.NothingIsLost` | src/teamspeak_cli/bridge/media_bridge.cpp:513-617 | In every run of bridge and plugin together activations come one after another, so no snapshot is overwritten or dropped and no running loop is joined by an activator |
| `Handover.EverySnapshotComesBack` | src/teamspeak_cli/sdk/plugin_host_backend.cpp:1170-1265 | In every run each snapshot is handed out once, in the session, or in the hands of the one activation under way; once playback is over all were handed out, each once |
| `Handover.ActivatingEndsWithAnswer` | src/teamspeak_cli/bridge/media_bridge.cpp:524-549 | No step of any thread but the answer ends an activation under way; in particular no new reader starts |
| `Handover.EveryBridgeRunHappens` | src/teamspeak_cli/bridge/media_bridge.cpp:595-617 | Every run of the bridge is the bridge's part of some run of both, so the joint theorems leave no run out |
| `Takeover.PluginHostBackend.TakeCaptureDevice` | src/teamspeak_cli/sdk/plugin_host_backend.cpp:1353-1408 | The host calls in their order, up to the first that fails; the close may fail unnoticed |
| `Takeover.PluginHostBackend.RestoreSession` | src/teamspeak_cli/sdk/plugin_host_backend.cpp:1410-1467 | The host calls in their order, up to the first that fails; the close may fail unnoticed |
| `Takeover.PluginHostBackend.ActivateMediaPlayback` | src/teamspeak_cli/sdk/plugin_host_backend.cpp:1170-1221 | The new plugin state in every case, and a hand-over that stays accounted for |
| `Takeover.ActivateAnswers` | src/teamspeak_cli/sdk/plugin_host_backend.cpp:1170-1221 | An activation succeeds if and only if it leaves playback on for a connection there is, and each failure is given if and only if its guard holds |
| `Takeover.ActivateEffects` | src/teamspeak_cli/sdk/plugin_host_backend.cpp:1170-1221 | A success has the custom device open, both input flags forced and the session of its own connection; a failure leaves playback as it was |
| `Takeover.DeactivateAnswers` | src/teamspeak_cli/sdk/plugin_host_backend.cpp:1223-1265 | Playback is always ended and the thread joined unless it is the one that asks; the answer is an error exactly when there was something to restore and a call of the restore failed |
| `Takeover.PluginHostBackend.DeactivateMediaPlayback` | src/teamspeak_cli/sdk/plugin_host_backend.cpp:1223-1265 | The session is taken away once and restored once |
| `Takeover.PluginHostBackend.RunCaptureLoop` | src/teamspeak_cli/sdk/plugin_host_backend.cpp:1469-1533 | The loop ends as its outcomes say |
| `Json.DocumentReads` | src/teamspeak_cli/output/render.cpp:75-112 | A reader of RFC 8259 recovers every value tree from its text |
| `Json.PrintingIsInjective` | src/teamspeak_cli/output/render.cpp:75-112 | No two values look alike |
| `Json.QuotedReads` | src/teamspeak_cli/output/render.cpp:15-51 | Any byte string survives escaping |
| `Json.RenderIsClean` | src/teamspeak_cli/output/render.cpp:15-51 | The output has no byte below 0x20 |
| `Json.NdjsonSplitsBack` | src/teamspeak_cli/output/render.cpp:526-557 | NDJSON splits back into its lines exactly for everything but the empty array |
| `Json.NdjsonReads` | src/teamspeak_cli/output/render.cpp:526-557 | Each line reads back as its item |
| `Json.FieldsCanBeSelected` | src/teamspeak_cli/output/render.cpp:605-639 | A dotted path selects the value its keys lead to, and nothing where they lead nowhere |
| `Json.EscapeText` | src/teamspeak_cli/output/render.cpp:15-51 | The loop escapes byte by byte |
| `Json.RenderTo` | src/teamspeak_cli/output/render.cpp:75-112 | The recursion appends exactly the value's text to the stream |
| `Json.RenderLines` | src/teamspeak_cli/output/render.cpp:526-543 | One line per item, or one line |
| `Json.SelectField` | src/teamspeak_cli/output/render.cpp:605-639 | The loop finds what the path says, with its error and place |
| `Json.SelectionFailsAt` | src/teamspeak_cli/output/render.cpp:605-639 | A path fails at the first key that leads nowhere, named with the path that led to it; a missing key and a value without keys are told apart |
| `Json.FindMeans` | src/teamspeak_cli/output/render.cpp:624-634 | The member found is the first with the key |
| `Config.NormalForm` | src/teamspeak_cli/config/config_store.cpp:163-181 | For every accepted text, writing and loading gives the same configuration with canonical backends, and writing that gives the same bytes |
| `Config.SavedIsLoadedExactlyWhen` | src/teamspeak_cli/config/config_store.cpp:519-544 | A valid configuration that is saved is loaded as saved exactly when every value is trimmed and has no newline |
| `Config.ValidateMeans` | src/teamspeak_cli/config/config_store.cpp:99-161 | Validation accepts exactly the configurations within the rules, and blames the active profile exactly when nothing else is wrong |
| `Config.FirstFaultIsBlamed` | src/teamspeak_cli/config/config_store.cpp:99-161 | An unknown version is blamed first; else the first profile that breaks a rule, all before it being good, and for the rule it breaks |
| `Config.ConfigFaults` | src/teamspeak_cli/config/config_store.cpp:99-161 | What is said, and where, about a wrong version and about an active profile that is missing |
| `Config.SectionMeans` | src/teamspeak_cli/config/config_store.cpp:443-467 | A section opens a profile with the default settings, port 9987 on 127.0.0.1 among them |
| `Config.LineMeans` | src/teamspeak_cli/config/config_store.cpp:436-474 | Which lines are passed over, and which are refused as no section or no setting, and how the message names the line |
| `Config.SettingMeans` | src/teamspeak_cli/config/config_store.cpp:469-490 | Key and value are what stands on either side of the first equals sign, trimmed, and go to the last profile or the root |
| `Config.SettingsAreLocated` | src/teamspeak_cli/config/config_store.cpp:479-487 | The line of a setting is remembered for the profile it was made in and no other |
| `Config.RootKeyMeans` | src/teamspeak_cli/config/config_store.cpp:183-213 | What each root key accepts; every other one is unknown |
| `Config.ProfileKeyMeans` | src/teamspeak_cli/config/config_store.cpp:215-246 | What each key of a profile sets and which port it refuses |
| `Config.LegacyKeysAreIgnored` | src/teamspeak_cli/config/config_store.cpp:247-254 | Three old keys change nothing, and every key that is none of the twelve is refused |
| `Config.DefaultsAreValid` | src/teamspeak_cli/config/config_store.cpp:611-642 | Without a file or without profiles the two default profiles are loaded, and they are within the rules |
| `Config.LoadersAgree` | src/teamspeak_cli/cli/command_router.cpp:4378-4459 | The lenient loader returns what the strict one does, except when only the active profile is wrong; then it returns what was parsed, within every other rule |
| `Config.CanonicalBackendIsStable` | src/teamspeak_cli/config/config_store.cpp:84-97 | Canonical names are stable, supported exactly as their originals, and one of two |
| `Config.LoadConfig` | src/teamspeak_cli/config/config_store.cpp:419-510 | The line loop and the validation compute the load |
| `Config.ValidateConfig` | src/teamspeak_cli/config/config_store.cpp:99-161 | The first offence in source order is reported with its line |
| `Config.WriteConfig` | src/teamspeak_cli/config/config_store.cpp:163-181 | The stream holds the rendered configuration |
| `Config.LoadWithoutActive` | src/teamspeak_cli/cli/command_router.cpp:4378-4459 | The second loader, which edits the last profile through a pointer |
| `Wave.WaveIsRead` | src/teamspeak_cli/bridge/media_client.cpp:267-367 | For every list of chunks with even padding: the last fmt and the last data chunk decide, unknown chunks do not matter, a short fmt chunk is an error |
| `Wave.WaveIsPlayableExactlyWhen` | src/teamspeak_cli/bridge/media_client.cpp:347-366 | PCM is returned exactly when the last fmt is PCM, mono, 48000 Hz, 16 bits and the last data is non-empty and even |
| `Wave.RecordedFileIsRead` | src/teamspeak_cli/bridge/media_client.cpp:267-367 | A file laid out from numbers, low byte first, with any other chunks around, reads as its data exactly when the numbers are 1, 1, 48000 and 16 and the data is neither empty nor odd; and which refusal it is otherwise |
| `Wave.MissingChunks` | src/teamspeak_cli/bridge/media_client.cpp:347-366 | A file is refused for its missing format exactly when it has no fmt chunk; without data it is refused in any case |
| `Wave.NotWaveExactly` | src/teamspeak_cli/bridge/media_client.cpp:277-284 | Only a file whose first twelve bytes say RIFF and WAVE is read further |
| `Wave.CutKnownChunk` | src/teamspeak_cli/bridge/media_client.cpp:307-336 | A file cut inside a fmt or data chunk, or before its padding byte, is refused, with the reason |
| `Wave.CutHeader` | src/teamspeak_cli/bridge/media_client.cpp:294-302 | So is one that is cut inside a chunk's header |
| `Wave.CutUnknownChunk` | src/teamspeak_cli/bridge/media_client.cpp:338-344 | A file cut inside an unknown chunk is refused exactly when the chunk's size is odd |
| `Wave.ReadWavePayload` | src/teamspeak_cli/bridge/media_client.cpp:267-367 | The chunk loop that overwrites what it has seen computes the result |
| `Inbox.JournalIsRead` | src/teamspeak_cli/daemon/runtime.cpp:384-428 | After any appends the reader returns the last events, in order and normalised, exactly when every time is readable; the count is the number of appends |
| `Inbox.LastOnesAreTheEnd` | src/teamspeak_cli/daemon/runtime.cpp:405-411 | What is returned is the end of what was read, all of it without a limit |
| `Inbox.OnlyWrittenLinesCount` | src/teamspeak_cli/daemon/runtime.cpp:107-121 | Blank lines are in neither the messages nor the count; every other line is counted, and one that is no event makes the whole file unreadable |
| `Inbox.NormalizeIsIdempotent` | src/teamspeak_cli/daemon/runtime.cpp:123-151 | Normalising twice is normalising once, and it only adds fields |
| `Inbox.NormalizedFields` | src/teamspeak_cli/daemon/runtime.cpp:123-151 | What is filled in, field by field: which target mode means which kind, and that target and channel come before it |
| `Inbox.DaemonAndReaderAgree` | src/teamspeak_cli/daemon/runtime.cpp:608-614 | What the daemon normalised before appending is what the reader returns |
| `Inbox.NormalizeInPlace` | src/teamspeak_cli/daemon/runtime.cpp:123-151 | The edits in place compute the normal form |
| `Inbox.InboxFile.AppendEvent` | src/teamspeak_cli/daemon/runtime.cpp:414-428 | One line is added at the end, nothing else changes |
| `Inbox.InboxFile.ReadMessages` | src/teamspeak_cli/daemon/runtime.cpp:384-412 | The loop over the lines computes the read |
| `Inbox.InboxFile.CountMessages` | src/teamspeak_cli/daemon/runtime.cpp:107-121 | The loop counts the lines that are not blank |
| `Lifecycle.LifecycleIsFiltered` | src/teamspeak_cli/session/session_service.cpp:27-141 | For every backend behaviour the lifecycle is the filtered sequence of exactly the events popped since the call, in order, each once |
| `Lifecycle.ConnectEndsOneWay` | src/teamspeak_cli/session/session_service.cpp:93-141 | A finished connect is exactly one of connected, timed out, or disconnected with a terminal event |
| `Lifecycle.DisconnectEndsOneWay` | src/teamspeak_cli/session/session_service.cpp:147-214 | A finished disconnect is either disconnected or timed out |
| `Lifecycle.TimeoutIsKept` | src/teamspeak_cli/session/session_service.cpp:93-133 | A wait that times out has read the clock at or after the first reading plus the time-out, and none goes on after such a reading; it has always read the clock after the call |
| `Lifecycle.RoundMeans` | src/teamspeak_cli/session/session_service.cpp:94-133 | Which end a round takes, exactly: the state that is waited for, the connection lost, the deadline, or none of them and another round |
| `Lifecycle.FinishTakesAll` | src/teamspeak_cli/session/session_service.cpp:30-51 | A wait that finishes was told last that no event is ready |
| `Lifecycle.RefusedCallEnds` | src/teamspeak_cli/session/session_service.cpp:82-91 | A refused call ends the wait with its error and no event |
| `Lifecycle.EventKinds` | src/teamspeak_cli/session/session_service.cpp:8-20 | Which kinds of event are kept, and which of them end an attempt |
| `Lifecycle.SessionService.CollectEvents` | src/teamspeak_cli/session/session_service.cpp:30-51 | Events are taken until none is ready, each kept one told once |
| `Lifecycle.SessionService.CallAndWait` | src/teamspeak_cli/session/session_service.cpp:68-141 | The outcome, and a callback that heard exactly the lifecycle |

## Left out

* Socket set-up, `poll`, time-outs as durations, `errno`, file permissions, temporary files and renaming: a connection is a byte sequence, a file is its text, and a time-out is a step or an answer that may come at any point.
* Descriptor numbers, that a reader's descriptor is closed under it when the writer disconnects, and their reuse after `close`, thread start-up and the memory model: every connection has its own number and every locked block is one step.
* Which error the control client makes of a failed system call: `Trip` carries it as it is, and the two it makes itself keep their code but not the operation and path in their details.
* `start` and `stop` of the control server, and the failures of the media bridge's `start`: only the successful start and the last block of `stop` are steps.
* MP3 decoding, process launching, hooks, systemd and updates: external programs.
* The TeamSpeak functions beyond a capture device, two input flags and whether each call succeeds; the host's own changes while playback runs.
* What two takeovers or restores that overlap in time do to the host: the interleavings are modelled for the hand-over of snapshots, the host's state for one takeover or restore after another. A capture loop that ends by itself may still be restoring when the next activation takes its snapshot.
* `MockBackend`, tables, human-readable views, YAML, hints, completion and the rest of the command router: presentation or repetition.
* A timestamp that does not fit 64-bit nanoseconds is kept exact where the source would overflow.
- Proxy.NO_FRONT: stands for `front()` of an empty list, which is undefined in the source; no server reply leads to it.
* How long `next_event` may wait for its answer, at most 250 milliseconds and never past the deadline: an answer comes when it comes, and the clock readings decide.
- Lifecycle.LifecycleIsFiltered: a wait that never ends is covered through its finite beginnings.
- Records.EventRoundTrip: assumes fewer than 2^62 fields, more than fit in memory.
- Json.DocumentReads: the reader refuses fractions and exponents, for which the printed values have no type.
* The `to_value` functions that turn records into printed values, one field at a time.
