# qwen-tts-bridge: a Dafny model

This project models the parts of the Qwen TTS bridge whose correctness is not visible in any
single function, and proves what they promise over every input, interleaving, crash or run.

- **Native worker** (`RequestTable`, `OutputStream`, `WorkerProtocol`, `WorkerSafety`): the reader
  thread, the engine thread and the bounded stdout writer as a transition system whose steps are the
  lock regions, the terminal exchange, the frames handed to the writer and the partial writes.
- **Prepared voices** (`Bits`, `RvqCodec`, `Publication`, `PublicationSafety`, `PreparedVoice`,
  `VoiceDirectory`): the 11-bit packer, and the marker, temp-file, artifact and manifest protocol with
  in-process failures, crashes between any two steps and restartable recovery. A directory is a map
  from names to contents, renames are atomic, SHA-256 is any function.
- **Streaming PCM** (`Pcm`, `TerminalFade`, `PostProcessorChain`, `CallbackAdapter`, `PlayoutCursor`,
  `Player`, `Receipt`): buffered transducers, their composition, the event adapter under concurrent and
  re-entrant calls, the cursor fade, the player over the mock sink and the receipt probe.
- **Client and session** (`ClientOutbound`, `ClientDispatch`, `ClientStream`, `ClientHand`, `ClientOrder`, `Client`,
  `Session`, `EndToEnd`): id allocation, bounded queues, callbacks under re-entrant stops, and the client joined to
  the worker.
- **Codecs** (`Utf8`, `Stress`, `Wav`, `Philox`), and the shared types in `Basics`.

A run is a list of labels applied from the initial state; a label that is not enabled is skipped, so the
theorems quantify over every schedule. Objects that the program updates in place are classes whose methods
are proved equal to functions on their fields; the theorems are about those functions. Fields called
history record what happened and are read by no step. A client request carries the set of callbacks that it
registered; the log holds a terminal outcome also when no callback is registered for it, marked as not told.

Gains are exact rationals rounded half away from zero, WAV samples are exact reals. Clocks, the sizes of
encoded messages, write outcomes, injected failures and what a post-processor returns are parameters of
the steps.

`dafny verify dfyconfig.toml` checks the whole project.

## Findings

- `render_explicit_stress` copies the text before a word that ends beyond the text without moving its
  cursor, so that text appears twice (`Stress.OverhangDoubles`; `Stress.RenderedAsIntended` gives the
  exact condition).
- Publishing does not bound the manifest that loading limits to 1 MiB, so a long transcript yields a
  committed voice that can be neither loaded nor replaced (`PreparedVoice.OversizedNeverLoads`).
- A crash between writing the marker draft and renaming it leaves the draft for good: recovery starts
  from the marker, which does not exist yet (`PreparedVoice.DraftLeaks`).
- A removal that fails in the cleanup of an uncommitted publication, followed by a removal of the marker that
  works, leaves its file for good (`PreparedVoice.FailedRemovalLeaks`, `PreparedVoice.SpeakerLeaks`). Drafts
  and such files are all that leaks (`PreparedVoice.LeaksExactly`).
- A callback that calls `stop()` while its event still owes its request audio or timing receives them after
  the terminal error, if an error callback is registered (`Client.StopInTextCallback`); any other stop is safe
  (`Client.StopKeepsOrderIff`). For a caller: only the text callback of a request that registered audio or
  timing, and the audio callback of one that registered timing, are to be avoided (`Client.HarmlessStop`).
- A terminal fade whose last chunk has 2^32 frames or more reports a truncated count (`TerminalFade.CountCut`;
  `TerminalFade.StreamTimeline` gives the exact condition).
- Three error branches are unreachable: the conflict errors of recovery, the missing format in the player's
  flush and the overflow of the cue total (`PreparedVoice.RecoveredCleanly`, `Player.BuffersConserved`,
  `Receipt.TotalNeverOverflows`).

## Model

| member | source | states |
|---|---|---|
| `WorkerSafety.AdmissionConserved` | worker/native/qwentts/stdio_server.cpp:362-377 | in every reader/engine interleaving the admission counter is the number of active requests and within the limit, and the queue is, in id order, exactly their queued non-terminal part |
| `WorkerSafety.TerminatedExactlyOnce` | worker/native/qwentts/stdio_server.cpp:401-488 | each accepted request is terminalized by exactly one of cancel, shutdown and engine, never before it is finished; the table is empty when `run()` returns |
| `WorkerSafety.RequestFramesInOrder` | worker/native/qwentts/stdio_server.cpp:523-620 | unless a frame was lost: audio lies between Started and the one terminal frame of its request; Started ids strictly increase in every run |
| `WorkerSafety.AcknowledgedAfterAll` | worker/native/qwentts/stdio_server.cpp:490-506 | without fatal errors the shutdown acknowledgement follows the terminal frame of every accepted request, and is sent when it was asked for |
| `WorkerSafety.StdoutFaithful` | worker/native/qwentts/stdio_server.cpp:86-156 | stdout is at all times a prefix of the submitted frames in order with at most the last one cut short; on exit status 0 it is all of them, with a terminal frame for every accepted request |
| `WorkerSafety.SystemRefinesCore` | worker/native/qwentts/stdio_server.cpp:177-190 | the threads together with the bounded writer have only the behaviours of the threads alone, and the writer is handed exactly their log |
| `RequestTable.AdmitCoherent` | worker/native/qwentts/stdio_server.cpp:362-377 | admission keeps the counter equal to the table size and the queue equal to its queued part |
| `RequestTable.CancelCoherent` | worker/native/qwentts/stdio_server.cpp:409-431 | cancelling keeps the same, with the counter as an unsigned 64-bit word that never wraps |
| `RequestTable.ShutdownCoherent` | worker/native/qwentts/stdio_server.cpp:453-488 | draining the queue keeps the same and leaves it empty |
| `RequestTable.TakeCoherent` | worker/native/qwentts/stdio_server.cpp:508-521 | taking the next request keeps the same |
| `RequestTable.ReleaseCoherent` | worker/native/qwentts/stdio_server.cpp:622-635 | releasing a slot keeps the same; the saturating decrement never saturates |
| `RequestTable.StdioServer.HandleSynthesize` | worker/native/qwentts/stdio_server.cpp:362-377 | the in-place admission region computes the admission function on all fields; a coherent table stays coherent |
| `RequestTable.StdioServer.HandleCancel` | worker/native/qwentts/stdio_server.cpp:409-431 | the in-place cancel region, with its erase loop, computes the cancel function on all fields; a coherent table stays coherent |
| `RequestTable.StdioServer.RequestShutdownLocked` | worker/native/qwentts/stdio_server.cpp:455-479 | the in-place shutdown region, with its drain loop, computes the shutdown function on all fields; a coherent table stays coherent |
| `RequestTable.StdioServer.TakeNextRequest` | worker/native/qwentts/stdio_server.cpp:508-521 | the in-place dequeue; a coherent table stays coherent |
| `RequestTable.StdioServer.Terminalize` | worker/native/qwentts/stdio_server.cpp:622-635 | the exchange of the terminal flag and the release that only the first caller performs |
| `OutputStream.WriteStdoutFrame` | worker/native/qwentts/stdout_writer.cpp:8-36 | whatever the partial writes do, stdout has grown by a prefix of the frame of the reported length; success is reported only for the whole frame, and always when every write makes progress |
| `OutputStream.LoopIsSteps` | worker/native/qwentts/stdio_server.cpp:117-150 | for every list of write outcomes the loop is a sequence of enabled writer steps with the same stdout: it finishes the frame exactly when it reports success and fails the writer otherwise |
| `OutputStream.StepKeepsValid` | worker/native/qwentts/stdio_server.cpp:117-150 | every writer step keeps stdout a prefix of the frames in order |
| `PreparedVoice.LoadExactlyPublished` | worker/native/qwentts/prepared_voice_reference.cpp:456-570 | after any schedule of publications, failures, crashes, recoveries and finalizations: loading succeeds exactly for a committed target, asked for under its own identity, whose manifest is within 1 MiB, and returns exactly the extracted embedding and codes |
| `PreparedVoice.VisibleManifestIntact` | worker/native/qwentts/prepared_voice_reference.cpp:606-751 | a visible manifest names artifacts that exist with the recorded size and digest, after any such schedule |
| `PreparedVoice.PublishedForever` | worker/native/qwentts/prepared_voice_reference.cpp:606-612 | a committed voice is never lost or replaced by later steps |
| `PreparedVoice.RecoveryCompletes` | worker/native/qwentts/prepared_voice_reference.cpp:299-370 | recovery that runs to its end, after any number of interrupted ones, has moved the marker and every file of its generation into quarantine with their content |
| `PreparedVoice.RecoveredCleanly` | worker/native/qwentts/prepared_voice_reference.cpp:336-370 | no reachable recovery hits a conflicting artifact; when it returns no file of the generation is outside quarantine |
| `PreparedVoice.LeaksExactly` | worker/native/qwentts/prepared_voice_reference.cpp:735-750 | after every schedule a file of a generation is out of reach, neither committed nor named by the marker, exactly when it is a marker draft or its own removal failed in an uncommitted cleanup that then removed the marker |
| `PreparedVoice.OthersFound` | worker/native/qwentts/prepared_voice_reference.cpp:356-370 | every other file belongs to a published voice or is one that recovery moves |
| `PreparedVoice.FailedRemovalLeaks` | worker/native/qwentts/prepared_voice_reference.cpp:735-750 | in any reachable publication that fails before its commit, a file whose removal fails while that of the marker works stays for good |
| `PreparedVoice.SpeakerLeaks` | worker/native/qwentts/prepared_voice_reference.cpp:735-750 | for one, the speaker file after an exception that follows its rename |
| `PreparedVoice.LostForever` | worker/native/qwentts/prepared_voice_reference.cpp:299-370 | nothing that runs later removes, quarantines or changes a file that is out of reach |
| `PreparedVoice.CleanupRun` | worker/native/qwentts/prepared_voice_reference.cpp:735-750 | a cleanup that runs to its end has made exactly the removals that worked |
| `PreparedVoice.DraftLeaks` | worker/native/qwentts/prepared_voice_reference.cpp:636-638 | a crash of any reachable publication before its marker is in place leaves the draft, if there is one, for good; from the first completed stage on there is one |
| `PreparedVoice.UndisturbedPublishes` | worker/native/qwentts/prepared_voice_reference.cpp:572-752 | an undisturbed publication commits; it then loads as what was extracted if its manifest is within 1 MiB, and does not load otherwise |
| `PreparedVoice.OversizedNeverLoads` | worker/native/qwentts/prepared_voice_reference.cpp:129-147 | publishing does not bound the manifest and loading does: such a committed voice can never be loaded or replaced |
| `PublicationSafety.RunInv` | worker/native/qwentts/prepared_voice_reference.cpp:606-751 | the invariant of the directory protocol holds after every schedule |
| `VoiceDirectory.Folder.RecoverIncomplete` | worker/native/qwentts/prepared_voice_reference.cpp:299-370 | the in-place recovery: the early returns, the refusal of a foreign marker, and the moves one by one |
| `VoiceDirectory.Folder.Persist` | worker/native/qwentts/prepared_voice_reference.cpp:624-751 | the in-place publication with an exception at any stage, also in the middle of a write, its flags, and a cleanup whose removals may fail |
| `VoiceDirectory.RecoverRefines` | worker/native/qwentts/prepared_voice_reference.cpp:299-370 | from every reachable store the recovery loop leaves the directory that the model's recovery steps leave, without a conflict |
| `VoiceDirectory.PersistRefines` | worker/native/qwentts/prepared_voice_reference.cpp:624-734 | the publication loop up to any stage is that many steps of the model |
| `VoiceDirectory.FailureRefines` | worker/native/qwentts/prepared_voice_reference.cpp:624-750 | a publication that throws anywhere and whose removals may fail leaves the directory that those steps of the model leave |
| `VoiceDirectory.BrokenIsRun` | worker/native/qwentts/prepared_voice_reference.cpp:735-750 | the torn write and the cleanup are steps of the model |
| `RvqCodec.PackCodes` | worker/native/qwentts/prepared_voice_reference.cpp:149-171 | packing fails exactly on a code outside 11 bits; otherwise the bytes are the base-256 digits of the number whose base-2048 digits are the codes, ceil(11n/8) of them, written without leaving the buffer |
| `RvqCodec.UnpackCodes` | worker/native/qwentts/prepared_voice_reference.cpp:173-193 | unpacking fails exactly when the stream is too short, and otherwise yields the base-2048 digits of the bytes |
| `RvqCodec.UnpackPack` | worker/native/qwentts/prepared_voice_reference.cpp:149-193 | unpacking undoes packing for every sequence of 11-bit codes |
| `RvqCodec.PackUnpack` | worker/native/qwentts/prepared_voice_reference.cpp:149-193 | packing undoes unpacking exactly when the padding bits are zero |
| `PostProcessorChain.StreamIsComposition` | src/qwen_tts_bridge/audio/post_processor.cpp:134-197 | for every list of stateful processors, stream and terminal reason, feeding the chain chunk by chunk and finishing it equals composing the whole-stream transforms, exceptions included |
| `PostProcessorChain.RangeSplit` | src/qwen_tts_bridge/audio/post_processor.cpp:180-197 | pushing a list through the stages is pushing its parts one after the other |
| `PostProcessorChain.AudioPostProcessorChain.ProcessRange` | src/qwen_tts_bridge/audio/post_processor.cpp:180-197 | the nested loops compute the staged transform and leave earlier stages alone |
| `PostProcessorChain.AudioPostProcessorChain.Process` | src/qwen_tts_bridge/audio/post_processor.cpp:134-143 | one chunk through every stage; nothing is emitted or changed after finish |
| `PostProcessorChain.AudioPostProcessorChain.Finish` | src/qwen_tts_bridge/audio/post_processor.cpp:145-164 | each stage is finished in turn and pushed through the later ones; a second finish emits nothing |
| `PostProcessorChain.AudioPostProcessorChain.Reset` | src/qwen_tts_bridge/audio/post_processor.cpp:166-173 | every stage is reset and the chain may emit again |
| `PostProcessorChain.AudioPostProcessorChain.RunStream` | src/qwen_tts_bridge/audio/post_processor.cpp:134-164 | a whole stream through the object yields the composition |
| `CallbackAdapter.DispatchSerial` | src/qwen_tts_bridge/audio/post_processor.cpp:43-79 | under every interleaving of concurrent and re-entrant submissions: one dispatcher, never nested; events run once each in submission order without mixing; the queue is empty whenever nobody dispatches |
| `CallbackAdapter.AtMostOneTerminal` | src/qwen_tts_bridge/audio/post_processor.cpp:216-324 | downstream sees at most one terminal callback, and no audio, timing or metadata after it |
| `CallbackAdapter.DeliveredAll` | src/qwen_tts_bridge/audio/post_processor.cpp:216-324 | if callbacks do not throw, then once nobody dispatches every produced chunk was delivered in order, and a stream for which a Completed, Cancelled or Error event was submitted got its terminal callback |
| `CallbackAdapter.TailBeforeTerminal` | src/qwen_tts_bridge/audio/post_processor.cpp:240-296 | when the terminal callback is made, all audio produced so far, the flushed tail included, has been delivered |
| `TerminalFade.StreamBytes` | src/qwen_tts_bridge/audio/terminal_fade_post_processor.cpp:53-132 | whenever no call throws, the output is the same function of the whole byte stream for every split: only the last min(hold, length) bytes faded, then the configured silence; unchanged on Error |
| `TerminalFade.StreamTimeline` | src/qwen_tts_bridge/audio/terminal_fade_post_processor.cpp:170-195 | a contiguous stream with its counts set is never refused, and its output is one gap-free timeline on its own 32-bit counts exactly when held plus silent frames at the end are below 2^32 |
| `TerminalFade.CountCut` | src/qwen_tts_bridge/audio/terminal_fade_post_processor.cpp:108-131 | an accepted stream of one frame at rate 2^32 - 1 with 1001 ms of completion silence whose last count is cut, so that its timeline is not gap-free |
| `TerminalFade.ProcessSound` | src/qwen_tts_bridge/audio/terminal_fade_post_processor.cpp:53-99 | every call keeps whole frames and at most `hold_bytes_` pending |
| `TerminalFade.TerminalFadePostProcessor.ProcessChunk` | src/qwen_tts_bridge/audio/terminal_fade_post_processor.cpp:53-99 | the in-place call, with what it leaves changed when it throws |
| `TerminalFade.TerminalFadePostProcessor.FinishStream` | src/qwen_tts_bridge/audio/terminal_fade_post_processor.cpp:101-132 | the in-place finish, with the fade applied to the pending buffer |
| `Pcm.ApplyFade` | src/qwen_tts_bridge/audio/terminal_fade_post_processor.cpp:197-221 | the in-place ramp computes the reference ramp on every byte |
| `Pcm.FadedSample` | src/qwen_tts_bridge/audio/terminal_fade_post_processor.cpp:197-221 | no sample grows or changes sign, each is a nearest integer to sample times gain, the first frame is kept and the last is silent; the clamp never acts |
| `PlayoutCursor.MakePlayoutCursorFade` | src/qwen_tts_bridge/audio/playout_cursor.cpp:34-150 | refused exactly when the buffers break the ordering or format rules, nothing exactly when no frame is left at or after the cursor, else the ramped first ceil(rate*ms/1000) available frames |
| `PlayoutCursor.NoTail` | src/qwen_tts_bridge/audio/playout_cursor.cpp:78-95 | nothing is left exactly when every buffer is empty or ends at or before the cursor |
| `PlayoutCursor.WindowAligned` | src/qwen_tts_bridge/audio/playout_cursor.cpp:97-121 | the window holds whole frames, and the requested length is never zero |
| `PlayoutCursor.NoOverflow` | src/qwen_tts_bridge/audio/playout_cursor.cpp:43-121 | on 32-bit rates and durations neither the fade length, the end of a buffer nor the bounds of a copy leave 64 bits |
| `PlayoutCursor.RampInside` | src/qwen_tts_bridge/audio/playout_cursor.cpp:123-143 | every sample offset of the ramp lies inside the window |
| `Player.BuffersConserved` | src/qwen_tts_bridge/playback/winmm_playback.cpp:27-97 | in every reachable healthy state, injected prepare and write failures included: reaped, submitted and pending buffers are the accepted chunks of the epoch in order, and the stream position is the frames submitted modulo 2^64; in every reachable state a flush finds the format of what it flushes |
| `Player.StaleEpochChangesNothing` | src/qwen_tts_bridge/playback/winmm_playback.cpp:46-49 | calls for another epoch change nothing but the late counter |
| `Player.SnapshotAcceptable` | src/qwen_tts_bridge/playback/winmm_playback.cpp:506-534 | the snapshot handed to the cursor fade meets its ordering and format rules while fewer than 2^64 frames were submitted in the epoch |
| `Player.ReapMoves` | src/qwen_tts_bridge/playback/winmm_playback.cpp:828-843 | reaping takes a prefix of the submitted buffers |
| `Player.CursorWithin` | src/qwen_tts_bridge/playback/winmm_playback.cpp:548-574 | the mock cursor stays within the submitted stream |
| `Player.WaveOutPlayer.EnqueueChunk` | src/qwen_tts_bridge/playback/winmm_playback.cpp:27-97 | one in-place pass of the admission loop; the player invariant survives |
| `Player.WaveOutPlayer.FlushPending` | src/qwen_tts_bridge/playback/winmm_playback.cpp:635-683 | the in-place submission loop, with an injected failure leaving its buffer in front |
| `Player.WaveOutPlayer.ReapFinished` | src/qwen_tts_bridge/playback/winmm_playback.cpp:828-843 | the in-place reaping loop; the player invariant survives |
| `Player.WaveOutPlayer.ResetLocked` | src/qwen_tts_bridge/playback/winmm_playback.cpp:302-339 | the in-place reset: the epoch moves first and skips zero; the player invariant survives |
| `Player.WaveOutPlayer.InterruptWithFade` | src/qwen_tts_bridge/playback/winmm_playback.cpp:161-196 | reap, cut the tail at the cursor, reset; the tail is exactly the reference's (nothing, refused, or the ramped window of the snapshot), and in a healthy player with fewer than 2^64 frames submitted it is never refused |
| `Player.WaveOutPlayer.InterruptionTail` | src/qwen_tts_bridge/playback/winmm_playback.cpp:487-534 | nothing when no fade is due or every frame was played, refused when the snapshot breaks the rules, else the ramped window behind the cursor |
| `EndToEnd.NeverDuplicate` | worker/native/qwentts/stdio_server.cpp:363-371 | no id that a client session sends is ever a duplicate for the worker, whatever both sides do in between |
| `EndToEnd.HighWaterReceived` | worker/native/qwentts/stdio_server.cpp:363-374 | the worker's high-water mark is zero or an id it received |
| `Client.SentIdsIncrease` | src/qwen_tts_bridge/client/qwen_tts_client.cpp:589-619 | the ids of the synthesize commands sent are non-zero, strictly increasing and never wrap around, despite failed enqueues, dropped sends and cleared queues |
| `Client.QueueAccounted` | src/qwen_tts_bridge/client/qwen_tts_client.cpp:621-641 | the byte count of the outbound queue is exact and both limits hold, so the saturating subtraction never saturates |
| `Client.AtMostOneOutcome` | src/qwen_tts_bridge/client/qwen_tts_client.cpp:946-1044 | for every event sequence, re-entrant stops included, only accepted requests get a terminal outcome and none gets two |
| `Client.ExactlyOneAfterStop` | src/qwen_tts_bridge/client/qwen_tts_client.cpp:554-587 | once a stop has returned and no thread owes a callback, every accepted request had exactly one outcome |
| `Client.CallbacksInOrder` | src/qwen_tts_bridge/client/qwen_tts_client.cpp:780-896 | in every run in which the dispatcher stops the client only when the event in hand owes no active request with an error callback a callback, the order automaton accepts every request: registered callbacks only, text once and before audio, chunks that tile the sample clock from 0 with their timing behind them, nothing after the terminal callback |
| `Client.DeliveredTiles` | src/qwen_tts_bridge/client/qwen_tts_client.cpp:849-894 | in such a run the first chunk delivered to a request starts at 0 and every other one where the one before it ended, modulo 2^64 |
| `Client.StopKeepsOrderIff` | src/qwen_tts_bridge/client/qwen_tts_client.cpp:839-895 | in every continuation in which the dispatcher finishes the event in hand, a stop from a callback keeps every order if and only if that event owed no active request with an error callback a callback |
| `Client.StopKeepsOrder` | src/qwen_tts_bridge/client/qwen_tts_client.cpp:839-895 | a stop that meets this keeps every order in every continuation |
| `Client.StopBreaksOrder` | src/qwen_tts_bridge/client/qwen_tts_client.cpp:839-895 | a stop that does not breaks the order of the request that is owed, in every continuation in which the dispatcher finishes the event |
| `Client.CallbackRunning` | src/qwen_tts_bridge/client/qwen_tts_client.cpp:863-895 | in every run, when an active request is still owed a callback, the callback that is running is the text of that request, or its audio with only the timing of the same range to follow |
| `Client.HarmlessStop` | src/qwen_tts_bridge/client/qwen_tts_client.cpp:863-944 | stop is safe in every callback but the text of a request that registered audio or timing and the audio of one that registered timing; always in on_timing and in every metadata, completion, cancellation and error callback |
| `Client.StopInAudioCallback` | src/qwen_tts_bridge/client/qwen_tts_client.cpp:879-894 | stop inside the audio callback of an active request that registered timing and error is never safe |
| `Client.StopInLastCallback` | src/qwen_tts_bridge/client/qwen_tts_client.cpp:780-810 | a stop inside the last callback of an event, such as the text of Started, is harmless in every continuation |
| `ClientOrder.EndsLastTextFirst` | src/qwen_tts_bridge/client/qwen_tts_client.cpp:780-896 | in an accepted order no callback follows a terminal one, and text follows neither text, audio nor timing |
| `ClientOrder.TextBeforeChunk` | src/qwen_tts_bridge/client/qwen_tts_client.cpp:866-870 | a registered text comes before every chunk |
| `ClientOrder.OnlyRegistered` | src/qwen_tts_bridge/client/qwen_tts_client.cpp:799-1044 | a callback runs exactly when it is registered |
| `ClientOrder.FirstChunk` | src/qwen_tts_bridge/client/qwen_tts_client.cpp:849-877 | the first chunk starts at 0 |
| `ClientOrder.ChunksTile` | src/qwen_tts_bridge/client/qwen_tts_client.cpp:849-877 | consecutive chunks of a request: the later one starts at the first sample plus the count of the earlier one, modulo 2^64 |
| `ClientOrder.TimingFollows` | src/qwen_tts_bridge/client/qwen_tts_client.cpp:879-894 | the next callback of the request after audio is the timing of the same range, when timing is registered |
| `ClientOrder.AudioBeforeTiming` | src/qwen_tts_bridge/client/qwen_tts_client.cpp:879-894 | the callback of the request before a timing is audio of the same range, when audio is registered |
| `Client.StopInTextCallback` | src/qwen_tts_bridge/client/qwen_tts_client.cpp:839-895 | a run of the client: one request, two bytes of 16-bit audio, stop inside the text callback; audio follows the terminal error |
| `ClientStream.StopBreaks` | src/qwen_tts_bridge/client/qwen_tts_client.cpp:554-573 | the stop fails the request at once and the owed callback comes after its error, whatever the progress of the request |
| `ClientOutbound.AllocationRises` | src/qwen_tts_bridge/client/qwen_tts_client.cpp:589-619 | a new id is at least `next_request_id_` and the range ends instead of wrapping |
| `ClientOutbound.OutboundQueue.AllocateRequestId` | src/qwen_tts_bridge/client/qwen_tts_client.cpp:589-619 | the in-place allocation |
| `ClientOutbound.OutboundQueue.SubmitRequest` | src/qwen_tts_bridge/client/qwen_tts_client.cpp:463-484 | allocation and enqueue in one region: ids stay in order, the byte count exact, and the id is spent even when the command does not fit |
| `ClientOutbound.OutboundQueue.Enqueue` | src/qwen_tts_bridge/client/qwen_tts_client.cpp:621-636 | the in-place enqueue: accepted exactly when both limits allow it, with the byte count kept exact |
| `ClientOutbound.OutboundQueue.TakeFront` | src/qwen_tts_bridge/client/qwen_tts_client.cpp:713-718 | the writer's dequeue |
| `ClientHand.Running` | src/qwen_tts_bridge/client/qwen_tts_client.cpp:863-895 | what the dispatcher still owes an active request inside a callback: audio or timing that the request registered, and the callback is its own text or audio |
| `ClientDispatch.OutcomeHandle` | src/qwen_tts_bridge/client/qwen_tts_client.cpp:754-944 | every event handler keeps the balance of delivered, owed and active requests |
| `ClientDispatch.OutcomeExecute` | src/qwen_tts_bridge/client/qwen_tts_client.cpp:1003-1044 | taking callbacks out of the map and making them keeps the same balance |
| `Utf8.IsValidUtf8` | src/qwen_tts_bridge/client/qwen_tts_client.cpp:67-111 | accepts exactly the encodings of sequences of Unicode scalar values (section 4 of RFC 3629) |
| `Utf8.CountNonSpaceBytes` | src/qwen_tts_bridge/client/qwen_tts_client.cpp:130-160 | on valid text, the encoded length after deleting the space scalars |
| `Utf8.DecodeEncode` | src/qwen_tts_bridge/client/qwen_tts_client.cpp:67-111 | decoding undoes encoding |
| `Utf8.EncodeDecode` | src/qwen_tts_bridge/client/qwen_tts_client.cpp:67-111 | encoding undoes decoding |
| `Session.ReadyOnceAndFirst` | src/qwen_tts_bridge/session/worker_session.cpp:382-461 | in every run Ready enters the queue at most once and before any audio or other control event |
| `Session.BytesExact` | src/qwen_tts_bridge/session/worker_session.cpp:176-193 | the byte count equals the sum of the queued payload sizes, so the saturating subtraction never saturates |
| `Session.RegularWithinLimits` | src/qwen_tts_bridge/session/worker_session.cpp:463-494 | whenever a regular event enters, both limits hold right after it |
| `Session.OneOverflow` | src/qwen_tts_bridge/session/worker_session.cpp:463-494 | the overflow flag is set exactly when its one diagnostic was queued, and no regular event enters after it |
| `Session.WorkerSession.EnqueueEvent` | src/qwen_tts_bridge/session/worker_session.cpp:463-494 | the in-place enqueue; the byte count stays exact and the overflow diagnostic single |
| `Session.WorkerSession.HandleControlFrame` | src/qwen_tts_bridge/session/worker_session.cpp:398-429 | the in-place control admission; the session invariant survives |
| `Session.WorkerSession.WaitForEvent` | src/qwen_tts_bridge/session/worker_session.cpp:176-193 | the in-place dequeue; the session invariant survives |
| `Receipt.CuesContiguous` | src/qwen_tts_bridge/playback/playback_receipt.cpp:194-232 | in every run stored cues belong to the current epoch and request, follow each other without gaps and respect the bound |
| `Receipt.PcmTiles` | src/qwen_tts_bridge/playback/playback_receipt.cpp:150-192 | in every run the accepted PCM ranges belong to the current request, share one sample rate and tile the clock from zero, and the summary counts exactly them |
| `Receipt.TotalNeverOverflows` | src/qwen_tts_bridge/playback/playback_receipt.cpp:222-225 | the check on the cue total never refuses a cue that continues the timeline |
| `Receipt.CoveredInterval` | src/qwen_tts_bridge/playback/playback_receipt.cpp:257-268 | some cue covers a sample exactly when it lies in the interval the cues span |
| `Receipt.CueUnique` | src/qwen_tts_bridge/playback/playback_receipt.cpp:257-268 | no sample lies in two cues |
| `Receipt.EpochsRise` | src/qwen_tts_bridge/playback/playback_receipt.cpp:104-148 | epochs never fall and the timelines begun have strictly rising epochs: one same-epoch claim per invalidate |
| `Receipt.PlaybackReceiptProbe.Select` | src/qwen_tts_bridge/playback/playback_receipt.cpp:234-271 | selects exactly when the cursor matches and some stored cue covers it, and then such a cue |
| `Receipt.PlaybackReceiptProbe.Append` | src/qwen_tts_bridge/playback/playback_receipt.cpp:194-232 | the in-place cue admission with every refusal; the probe invariant survives |
| `Receipt.PlaybackReceiptProbe.Observe` | src/qwen_tts_bridge/playback/playback_receipt.cpp:150-192 | the in-place PCM observation with every refusal; the probe invariant survives |
| `Receipt.PlaybackReceiptProbe.BeginRequest` | src/qwen_tts_bridge/playback/playback_receipt.cpp:104-129 | the in-place begin and its refusals; the probe invariant survives |
| `Stress.RenderTextScalars` | src/qwen_tts_bridge/text/tts_front_text_preparer.cpp:106-139 | for every valid text and ordered choice of its words, the output is exactly the encoding of the text with each word replaced by its spoken, stressed form |
| `Stress.RenderWordScalars` | src/qwen_tts_bridge/text/tts_front_text_preparer.cpp:78-104 | on valid text the byte rendering is the scalar one: the mark lands on a code-point boundary and the result is valid |
| `Stress.StressedInserts` | src/qwen_tts_bridge/text/tts_front_text_preparer.cpp:78-104 | one U+0301 is inserted right after the vowel with k vowels before it and nothing else changes; without such a vowel the word is unchanged |
| `Stress.RenderedAsIntended` | src/qwen_tts_bridge/text/tts_front_text_preparer.cpp:106-139 | the renderer leaves out a word that does not fit exactly when no reached word starts beyond the cursor inside the text and ends outside it |
| `Stress.OverhangDoubles` | src/qwen_tts_bridge/text/tts_front_text_preparer.cpp:115-122 | such a word doubles the text before it |
| `Stress.InRangeTidy` | src/qwen_tts_bridge/text/tts_front_text_preparer.cpp:115-122 | words inside the text never cause this |
| `Stress.DecodeCodePoint` | src/qwen_tts_bridge/text/tts_front_text_preparer.cpp:36-76 | the decoder reads the bit pattern of the code point at an offset, or fails |
| `Stress.RenderWordStress` | src/qwen_tts_bridge/text/tts_front_text_preparer.cpp:78-104 | the loop computes the word rendering; undecodable words come back unchanged |
| `Stress.RenderExplicitStress` | src/qwen_tts_bridge/text/tts_front_text_preparer.cpp:106-139 | the loop computes the text rendering |
| `Wav.WriteAndRead` | src/qwen_tts_bridge/audio/wav_writer.cpp:102-187 | for any split of a non-empty mono 24 kHz 16-bit payload up to 1 GiB into aligned writes, the closed file reads back as its samples |
| `Wav.DressedReads` | worker/native/qwentts/wav_reader.cpp:58-135 | well-formed ancillary chunks before `fmt ` or `data`, and anything after the data, change nothing |
| `Wav.DecodedSamplesBack` | worker/native/qwentts/stdio_server.cpp:676-699 | converting decoded samples back to s16le is the identity on every byte |
| `Wav.ReadMono24kWav` | worker/native/qwentts/wav_reader.cpp:38-135 | the chunk loop and the sample loops compute the reference reader, 16-bit and clamped float32 samples alike |
| `Wav.DecodeFloats` | worker/native/qwentts/wav_reader.cpp:117-129 | refuses a sample that is not finite and clamps the others to full scale |
| `Wav.WithinFullScale` | worker/native/qwentts/wav_reader.cpp:106-134 | whatever is read lies within full scale |
| `Wav.WavWriter.WritePcm` | src/qwen_tts_bridge/audio/wav_writer.cpp:102-128 | appends exactly when open, frame-aligned and within the RIFF limit |
| `Wav.WavWriter.Close` | src/qwen_tts_bridge/audio/wav_writer.cpp:130-187 | rewriting the two size fields turns the file into the header for its data followed by the data |
| `Wav.FloatPcmToS16le` | worker/native/qwentts/stdio_server.cpp:676-699 | the conversion loop: clipping, rounding half to even, non-finite samples as zero |
| `Philox.RoundsInjective` | scripts/validate-cmp50hx-philox-trace.py:46-56 | any number of rounds is injective on 128-bit counters for every key |
| `Philox.UnroundRound` | scripts/validate-cmp50hx-philox-trace.py:41-56 | a round can be undone |
| `Philox.BlocksDiffer` | scripts/validate-cmp50hx-philox-trace.py:59-70 | two draws share a block exactly when their subsequences agree modulo 2^64 |
| `Philox.PhiloxBlock` | scripts/validate-cmp50hx-philox-trace.py:62-69 | the loop computes ten rounds from the counter of the subsequence |
| `Philox.ValidateProbe` | scripts/validate-cmp50hx-philox-trace.py:73-127 | accepts exactly the traces of the expected shape whose values are, within the tolerance, those of the blocks of the seed |
| `Philox.UniformClose` | scripts/validate-cmp50hx-philox-trace.py:70-70 | the fraction of every 32-bit word, rounded to float32 twice, is positive, at most one and within 2^-24 of (word + 1/2) / 2^32 |
| `Philox.ScheduleComplete` | scripts/validate-cmp50hx-philox-trace.py:91-126 | an accepted trace of n steps used exactly the subsequences below 16n that are not multiples of 16 |
| `Philox.BlocksDistinct` | scripts/validate-cmp50hx-philox-trace.py:91-126 | each of them once, so no two predictor draws share a block |
| `RequestTable.StdioServer.Erase` | worker/native/qwentts/stdio_server.cpp:417-419 | the erase-remove loop keeps exactly the other ids, in order |
| `RequestTable.StdioServer.DrainPending` | worker/native/qwentts/stdio_server.cpp:463-475 | the drain loop releases the queued slots it is first to mark and returns them in order |
| `RequestTable.DrainQueued` | worker/native/qwentts/stdio_server.cpp:463-475 | in a coherent table draining releases exactly the queued requests, in order |
| `VoiceDirectory.Folder.MoveOwned` | worker/native/qwentts/prepared_voice_reference.cpp:336-354 | a present file is moved unless the quarantine already holds its name; a missing one is skipped |
| `VoiceDirectory.Folder.RemoveAll` | worker/native/qwentts/prepared_voice_reference.cpp:735-750 | the best-effort removals of the exception handler, each of which may fail |
| `PostProcessorChain.AudioPostProcessorChain.Add` | src/qwen_tts_bridge/audio/post_processor.cpp:121-132 | appends a stage unless streaming has started |
| `PostProcessorChain.AudioPostProcessorChain.FinishStage` | src/qwen_tts_bridge/audio/post_processor.cpp:155-162 | one stage finished and pushed through the later ones |
| `TerminalFade.TerminalFadePostProcessor.Configure` | src/qwen_tts_bridge/audio/terminal_fade_post_processor.cpp:146-168 | what the first chunk sets, also when it is then refused |
| `TerminalFade.TerminalFadePostProcessor.Reset` | src/qwen_tts_bridge/audio/terminal_fade_post_processor.cpp:134-144 | every field back to its initial value |
| `PlayoutCursor.CheckFormats` | src/qwen_tts_bridge/audio/playout_cursor.cpp:51-57 | true exactly when every buffer has the format and whole frames |
| `PlayoutCursor.CheckOrder` | src/qwen_tts_bridge/audio/playout_cursor.cpp:59-76 | true exactly when the buffers are ordered, disjoint and within the 64-bit clock |
| `PlayoutCursor.FindFirst` | src/qwen_tts_bridge/audio/playout_cursor.cpp:78-92 | the first buffer that ends after the cursor; nothing before it is left |
| `PlayoutCursor.Gather` | src/qwen_tts_bridge/audio/playout_cursor.cpp:97-119 | the copy loop takes the wanted number of frames from what is left |
| `Player.WaveOutPlayer.AdmitChunk` | src/qwen_tts_bridge/playback/winmm_playback.cpp:64-97 | format check, buffering and the flush once enough is buffered |
| `Player.WaveOutPlayer.CurrentCursor` | src/qwen_tts_bridge/playback/winmm_playback.cpp:548-574 | the scan for the buffer that is playing |
| `Session.WorkerSession.FailWithEvent` | src/qwen_tts_bridge/session/worker_session.cpp:540-548 | a live session fails and the event is queued |
| `Receipt.PlaybackReceiptProbe.InvalidateEpoch` | src/qwen_tts_bridge/playback/playback_receipt.cpp:131-148 | the in-place invalidate and its refusals |
| `ClientOutbound.OutboundQueue.Clear` | src/qwen_tts_bridge/client/qwen_tts_client.cpp:638-641 | empties the queue and its byte count together |
| `ClientDispatch.OutcomeStop` | src/qwen_tts_bridge/client/qwen_tts_client.cpp:554-573 | starting a stop keeps the balance of outcomes |
| `Utf8.CheckUnit` | src/qwen_tts_bridge/client/qwen_tts_client.cpp:70-109 | the length of a well-formed code point, zero for any other bytes |
| `Utf8.ReadContinuations` | src/qwen_tts_bridge/client/qwen_tts_client.cpp:97-103 | folds six bits per continuation byte, or fails on the first other byte |
| `Wav.ScanChunks` | worker/native/qwentts/wav_reader.cpp:58-97 | the chunk loop computes the reference scan |
| `Wav.DecodeSamples` | worker/native/qwentts/wav_reader.cpp:112-115 | the sample loop computes the fractions |
| `Wav.ScanSkips` | worker/native/qwentts/wav_reader.cpp:88-96 | an ancillary chunk, padding included, is passed over |
| `Philox.CheckDraws` | scripts/validate-cmp50hx-philox-trace.py:102-123 | true exactly when every draw has the expected subsequence and a value in range and within tolerance |
| `Stress.RenderTail` | src/qwen_tts_bridge/text/tts_front_text_preparer.cpp:78-104 | the scan over the code points of a word |

## Left out

- Win32, WinMM, BCrypt, process, pipe and file-handle calls are abstract steps; the publication lock is assumed to exclude other holders, and reparse-point checks and durability after power loss are not modelled.
- The wall-clock parts: timeouts, thread joins other than the client's join of its dispatcher, and liveness under a blocked writer.
- The WaveOut sink of the player, its device position and its orphaned buffers: only the mock sink is modelled; metrics, interruption diagnostics and the reset test hook are not.
- The threshold of queued audio that makes `enqueue` wait depends on the clock; it is a parameter of `Player.Enqueue`.
- The QTB frame parser and encoder, the JSON control codec and the stdio transport: frames and messages are typed values, and the pipe is ordered and reliable.
- Speech synthesis, voice extraction, tts-front-cpp and speech-animation internals.
- Text preparation before a client request is accepted, and its error callbacks; restarting a client after stop, and two outside threads in stop at once.
- The request id of adapter errors and the content of error messages.
- IEEE-754 rounding: gains, sample values and the error of an observed Philox draw are exact; only the step from a word to its float32 fraction is rounded.
- The processors' states after one of them throws: the chain is not used again before a reset.
- CLI parsing, examples, packaging, benchmarks, JSON diagnostics, logging and the other scripts: they would only add easy members.
- A bound on the session's event queue including exempt diagnostics: the code does not establish one.
- Player.SnapshotAcceptable: requires fewer than 2^64 frames in the epoch, because the stream position wraps around.
- Philox.BlocksDistinct: block distinctness is stated up to 2^60 steps, because subsequences are taken modulo 2^64.
- Client.CallbacksInOrder: a stop on the dispatcher is assumed to meet the guard that Client.StopKeepsOrderIff proves to be exact.
- CallbackAdapter.DeliveredAll: assumes that callbacks do not throw, because a throw drops the rest of its event.
