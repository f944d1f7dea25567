# Realtime voice: machine-checked protocol model

A Dafny model of the stateful core of the realtime voice half of simple-harness-service, with
proofs. `dafny verify dfyconfig.toml` checks the whole project.

| file | what it models |
|---|---|
| Session.dfy | one managed session as a state machine: every stretch of code between two real suspensions is one step |
| SessionQueue.dfy, ResponseBook.dfy, ToolCalls.dfy | its bounded output queue and input accounting, its responses/items/contents, its tool calls; each as values with laws and as a class the session mutates |
| SessionSafety.dfy | the invariant `Sound` and the proof that every step keeps it |
| SessionEffects.dfy | what each operation of a session brings about: exactly what it records, lets through, refuses and ends |
| SessionRuns.dfy | what follows for whole runs: how a session ends, what reaches the product and in which order, what is never taken back |
| ManagedSession.dfy | the session object, method by method, each proved to take exactly its step of Session.dfy |
| InputWindow.dfy, InputPath.dfy | the reorder window, the sequence-only window, and the batches that go from the window to the session |
| OutputWindow.dfy, OutputOwnership.dfy, PcmFrame.dfy | the sliding output window with acknowledgements and playback position, output ownership with bounded tombstones, PCM chunking and framing |
| IdentityTable.dfy, Recovery.dfy | the alias table, generations, message claims, snapshot and restore |
| ContextAck.dfy | matching server echoes to context requests in the Qwen adapter |
| Diagnostics.dfy | the diagnostics recorder as a system of interleaved thread steps |
| FrameCodec.dfy, ToolSchema.dfy | the incremental frame decoder, and the depth-bounded schema evaluator with a fuel-free meaning |

Objects that the source changes in place are classes here; each method's contract equates the new
state with a function of the old one, and the theorems are about those functions over whole runs.
The session model keeps a log of marks (events enqueued, structures introduced, contents completed,
responses cancelled, calls dispatched); the ordering theorems are statements about that log.

What the proofs found about the code:

- Two error-free runs over permuted frames give the same bytes only when the first arrivals for
  each sequence number agree: a duplicate with a different payload is dropped by whichever arrives
  first (`ConflictingDuplicatesDiffer` shows two runs that differ).
- An identity keeps its origin across `register` exactly when that origin is not empty or the call
  does not change it; an item registered with an empty source can still be given one
  (`EmptySourceMovesOrigin`).
- A snapshot is accepted back exactly when it is within the size limits, every recorded tool call id
  has at most 512 characters and is not blank, and every confirmed message points to a confirmed user
  item. The session records call ids of any length, and a single longer one makes the whole state
  unrestorable (`LongCallIdDoesNotRestore`). A confirmed system-role message is in the snapshot but its item
  is not, so a session that injected one cannot be restored (`SystemMessageDoesNotRestore`).
- A terminal raised by a failing send in a started session is the last event enqueued exactly when a
  newer session had already taken over as the send failed; otherwise the receive loop is still waiting
  for a payload and handles that one (`SendersTerminalIsLastExactly`, with a run in `ASendersTerminalNeedNotBeLast`), but
  no second one (`OneMorePayload`). `TerminalIsLastExactly` gives the condition for every ended session.
- A tool result submitted while an attempt with another output is created but has not yet begun is not
  refused: it joins that attempt and its own output is lost. From the moment the attempt begins a changed
  output is refused (`ChangedOutputRefusedExactly`, with a run in `ChangedOutputMayJoin`).
- The depth guard of `matches_schema` never decides for accepted schemas, and 32 levels is exact: the
  guard does decide one level deeper (`GuardIsExact`).
- In `_context_message_created` the test for unrelated audio never succeeds: a message with audio parts
  has been taken as a voice item before, and an item that is not a message gets there only under an
  id that is still outstanding.

## Model

| member | source | states |
|---|---|---|
| SessionRuns.OneTerminal | src/simple_harness_service/realtime/session.py:1201-1238 | over every run from a start at most one SessionClosed or SessionFailed is ever enqueued, and one is exactly when the session is published as ended |
| SessionRuns.CleanCloseHolds | src/simple_harness_service/realtime/session.py:598-659 | once clean-close intent is claimed, whatever arrives or fails later: nothing more is enqueued, or exactly the local end of the current response (if any) and then the client's clean close; the owner stays CLIENT/CLEAN |
| SessionRuns.NothingAfterTheReceiversTerminal | src/simple_harness_service/realtime/session.py:745-879 | a terminal claimed by the receive loop is the newest thing in the log and nothing is ever enqueued after it, in any continuation |
| SessionRuns.OneMorePayload | src/simple_harness_service/realtime/session.py:699-702 | behind somebody else's terminal the receive loop handles at most one more payload |
| SessionRuns.TerminalIsLastExactly | src/simple_harness_service/realtime/session.py:699-881 | in every ended session, however it ended, nothing is ever enqueued any more exactly when the receive loop was left, or the close is the client's, or a newer session took over (for limits that let a control event into an empty queue) |
| SessionRuns.SendersTerminalIsLastExactly | src/simple_harness_service/realtime/session.py:539-583 | the terminal of a send failing at any moment of a started session's run is the newest mark, and stays the last event enqueued exactly when a newer session had taken over by then (for limits that let a control event into an empty queue) |
| SessionRuns.ASendersTerminalNeedNotBeLast | src/simple_harness_service/realtime/session.py:539-583 | a concrete run: the session becomes ready, the send of some audio fails and ends it, and an event of the relay is enqueued behind the terminal |
| SessionRuns.OutputDiscipline | src/simple_harness_service/realtime/session.py:1101-1151 | in the log of every reachable state each output event comes after its response, item and content were introduced, before the content's completion, not after a local cancellation of the response and not after its end; a response ends at most once and after its start |
| SessionRuns.OutputGetsThrough | src/simple_harness_service/realtime/session.py:1101-1125 | exactly when an output event is enqueued, silently dropped as late, ends the session Busy because it does not fit, or ends it with a protocol error, in terms of what the log says happened before |
| SessionRuns.FinishGetsThrough | src/simple_harness_service/realtime/session.py:1126-1151 | exactly what becomes of the end of a response: the first of an introduced response is enqueued as newest (even over the limits when the batch ends the session) or, not fitting, ends the session Busy; a second one is dropped, an unknown one ends the session with a protocol error; an incomplete end after a cancellation counts as cancelled |
| SessionRuns.CallGetsThrough | src/simple_harness_service/realtime/session.py:1065-1100 | exactly what becomes of a tool call: improper ends the session with a protocol error, seen leaves no trace, new is registered, remembered and, with valid arguments, dispatched if there is a dispatcher and shown with this session's generation; when it does not fit the session ends Busy with the call registered and dispatched |
| SessionRuns.BatchInOrder | src/simple_harness_service/realtime/session.py:1039-1151 | a batch handled to its end shows the product a subsequence of its events in their order, at most once each and nothing else, changed only by the cancelled status or the filled-in generation |
| SessionRuns.DispatchedOnce | src/simple_harness_service/realtime/session.py:1084-1098 | in every reachable state each call was dispatched at most once, never one remembered from a former session, and is remembered for later ones |
| SessionRuns.StructureHolds | src/simple_harness_service/realtime/session.py:968-1009 | contents lie in items, items in responses, completed, finished and cancelled sets in introduced ones; the response order is duplicate-free with the same elements; at most two responses are live, at most one of them not cancelled, and that one is the current response |
| SessionRuns.QueueHolds | src/simple_harness_service/realtime/session.py:1170-1192 | frame and byte counters equal the queue's length and size and respect the limits until the terminal sequence starts; until then every enqueued event was taken or waits, in order; later at most one contiguous stretch of them is missing; in-flight input counters equal the running sends within limits |
| SessionRuns.NothingDiscardedLater | src/simple_harness_service/realtime/session.py:1181-1192 | from the start of the terminal sequence on, taken plus queued events only grow at the end, in any continuation |
| SessionRuns.TheTerminalArrives | src/simple_harness_service/realtime/session.py:687-697 | a consumer that drains an ended session has been handed its terminal |
| SessionRuns.ToolsHold | src/simple_harness_service/realtime/session.py:443-537 | inside a session, under any other activity: calls move only forward, all sends of a result (and of a follow-up) are identical, a follow-up send is behind an echo of exactly the output, the waiting list is duplicate-free and exactly the calls in FOLLOWUP_REQUESTED |
| SessionRuns.StepFollows | src/simple_harness_service/realtime/session.py:883-1167 | no step takes back what was enqueued, taken, owned, published, introduced, completed, cancelled, finished or seen; tool calls only move forward; only unseen calls are dispatched |
| SessionRuns.RunFollows | src/simple_harness_service/realtime/session.py:883-1167 | the same over every run, together with the invariant |
| SessionRuns.SettledForever | src/simple_harness_service/realtime/session.py:1221-1238 | once the end is decided and nobody is left who waits to publish it, the log never changes again |
| SessionEffects.BooksExactly | src/simple_harness_service/realtime/session.py:968-1037 | a decoded event passes bookkeeping exactly when it agrees with the log: what it introduces is new and hangs together, what it completes was added and is open, and an echo repeats the recorded output; otherwise the session ends with a protocol error; when it passes, everything introduced is recorded and the tool calls advance |
| SessionEffects.HandledIsRecorded | src/simple_harness_service/realtime/session.py:883-1168 | an event handled to its end has been recorded in full, in the sets and in the log: response, item, function item, content, completed content and completed item |
| SessionEffects.CompletedIsClosed | src/simple_harness_service/realtime/session.py:1027-1167 | over every run, once an event completing a content has been handled to its end no output of that content is ever enqueued and a second completion of it ends the session with a protocol error; likewise a second completion of an item |
| SessionEffects.ReadinessExactly | src/simple_harness_service/realtime/session.py:883-967 | exactly which events leave the session alone, make it ready (telling the product first), are refused before it is ready, or end as mere acknowledgements |
| SessionEffects.HandlesInTurn | src/simple_harness_service/realtime/session.py:968-1168 | past readiness an event is handled as bookkeeping, then its events, then its completions, and ends the session exactly where one of them does |
| SessionEffects.EventsInTurn | src/simple_harness_service/realtime/session.py:1039-1151 | the events of a batch are handled one after the other, each in the state the former left, until one ends the session |
| SessionEffects.OthersGetThrough | src/simple_harness_service/realtime/session.py:1040-1151 | exactly what becomes of failures, transcripts and all other events: a failure ends the session with itself, a repeated transcript is dropped, the rest are enqueued as newest or end the session Busy |
| SessionEffects.TakenUpExactly | src/simple_harness_service/realtime/session.py:850-867 | a decoded event is applied exactly when the loop runs for a current session nobody is closing and its id is new; otherwise nothing changes |
| SessionEffects.AppliedOnce | src/simple_harness_service/realtime/session.py:853-856 | over runs an event id is applied at most once, whatever happens in between |
| SessionEffects.VerdictsExactly | src/simple_harness_service/realtime/session.py:704-879 | exactly which terminal the receive loop gives for a failing transport, the end of the stream, undecodable input, an error or a close of the relay, and by whom |
| SessionEffects.AcknowledgesExactly | src/simple_harness_service/realtime/session.py:761-775 | while a close waits, exactly a clean close by the client naming this close acknowledges it; everything else is ignored and the end of the stream leaves the loop |
| SessionEffects.ClosingExactly | src/simple_harness_service/realtime/session.py:598-600 | a close is claimed for the client exactly when nobody owns the end, and once |
| SessionEffects.CloseEndsExactly | src/simple_harness_service/realtime/session.py:633-658 | a claimed close ends with the local end of the current response and the clean close, which names the close exactly when its acknowledgement came and was heard |
| SessionEffects.CancellingExactly | src/simple_harness_service/realtime/session.py:257-266 | cancelling an active session with a live response marks exactly the newest one, in the log too, and does nothing otherwise |
| SessionEffects.CancelledIsSilent | src/simple_harness_service/realtime/session.py:1111-1116 | once a response is cancelled no output of it is ever enqueued, in any continuation |
| SessionEffects.SenderFailsExactly | src/simple_harness_service/realtime/session.py:1194-1219 | a failing send ends the session with its error and takes the end for the provider, unless the end is decided |
| SessionEffects.AudioStartsExactly | src/simple_harness_service/realtime/session.py:222-236 | audio goes out exactly while the session is active and ready, for a proper frame with room among the sends under way |
| SessionEffects.ConsumesExactly | src/simple_harness_service/realtime/session.py:687-691 | the consumer takes exactly the oldest event and nothing else changes but the accounts |
| SessionSafety.StepSound | src/simple_harness_service/realtime/session.py:699-1167 | every step of a session, by any caller, keeps the whole invariant: exact queue and input accounting, response structure, tool order, agreement of all sets with the log, the discipline of the log, and one terminal exactly when published |
| SessionSafety.ApplySound | src/simple_harness_service/realtime/session.py:883-1167 | handling one decoded provider event keeps the invariant wherever it stops |
| SessionSafety.EndCloseSound | src/simple_harness_service/realtime/session.py:611-658 | finishing the current response locally and closing keeps the invariant |
| SessionSafety.LetsInKeeps | src/simple_harness_service/realtime/session.py:1170-1192 | letting an event in keeps the accounts, loses no promised event once the terminal sequence started, and never a terminal |
| SessionQueue.PutTerminalAccounted | src/simple_harness_service/realtime/session.py:1181-1192 | a terminal-sequence event always gets in, as the newest; only the first one, and only when it does not fit, discards what waits, and nothing taken is lost |
| SessionQueue.TakeAccounted | src/simple_harness_service/realtime/session.py:687-697 | the clamps at zero never bite: taking an event takes exactly its size off |
| SessionQueue.InputStaysAccounted | src/simple_harness_service/realtime/session.py:231-255 | in-flight input frames and bytes equal the running sends and stay within limits, whichever send ends |
| SessionQueue.StartsExactly | src/simple_harness_service/realtime/session.py:222-236 | a frame is let out exactly when it is proper and there is room among the running sends; the error tells which failed |
| SessionQueue.FitsExactly | src/simple_harness_service/realtime/session.py:1170-1174 | an event fits exactly when neither limit is exceeded with it and what waits |
| SessionQueue.OutputQueue.Emit | src/simple_harness_service/realtime/session.py:1170-1179 | refuses exactly what would exceed a limit, changing nothing; otherwise appends and accounts |
| SessionQueue.OutputQueue.EmitTerminalSafe | src/simple_harness_service/realtime/session.py:1181-1192 | the in-place loop that empties the queue makes room for the first terminal-sequence event; later ones are appended unconditionally |
| SessionQueue.OutputQueue.Get | src/simple_harness_service/realtime/session.py:687-691 | hands over the oldest event and takes it off the accounts |
| SessionQueue.InputGauge.Start | src/simple_harness_service/realtime/session.py:222-236 | refuses empty, odd, oversized or over-limit audio with the right code, otherwise counts it |
| SessionQueue.InputGauge.End | src/simple_harness_service/realtime/session.py:252-255 | however a send ends, exactly its own frame and bytes are released |
| ResponseBook.LiveResponses | src/simple_harness_service/realtime/session.py:968-983 | at most two live responses, at most one not cancelled, which is the current one; there is a current response exactly while one is live |
| ResponseBook.CurrentIsNewestLive | src/simple_harness_service/realtime/session.py:1274-1278 | the current response is live and everything after it in the order is terminal; there is none exactly when all are terminal |
| ResponseBook.IntroduceKeeps | src/simple_harness_service/realtime/session.py:968-980 | an admitted response keeps the structure, in particular at most two live responses of which only it is not cancelled |
| ResponseBook.IntroducesExactly | src/simple_harness_service/realtime/session.py:968-980 | a new response is let in exactly when the structure stays well kept with it: no stricter and no laxer |
| ResponseBook.CancelsExactly | src/simple_harness_service/realtime/session.py:257-266 | cancelling marks exactly the newest live response |
| ResponseBook.FinishKeeps | src/simple_harness_service/realtime/session.py:1126-1138 | finishing any response keeps the structure, in particular that the live response not cancelled is the current one |
| ResponseBook.Ledger.CurrentResponse | src/simple_harness_service/realtime/session.py:1274-1278 | the backwards search finds the newest response that is not terminal |
| ResponseBook.Ledger.Begin | src/simple_harness_service/realtime/session.py:968-980 | admits a response exactly when it is new and every live one, at most one, is cancelled; refuses without a change |
| ToolCalls.ToolProtocol | src/simple_harness_service/realtime/session.py:280-298 | any interleaving of submits, retries, failed sends, echoes and responses keeps tool calls orderly, and each later state is forward of each earlier one |
| ToolCalls.OrderlyMeans | src/simple_harness_service/realtime/session.py:443-537 | orderly means: byte-identical sends per call, a follow-up only behind the echo of the exact output, and a waiting list that holds once each exactly the calls awaiting a follow-up |
| ToolCalls.NextKeeps | src/simple_harness_service/realtime/session.py:443-537 | every single step keeps the calls orderly and moves them only forward |
| ToolCalls.AckKeeps | src/simple_harness_service/realtime/session.py:1010-1026 | accepting an echo keeps the calls orderly and moves them only forward |
| ToolCalls.AcknowledgesExactly | src/simple_harness_service/realtime/session.py:1010-1026 | an echo breaks the protocol exactly for an unknown call, another output or a malformed item; it acknowledges exactly a call whose result was sent, and changes nothing later |
| ToolCalls.SubmitsExactly | src/simple_harness_service/realtime/session.py:280-298 | a submit is refused exactly for an unknown call or an output other than the recorded one, and creates an attempt exactly when none is under way |
| ToolCalls.BeginsExactly | src/simple_harness_service/realtime/session.py:443-537 | what the first turn of an attempt records and sends in each phase: fresh or recorded result, fresh or recorded follow-up, or nothing |
| ToolCalls.RespondsExactly | src/simple_harness_service/realtime/session.py:981-983 | a new response answers exactly the longest waiting follow-up |
| ToolCalls.CallGoesThrough | src/simple_harness_service/realtime/session.py:443-537 | the whole way of a call for every id, output and payload: result sent, acknowledged, follow-up sent, answered by the next response; the same when the echo overtakes the send |
| ToolCalls.RetriesRepeat | src/simple_harness_service/realtime/session.py:443-537 | after a failed send or an expired wait the same submit sends the very same payload again |
| ToolCalls.ResponseStartsKeeps | src/simple_harness_service/realtime/session.py:981-983 | a new response answers the longest waiting follow-up and leaves the waiting list exact |
| ToolCalls.ToolDesk.Attempt | src/simple_harness_service/realtime/session.py:443-537 | one attempt up to its first await changes the record, the waiting list and the wire as specified |
| ToolCalls.ToolDesk.SubmitResult | src/simple_harness_service/realtime/session.py:280-298 | an unknown call and an output other than the recorded one are refused without a change, an attempt under way is joined, otherwise one is created |
| ToolCalls.ToolDesk.BeginAttempt | src/simple_harness_service/realtime/session.py:443-456 | the first turn of a created attempt records its output and sends, whatever happened since the submit |
| ToolCalls.ChangedOutputRefusedExactly | src/simple_harness_service/realtime/session.py:290-298 | while an attempt is under way, a submit with another output is refused exactly when the attempt has begun; before, it joins and changes nothing |
| ToolCalls.ChangedOutputMayJoin | src/simple_harness_service/realtime/session.py:290-298 | two submits in a row of which the second is accepted, while the first output is the one sent |
| ManagedSession.ManagedRealtimeSession.Apply | src/simple_harness_service/realtime/session.py:883-1167 | the object takes exactly the model's step for a decoded event and reports whether to go on |
| ManagedSession.ManagedRealtimeSession.ApplyEvents | src/simple_harness_service/realtime/session.py:1039-1151 | the loop over a batch stops at the first event that ends the session and otherwise handles all, in order |
| ManagedSession.ManagedRealtimeSession.EndsSession | src/simple_harness_service/realtime/session.py:943-943 | a batch is terminal exactly when some event of it is a failure |
| ManagedSession.ManagedRealtimeSession.Receive | src/simple_harness_service/realtime/session.py:699-881 | one turn of the receive loop is exactly the model's step |
| ManagedSession.ManagedRealtimeSession.FinishTerminal | src/simple_harness_service/realtime/session.py:1201-1219 | only the first claimant enqueues its terminal and publishes it |
| ManagedSession.ManagedRealtimeSession.EndClose | src/simple_harness_service/realtime/session.py:611-658 | the end of a controlled close is exactly the model's step; an acknowledgement counts only when it was heard, not when the close send failed |
| ManagedSession.ManagedRealtimeSession.BeginClose | src/simple_harness_service/realtime/session.py:585-601 | claims the end for the client once, and does nothing when it is already owned |
| ManagedSession.ManagedRealtimeSession.CancelResponse | src/simple_harness_service/realtime/session.py:257-266 | marks the current response cancelled, refused once the session is not active |
| ManagedSession.ManagedRealtimeSession.AdmitItem | src/simple_harness_service/realtime/session.py:984-1000 | admits an item of a known response once, with its detail, or ends the session |
| ManagedSession.ManagedRealtimeSession.SubmitToolResult | src/simple_harness_service/realtime/session.py:280-298 | creates or joins an attempt only in an active session |
| InputWindow.DeliversExactly | src/simple_harness_service/realtime/local_channel.py:86-106 | every error-free run over reordered, duplicated and stale frames has delivered exactly the first-arrived payloads of 1 to highest, in order, once each; highest+1 never arrived and what is held is what arrived beyond it |
| InputWindow.AcceptSettles | src/simple_harness_service/realtime/local_channel.py:86-106 | held sequences lie in (highest, highest+64] without highest+1, the byte counter is the exact sum and at most 1 MiB, and a refused frame changes nothing |
| InputWindow.RefusesExactly | src/simple_harness_service/realtime/local_channel.py:86-99 | a frame is refused Busy exactly when it is new, within 64 of what was delivered and would take the held bytes beyond 1 MiB, and as a protocol error exactly when it is no input or is new beyond the 64 |
| InputWindow.RunSucceedsExactly | src/simple_harness_service/realtime/local_channel.py:86-106 | in terms of the frames alone: a run is free of errors exactly when each frame is of another generation, a repetition, or an input frame at most 64 beyond the first gap that fits beside what waits behind the gap |
| InputWindow.PermutationsAgree | src/simple_harness_service/realtime/local_channel.py:86-106 | two error-free runs over permuted frames reach the same highest sequence and hold the same ones; they give the same bytes exactly when the first arrivals agree for every sequence up to the first missing one, and the same window when no duplicates conflict |
| InputWindow.ConflictingDuplicatesDiffer | src/simple_harness_service/realtime/local_channel.py:91-92 | two permuted runs with a conflicting duplicate that deliver different bytes |
| InputWindow.Lockstep | src/simple_harness_service/realtime/local.py:158-181 | the sequence-only window stays in lockstep with the reorder window over any frames, valid or not, while the bytes held leave room for each frame |
| InputWindow.StepsInStep | src/simple_harness_service/realtime/local.py:168-181 | with room for the frame both windows refuse, drop or take it alike |
| InputWindow.ReorderBuffer.Receive | src/simple_harness_service/realtime/local_channel.py:86-106 | the in-place window does exactly the model's step and a raising call changes nothing |
| InputWindow.ReorderBuffer.ReleaseReady | src/simple_harness_service/realtime/local_channel.py:99-106 | the loop releases exactly the contiguous run |
| InputPath.InputAudioArrives | src/simple_harness_service/realtime/local_channel.py:321-362 | over every run of frames, flushes and acknowledgements the session has taken, without gap or reordering, what the window released but for less than a batch; a prefix of it once the call ended; acknowledgements only rise and stay within what was released |
| InputPath.FlushedMeansAllArrived | src/simple_harness_service/realtime/local_channel.py:344-362 | after a flush the session has taken exactly the first payloads of sequences 1 to highest |
| InputPath.ForwardKeeps | src/simple_harness_service/realtime/local_channel.py:333-338 | batching conserves bytes: taken plus batched equals what there was plus what came |
| InputPath.CallEndsExactly | src/simple_harness_service/realtime/local_channel.py:321-362 | while a call is on every frame was taken and every send came through; it has ended only for a frame the window refuses or the one send that did not come through in time |
| InputPath.BatchesAreFull | src/simple_harness_service/realtime/local_channel.py:333-342 | without a flush every send is of exactly one full batch and fewer frames than the acknowledgement interval are unacknowledged |
| InputPath.AcknowledgesExactly | src/simple_harness_service/realtime/local_channel.py:371-383 | a delayed acknowledgement goes out exactly when something was sent since the last, naming what was released |
| InputPath.InputController.HandleInputAudio | src/simple_harness_service/realtime/local_channel.py:321-342 | the controller does exactly the model's step |
| OutputWindow.OutputConserved | src/simple_harness_service/realtime/local_channel.py:556-608 | over every run: pending is exactly the consecutive sequences acked+1 to last sent, pending bytes is their sum, acknowledged bytes the sum of all before, at most 64 frames and 1 MiB are outstanding, and the position stays within acknowledged audio |
| OutputWindow.SendsExactly | src/simple_harness_service/realtime/local_channel.py:559-603 | a chunk is framed exactly when fewer than 64 chunks, and with it at most 1 MiB, of all audio framed are unacknowledged; otherwise nothing changes |
| OutputWindow.AcksExactly | src/simple_harness_service/realtime/local_channel.py:385-420 | an acknowledgement is accepted exactly when the call is ready, it names sent output, and its position neither moves back nor exceeds the audio acknowledged with it; and what it leaves |
| OutputWindow.PositionNeverDecreases | src/simple_harness_service/realtime/local_channel.py:385-420 | between any two moments of a run neither the playback position nor the acknowledged sequence decreases, and what was framed stays framed |
| OutputWindow.NothingLost | src/simple_harness_service/realtime/local_channel.py:556-608 | acknowledged plus pending bytes are all bytes ever framed, and pending sequences are consecutive from acked+1 |
| OutputWindow.PositionWithin | src/simple_harness_service/realtime/local_channel.py:385-420 | the real-valued playback check decides exactly played_ms * 2 * rate * channels <= 1000 * acknowledged bytes |
| OutputWindow.AckConserves | src/simple_harness_service/realtime/local_channel.py:385-420 | an accepted ack keeps the conservation, retires exactly the covered chunks and never moves the position back |
| OutputWindow.SilentPositionAccepted | src/simple_harness_service/realtime/local_channel.py:385-420 | an ack without a position is accepted for any outstanding sequence |
| OutputWindow.FullAckReleases | src/simple_harness_service/realtime/local_channel.py:559-599 | acknowledging everything empties the window, which then admits any chunk |
| OutputWindow.ProductHearsEverything | src/simple_harness_service/realtime/local_channel.py:536-608 | over every run of sends and acknowledgements every frame sent encodes, and the frames decoded in order give exactly the audio framed; for the chunks of one buffer, that buffer |
| OutputWindow.OutputFlow.SendChunk | src/simple_harness_service/realtime/local_channel.py:588-603 | numbers and accounts a chunk that fits, and hands out its frame |
| OutputWindow.OutputFlow.HandleOutputAck | src/simple_harness_service/realtime/local_channel.py:385-420 | the in-place retirement loop does exactly the model's step |
| OutputOwnership.TombstonesFaithful | src/simple_harness_service/realtime/local_channel.py:457-505 | over every run of events the bounded sets hold exactly the last 64 remembered entries, set and order agree, the active output is never completed and its response never tombstoned, and audio is framed only for the active output |
| OutputOwnership.AudioExactly | src/simple_harness_service/realtime/local_channel.py:470-481 | audio sounds exactly when its output is the open one, is dropped exactly when late, and otherwise ends the call |
| OutputOwnership.StartExactly | src/simple_harness_service/realtime/local_channel.py:457-469 | an output opens exactly when no other is open and it is not late; a second one beside the open one ends the call |
| OutputOwnership.CompletionExactly | src/simple_harness_service/realtime/local_channel.py:482-495 | an output completes exactly when it is the open one and is then remembered; late completions are dropped, others end the call |
| OutputOwnership.FinishExactly | src/simple_harness_service/realtime/local_channel.py:496-505 | the end of a response is always announced, remembered once, and completes the open output exactly when it is of that response |
| OutputOwnership.OthersExactly | src/simple_harness_service/realtime/local_channel.py:425-456 | ready, the end of the session and all other events, and every event once the call has ended |
| OutputOwnership.AllAudioSounds | src/simple_harness_service/realtime/local_channel.py:470-481 | over runs, while an output is open and the call goes on, all audio of it sounds, in order and once each, whatever else happens |
| OutputOwnership.RecentHistoryAnswered | src/simple_harness_service/realtime/local_channel.py:610-624 | for what is among the last 64, the tombstones answer as the unbounded history would |
| OutputOwnership.RememberMirrors | src/simple_harness_service/realtime/local_channel.py:610-624 | remembering one more keeps set and queue the last 64 of the history |
| OutputOwnership.Forwarder.ForwardEvent | src/simple_harness_service/realtime/local_channel.py:457-505 | the in-place forwarder takes exactly the model's step and reports what it did |
| PcmFrame.EncodeThenDecode | src/simple_harness_service/realtime/local.py:113-155 | decoding an encoded frame gives it back, and encoding succeeds exactly for in-range fields |
| PcmFrame.DecodeThenEncode | src/simple_harness_service/realtime/local.py:135-155 | every accepted byte string is the encoding of what it decodes to |
| PcmFrame.HeaderFields | src/simple_harness_service/realtime/local.py:113-132 | the 24-byte big-endian layout of the header |
| PcmFrame.CutOutputAudio | src/simple_harness_service/realtime/local_channel.py:536-549 | the chunking loop refuses exactly empty and odd audio and otherwise cuts it without loss |
| PcmFrame.ChunksCover | src/simple_harness_service/realtime/local_channel.py:544-549 | chunks are non-empty, even, within the encoder's limit and concatenate to the audio |
| PcmFrame.FramedAudioSurvives | src/simple_harness_service/realtime/local_channel.py:536-603 | chunking, framing, decoding in order and concatenating gives the audio back |
| IdentityTable.PartitionAlways | src/simple_harness_service/realtime/recovery.py:28-82 | any sequence of registrations and generations, whatever raises, keeps the table a partition |
| IdentityTable.PartitionMeaning | src/simple_harness_service/realtime/recovery.py:41-46 | what that means: every canonical id maps to its own item, and two ids share it exactly when they share the item; lists of different items are disjoint |
| IdentityTable.RegisterKeepsPartition | src/simple_harness_service/realtime/recovery.py:48-82 | a successful registration keeps the partition |
| IdentityTable.RegistersExactly | src/simple_harness_service/realtime/recovery.py:48-82 | exactly when a registration is refused and how, when it leaves an item of another role alone, and which ids it stores with which role, source, generation, confirmation, aliases and origin |
| IdentityTable.KeepsExactly | src/simple_harness_service/realtime/recovery.py:33-39 | a new generation keeps exactly the confirmed users, as they are |
| IdentityTable.RegisterIsStable | src/simple_harness_service/realtime/recovery.py:48-82 | a successful registration never changes the role or canonical id of a mapped id and never un-confirms it; its origin stays exactly when the call does not store it anew, or the origin is not empty, or the old source is empty |
| IdentityTable.EmptySourceMovesOrigin | src/simple_harness_service/realtime/recovery.py:71-79 | a concrete registration that changes an empty origin |
| IdentityTable.ConfirmedUserForever | src/simple_harness_service/realtime/recovery.py:33-82 | over any run, whatever raises, a confirmed user identity is never lost or un-confirmed and keeps its canonical id and a non-empty origin |
| IdentityTable.MappedIsStable | src/simple_harness_service/realtime/recovery.py:48-82 | over any run of registrations and generations, an id that stays mapped keeps role, canonical id, a confirmation once given and a non-empty origin |
| IdentityTable.RealtimeIdentityTable.RegisterItem | src/simple_harness_service/realtime/recovery.py:48-82 | the object registers exactly as modelled; a raising call changes nothing |
| Recovery.SnapshotRoundTrip | src/simple_harness_service/realtime/recovery.py:142-276 | a snapshot restores exactly when within the size limits, with acceptable tool call ids and with confirmed messages on confirmed user items; then it gives the state with only confirmed user identities, and snapshotting that gives the same snapshot |
| Recovery.ReachableRoundTrip | src/simple_harness_service/realtime/recovery.py:142-276 | the same for every state reached by any operations |
| Recovery.SystemMessageDoesNotRestore | src/simple_harness_service/realtime/recovery.py:84-89 | for all ids, a session that identifies a system item, claims a message and confirms it with that item reaches a state whose own snapshot is refused |
| Recovery.LongCallIdDoesNotRestore | src/simple_harness_service/realtime/session.py:1087-1090 | for every id that is blank or longer than 512 characters, a session that records one tool call under it, with no messages at all, reaches a state whose own snapshot is refused |
| Recovery.MessageWithoutUserDoesNotRestore | src/simple_harness_service/realtime/recovery.py:258-275 | a confirmed message whose item is not a confirmed user identity, for whatever reason, makes the snapshot unacceptable |
| Recovery.AtMostOnce | src/simple_harness_service/realtime/recovery.py:124-140 | across rebinds and restores each call id is dispatched at most once and each idempotency key authorises at most one injection |
| Recovery.ClaimsAfterInjection | src/simple_harness_service/realtime/recovery.py:124-136 | after a key authorised an injection the same digest never injects again and returns the confirmed item, a changed digest never succeeds |
| Recovery.ClaimsExactly | src/simple_harness_service/realtime/recovery.py:124-136 | how every claim is answered, from the history alone: unusable ids refused, a key not injected before injected, afterwards the same digest answered once confirmed and all else refused |
| Recovery.FirstTimesCount | src/simple_harness_service/realtime/session.py:1084-1090 | a call of a known session is dispatched exactly when no session of its line dispatched it before; a confirmation counts exactly for an injected key |
| Recovery.BeginsExactly | src/simple_harness_service/realtime/recovery.py:112-116 | a session begins exactly under a usable id, with the higher of the next and the requested generation, keeping exactly its confirmed users and everything else |
| Recovery.CompletesExactly | src/simple_harness_service/realtime/session.py:1040-1050 | a completed input is recorded exactly when its identity is one of a spoken input |
| Recovery.ConfirmedByLast | src/simple_harness_service/realtime/recovery.py:138-140 | a confirmed item id comes from the last confirmation of its key |
| Recovery.NewestSessionIsCurrent | src/simple_harness_service/realtime/recovery.py:112-116 | generations strictly increase, so only the newest session of a logical session is current |
| Recovery.StaysHealthy | src/simple_harness_service/realtime/recovery.py:100-140 | every reachable state is well-formed |
| Recovery.RunGrows | src/simple_harness_service/realtime/recovery.py:112-140 | generations, seen calls, completed inputs and message keys never shrink |
| Recovery.RealtimeRecoveryState.Claim | src/simple_harness_service/realtime/recovery.py:124-136 | the object claims exactly as modelled |
| Recovery.RealtimeRecoveryState.Begin | src/simple_harness_service/realtime/recovery.py:112-116 | the object hands out exactly the next generation |
| ContextAck.ConfirmationsFifoOneShot | src/simple_harness_service/realtime/adapters/qwen_omni.py:485-589 | over any run each request is confirmed at most once and confirmations come in append order |
| ContextAck.ConfirmsExactly | src/simple_harness_service/realtime/adapters/qwen_omni.py:485-589 | an item confirms exactly when it is a new echo of the oldest outstanding message, with equal role and text parts and no voice item, and the identity table takes it (assistant messages are not registered) |
| ContextAck.EchoesExactly | src/simple_harness_service/realtime/adapters/qwen_omni.py:485-589 | in plain terms: a new item confirms the first message that expects an echo exactly when it is a completed message of its role with exactly the sent text and no spoken input, under its own or the request's id, and can be registered; then exactly that request leaves; any other is refused without a change |
| ContextAck.HearsExactly | src/simple_harness_service/realtime/adapters/qwen_omni.py:505-533 | spoken input is registered under its user and remembered, or refused under an outstanding id |
| ContextAck.UpdatesExactly | src/simple_harness_service/realtime/adapters/qwen_omni.py:233-258 | a session update confirms the outstanding instructions exactly when it repeats them but for blanks at the ends; without any it is readiness; any other is refused |
| ContextAck.RejectsExactly | src/simple_harness_service/realtime/adapters/qwen_omni.py:416-439 | an error gives up exactly the outstanding request it names, or the only one when it can be put down to a request; any other ends the session |
| ContextAck.EchoConfirms | src/simple_harness_service/realtime/adapters/qwen_omni.py:146-161 | from request to confirmation: with no other message outstanding the echo of an appended message confirms it and registers both ids, for all new usable ids |
| ContextAck.NeverThroughConsumed | src/simple_harness_service/realtime/adapters/qwen_omni.py:485-589 | no confirmation comes through an event id used up earlier by an item handled without an error, an awaited echo whose registration raised, or a session update that was taken, nor through the server id of such an item or echo or the id of a rejected request |
| ContextAck.AlwaysInOrder | src/simple_harness_service/realtime/adapters/qwen_omni.py:146-182 | over any run, outstanding requests stand in append order behind every confirmed one, confirmations stand in append order, and whatever a confirmation used is remembered as seen |
| ContextAck.QwenContext.ContextMessageCreated | src/simple_harness_service/realtime/adapters/qwen_omni.py:485-589 | the object handles a created item exactly as modelled |
| ContextAck.QwenContext.ContextTextParts | src/simple_harness_service/realtime/adapters/qwen_omni.py:592-604 | the loop returns the text parts, or nothing when any part is not text |
| ContextAck.QwenContext.Reject | src/simple_harness_service/realtime/adapters/qwen_omni.py:390-439 | a rejection removes exactly the request it is attributed to |
| Diagnostics.Conservation | src/simple_harness_service/realtime/observability.py:189-233 | in every state of every interleaving: emitted = dropped + finished sink calls + pending, pending minus queued is 0 or 1, queued is within the limit and no put met a full queue |
| Diagnostics.AdmitsExactly | src/simple_harness_service/realtime/observability.py:189-233 | an emitted event is handed on exactly when no closer has passed its lock region and fewer than the limit wait; otherwise it is counted as dropped |
| Diagnostics.ClosedExactly | src/simple_harness_service/realtime/observability.py:266-285 | the recorder is closed exactly when a closer has passed, and the failures counted are exactly the sink calls that raised |
| Diagnostics.FirstCloserSignals | src/simple_harness_service/realtime/observability.py:266-285 | the first closer, and only the first, owes the sentinel |
| Diagnostics.EveryAdmittedEventReachesTheSink | src/simple_harness_service/realtime/observability.py:287-303 | the sink sees a prefix of what was admitted, in order, and all of it by the time the worker stops |
| Diagnostics.SentinelOnceAndLast | src/simple_harness_service/realtime/observability.py:266-285 | the sentinel is put at most once and nothing is admitted behind it |
| Diagnostics.WorkerFinishes | src/simple_harness_service/realtime/observability.py:287-303 | once the sentinel is put the worker is never stuck and every worker step brings its end strictly closer |
| Diagnostics.FlushMeansDelivered | src/simple_harness_service/realtime/observability.py:253-264 | flush sees nothing pending exactly when every admitted event's sink call is over |
| FrameCodec.SplitInvariance | src/simple_harness_service/codec.py:46-58 | any cutting of a byte stream yields the frames and leftover of a single feed, or the same failure |
| FrameCodec.LeftoverIsIncomplete | src/simple_harness_service/codec.py:46-58 | the leftover is always an incomplete frame shorter than 4 + FRAME_MAX_BYTES |
| FrameCodec.OversizePoisons | src/simple_harness_service/codec.py:46-58 | after an oversize header every later feed fails the same way, however many feeds follow and whatever they raised; the buffer only grows |
| FrameCodec.DecodesEncodedFrames | src/simple_harness_service/codec.py:21-58 | feeding concatenated encoded frames in any cutting returns exactly their payloads |
| FrameCodec.EncodesExactly | src/simple_harness_service/codec.py:21-25 | a payload is encoded exactly when it is at most 1 MiB, behind its big-endian length, and comes back from the decoder, or fails there if it is no object |
| FrameCodec.ReaderAgreesWithDecoder | src/simple_harness_service/codec.py:65-71 | the blocking reader and the incremental decoder read the same values from a stream |
| FrameCodec.FrameDecoder.Feed | src/simple_harness_service/codec.py:46-58 | the in-place buffer loop computes the batch parse of buffer plus data |
| ToolSchema.GuardNeverDecides | src/simple_harness_service/realtime/tool_schema.py:155-202 | on every accepted schema the depth-bounded evaluator equals the fuel-free meaning, for all values |
| ToolSchema.GuardIsExact | src/simple_harness_service/realtime/tool_schema.py:38-82 | the bound of validation and the guard of evaluation meet exactly |
| ToolSchema.MeansItsKeywords | src/simple_harness_service/realtime/tool_schema.py:155-202 | a value has a schema's meaning exactly when it meets every keyword of the schema by itself, each stated on its own as the validation vocabulary has it |
| ToolSchema.AcceptsItsKeywords | src/simple_harness_service/realtime/tool_schema.py:38-82 | a level of a schema is accepted exactly when it is an object with known keywords only, each well written by itself |
| ToolSchema.ValidatesExactly | src/simple_harness_service/realtime/tool_schema.py:38-82 | a schema is accepted exactly when it is well written at every level and nested at most 32 levels |
| ToolSchema.SubSchemasExactly | src/simple_harness_service/realtime/tool_schema.py:50-72 | the sub-schemas are exactly the properties, additional properties, items and alternatives |
| ToolSchema.CountMeaning | src/simple_harness_service/realtime/tool_schema.py:155-202 | counting matches decides allOf, anyOf and oneOf as section 10.2.1 of JSON Schema Core 2020-12 defines them |
| ToolSchema.IntegerMeansWhole | src/simple_harness_service/realtime/tool_schema.py:123-138 | integer accepts exactly numbers with a zero fraction, booleans excluded (section 6.1.1 of JSON Schema Validation 2020-12) |
| ToolSchema.EqualityIsEquivalence | src/simple_harness_service/realtime/tool_schema.py:141-152 | value equality is an equivalence on nested values and never equates booleans with numbers |
| ToolSchema.EqualityIsNormal | src/simple_harness_service/realtime/tool_schema.py:141-152 | two values are equal exactly when their normal forms are the same |
| ToolSchema.EqualValuesFareAlike | src/simple_harness_service/realtime/tool_schema.py:155-202 | a schema does not distinguish equal values |

## Left out

- JSON text, base64, SHA-256, UUIDs and regular expressions are opaque: payloads, ids and digests are values, decoders are functions.
- Clocks: a timeout or a failing send is a step of its own that may happen at any time; playback arithmetic is over reals, so float rounding of `sent_audio_ms` and of positions is not modelled.
- Diagnostic contents, failure contexts, late and duplicate counters, and the size and capability checks of tool outputs and context texts.
- Whether tool arguments satisfy their schema is a parameter of the session; the evaluator itself is in ToolSchema.dfy.
- The consumer's filter that hides non-terminal events of a stale generation; the model shows them as taken.
- Adapters are assumed never to produce SessionClosed, which neither adapter does; it would be enqueued without ending the session.
- Starting: a run begins when `start()` has returned; the first send inside it, which can fail before there is a receive loop, is not modelled.
- A sink that raises something other than an Exception, which ends the worker thread; in the diagnostics model the worker survives every raise.
- Closing with an invalid reason, which raises after intent was claimed.
- Context request futures and their acknowledgement ids inside the session; the ids are in ContextAck.dfy and Recovery.dfy.
- The receive loop's transport shutdown and cancellation: a step that may stop the loop at any time after the end is published.
- The session's fields for queue, input accounting, responses and tool calls are grouped into component objects, and tool records are values in a map instead of mutable objects.
- The diagnostics recorder is a step system instead of a class, because several threads change it.
- Handles to identity items that callers keep are values, so that a later change is not seen through an old handle; canonicalisation by Unicode form is not modelled.
- The input acknowledgement as a statement about upstream delivery: it names the highest released sequence, which may include audio still batched.
- The local channel's own terminal claim and its JSON control messages; duplicate-key rejection in tool arguments and the validation of whole tool catalogues.
- Transports, connectors, TLS, credentials, terminal UI, markdown, and the OpenAI adapter, which repeats the Qwen shape with less state.
