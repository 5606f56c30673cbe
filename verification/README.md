# Verified model of the agent runtime, extension trust and memory

This project models the parts of the Bastion repository where several parties
race, where text must stand for exactly one thing, or where one computation has
two forms, and proves what holds of them on all inputs and all runs.

- **Claude Code session** (`ClaudeState`, `ClaudeSystem`, `ClaudeLifecycle`,
  `ClaudeEffects`, `ClaudeCorrelation`, `ClaudeOutcomes`, `ClaudePermissions`,
  `ClaudeTheorems`, `ClaudeStale`, `ClaudeTools`, `ClaudeRequests`, `ClaudeEndings`,
  `ClaudeFrames`, `ClaudeSession`). Each critical section is a function on the locked state and
  an imperative method proved against it; parsed frames are read field by field.
  The system runs reader, caller and watchdogs concurrently, one lock acquisition
  per step, with the gaps between two acquisitions kept as program counters. The
  harness is a queue that answers each written user frame with one `result`, in
  order.
- **Codex turns** (`CodexTurns`, `CodexInvariant`, `CodexTheorems`,
  `CodexOutcomes`, `CodexShared`). Every lock acquisition and every send is its
  own step. A turn is always in one place: the task map, one remover's hands, or
  ended.
- **Watchdog clocks** (`Clocks`). Both adapters' bookkeeping against one
  reference: the instants at which no permission request was waiting.
- **Trace checker and acpx** (`Events`, `Conformance`, `JsonValues`, `Acpx`,
  `AcpxReports`). The conformance checker is the specification the adapters are
  held to; the acpx interpreter is compared with its frame history.
- **Signed content** (`Characters`, `Content`, `ContentWalk`, `Signing`, `Trust`). The path
  rules, the directory walk, the canonical payload with a parser for it, and
  signature verification over an abstract scheme.
- **Belief store** (`Beliefs`, `BeliefTheorems`, `BeliefHistory`, `BeliefStore`). Three tables,
  one method per operation, and invariants over every sequence of operations.
- **Tool calls, line counts, messages, paths** (`Filters`, `ToolCalls`, `LineCounts`,
  `Messages`, `MessageTexts`, `Paths`). Accumulators and duplicated code compared with simple
  definitions.

Some statements of the documentation, or natural expectations, are false; each is
replaced by its exact condition beside an input that shows the failure. The walk
does not fail on every name that is not UTF-8 nor on every unreadable entry
(`ContentWalk.FromDirExact`, `RejectsByNames`). The codex trace can have an
event after `Ended` (`AcceptedExactlyWhenNotOvertaken`). A finished codex
watchdog does not mean that `Ended` was sent (`EndedOnceWatchdogDone`). A decision
on a request of a task that is no longer current can still be answered after a
failed submit (`StaleDecisionExactly`). The acp line counts do not match those of
acpx (`AdaptersAgreeExactly`). An evaporation with a zero floor can reach the zero
sentinel: at once with a zero factor (`HarshEvaporationKills`), and by underflow in
floating point with any factor of at most one half (`FloatingDecayExactly`).

`dafny verify dfyconfig.toml` checks the whole project.

## Model

| member | source | states |
|---|---|---|
| `Conformance.ValidateNoPostTerminalEvents` | crates/bastion-agent-runtime/src/conformance.rs:261-276 | accepts exactly the traces with no event of a task after that task's `Ended`; a rejection names the first offending event, and everything before it is accepted |
| `Conformance.Compositional` | crates/bastion-agent-runtime/src/conformance.rs:243-276 | a trace is accepted exactly when the sub-trace of every single task is |
| `ClaudeTheorems.ResultCorrelation` | crates/bastion-agent-runtime/src/claude_code.rs:787-971 | after every run, while the session is live, the written user frames without a handled `result` are exactly `skip_results` tasks already ended, then the current task once written; an event sent for a frame is an event of the task that frame belongs to |
| `ClaudeTheorems.TerminalDiscipline` | crates/bastion-agent-runtime/src/claude_code.rs:976-991 | after every run the checker accepts the trace, no task has two `Ended`, and a task whose submit returned Ok is current or has exactly one |
| `ClaudeTheorems.EndsWithForcedOutcome` | crates/bastion-agent-runtime/src/claude_code.rs:976-991 | a task on which cancel, timeout or a turn-scoped denial forced an outcome ends with the last one forced |
| `ClaudeTheorems.TimeoutOnlyAfterBudget` | crates/bastion-agent-runtime/src/claude_code.rs:993-1022 | `TimedOut` is recorded and reported only for a task that ran its whole budget with no decision outstanding; until a stop begins the clock is exactly that time |
| `ClaudeTheorems.AnsweredAtMostOnce` | crates/bastion-agent-runtime/src/claude_code.rs:1141-1176 | if the harness never repeats a request id, no two replies written to it answer the same permission request |
| `ClaudeTheorems.AllowedOnlyByOwner` | crates/bastion-agent-runtime/src/claude_code.rs:1141-1176 | if the harness never repeats a request id, an `allow` answers a request only when the owner decided Allow on the id issued for it, and no other decision was taken on that id |
| `ClaudeTheorems.StaleDecisionIgnored` | crates/bastion-agent-runtime/src/claude_code.rs:1141-1152 | while the session is live, a decision on an id issued for any task but the current one changes nothing |
| `ClaudeStale.StaleDecisionExactly` | crates/bastion-agent-runtime/src/claude_code.rs:1084-1092 | in every session, such a decision changes nothing except exactly when a submit whose write failed left that request pending and neither the end of the stream nor a decision has removed it since |
| `ClaudeStale.StaleAllowHappens` | crates/bastion-agent-runtime/src/claude_code.rs:1084-1092 | a run in which such a decision is answered: an Allow queued for a crashed session without a task |
| `ClaudeStale.StaleAllowAfterWriteHappens` | crates/bastion-agent-runtime/src/claude_code.rs:1084-1092 | another: the user frame was written and the harness asked before submit saw its write fail |
| `ClaudeTheorems.IdsNeverReused` | crates/bastion-agent-runtime/src/claude_code.rs:887-901 | over every continuation of every run a permission id stands for the request and task it was issued for |
| `ClaudeTheorems.CrashedAndClosingAbsorb` | crates/bastion-agent-runtime/src/claude_code.rs:1047-1075 | once crashed or closing, a session stays so and admits no further task, over every continuation of every run |
| `ClaudeTheorems.Safety` | crates/bastion-agent-runtime/src/claude_code.rs:698-991 | the joint invariant of lifecycle, correlation, origins, outcomes, clock and permissions holds after every interleaving |
| `ClaudeLifecycle.LifecycleStep` | crates/bastion-agent-runtime/src/claude_code.rs:787-991 | every critical section keeps the terminal discipline, given that no `result` is read for an unwritten task |
| `ClaudeCorrelation.CorrelatedStep` | crates/bastion-agent-runtime/src/claude_code.rs:787-971 | every critical section keeps the match between unanswered user frames and tasks |
| `ClaudeCorrelation.NoPremature` | crates/bastion-agent-runtime/src/claude_code.rs:849-860 | the correlation implies that no `result` is handled for a task whose user frame is not yet written |
| `ClaudeCorrelation.DispatchOwner` | crates/bastion-agent-runtime/src/claude_code.rs:849-929 | a frame handled as the current task's own belongs to the current task, and its `result` leaves nothing owed |
| `ClaudePermissions.PermissionsStep` | crates/bastion-agent-runtime/src/claude_code.rs:878-970 | every critical section keeps: pending ids name the request they were issued for, still unanswered, and replies are pairwise for different requests |
| `ClaudeOutcomes.ForcedStep` | crates/bastion-agent-runtime/src/claude_code.rs:787-817 | every critical section keeps the ended tasks' outcomes equal to the last forced outcome |
| `ClaudeOutcomes.ClockStep` | crates/bastion-agent-runtime/src/claude_code.rs:884-894 | every critical section keeps the watchdog clock equal to the decision-free running time until a stop begins |
| `ClaudeState.DispatchShape` | crates/bastion-agent-runtime/src/claude_code.rs:849-929 | only a `result` frame ends the task, with the forced outcome if there is one, and every event of a frame belongs to the task |
| `ClaudeEffects.StepEffect` | crates/bastion-agent-runtime/src/claude_code.rs:698-1176 | every enabled step leaves the state, and adds the events and replies, of the one critical section it stands for |
| `ClaudeSession.Session.FinishTask` | crates/bastion-agent-runtime/src/claude_code.rs:976-991 | clears the task, its pending requests and its clock, and sends its one `Ended` |
| `ClaudeSession.Session.SubmitGate` | crates/bastion-agent-runtime/src/claude_code.rs:1047-1075 | refuses a killed, crashed or busy session unchanged; otherwise makes the task current with a fresh clock |
| `ClaudeSession.Session.BeginStop` | crates/bastion-agent-runtime/src/claude_code.rs:787-795 | records the forced outcome and drains the pending requests, if the task is still current |
| `ClaudeSession.Session.ForceStop` | crates/bastion-agent-runtime/src/claude_code.rs:812-817 | ends the task if the grace period did not, counting the `result` it still owes |
| `ClaudeSession.Session.ReaderExited` | crates/bastion-agent-runtime/src/claude_code.rs:819-847 | end of stream: fails the current task and crashes the session, unless it was killed on purpose |
| `ClaudeSession.Session.Interpret` | crates/bastion-agent-runtime/src/claude_code.rs:1287-1428 | one parsed frame, read field by field, becomes the steps that produce exactly the events specified for it, and updates the remembered tool uses |
| `ClaudeFrames.ShownIsTarget` | crates/bastion-agent-runtime/src/claude_code.rs:1499-1619 | the path an edit's `Diff` shows and the file read for its artifact are one: from the root the shown text resolves to the target's, and is relative exactly when the target lies strictly inside the root |
| `ClaudeFrames.TruncateLongest` | crates/bastion-agent-runtime/src/claude_code.rs:1485-1496 | a cut text is the longest beginning of the text that fits the limit of bytes and ends between two characters |
| `ClaudeFrames.CountsOfEdit` | crates/bastion-agent-runtime/src/claude_code.rs:1542-1619 | an edit counts every line of its new text as added and of its old one as removed; a write only adds; other tools have no edits |
| `ClaudeFrames.CountsOfNotebook` | crates/bastion-agent-runtime/src/claude_code.rs:1499-1619 | a notebook edit is found under either path field and only adds |
| `ClaudeFrames.MultiEditIsEdits` | crates/bastion-agent-runtime/src/claude_code.rs:1542-1571 | several edits in one count as those edits one by one, of the one file |
| `ClaudeFrames.DetailNamesTarget` | crates/bastion-agent-runtime/src/claude_code.rs:1463-1483 | for an edit the line an approver reads names the path that resolves to the file that would be written |
| `ClaudeFrames.DetailShows` | crates/bastion-agent-runtime/src/claude_code.rs:1463-1483 | for the other tools it is the command, address or query, failing that a description that is not blank, failing that the whole input |
| `ClaudeFrames.BlocksRead` | crates/bastion-agent-runtime/src/claude_code.rs:1296-1305 | the blocks of an `assistant` and a `user` frame are read one by one, in order |
| `ClaudeFrames.AssistantBlocksRead` | crates/bastion-agent-runtime/src/claude_code.rs:1359-1393 | the wire form of text, thinking and tool uses, with a tool use's edits and target |
| `ClaudeFrames.ToolResultRead` | crates/bastion-agent-runtime/src/claude_code.rs:1395-1428 | the wire form of a tool result; a missing error flag means success |
| `ClaudeFrames.ControlsRead` | crates/bastion-agent-runtime/src/claude_code.rs:1306-1326 | the wire form of a permission request and of any other control request |
| `ClaudeFrames.UsageRead` | crates/bastion-agent-runtime/src/claude_code.rs:1327-1353 | a `result` frame counts plain, cached and cache-creating input tokens together |
| `ClaudeFrames.ResultsRead` | crates/bastion-agent-runtime/src/claude_code.rs:1327-1353 | a `result` frame succeeds when it says so and no error; the first error is the reason, else its subtype |
| `ClaudeFrames.InitRead` | crates/bastion-agent-runtime/src/claude_code.rs:1290-1295 | the wire form of an `init` frame |
| `ClaudeSession.Session.DispatchFrame` | crates/bastion-agent-runtime/src/claude_code.rs:849-929 | the locked part of dispatch leaves the state and trace of the specified step |
| `ClaudeSession.Session.DispatchIdleFrame` | crates/bastion-agent-runtime/src/claude_code.rs:931-970 | a frame of no task uses up one skipped result, notes an early exit, or denies a request |
| `ClaudeSession.Session.RespondPermission` | crates/bastion-agent-runtime/src/claude_code.rs:1141-1176 | answers a pending request once and restarts the clock when it was the last |
| `ClaudeSession.Session.Kill` | crates/bastion-agent-runtime/src/claude_code.rs:1126-1135 | closes the session and ends the task as cancelled if it is still current |
| `ClaudeSession.BlockStepEvents` | crates/bastion-agent-runtime/src/claude_code.rs:1287-1428 | the step list of a frame's blocks yields exactly the recursive event specification |
| `ClaudeTools.ToolsFromHistory` | crates/bastion-agent-runtime/src/claude_code.rs:1359-1428 | after every run the tool uses remembered are exactly those that some handled frame opened and none closed since (by their result, or a `result` frame), each as it was opened last |
| `ClaudeTools.HandledFrameSends` | crates/bastion-agent-runtime/src/claude_code.rs:1359-1428 | over every run: a handled `user` frame sends, block by block, each tool result with the name of the tool use it answers, and on success its edits and its readable file; an `assistant` frame sends what its blocks say, in order |
| `ClaudeTools.InitSays` | crates/bastion-agent-runtime/src/claude_code.rs:1215-1235 | an `init` frame is warned of exactly when its permission mode or its credential is not the expected one |
| `ClaudeRequests.NoRequestLost` | crates/bastion-agent-runtime/src/claude_code.rs:878-970 | a control request that was read is in the reader's hands, answered, or has an id; what has an id is pending or answered, or its task or the stream has ended |
| `ClaudeRequests.DecisionsCarriedOut` | crates/bastion-agent-runtime/src/claude_code.rs:1141-1176 | every decision taken is queued as the reply to its own request, with the input asked for, or with a denial that interrupts exactly for the turn scope |
| `ClaudeRequests.AskedOnce` | crates/bastion-agent-runtime/src/claude_code.rs:887-901 | the owner is asked exactly once about each request given an id, with the kind of action and the detail of that request |
| `ClaudeRequests.StatusTells` | crates/bastion-agent-runtime/src/claude_code.rs:976-991 | after every run, `Running` means that a task is current, and a current task means `Running` or marked by a cancel |
| `ClaudeEndings.OutcomeByCause` | crates/bastion-agent-runtime/src/claude_code.rs:976-991 | over every run each `Ended` was sent by a step that ends the then current task, with the outcome that step means (the frame's own, Cancelled, TimedOut, or failed for the reason of the end of the stream) unless another was forced |
| `ClaudeEndings.AdapterOnlyDenies` | crates/bastion-agent-runtime/src/claude_code.rs:931-970 | what the adapter answers by itself is an interrupting denial or the rejection of an unsupported request |
| `ClaudeEndings.UnsupportedNamed` | crates/bastion-agent-runtime/src/claude_code.rs:948-964 | an unsupported request is rejected under its own subtype, with or without a task |
| `ClaudeEndings.EarlyExitExactly` | crates/bastion-agent-runtime/src/claude_code.rs:931-950 | after every run the early-exit flag is set exactly when the stream ended or a `result` came with no task and none to skip |
| `ClaudeEndings.CancelMarkStays` | crates/bastion-agent-runtime/src/claude_code.rs:1110-1125 | a cancel marks the session unless it crashed, and the mark stays until the next submit or a crash |
| `ClaudeEndings.GateRefuses` | crates/bastion-agent-runtime/src/claude_code.rs:1047-1060 | a submit to a killed session is refused as killed, else to a crashed one as crashed, else to a busy one as busy |
| `ClaudeEndings.SubmitAnnounces` | crates/bastion-agent-runtime/src/claude_code.rs:1062-1082 | an admitted submit makes the next task current with a fresh clock and warns of a model hint exactly when there is one |
| `CodexTheorems.SingleTerminalEvent` | crates/bastion-agent-runtime/src/codex.rs:699-735 | after every run a registered turn is in the task map, held by exactly one remover, or ended exactly once |
| `CodexTheorems.OneTurnMapped` | crates/bastion-agent-runtime/src/codex.rs:972-1047 | after every run the task map holds at most one turn |
| `CodexTheorems.EndedOnceWatchdogDone` | crates/bastion-agent-runtime/src/codex.rs:1209-1249 | once a turn's watchdog has run to its end, the turn has its one `Ended` exactly when neither reader nor cancel still holds it |
| `CodexTheorems.TimedOutOnlyIfFired` | crates/bastion-agent-runtime/src/codex.rs:1218-1247 | `Ended{TimedOut}` is sent only for a turn whose watchdog set its marker |
| `CodexTheorems.MarkerDecides` | crates/bastion-agent-runtime/src/codex.rs:825-843 | when the reader judges a turn, the outcome is `TimedOut` exactly when the marker was set, else completed, interrupted or failed with the message as the wire says |
| `CodexTheorems.AcceptedExactlyWhenNotOvertaken` | crates/bastion-agent-runtime/src/codex.rs:810-870 | the checker accepts a run exactly when in its schedule no cancel or watchdog ends a task between the lookup of a notification of that task and any of its sends, however many events one lookup sends |
| `CodexTheorems.EventAfterEndedHappens` | crates/bastion-agent-runtime/src/codex.rs:810-823 | a run whose trace the checker rejects: a cancel between lookup and send |
| `CodexTheorems.ArtifactAfterEndedHappens` | crates/bastion-agent-runtime/src/codex.rs:847-870 | another: the cancel comes between two sends of one lookup, so the file of a completed change is published after `Ended` |
| `CodexTheorems.WatchdogDoneBeforeEndedHappens` | crates/bastion-agent-runtime/src/codex.rs:818-845 | a run with the watchdog finished and no `Ended` yet: the reader still holds the turn |
| `CodexTheorems.Safety` | crates/bastion-agent-runtime/src/codex.rs:668-1249 | the protocol's invariant holds after every interleaving of single lock acquisitions |
| `CodexOutcomes.OutcomeSourced` | crates/bastion-agent-runtime/src/codex.rs:825-845 | over every run each `Ended` carries a status that `turn/completed` had for a turn of that task, or is a timeout of a turn whose watchdog fired, or a cancel's |
| `CodexOutcomes.BusyExactly` | crates/bastion-agent-runtime/src/codex.rs:972-1047 | between the parties' sections the current turn is exactly the mapped one, so a submit is refused exactly while a turn has not ended |
| `CodexOutcomes.SubmitAnswered` | crates/bastion-agent-runtime/src/codex.rs:668-735 | a submit waiting for its turn has its request with the server, with the reader, or answered, by an error or by the turn registered for its task |
| `CodexInvariant.StructureStep` | crates/bastion-agent-runtime/src/codex.rs:699-1161 | every lock acquisition keeps ids, program counters and the one-turn rule |
| `CodexInvariant.ConservedStep` | crates/bastion-agent-runtime/src/codex.rs:818-1249 | every step keeps each turn in exactly one place |
| `CodexInvariant.MarkersStep` | crates/bastion-agent-runtime/src/codex.rs:825-843 | every step keeps a timeout marker set from the watchdog's mark until the turn is judged |
| `CodexShared.Shared.TurnCompleted` | crates/bastion-agent-runtime/src/codex.rs:818-845 | removes the turn, clears it as current, takes the marker, and sends one `Ended` if the turn was there |
| `CodexShared.Shared.CancelTurn` | crates/bastion-agent-runtime/src/codex.rs:1138-1154 | sends `Ended{Cancelled}` exactly when it was the one to remove the turn |
| `CodexShared.Shared.MarkTimedOut` | crates/bastion-agent-runtime/src/codex.rs:1219-1226 | marks an active turn as timed out |
| `CodexShared.Shared.EndTimedOut` | crates/bastion-agent-runtime/src/codex.rs:1235-1248 | ends the turn as timed out exactly when nothing else removed it |
| `CodexShared.Shared.TakePending` | crates/bastion-agent-runtime/src/codex.rs:668-697 | takes the pending entry of a request, if it is there |
| `CodexShared.Shared.TurnStarted` | crates/bastion-agent-runtime/src/codex.rs:707-725 | registers the turn in the task map and makes it current |
| `CodexShared.UndisturbedStart` | crates/bastion-agent-runtime/src/codex.rs:699-735 | with nothing in between, the reader's four small steps for a started turn do what TakePending and TurnStarted do |
| `CodexShared.UndisturbedCompletion` | crates/bastion-agent-runtime/src/codex.rs:818-845 | with nothing in between, the reader's four small steps do what TurnCompleted does |
| `CodexShared.UndisturbedCancel` | crates/bastion-agent-runtime/src/codex.rs:1111-1154 | with nothing in between, a cancel's small steps do what CancelTurn does on the turn it read |
| `CodexShared.UndisturbedMark` | crates/bastion-agent-runtime/src/codex.rs:1219-1226 | with nothing in between, a watchdog's first steps do what MarkTimedOut does |
| `CodexShared.UndisturbedTimeout` | crates/bastion-agent-runtime/src/codex.rs:1235-1248 | with nothing in between, a watchdog's last steps do what EndTimedOut does |
| `Clocks.AcpMeasuresFreeTime` | crates/bastion-agent-runtime/src/acp.rs:998-1020 | on every schedule, elapsed time minus counted wait is the time no request was waiting (union of intervals), also with requests carried over from an earlier turn; the turn times out exactly when that reached the budget and nothing waits |
| `Clocks.ClaudeMeasuresFreeTime` | crates/bastion-agent-runtime/src/claude_code.rs:993-1022 | on every schedule, claude's clock is that same time, and its watchdog fires under the same condition |
| `Clocks.ClocksAgree` | crates/bastion-agent-runtime/src/claude_code.rs:1008-1018 | the two adapters' watchdogs time the same schedule out at the same moments |
| `Clocks.RecordKeepsFreeTime` | crates/bastion-agent-runtime/src/acp.rs:609-643 | a request or decision changes the past of no instant |
| `Clocks.DecisionWait.Started` | crates/bastion-agent-runtime/src/acp.rs:610-618 | starts the running wait with the first outstanding decision |
| `Clocks.DecisionWait.Ended` | crates/bastion-agent-runtime/src/acp.rs:619-630 | adds the running wait when the last outstanding decision is taken, saturating at zero |
| `Clocks.DecisionWait.Current` | crates/bastion-agent-runtime/src/acp.rs:631-636 | the total with the running wait, and whether a decision is outstanding |
| `Clocks.DecisionWait.Reset` | crates/bastion-agent-runtime/src/acp.rs:637-646 | a new turn starts from zero, with a wait still running if one is outstanding |
| `Content.ContentDigests.Insert` | crates/bastion-extension-protocol/src/content.rs:28-32 | records a digest under a valid path, replacing any earlier one, and changes nothing under an invalid path |
| `Content.ValidPathByNames` | crates/bastion-extension-protocol/src/content.rs:107-122 | a joined path is valid exactly when every name on the way is non-empty, not `.` or `..`, and free of backslashes and control characters |
| `Content.SplitJoin` | crates/bastion-extension-protocol/src/content.rs:94-99 | splitting a joined path gives back its names |
| `Content.PutKeeps` | crates/bastion-extension-protocol/src/content.rs:28-37 | an insertion keeps the path order and changes the digest of that path only |
| `Content.Canonical` | crates/bastion-extension-protocol/src/content.rs:35-37 | equal maps iterate as equal sequences |
| `Content.DigestExactly` | crates/bastion-extension-protocol/src/content.rs:12-17 | a digest is exactly `sha256:` and the lower-case hexadecimal of 32 bytes |
| `ContentWalk.FromDir` | crates/bastion-extension-protocol/src/content.rs:60-105 | the recursive walk computes the specified result |
| `ContentWalk.Walk` | crates/bastion-extension-protocol/src/content.rs:74-105 | walking one directory in place appends exactly what the specification says, or fails |
| `ContentWalk.FromDirExact` | crates/bastion-extension-protocol/src/content.rs:55-64 | over every finite tree the walk fails exactly when the tree has an entry that cannot be pinned; otherwise it returns exactly the regular files outside `.sig`, keyed by joined path |
| `ContentWalk.OrderIrrelevant` | crates/bastion-extension-protocol/src/content.rs:74-105 | any two listing orders of one tree give the same result |
| `ContentWalk.RelativeInjective` | crates/bastion-extension-protocol/src/content.rs:91-98 | distinct files never collide on a key |
| `ContentWalk.RejectsByNames` | crates/bastion-extension-protocol/src/content.rs:91-122 | which file names make the walk fail: one that is not UTF-8, or, outside `.sig`, one that no normalized path can contain |
| `ContentWalk.NonUtf8EmptyDirAccepted` | crates/bastion-extension-protocol/src/content.rs:55-59 | a directory with a non-UTF-8 name and no file below is accepted, though the documentation says such a name fails the walk |
| `ContentWalk.UnreadableSignatureAccepted` | crates/bastion-extension-protocol/src/content.rs:99-102 | an unreadable file ending in `.sig` is accepted, though the documentation says an unreadable entry fails the walk |
| `Signing.SigningPayload` | crates/bastion-extension-protocol/src/trust.rs:143-166 | refuses an empty id or one with control characters; otherwise appends the header and one line per entry |
| `Signing.RoundTrip` | crates/bastion-extension-protocol/src/trust.rs:143-166 | a parser recovers kind, id, version and the whole path-to-digest map from the payload |
| `Signing.ParseExact` | crates/bastion-extension-protocol/src/trust.rs:143-166 | a text is a manifest's payload exactly when the parser accepts it as that manifest |
| `Signing.Injective` | crates/bastion-extension-protocol/src/trust.rs:127-142 | two payloads are equal exactly when kind, id, version and path-to-digest map are |
| `Signing.PayloadIsItsLines` | crates/bastion-extension-protocol/src/trust.rs:143-166 | a payload is exactly its lines: the domain, kind, id and version, then digest and path of each entry |
| `Signing.NewlinePathCollides` | crates/bastion-extension-protocol/src/content.rs:107-122 | without the control-character rule on paths two different contents have one payload |
| `Trust.TrustAnchors.Add` | crates/bastion-extension-protocol/src/trust.rs:228-259 | pushes a key exactly when publisher, tier and key are acceptable, and otherwise changes nothing |
| `Trust.TrustAnchors.AddKeyFile` | crates/bastion-extension-protocol/src/trust.rs:265-299 | adds all keys of the file's lines in order, or nothing when any line is malformed |
| `Trust.KeysOfAcceptable` | crates/bastion-extension-protocol/src/trust.rs:260-299 | a key file adds only keys that `add` takes, at the given tier; at the local tier it adds none |
| `Trust.WordsOfSpaced` | crates/bastion-extension-protocol/src/trust.rs:260-299 | splitting a line gives the words it was written with, however they are spaced |
| `Trust.KeyLineReads` | crates/bastion-extension-protocol/src/trust.rs:260-299 | a line of publisher, `ed25519` and text adds the decoded key to that publisher exactly when it decodes, `add` takes it, and it is no comment |
| `Trust.IgnoredExactly` | crates/bastion-extension-protocol/src/trust.rs:260-299 | a line is skipped exactly when it is blank or its first word starts a comment |
| `Trust.OnlySoundKeys` | crates/bastion-extension-protocol/src/trust.rs:228-299 | however a host is configured it trusts only valid, strong 32-byte keys of named publishers above the local tier, each given by one of the additions |
| `Trust.VerifiedExactly` | crates/bastion-extension-protocol/src/trust.rs:303-355 | a signature is verified at a tier exactly when a key of its publisher accepts it at that tier and none accepts it at a higher one |
| `Trust.UnverifiedExactly` | crates/bastion-extension-protocol/src/trust.rs:303-355 | exactly which signatures are from an unknown publisher and which are invalid |
| `Trust.ElevatedOnlyByTrustedKey` | crates/bastion-extension-protocol/src/trust.rs:180-190 | more than the local tier is granted exactly when a trusted key of the named publisher accepts |
| `Trust.MoreKeys` | crates/bastion-extension-protocol/src/trust.rs:199-205 | trusting more keys never lowers what is granted, and keys of other publishers change nothing |
| `Trust.NoReplay` | crates/bastion-extension-protocol/src/trust.rs:112-115 | under a scheme that binds a signature to one payload, one signature verifies for one manifest only |
| `BeliefTheorems.SafeRun` | crates/bastion-memory/src/sqlite.rs:46-590 | over every sequence of operations: revoked rows have weight 0, unrevoked factual rows weight 1, core rows are factual, each belief has one provenance row, each queued correction names a belief of its owner, and queue ids are distinct |
| `BeliefTheorems.RowsRemain` | crates/bastion-memory/src/sqlite.rs:46-508 | no row is ever removed; its content, owner and kind never change; no revocation is undone; its provenance stays |
| `BeliefTheorems.RevokedForEver` | crates/bastion-memory/src/sqlite.rs:150-169 | after a revocation by its owner a belief keeps weight 0 and matches no retrieval, over every continuation |
| `BeliefTheorems.RevokedExactly` | crates/bastion-memory/src/sqlite.rs:150-169 | a row is revoked later exactly when its own owner revoked it in between |
| `BeliefTheorems.StoredAsGiven` | crates/bastion-memory/src/sqlite.rs:46-477 | a stored belief starts fresh with weight 1 under a new id, and over every continuation reads as it was given: owner, persona, content, tier, time, and keywords and issue or the core flag |
| `BeliefTheorems.FactRetrieved` | crates/bastion-memory/src/sqlite.rs:360-405 | retrieve_all_beliefs returns a stored factual belief, as it was given, to its owner and to nobody else, until the owner revokes it, whatever else happens |
| `BeliefTheorems.CoreFactLoaded` | crates/bastion-memory/src/sqlite.rs:313-358 | load_core returns it until then exactly when it was stored as a core belief |
| `BeliefTheorems.TaggedFactRetrieved` | crates/bastion-memory/src/sqlite.rs:92-148 | retrieve_tagged returns it until then, at any time, exactly when it was stored without a persona or with the one asked for |
| `BeliefTheorems.TrailRetrieved` | crates/bastion-memory/src/sqlite.rs:360-405 | a trail of the global playbook is retrieved until its owner revokes it, if every evaporation has a positive floor |
| `BeliefTheorems.GuardsRedundant` | crates/bastion-memory/src/sqlite.rs:313-358 | on every reachable store load_core returns only rows of weight 1 that retrieve_all also returns, and the validity window excludes nothing |
| `BeliefTheorems.ProvenanceKept` | crates/bastion-memory/src/sqlite.rs:407-432 | a belief's provenance is for ever the one row stored with it, for its owner only |
| `BeliefTheorems.OwnerIsolation` | crates/bastion-memory/src/sqlite.rs:150-508 | operations by other owners leave an owner's rows, provenance and queued corrections unchanged |
| `BeliefTheorems.QueueConserved` | crates/bastion-memory/src/sqlite.rs:510-590 | for each owner over any run, what was queued plus what was recorded equals what takes returned plus what is queued |
| `BeliefTheorems.DeliveredOnce` | crates/bastion-memory/src/sqlite.rs:549-590 | from an empty store every correction is delivered at most once, to its owner, and none is made up |
| `BeliefTheorems.EvaporationClosedForm` | crates/bastion-memory/src/sqlite.rs:222-255 | over the reals, k evaporations turn a trail's weight w into max(floor, w * factor^k) and change nothing else of the row |
| `BeliefTheorems.TrailsStayAlive` | crates/bastion-memory/src/sqlite.rs:238-247 | if every accepted evaporation has a positive floor, no trail reaches the zero sentinel, over every run |
| `BeliefTheorems.FloatingDecayExactly` | crates/bastion-memory/src/sqlite.rs:238-247 | with multiplication that underflows as IEEE 754 doubles do, for every positive weight: no number of evaporations takes it to zero exactly when the floor is positive or the factor exceeds one half |
| `BeliefTheorems.HarshEvaporationKills` | crates/bastion-memory/src/sqlite.rs:222-255 | one accepted evaporation with both zero takes every live trail of its owner to zero |
| `BeliefTheorems.WeightsBounded` | crates/bastion-memory/src/sqlite.rs:199-311 | over mixed runs whose floors are at most F every weight stays within [0, max(100, F)] |
| `BeliefHistory.CountersExact` | crates/bastion-memory/src/sqlite.rs:479-508 | over every run each counter of a belief grew by exactly its owner's ratings of that kind |
| `BeliefHistory.LastWordHolds` | crates/bastion-memory/src/sqlite.rs:150-197 | over every run a belief is superseded by what its owner's last supersession of it said, and carries the time of his last revocation |
| `BeliefHistory.WeightOnlyWhenSelected` | crates/bastion-memory/src/sqlite.rs:199-311 | a weight changes only by its owner, and each operation changes only the kind of row it is for, with accepted parameters |
| `BeliefHistory.ReinforcementClosedForm` | crates/bastion-memory/src/sqlite.rs:199-283 | k reinforcements add k deltas, up to 100, and change nothing else |
| `BeliefHistory.WeakeningClosedForm` | crates/bastion-memory/src/sqlite.rs:285-311 | k weakenings take k deltas, down to zero, and change nothing else |
| `BeliefHistory.WeakeningUndoes` | crates/bastion-memory/src/sqlite.rs:257-311 | weakening by what was added restores the store exactly when the cap was not met or the row was at zero |
| `BeliefStore.SqliteMemory.StoreBelief` | crates/bastion-memory/src/sqlite.rs:46-90 | inserts the belief and its provenance row together under a fresh id |
| `BeliefStore.SqliteMemory.StoreProceduralBelief` | crates/bastion-memory/src/sqlite.rs:434-477 | the same for a procedural belief |
| `BeliefStore.SqliteMemory.RevokeBelief` | crates/bastion-memory/src/sqlite.rs:150-169 | zeroes and revokes the caller's own row, or reports an error and changes nothing |
| `BeliefStore.SqliteMemory.SupersedeBelief` | crates/bastion-memory/src/sqlite.rs:171-197 | marks the caller's old row superseded and touches no other |
| `BeliefStore.SqliteMemory.ReinforceBelief` | crates/bastion-memory/src/sqlite.rs:199-220 | adds to one untagged trail, capped at 100; refuses a negative delta; silent when no row matches |
| `BeliefStore.SqliteMemory.ReinforcePersonaBelief` | crates/bastion-memory/src/sqlite.rs:257-283 | the same for persona-tagged trails |
| `BeliefStore.SqliteMemory.WeakenPersonaBelief` | crates/bastion-memory/src/sqlite.rs:285-311 | subtracts, floored at zero |
| `BeliefStore.SqliteMemory.EvaporateBeliefs` | crates/bastion-memory/src/sqlite.rs:222-255 | decays exactly the owner's live untagged trails and returns how many; refuses an invalid factor or floor |
| `BeliefStore.SqliteMemory.RecordBeliefOutcome` | crates/bastion-memory/src/sqlite.rs:479-508 | increments exactly one counter of the caller's own row |
| `BeliefStore.SqliteMemory.RecordPendingCorrection` | crates/bastion-memory/src/sqlite.rs:510-547 | queues a correction only of a belief the caller owns |
| `BeliefStore.SqliteMemory.TakePendingCorrections` | crates/bastion-memory/src/sqlite.rs:549-590 | returns the owner's queued corrections and leaves exactly the others |
| `BeliefStore.SqliteMemory.ProvenanceFor` | crates/bastion-memory/src/sqlite.rs:407-432 | the join: the provenance rows of a belief the caller owns, else none |
| `Acpx.FrameInterpreter.OnValue` | crates/bastion-agent-runtime/src/acpx.rs:868-1063 | one frame changes the interpreter and yields the events the specification says |
| `Acpx.FrameInterpreter.OnUpdate` | crates/bastion-agent-runtime/src/acpx.rs:936-1024 | the session updates: text, tool calls, diffs, results and the file to publish |
| `Acpx.StateFromHistory` | crates/bastion-agent-runtime/src/acpx.rs:826-880 | until the prompt is answered, every field of the interpreter is a function of the frame history: first prompt id, number of permission requests, last path per tool call |
| `Acpx.ArtifactFromHistory` | crates/bastion-agent-runtime/src/acpx.rs:847-866 | a completed tool call publishes the file its own frames named last, however many frames ago |
| `Acpx.RunPromptReader` | crates/bastion-agent-runtime/src/acpx.rs:719-808 | for every input sequence the reader sends exactly the specified events, with exactly one `Ended`, last |
| `Acpx.ReaderEndsOnce` | crates/bastion-agent-runtime/src/acpx.rs:719-808 | whatever stops the reader and whenever, one `Ended`, after every other event of the task |
| `Acpx.OutcomeOfFirstCause` | crates/bastion-agent-runtime/src/acpx.rs:719-808 | the outcome is that of the first deciding input: deadline, malformed line, end of stream, or the first answer to the first prompt id |
| `Acpx.FirstCause` | crates/bastion-agent-runtime/src/acpx.rs:719-808 | every input sequence has a deciding point |
| `AcpxReports.ReaderSends` | crates/bastion-agent-runtime/src/acpx.rs:719-1063 | for every input sequence: frame by frame the text, tool calls, diffs, results, numbered permission requests and files its frames say, then the answer's usage and one `Ended` whose outcome is what the deciding input means |
| `AcpxReports.AuthLikeExactly` | crates/bastion-agent-runtime/src/acpx.rs:1080-1085 | an error is hidden exactly when its message speaks of credentials, in upper or lower case |
| `Acpx.ReadersConform` | crates/bastion-agent-runtime/src/acpx.rs:719-808 | prompt readers of distinct tasks, each on any input, interleaved in any way and stopped anywhere, produce a trace the checker accepts; a task whose reader finished has ended exactly once |
| `Acpx.BurstsConform` | crates/bastion-agent-runtime/src/conformance.rs:261-276 | the same for any event sequences that end their task once, last |
| `ToolCalls.Shared.RememberLocations` | crates/bastion-agent-runtime/src/acp.rs:583-590 | merges paths into the recorded ones, each once; two texts are one path when their components are equal |
| `ToolCalls.Shared.EmitToolCall` | crates/bastion-agent-runtime/src/acp.rs:1095-1118 | folds a tool call into what is known of it and reports it with its diffs |
| `ToolCalls.Shared.EmitToolCallUpdate` | crates/bastion-agent-runtime/src/acp.rs:1120-1172 | folds the patch first, then at a terminal status reports the accumulated state and forgets the call |
| `ToolCalls.Shared.EmitArtifacts` | crates/bastion-agent-runtime/src/acp.rs:1202-1220 | publishes exactly the listed paths that are allowed and readable, in order, each with its content |
| `ToolCalls.AccumulatorIsHistory` | crates/bastion-agent-runtime/src/acp.rs:1120-1172 | after every interleaving of patches the accumulator of a call is what its own patches since its last terminal one say |
| `ToolCalls.TerminalReport` | crates/bastion-agent-runtime/src/acp.rs:1120-1220 | at a terminal patch: the patch's own diffs, the result under the last title given, and on success exactly the allowed and readable files among the paths that call's own patches mention, by first mention |
| `ToolCalls.RunningReport` | crates/bastion-agent-runtime/src/acp.rs:1095-1172 | any other patch: the call itself, and one diff for each diff block, in order, with the lines of its texts |
| `ToolCalls.OnlyWorkspaceFiles` | crates/bastion-agent-runtime/src/acp.rs:1202-1220 | over every run of patches no file outside the workspace is published, and none with other content |
| `ToolCalls.LastTitleExactly` | crates/bastion-agent-runtime/src/acp.rs:1120-1135 | the title reported is the last one that is not empty |
| `ToolCalls.MentionsExactly` | crates/bastion-agent-runtime/src/acp.rs:1095-1140 | the paths collected are exactly the locations and the diff files of the call's patches |
| `ToolCalls.MentionsInOrder` | crates/bastion-agent-runtime/src/acp.rs:1095-1140 | a patch mentions its locations first, then the files of its diffs |
| `ToolCalls.RememberedFirst` | crates/bastion-agent-runtime/src/acp.rs:583-590 | remembering one by one yields exactly the first occurrences, in their first spelling |
| `ToolCalls.NoSamePaths` | crates/bastion-agent-runtime/src/acp.rs:583-590 | no two remembered paths have the same components |
| `ToolCalls.FirstOccurrencesUnique` | crates/bastion-agent-runtime/src/acp.rs:583-590 | only one list of paths has that content and order |
| `ToolCalls.InterleavingIrrelevant` | crates/bastion-agent-runtime/src/acp.rs:1120-1172 | two interleavings with the same patches of a call leave it in the same state |
| `LineCounts.LineDiffCounts` | crates/bastion-agent-runtime/src/acpx.rs:1091-1111 | the map-based counts are the sizes of the two multiset differences of the lines |
| `LineCounts.SumCounts` | crates/bastion-agent-runtime/src/acpx.rs:1103-1109 | summing the positive and the negative counts gives those sizes |
| `LineCounts.AcpExceedsByCommon` | crates/bastion-agent-runtime/src/acp.rs:1261-1265 | acp exceeds acpx on both sides by the number of common lines, so added minus removed agree |
| `LineCounts.AdaptersAgreeExactly` | crates/bastion-agent-runtime/src/acp.rs:1259-1265 | the two adapters report the same numbers exactly when the texts share no line |
| `LineCounts.AdaptersDisagree` | crates/bastion-agent-runtime/src/acp.rs:1259-1265 | a text on which they differ, though the documentation says they match |
| `LineCounts.NoDiffIsSmaller` | crates/bastion-agent-runtime/src/acpx.rs:1087-1111 | no positional line diff reports fewer added or removed lines than acpx |
| `LineCounts.LinesOfWritten` | crates/bastion-agent-runtime/src/acpx.rs:1091-1111 | reading a text gives the lines it was written with, whether ended by a line feed or with a carriage return, the last perhaps not ended |
| `LineCounts.EveryTextIsWritten` | crates/bastion-agent-runtime/src/acpx.rs:1091-1111 | every text is lines written so |
| `Messages.BuildOpenAiMessages` | crates/bastion-providers/src/lib.rs:76-200 | the builder's loops compute the specified message list |
| `Messages.BuildGeminiMessages` | crates/bastion-providers/src/gemini.rs:231-324 | the builder's loops compute the specified JSON list |
| `Messages.BuildersAgree` | crates/bastion-providers/src/gemini.rs:224-324 | for every history, erasing `extra_content` from the Gemini list gives the wire form of the shared list |
| `Messages.IdsKept` | crates/bastion-providers/src/lib.rs:72-200 | every tool call and tool result of the history is sent once, in order, and no other |
| `Messages.GeminiIdsKept` | crates/bastion-providers/src/gemini.rs:231-324 | the same of the ids read out of the Gemini list |
| `Messages.SentCallsParseBack` | crates/bastion-providers/src/gemini.rs:194-222 | if the tool inputs sent survive being rendered as JSON text and parsed, parsing a sent assistant message returns each original id, name, input and extra |
| `Messages.AccumulateExact` | crates/bastion-providers/src/lib.rs:113-143 | an assistant's accumulated text equals the joined text exactly when its first text is not empty (or there is at most one) |
| `MessageTexts.HistorySent` | crates/bastion-providers/src/lib.rs:58-200 | the shared list is the system prompt, if any, then per message of the history: its own text or its text parts with one line break between, under its role; its tool calls in order; or its tool results, each with id and content |
| `MessageTexts.SentTextSplits` | crates/bastion-providers/src/lib.rs:58-70 | splitting a sent text at its line breaks gives the text parts back, when each is one line |
| `MessageTexts.GeminiReads` | crates/bastion-providers/src/gemini.rs:224-324 | the Gemini list reads, message by message, role, text, ids, names and arguments, as the shared list |
| `MessageTexts.ResponseCalls` | crates/bastion-providers/src/gemini.rs:194-222 | a response's calls are exactly the items with an id and a name, in order; arguments that do not parse become an empty object |
| `Paths.Normalize` | crates/bastion-agent-runtime/src/claude_code.rs:1528-1540 | the push and pop loop resolves the path, leaving a root at most and names |
| `Paths.NormalizedIdempotent` | crates/bastion-agent-runtime/src/claude_code.rs:1526-1540 | normalizing is idempotent and leaves no `.` or `..` |
| `Paths.ComponentLaws` | crates/bastion-agent-runtime/src/claude_code.rs:1528-1540 | `.` changes nothing, `..` takes back the name before it, a root starts over, wherever they stand |
| `Paths.OneMore` | crates/bastion-agent-runtime/src/claude_code.rs:1528-1540 | what one more component makes of a normalized path: `..` drops its last name, and nothing at the root |
| `Paths.NormalizedJoin` | crates/bastion-agent-runtime/src/claude_code.rs:1500-1540 | normalizing a joined path may normalize the first part before |
| `Paths.DisplayExact` | crates/bastion-agent-runtime/src/claude_code.rs:1516-1525 | an edit's path is shown relative exactly when it resolves strictly inside the root, and what is shown resolves back to the same path |
| `Paths.DisplayFaithful` | crates/bastion-agent-runtime/src/claude_code.rs:1516-1525 | two edits are shown alike exactly when they resolve to the same path |
| `Paths.AboveRootShown` | crates/bastion-agent-runtime/src/claude_code.rs:1516-1540 | an edit one level above the root is shown absolute, unless it names the root's own directory again and goes on below it |
| `Paths.RedundantSegment` | crates/bastion-agent-runtime/src/claude_code.rs:1528-1540 | a doubled or trailing separator and a `.` on the way are not components |
| `Paths.TextComponents` | crates/bastion-agent-runtime/src/claude_code.rs:1528-1540 | the text of a path reads back as its components, `..` included |

## Left out

- Process spawning, pipes, JSON text parsing, SHA-256, base64 and Ed25519: frames arrive parsed, a digest is represented by the text it is computed from or by its fixed shape, and the signature scheme is a parameter.
- Integer widths: task ids, permission ids, `skip_results`, token counts and line counts are unbounded; the source uses u32, u64 and i64.
- Harness behaviour: one `result` per written user frame, in order, is assumed; a harness that sends a `result` nobody asked for (a failed resume before any task) is represented only by the early-exit flag of `dispatch_idle`.
- Harness request ids are assumed distinct: under a harness that repeats one, `AnsweredAtMostOnce` and `AllowedOnlyByOwner` say nothing.
- A write that fails is assumed not to have reached the harness, in both adapters.
- Session statuses and warnings of the codex adapter, its steering and its approval requests: they do not take part in ending a turn.
- Codex connection teardown: it ends the current turn without removing it from the task map, so the codex results are stated while the reader's connection is up.
- Permission requests still pending when a claude task ends naturally are dropped unanswered; answers are proved to be at most one, not exactly one.
- Claude edit previews in permission events (the detail line and its truncation are modelled), environment filtering, session arguments and conversation references.
- The `Cancelled` session status is called `Halted`, because a task outcome has that name too.
- Codex notifications: which events one becomes is left to the notification; `CodexTurns` takes any events of its task.
- Warning texts are abbreviated.
- Error payloads: most errors are represented by which error branch was taken, without the message text.
- acp `end_task` across successive submits, its connection handshake, canonicalized paths and directory confinement: paths inside the workspace are a parameter.
- Text is a sequence of characters: its UTF-8 bytes are modelled only as the lengths truncation counts.
- Belief ids are natural numbers given out by a counter; the order of rows in a table is the order of insertion; a retrieval is a map from id to row, because the statements have no ORDER BY; tier and keyword columns hold their decoded values.
- Weights are reals: rounding is modelled only where it decides (`FloatingDecayExactly`), and the rejection of non-finite numbers is not modelled.
- JSON numbers that are not integers are their decimal text.
- Semantic versions are text without a line break.
- `PermissionSet` comparisons, lockfile updates, tool registries, descriptor tables, goal nudges, provider calls, OAuth, MCP and sandbox launch: these are lookups, field comparisons and calls into libraries.
- Trust.NoReplay: assumes that a signature value is accepted for one payload only, which Ed25519 gives computationally, not absolutely.
