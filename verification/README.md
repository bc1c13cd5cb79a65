# exec-mcp in Dafny

exec-mcp is a broker: it gives one assistant terminals, a sandbox for code ("Code Mode"), notes from
the user, skills and the tools of other servers. This project models the bounded in-memory state
machines at its centre and proves what they keep over whole runs. JavaScript runs one task at a
time, so the code between two suspension points is one atomic step; the order of steps, memory
readings, stream events, clocks and aborts are arbitrary. Each component has a specification on
values, theorems about every run of it, and, where the program updates objects in loops, a class or
method whose contract ties it to that specification.

- `Utf8`, `ByteQueue`, `OutputView`, `OutputBuffer`, `OutputHistory`, `OutputClip`: the rolling output
  of one terminal, from block arrays to what a reader sees over its whole life and in each read.
- `Terminal`, `TerminalBudget`, `TerminalLaws`: many terminals under one shared budget.
- `LeaseState`, `LeaseInvariants`, `LeaseTheorems`, `LeaseClocks`, `LeaseLaws`, `CodeModeService`:
  native sessions, generations, notices of lost sessions, leases and the cells that take them over;
  when a session ends, and what becomes of every lease, entry and binding in every step.
- `MemoryReclaimer`: a reclaim pass that runs beside everything else.
- `SessionState`, `SessionRuns`, `SessionTheorems`, `SessionCancels`, `SessionEarlyCancels`,
  `SessionReuse`, `SessionCells`, `SessionRevivals`, `SessionClosures`, `SessionLaws`,
  `SessionEndings`, `CodeModeSession`: one session and its three independently ordered streams.
- `Json`, `JsonText`, `NotesState`, `NotesResponse`, `NotesAccounting`, `NotesDelivery`,
  `NotesAnswers`, `NotesReplies`, `NotesRetries`, `NotesObservers`, `NotesLaws`, `NotesTitles`,
  `NotesAttachments`, `SessionNotes`: user notes, questions and answers, their storage budget, and
  their ride on tool results.
- `OutputBudget`, `ModelOutput`, `AuditText`: cutting text to byte, token and code point budgets.
- `SkillText`, `SkillPaths`, `SkillChoice`, `SkillRender`, `SkillCatalog`, `SkillRules`: the skill
  catalog, what a reader gets from it, and its on/off rules.
- `AdmissionQueue`, `ArtifactQuota`, `AuditMedia`, `ActivityState`, `ActivityProofs`,
  `ActivityLaws`, `ActivityStore`, `Downstream`, `DownstreamLaws`: resource accounting and
  connections.
- `PngCrc`, `PngErrors`, `CodeNames`, `SchemaTypes`: the CRC and framing of the brand icon, names of
  downstream tools, and display types of their schemas.

Some promises hold only under a condition. Then the condition is proved to be exact, over all runs
or all inputs.

- Tool calls of a session start once per delivered call in every run, but "no start after a failure
  or a cancellation" fails when a call is queued under an invocation id that is still pending
  (`SessionTheorems.Clear` excludes just that; an id may be used again once its task has ended).
  `SessionReuse.HaltExact` and `SessionReuse.CancelExact`: such a call arrived if and only if the
  run can be stopped somewhere and continued without any such call to a start after a halt, or after
  the cancellation of that id. `SessionReuse.ReusedIdStartsAfterFailure` is the shortest such run.
- A cancellation that comes before its call is remembered for as long as 1024 entries allow:
  `SessionEarlyCancels.ForgottenExactly`.
- A step drops a cell that is not complete exactly when it ends a task whose complete object was
  replaced under its cell id by an incomplete one (`SessionCells.StepDropsExact`). A run that has not
  ended its close can come to that if and only if an event lists a cell again while a task of the
  dropped one is unfinished (`SessionRevivals.RevivalExact`);
  `SessionRevivals.RevivedCellDroppedEarly` is the shortest such run.
- A closure and a start event of a cell give the same state in either order if and only if the
  closure is not complete for the listed cell already: `SessionLaws.OrderExact`, at every place of
  every run. `SessionLaws.LateStartListsAgain` is a run in which a start event behind the end of its
  cell lists that again. Until a failure or close a listed cell that has reached its final sequence
  is only there because a refusal of one of its calls is still on its way
  (`SessionClosures.NoCellForgotten`).
- The note of an answer tells a reader which choice and note the user submitted, for every
  submission, if and only if no choice of the question reads like another one or like another one
  with a note (`NotesReplies.ReadableExactly`).
- The media budget holds in every run if and only if the item limit is within it
  (`AuditMediaStates.BudgetExact`).
- The shared budget of unread terminal output holds in every run if and only if the first outputs of
  as many sessions as there may be fit in it (`TerminalBudgets.SharedBudgetExact`).
- The early skill check never skips a skill that is on under some name. It keeps a skill that is off
  under every name if and only if its path is off and there are live rules (enabling name rules with
  no later path rule of the file), each undone for its name by a later rule
  (`SkillRules.KeptForNothingExact`); `SkillRules.NotEveryDisabledIsPruned` is one such list.

## Model
| member | source | states |
|---|---|---|
| ByteQueues.ByteQueue.Push | src/host/output-buffer.ts:21-42 | Appends the input to the queued bytes and changes nothing else; blocks stay packed. |
| ByteQueues.ByteQueue.Drop | src/host/output-buffer.ts:43-52 | Removes exactly the oldest bytes. |
| ByteQueues.ByteQueue.Read | src/host/output-buffer.ts:53-68 | Returns the longest prefix within the limit that ends before a continuation byte, and removes just that. |
| ByteQueues.ByteQueue.ByteAt | src/host/output-buffer.ts:13-20 | The byte at this offset of the queue, across blocks; an offset outside is an error. |
| ByteQueues.ByteQueue.AllocatedBytes | src/host/output-buffer.ts:10-12 | The allocation, which is at most the queued bytes and two blocks. |
| ByteQueues.PackedSize | src/host/output-buffer.ts:21-52 | Packed blocks hold all bytes in at most two blocks more than needed. |
| Utf8.SplitAtBoundary | src/host/output-buffer.ts:3-3 | Well-formed UTF-8 stays well formed on both sides of a cut that no continuation byte follows. |
| Utf8.NoLongRun | src/host/output-buffer.ts:112-113 | Well-formed text never has four continuation bytes in a row. |
| Utf8.CutDistance | src/host/output-buffer.ts:112-141 | A cut loop moves by at most three bytes, and a cut at four bytes or more keeps something. |
| OutputBuffers.RollingOutputBuffer.Append | src/host/output-buffer.ts:107-146 | The class over block queues computes the view-level append: prefix while open, then the rolling tail, with the dropped bytes counted. |
| OutputBuffers.RollingOutputBuffer.Shed | src/host/output-buffer.ts:153-161 | Drops the oldest tail bytes up to a character boundary, counts them and returns their number. |
| OutputBuffers.RollingOutputBuffer.Read | src/host/output-buffer.ts:163-232 | A read takes head, gap and tail as the view-level read does, renders them, and refuses limits below 4. |
| OutputBuffers.RollingOutputBuffer.AllocatedBytes | src/host/output-buffer.ts:103-105 | Allocation stays within the unread bytes and four blocks. |
| OutputBuffers.RenderLoop | src/host/output-buffer.ts:183-231 | The clipping code with its two boundary loops equals the rendering function that the history theorems are about. |
| OutputClips.RenderShows | src/host/output-buffer.ts:183-231 | A read without a token limit, or within four bytes per token, shows all bytes it took; any other shows a beginning and an end, each the longest within its half of the budget that cuts no character, with one gap for everything else and the exact token count. |
| OutputClips.ClippedEnds | src/host/output-buffer.ts:183-231 | Of well-formed text each end comes within three bytes of its half of the budget and never above it. |
| OutputClips.TakesMost | src/host/output-buffer.ts:163-182 | A read takes everything or as much as its limit allows but for one character, and the gap exactly with the bytes around it. |
| OutputClips.ReadLeaves | src/host/output-buffer.ts:163-182 | What a read leaves is what it did not take, in order. |
| OutputClips.PrefixShare | src/host/output-buffer.ts:84-94 | The prefix has a sixteenth of the capacity, the tail the rest. |
| OutputClips.PrefixCloses | src/host/output-buffer.ts:107-146 | The prefix closes exactly when a byte did not fit or it is full, and never grows afterwards. |
| OutputHistories.Reassembly | src/host/output-buffer.ts:84-232 | For every run of append, shed, read and clear, since the last clear: pieces handed out followed by the unread head, gap and tail tell the appended stream in order, each gap at its place and with its exact length, reported bytes are the sum of the markers, and unread bytes stay within the capacity. |
| OutputHistories.RenderCovers | src/host/output-buffer.ts:183-231 | One rendered batch, clipped or not, tells exactly the bytes it consumed, wherever the gap lies. |
| OutputHistories.RunKeepsText | src/host/output-buffer.ts:107-232 | Appended well-formed text stays well formed in the head, the tail and every piece handed out. |
| OutputHistories.ReadProgresses | src/host/output-buffer.ts:163-182 | A read of at least 4 bytes strictly lowers unread bytes plus one for a pending gap. |
| OutputHistories.Drained | src/host/output-buffer.ts:163-182 | Repeated reads empty the buffer after any run, and then the pieces tell the whole stream. |
| OutputHistories.AppendKeepsMost | src/host/output-buffer.ts:107-146 | An append fills the prefix while it is open, loses nothing while the tail has room, and otherwise leaves the tail full to within one character. |
| OutputHistories.ShedAmount | src/host/output-buffer.ts:153-161 | Shedding drops what was asked, rounded up to a whole character, or the whole tail; the head never moves. |
| Terminals.EnforceKeepsPromise | src/host/terminal.ts:457-475 | After enforcement output is within the shared budget or every tail is empty; only finished, unobserved sessions other than the source are released, oldest first, and output is dropped only once all of them are gone. |
| Terminals.SharedBudget | src/host/terminal.ts:417-475 | In every reachable state the budget holds up to the first outputs, so it holds outright when maxSessions heads fit in it. |
| TerminalBudgets.SharedBudgetExact | src/host/terminal.ts:435-475 | Unread output stays within the shared budget in every run if and only if the first outputs of as many sessions as there may be fit in it. |
| Terminals.RunningStays | src/host/terminal.ts:435-505 | Starting a session, more output and the idle sweep never remove a running or observed session. |
| Terminals.AppendKeeps | src/host/terminal.ts:417-422 | An append of any session keeps the manager invariant. |
| TerminalLaws.SessionsExactly | src/host/terminal.ts:476-530 | Exits, reads, collections, sweeps and removals change each session just as described on the list of sessions, and no other. |
| TerminalLaws.StartExactly | src/host/terminal.ts:435-451 | A session is admitted exactly when its id is new and admission makes room; what admission releases are the oldest finished sessions, only while there is no room. |
| Terminals.TerminalManager.EnforceBudget | src/host/terminal.ts:457-475 | The loops over releasable and remaining sessions compute the enforcement function. |
| Terminals.TerminalManager.Append | src/host/terminal.ts:417-422 | Appends to a running session and enforces the shared budget. |
| Terminals.TerminalManager.Start | src/host/terminal.ts:435-451 | Admission releases finished sessions, oldest first, only while full; it refuses when still full. |
| Terminals.TerminalManager.Collect | src/host/terminal.ts:476-494 | A read removes a session only when it has exited and nothing is pending. |
| Terminals.TerminalManager.Sweep | src/host/terminal.ts:496-505 | Exactly the finished, unobserved and old sessions leave. |
| Terminals.TerminalManager.RetainedBytes | src/host/terminal.ts:423-427 | The sum of unread bytes. |
| LeaseTheorems.LeasesAccounted | src/code-mode/session-pool.ts:155-167 | Until close, in every reachable state an entry's users are its acquires in flight, running execs, tracked cells and terminations in flight. |
| LeaseTheorems.OneSessionPerScope | src/code-mode/session-pool.ts:131-154 | At most one session of a scope is not retired. |
| LeaseTheorems.SweepSparesUsers | src/code-mode/session-pool.ts:259-268 | The idle sweep never retires a session on which any call holds a lease, and leaves its calls alone. |
| LeaseTheorems.GrantIsExpected | src/code-mode/session-pool.ts:123-210 | A lease is granted only on the generation its caller expected, or on a scope that had neither a session nor a notice when the caller captured its generation and when it acquired; no predecessor is unreported. |
| LeaseTheorems.LossReportedBeforeNextLease | src/code-mode/session-pool.ts:122-210 | Once an announced session of a scope was lost by failure or for memory, no lease of that scope is granted before an acquire was answered with the replaced notice, across any failed reopenings, unless the notice aged out or the service closed. |
| LeaseTheorems.LossIsOwed | src/code-mode/session-pool.ts:269-296 | Every step that loses an announced session leaves its scope owing the report. |
| LeaseTheorems.GrantOnlyByResume | src/code-mode/session-pool.ts:176-210 | Only a successful opening on a live, matching generation grants a lease. |
| LeaseClocks.SweepExact | src/code-mode/session-pool.ts:259-268 | Over every run, a sweep ends the session of a scope exactly when nobody holds a lease on it and the last one was given back at least the idle time before; it leaves no notice, and any other session stays bound. |
| LeaseClocks.IdleFromRelease | src/code-mode/session-pool.ts:158-167 | In every reachable state an unused session counts as idle since the event that gave back its last lease. |
| LeaseClocks.SameSessionAgain | src/code-mode/session-pool.ts:123-210 | Until a failure, reclaim, close or overdue sweep ends a session, every call of its scope sees its generation, joins it, and is granted a lease on it. |
| LeaseClocks.StepSteps | src/code-mode/session-pool.ts:131-296 | After any step: last use and idle time of every entry, and whether and why its session ended. |
| LeaseClocks.StepBinds | src/code-mode/session-pool.ts:123-296 | After any step: what every scope is bound to, a session, the notice of a lost one with its time, or nothing. |
| LeaseClocks.OldestIs | src/code-mode/session-pool.ts:230-247 | A reclaim picks the longest idle, or the least recently used, of the sessions it may take; the older one of equals. |
| LeaseLaws.CallExactly | src/code-mode/service.ts:171-449 | After any step: the phase of every call, so who gets a lease, who hands it to a cell or a termination, and who has given it back. |
| LeaseLaws.MarksExactly | src/code-mode/session-pool.ts:176-210 | After any step: whether an entry knows its session, was announced, and still shows a predecessor; only the answer of an opening changes these. |
| LeaseInvariants.StepKeeps | src/code-mode/service.ts:171-304 | Every step of service, pool and registry keeps the whole invariant: known generations, exclusive bindings, exact counts, cells on live sessions, pending replacements with an opener. |
| LeaseInvariants.RetireKeeps | src/code-mode/session-pool.ts:269-296 | Retiring any set of entries keeps bindings and counts consistent. |
| LeaseInvariants.FinishAcquireRunning | src/code-mode/session-pool.ts:176-210 | Each way an opening can end keeps the invariant. |
| LeaseInvariants.FinishTerminateRunning | src/code-mode/service.ts:429-437 | A confirmed or failed termination keeps the invariant. |
| CodeModeServices.CodeModeService.SweepIdle | src/code-mode/session-pool.ts:259-268 | The two loops of the sweep compute the sweep of the model. |
| CodeModeServices.CodeModeService.CaptureGeneration | src/code-mode/session-pool.ts:123-129 | Returns the generation a caller must expect, the previous one while a replacement is unreported. |
| CodeModeServices.CodeModeService.Acquire | src/code-mode/session-pool.ts:131-157 | Joins the live entry of the scope or opens a new generation that remembers its predecessor. |
| CodeModeServices.CodeModeService.Resume | src/code-mode/session-pool.ts:176-210 | The answer of an opening: grants, releases with the replaced notice, or retires. |
| CodeModeServices.CodeModeService.ReclaimOldest | src/code-mode/session-pool.ts:230-247 | Retires the first candidate by idle time or last use among old enough generations, and says which. |
| CodeModeServices.CodeModeService.RetireEntry | src/code-mode/session-pool.ts:269-296 | Marks one entry once and replaces its binding by a notice or nothing. |
| CodeModeServices.CodeModeService.EndCells | src/code-mode/cell-registry.ts:132-149 | The loop over owners releases each lease of the given sessions once. |
| CodeModeServices.CodeModeService.EndExec | src/code-mode/service.ts:222-243 | A finished exec releases its lease, a yielded one hands it to a cell, an error releases it. |
| CodeModeServices.CodeModeService.EndWait | src/code-mode/service.ts:277-293 | A final wait result forgets the cell and releases the lease; a yielded one keeps it. |
| CodeModeServices.CodeModeService.StopCells | src/code-mode/service.ts:422-427 | Cells taken as unobserved leave the registry and their leases move to terminations. |
| CodeModeServices.CodeModeService.EndTerminate | src/code-mode/service.ts:429-437 | A failed termination retires the whole session; either way the lease is released. |
| CodeModeServices.CodeModeService.InvalidateSession | src/code-mode/service.ts:446-449 | A failed session ends its cells and is retired. |
| CodeModeServices.CodeModeService.InvalidateSessions | src/code-mode/service.ts:439-444 | All cells end and all sessions retire. |
| MemoryReclaimers.MemoryReclaimer.RunPass | src/code-mode/memory-reclaimer.ts:147-212 | A pass ends for every sequence of readings with at most as many victims as there were old sessions; each victim existed when the pass began, and a busy one is taken only above high water with no old idle session left. The host restarts exactly when memory is above high water and either no candidate and no session at all is left, or the close of a victim timed out; then every session ends. |
| MemoryReclaimers.MemoryReclaimer.TakeVictim | src/code-mode/memory-reclaimer.ts:161-177 | Idle sessions first, then busy ones only above high water; no victim only when there is no candidate. |
| MemoryReclaimers.MemoryReclaimer.Restart | src/code-mode/memory-reclaimer.ts:223-239 | A host restart leaves no unretired session. |
| MemoryReclaimers.ReclaimShrinks | src/code-mode/session-pool.ts:230-247 | Reclaiming strictly shrinks the unretired entries of captured generations. |
| MemoryReclaimers.StepNoRevival | src/code-mode/session-pool.ts:131-296 | No step of the service makes an old session live again, so the measure never grows between readings. |
| SessionRuns.StepKeeps | src/code-mode/session.ts:569-853 | Every event of the three streams, but a call queued under an id that is still pending, keeps the pending table equal to the live tasks, each cell's pending set equal to its live invocations, and every live task aborted after a failure or close. |
| SessionTheorems.EachCallOnce | src/code-mode/session.ts:678-803 | In every run the tool starts and the completions of an invocation id never outnumber the calls delivered under it, so one call runs at most once and answers at most once. |
| SessionTheorems.NoStartAfterHalt | src/code-mode/session.ts:835-852 | After a failure or close no queued call starts, whatever follows, if no call before was queued under an id that was still pending. |
| SessionReuse.HaltExact | src/code-mode/session.ts:731-775 | A call was queued under a pending id exactly when the run, stopped somewhere and continued without such a call, can start a tool after a failure or close. |
| SessionCancels.NoStartAfterCancel | src/code-mode/session.ts:597-600 | No call that had arrived before its cancellation starts after it, whatever follows, if no call before was queued under that id while it was pending; other ids do not matter. |
| SessionReuse.CancelExact | src/code-mode/session.ts:597-775 | A call was queued under this id while it was pending exactly when the run, stopped somewhere and continued without such a call, can start a call of this id after its cancellation. |
| SessionCancels.DispatchJoined | src/code-mode/session.ts:679-731 | An arriving call adds a waiting task exactly when it is in sequence, not cancelled before, and of a known, uncancelled execution with that tool, in an open session. |
| SessionCancels.StepSole | src/code-mode/session.ts:728-775 | The pending table lists the only live task of an id as long as no call is queued under that id while it is pending, in every order of events and whatever happens to other ids. |
| SessionEarlyCancels.EarlyCancelDrops | src/code-mode/session.ts:602-708 | A cancellation that finds nothing pending drops the next call of that id without a start, in every run with no more later cancellations than the record has room for. |
| SessionEarlyCancels.ForgottenExactly | src/code-mode/session.ts:602-708 | After an early cancellation and any number of cancellations of other unknown ids, a call that would otherwise run is queued exactly when they exceed the room of the record. |
| SessionEarlyCancels.FreshRoom | src/code-mode/session.ts:602-606 | A new cancellation has room for 1023 others. |
| SessionReuse.ReusedIdStartsAfterFailure | src/code-mode/session.ts:730-775 | A concrete run: with an invocation id used again while it is pending, a tool starts although the session has failed. |
| SessionEarlyCancels.RememberRoom | src/code-mode/session.ts:602-606 | One more cancellation costs a remembered one at most one place in the 1024-entry window. |
| SessionCells.StepDropsExact | src/code-mode/session.ts:821-833 | Every step but the end of a close drops only complete cells, except exactly when it ends a task whose complete object was replaced under its cell id by an incomplete one. |
| SessionRevivals.RunDropsComplete | src/code-mode/session.ts:569-833 | In every run in which no event lists a cell again while a task of the dropped one is unfinished, every step drops only complete cells. |
| SessionRevivals.RevivalExact | src/code-mode/session.ts:507-833 | Until the close ends, an event listed a cell again while a task of the dropped one was unfinished exactly when the run, stopped somewhere and continued without such an event, can drop a cell that is not complete. |
| SessionRevivals.DroppedCellIsQuiet | src/code-mode/session.ts:821-833 | In every run without a collision of pending ids and without a revived cell, a cell that a step drops has reached its final sequence and has no task that waits, runs or answers. |
| SessionRevivals.RevivedCellDroppedEarly | src/code-mode/session.ts:510-511 | A concrete run: a late start event lets an old refusal drop the new cell of the same id. |
| SessionClosures.NoCellForgotten | src/code-mode/session.ts:569-833 | In every run until a failure or close, a listed cell has not reached its final sequence, or has a pending call, or a refusal of one is on its way. |
| SessionLaws.OrderExact | src/code-mode/session.ts:507-657 | At every place of every run, a closure and a start event of a known execution give the same state in either order if and only if the closure does not already complete a listed cell. |
| SessionLaws.LateStartListsAgain | src/code-mode/session.ts:507-516 | A concrete run: a start event behind the end of its cell lists the cell again. |
| SessionLaws.FailsExactly | src/code-mode/session.ts:569-852 | An open session fails exactly with its streams, with a call out of sequence, or with an answer that the host did not take. |
| SessionLaws.StartsExactly | src/code-mode/session.ts:735-757 | A tool starts exactly when a waiting call that nobody aborted is admitted and its input decodes. |
| SessionLaws.CancelledExecutionQueuesNothing | src/code-mode/session.ts:710-717 | In every run no call of an execution is queued after its cancellation, until an execution of that id begins anew. |
| SessionLaws.CancelledExactly | src/code-mode/session.ts:181-268 | An execution is cancelled by its own cancellation alone and begins uncancelled. |
| SessionEndings.ClosesExactly | src/code-mode/session.ts:353-381 | A session is closed from its close on, and by nothing else. |
| SessionEndings.NoneBegins | src/code-mode/session.ts:835-838 | Over every run, no execution begins in a session that has failed or closed. |
| SessionEndings.EndedExecutionQueuesNothing | src/code-mode/session.ts:700-717 | Over every run, calls of an execution that ended do not run, until one of that id begins anew. |
| SessionEndings.CloseForgets | src/code-mode/session.ts:358-381 | In every run a closed session ends up without cells, cancellations, closures and executions, and without pending calls once every task has ended; an open one keeps them. |
| CodeModeSessions.CodeModeSession.DispatchToolCall | src/code-mode/session.ts:678-731 | The first part of a tool call: binding, sequence check, drop, refusal or queueing. |
| CodeModeSessions.CodeModeSession.MaybeRetireCell | src/code-mode/session.ts:821-833 | Drops a complete cell and exactly the executions of that cell. |
| CodeModeSessions.CodeModeSession.AbortPending | src/code-mode/session.ts:840-845 | The loop aborts exactly the tasks of pending invocations. |
| CodeModeSessions.CodeModeSession.Fail | src/code-mode/session.ts:840-852 | A first failure aborts everything pending; later ones change nothing. |
| CodeModeSessions.CodeModeSession.CancelInvocation | src/code-mode/session.ts:586-608 | Aborts a pending invocation or records the cancellation in the bounded set. |
| CodeModeSessions.CodeModeSession.FinishTask | src/code-mode/session.ts:770-775 | Leaves both pending tables and then retires the cell if complete. |
| CodeModeSessions.CodeModeSession.CloseCellEvent | src/code-mode/session.ts:630-657 | Sets the final sequence, or keeps an early closure only for a known execution. |
| CodeModeSessions.CodeModeSession.StartCell | src/code-mode/session.ts:507-516 | A start event creates the cell with an early closure applied. |
| NotesDelivery.DeliveredInOrder | src/session-notes.ts:772-849 | Over every run the notes of one conversation are delivered in strictly increasing order of submission, so none twice. |
| NotesDelivery.WithdrawnNeverDelivered | src/session-notes.ts:649-667 | A note that was withdrawn or already attached is in no later delivery. |
| NotesDelivery.AttachedBelowPending | src/session-notes.ts:805-840 | In every reachable conversation each attached note was submitted before each pending one. |
| NotesDelivery.AttachDelivers | src/session-notes.ts:772-849 | An attach that delivers nothing returns the original result and only sweeps; one that delivers returns a different response of at most 37,000 model bytes. |
| NotesDelivery.AttachStaysWithin | src/session-notes.ts:803-829 | A result within 36,000 bytes stays within 37,000 after attach. |
| NotesDelivery.StepGood | src/session-notes.ts:271-894 | Every operation of the store keeps queue order, numbering and the identity of conversations. |
| NotesResponses.BuildCost | src/session-notes.ts:803-819 | One more note enlarges the real response, structured or textual, by exactly what the loop subtracts. |
| NotesResponses.DeliveryFits | src/session-notes.ts:803-819 | The chosen notes are the longest run from the head of the queue that fits. |
| NotesResponses.SmallResponseDelivers | src/session-notes.ts:483-498 | Every accepted note fits a small textual response and every accepted answer also a small structured one. |
| NotesRetries.AttachCarries | src/session-notes.ts:786-834 | The response carries the original result unchanged and then, in order, the text of every delivered note. |
| NotesRetries.MarkedExactly | src/session-notes.ts:805-840 | Exactly the first delivered waiting notes change, and only in status. |
| NotesRetries.EnqueueAgain | src/session-notes.ts:349-403 | An accepted message submitted again under its id with the same text gets the same answer and changes nothing. |
| NotesRetries.EnqueueAppends | src/session-notes.ts:349-403 | An accepted message waits at the end of the queue under the next number. |
| NotesRetries.SweepTwice | src/session-notes.ts:860-894 | A second sweep at the same time removes nothing. |
| NotesObservers.WokenExactly | src/session-notes.ts:245-269 | In every run exactly those waiting calls are woken whose conversation gets a note while they wait; disposing an older call never drops a newer one. |
| NotesObservers.RunsAgree | src/session-notes.ts:245-269 | The groups that the program keeps agree with the simple account of who waits. |
| NotesObserverObjects.Observers.WatchUserNotes | src/session-notes.ts:246-263 | A call joins the group of its conversation. |
| NotesObserverObjects.Observers.YieldObservers | src/session-notes.ts:265-269 | The group is forgotten and each of its calls aborted. |
| NotesObserverObjects.Observers.DisposeWatch | src/session-notes.ts:257-261 | A call leaves its group; an empty group is forgotten only while it is the current one. |
| NotesLaws.SweepExactly | src/session-notes.ts:863-897 | A sweep keeps, in order, exactly the records of the last 72 hours, and exactly the conversations that were used or hold a record from then. |
| NotesLaws.RenameExactly | src/session-notes.ts:309-325 | Which error a rename gets; otherwise the conversation has the trimmed name and is charged for it, and nothing else changes. |
| NotesTitles.SetTitleExactly | src/session-notes.ts:327-347 | A title is set exactly on a conversation without a name or title and with room; the name is its words with single blanks between them, the longest beginning of whole characters within 256 bytes. |
| NotesLaws.EnqueueExactly | src/session-notes.ts:349-357 | A message goes through the checks of a note, or its conversation is not known. |
| NotesLaws.InsertExactly | src/session-notes.ts:359-407 | Which error a note gets, when the same note is only answered again, and that otherwise it waits at the end under the next number and is charged for. |
| NotesLaws.SendExactly | src/session-notes.ts:409-448 | Which error a message of the agent gets; otherwise it is kept and charged for. |
| NotesLaws.AskExactly | src/session-notes.ts:468-543 | Which error a request gets, when its key answers with the earlier request, and that otherwise the unanswered questions are kept under their new ids and charged for. |
| NotesLaws.AnswerExactly | src/session-notes.ts:578-647 | Which error an answer gets, when the same note is answered again, and that otherwise note and reply are kept together and charged for together. |
| NotesReplies.AnswerReadsBack | src/user-questions-types.ts:42-50 | From the question and the text of an answer's note a reader gets back the submitted choice and note. |
| NotesReplies.ReadableExactly | src/user-questions-types.ts:42-50 | Two submissions never share a text if and only if no choice reads like another one, alone or with a note. |
| NotesReplies.AnswerTells | src/session-notes.ts:578-647 | The note of an accepted answer tells the submission, and the question keeps the submission. |
| NotesLaws.WithdrawExactly | src/session-notes.ts:649-667 | Which error a withdrawal gets; otherwise just that note is marked. |
| NotesLaws.ObserveExactly | src/session-notes.ts:271-297 | Using a conversation records the time; a new one is recorded exactly while the budget has room. |
| NotesLaws.RequestCharge | src/session-notes.ts:77-80 | A request costs 1,024 bytes, two for each character and one for each byte of its JSON text, which names everything that is kept. |
| NotesAttachments.AttachExactly | src/session-notes.ts:772-849 | Which notes a result takes along, in which form, with or without the reminder, and that exactly these are recorded as attached; otherwise the result is unchanged. |
| NotesAttachments.ModelBytesAre | src/session-notes.ts:66-77 | The model bytes of a response are those of every text that the model receives, with two for each separator. |
| NotesAttachments.PayloadIs | src/session-notes.ts:830-834 | The payload limit is on the JSON text of the whole response. |
| JsonTexts.SizeIsLength | src/session-notes.ts:67-96 | The sizes counted for stored requests and for responses are the lengths, in bytes and in code units, of the JSON text itself. |
| NotesAccounting.RunAccounted | src/session-notes.ts:80-96 | In every reachable state the byte counter is the recomputed sum over all conversations and within the budget. |
| NotesAccounting.CommitKeeps | src/session-notes.ts:637-642 | Answering adds the note and the changed question, which the first check covers together. |
| NotesAccounting.SweepKeeps | src/session-notes.ts:860-894 | The sweep gives back exactly the cost of what it removes. |
| NotesAccounting.StepAccounted | src/session-notes.ts:271-894 | observe, rename, setTitle, enqueue, sendMessage, ask, answer, withdraw, attach and sweep keep the accounting. |
| NotesAnswers.OneActiveAnswer | src/session-notes.ts:97-102 | With fresh question ids, in every reachable store at most one answer note of a question is not withdrawn, and it is the one the question names. |
| NotesAnswers.PendingHasNoActive | src/session-notes.ts:97-102 | A question counts as pending only when none of its answer notes is active. |
| SessionNotesStore.SessionNotes.Attach | src/session-notes.ts:772-849 | The store after attach, the response and the delivered notes. |
| SessionNotesStore.Select | src/session-notes.ts:803-819 | The selection loop finds the longest fitting run. |
| SessionNotesStore.SessionNotes.InsertNote | src/session-notes.ts:359-403 | Checks in the order of the program; an identical note is answered again without any change. |
| SessionNotesStore.SessionNotes.Commit | src/session-notes.ts:637-646 | Note, question, touched time and bytes change together or not at all. |
| SessionNotesStore.SessionNotes.Answer | src/session-notes.ts:570-647 | All refusals of an answer in their order, then the commit. |
| SessionNotesStore.SessionNotes.Ask | src/session-notes.ts:462-538 | A repeated key returns the earlier request or refuses different questions. |
| SessionNotesStore.SessionNotes.Withdraw | src/session-notes.ts:649-667 | An attached note cannot be withdrawn. |
| SessionNotesStore.SessionNotes.Sweep | src/session-notes.ts:860-894 | The filtering passes compute the sweep. |
| SessionNotesStore.SessionNotes.Rename | src/session-notes.ts:309-325 | The trimmed label and the byte difference, or the refusal. |
| SessionNotesStore.CutTitle | src/session-notes.ts:333-337 | The title is cut to whole characters within 256 bytes and is a prefix of the cleaned text. |
| OutputBudgets.BudgetHolds | src/code-mode/output-budget.ts:4-49 | Kept text is the beginning and the end, each cut within three bytes of its half of the budget, in order, with at most one 5-byte mark between them; media stay, all text is well formed, and the total is at most 4 times the tokens plus the mark. |
| OutputBudgets.MediaStayBetween | src/code-mode/output-budget.ts:4-49 | Clipping moves no text across a media item and leaves no text empty. |
| OutputBudgets.ClippedText | src/code-mode/output-budget.ts:19-47 | Per-item clipping and clipping of the joined text are the same. |
| OutputBudgets.ApplyOutputBudget | src/code-mode/output-budget.ts:4-49 | The loop over items computes the clipped items. |
| OutputBudgets.Utf8Slice | src/code-mode/output-budget.ts:51-56 | Both loops stop at the boundaries that the theorems use. |
| ModelOutputs.BoundFits | src/code-mode/model-output.ts:14-44 | With separators the text that reaches the model is at most 36,000 bytes. |
| ModelOutputs.BoundKeepsEnds | src/code-mode/model-output.ts:14-44 | A text that is too long is shown as status, notice, and the beginning and the end of all other text, each about half of the space. |
| ModelOutputs.StatusExactly | src/code-mode/model-output.ts:21-26 | What counts as the status of a result, and what as the rest. |
| ModelOutputs.BoundKeepsMedia | src/code-mode/model-output.ts:36-43 | Media keep their number and order. |
| ModelOutputs.ClippedOne | src/code-mode/model-output.ts:32-35 | The coalesced text stays one item within its token budget and one mark. |
| AuditTexts.TruncatedExact | src/web/snapshot.ts:34-63 | A marked result has exactly the maximum number of code points and the printed number is the number of code points left out; a text that fits is unchanged. |
| AuditTexts.Settles | src/web/snapshot.ts:43-49 | The marker is a fixpoint after at most two revisions, for every length and maximum. |
| AuditTexts.TruncateAuditText | src/web/snapshot.ts:34-63 | The method with its three-round loop computes the specified result. |
| AuditTexts.SettleMarker | src/web/snapshot.ts:43-49 | Stopping at the first unchanged round gives the fixpoint. |
| AuditTexts.ScansAgree | src/web/snapshot.ts:77-101 | Scanning forward k code points and backward the others meets at the same index. |
| AuditTexts.StartAndEnd | src/web/snapshot.ts:77-101 | The first k and the last n-k code points make up the text, and each part has its number of code points. |
| AuditTexts.CodePointLength | src/web/snapshot.ts:65-75 | The loop counts code points. |
| AuditTexts.ScanStart | src/web/snapshot.ts:77-88 | The forward loop takes exactly the first code points. |
| AuditTexts.ScanEnd | src/web/snapshot.ts:90-101 | The backward loop takes exactly the last code points. |
| AuditTexts.MarkerInjective | src/web/audit-format.ts:4-6 | Different counts print different markers, so comparing markers compares counts. |
| SkillTexts.QuoteRoundTrip | src/skills/render.ts:19-26 | Quoted text reads back as the original under the JSON string rules (section 7 of RFC 8259). |
| SkillPaths.PathPlanLossless | src/skills/render.ts:36-88 | For any ranking of candidates every shown path expands to its original, and the aliased presentation is used exactly when its savings exceed the help line, so it is strictly shorter or not used. |
| SkillPaths.SavingIsReal | src/skills/render.ts:49-56 | The summed savings are the exact difference in characters between both presentations. |
| SkillPaths.GreedySound | src/skills/render.ts:70-82 | The greedy choice gives each path at most one alias that is a directory prefix of it, and each alias at least two paths. |
| SkillPaths.ChoosePaths | src/skills/render.ts:70-88 | The loop over ranked candidates computes the plan. |
| SkillChoices.NothingLeft | src/skills/render.ts:70-82 | Every alias saves a character at least, and at the end none of the candidates is worth one more. |
| SkillChoices.FirstComesFirst | src/skills/render.ts:57-82 | The first candidate in the ranking that is worth an alias gets the first one. |
| SkillChoices.SavesAlike | src/skills/render.ts:49-56 | Every path below a prefix saves the same number of characters under its alias. |
| SkillChoices.BelowExactly | src/skills/render.ts:40-47 | A prefix serves just the paths under it, and ends with a slash or, in a Windows path, with a backslash. |
| SkillChoices.QuotedExactly | src/skills/render.ts:19-26 | A quoted text never holds a line end, directional control or half character, and is shown as it is exactly when it has nothing to escape. |
| SkillRenders.DeltaTest | src/skills/render.ts:158-176 | The incremental check holds exactly when the catalog rendered with that code point is within both budgets, and the tracked space stays equal to budget minus real size. |
| SkillRenders.Allocate | src/skills/render.ts:151-182 | The allocation ends, its catalog is within both budgets, and no unfinished description could take its next code point. |
| SkillRenders.Pass | src/skills/render.ts:158-182 | One pass lengthens each active description by at most one code point. |
| SkillRenders.RenderSkills | src/skills/render.ts:91-184 | The full catalog when it fits; else a fitting maximal one whenever the minimum fits; else the minimum with its notice. |
| SkillCatalogs.CatalogReadsBack | src/skills/render.ts:107-136 | A reader of the lines gets back every automatic skill with name, shown path and description, every explicit skill with name and shown path, and every warning, in order. |
| SkillCatalogs.CatalogTells | src/skills/render.ts:91-136 | Reading the catalog and expanding its aliases gives back every skill with its real path. |
| SkillRenders.SizeChange | src/skills/render.ts:108-128 | Changing one description changes the rendered size by the difference of its quoted sizes. |
| AdmissionQueues.QueueKeepsPromise | src/code-mode/admission.ts:39-98 | In every run used bytes are those of the holders and within the budget, every waiter is in exactly one place (waiting, granted once, rejected once), and grants follow arrival order. |
| AdmissionQueues.StepExactly | src/code-mode/admission.ts:39-98 | After any step: who waits, who holds bytes, and who was told what. |
| AdmissionQueues.NeverStuck | src/code-mode/admission.ts:83-98 | While anybody waits, bytes are held and the head does not fit. |
| AdmissionQueues.NobodyLeft | src/code-mode/admission.ts:91-95 | When all holders have released, nobody waits. |
| AdmissionQueues.ReleaseOnce | src/code-mode/admission.ts:90-96 | A second release changes nothing. |
| AdmissionQueueObjects.WeightedAdmissionQueue.DrainLoop | src/code-mode/admission.ts:83-98 | The loop admits from the head while it fits. |
| AdmissionQueueObjects.WeightedAdmissionQueue.Close | src/code-mode/admission.ts:72-81 | A close rejects everybody who waits, in order. |
| AdmissionQueueObjects.WeightedAdmissionQueue.OnAbort | src/code-mode/admission.ts:53-60 | An aborted waiter leaves the queue and is rejected, and those behind it may be admitted. |
| AdmissionQueueObjects.WeightedAdmissionQueue.OnRelease | src/code-mode/admission.ts:90-96 | The first release gives the bytes back and admits from the head; a later one does nothing. |
| ArtifactQuotas.QuotaConserved | src/files/artifacts.ts:161-252 | In every run used bytes are the charges of exports under way and of snapshots on disk, within the quota; a file whose removal started has no readers. |
| ArtifactQuotas.RecordExactly | src/files/artifacts.ts:161-471 | After any step: every record, with its readers, retirement and removal. |
| ArtifactQuotas.ChargesExactly | src/files/artifacts.ts:161-252 | After any step: the charges under way. |
| ArtifactQuotas.StepFate | src/files/artifacts.ts:441-471 | Charges never change, retirement and removal are final, and a removal starts only on a retired record without readers. |
| ArtifactQuotas.RemovalStarts | src/files/artifacts.ts:452-460 | Retiring a record, or its last reader leaving, starts the removal at once. |
| ArtifactQuotas.EverythingReturned | src/files/artifacts.ts:458-471 | When nothing is under way and every snapshot is gone, no byte is charged. |
| ArtifactStores.ArtifactStore.Sweep | src/files/artifacts.ts:445-451 | Both passes of the sweep. |
| ArtifactStores.ArtifactStore.ChargeExport | src/files/artifacts.ts:166-173 | The quota check and the charge. |
| ArtifactStores.ArtifactStore.BeginRead | src/files/artifacts.ts:403-407 | A reader is admitted only to a record that is still valid. |
| ArtifactStores.ArtifactStore.FinishRead | src/files/artifacts.ts:413-421 | The last reader of a retired record starts its removal. |
| ActivityProofs.IndexIsRecomputation | src/web/activity.ts:146-338 | In every run a session is listed exactly when it has retained calls, and its counts, last call id and status are what recomputing them from the calls gives. |
| ActivityProofs.BytesAndSubs | src/web/activity.ts:126-144 | In every run bytes are the sum of per-call sizes, within the budget or of a single call, and each call keeps its first fifth, at least one, and its newest nested calls. |
| ActivityProofs.PushedShape | src/web/activity.ts:526-542 | A full list drops the entry just behind its first fifth. |
| ActivityLaws.StepExactly | src/web/activity.ts:126-571 | After any event: the recorded calls are those before with just that change, of these the newest that the limits allow. |
| ActivityProofs.UpdateCounts | src/web/activity.ts:321-331 | A status change moves the error count and the last status exactly as recomputation does. |
| ActivityStores.ActivityStore.ResizeCall | src/web/activity.ts:127-134 | Records the difference and evicts the oldest calls while over budget. |
| ActivityStores.ActivityStore.RebuildSession | src/web/activity.ts:544-571 | One pass recounts a session or drops it. |
| ActivityStores.ActivityStore.Start | src/web/activity.ts:146-200 | A new call, its session, the call limit and the byte budget. |
| ActivityStores.ActivityStore.Push | src/web/activity.ts:526-542 | A nested call joins the list. |
| ActivityStores.ActivityStore.Finish | src/web/activity.ts:298-336 | A call ends once. |
| AuditMediaStates.MediaWithinBudget | src/web/audit-media.ts:95-168 | In every run the byte count is that of the stored images, every image has an owner, and only a single image larger than the budget can exceed it. |
| AuditMediaStates.BudgetExact | src/web/audit-media.ts:133-161 | The byte count stays within the budget in every run if and only if the item limit is within the budget. |
| AuditMediaStates.ReleaseExactly | src/web/audit-media.ts:95-98 | Releasing an owner takes it off every image and removes exactly those without another owner, in order. |
| AuditMediaStates.ReleaseKeeps | src/web/audit-media.ts:95-98 | A released owner is on no image afterwards, and images without owners are gone. |
| AuditMediaObjects.AuditMedia.Keep | src/web/audit-media.ts:133-161 | A known image moves to the end; a new one pushes out the oldest. |
| AuditMediaObjects.AuditMedia.ReleaseOwner | src/web/audit-media.ts:95-98 | The pass over the images. |
| DownstreamTheorems.DownstreamPromise | src/downstream/registry.ts:197-264 | In every run a server has at most one connection that is not stale, a call is sent at most twice, and at most one of its requests may have reached the server. |
| DownstreamTheorems.SecondSendIsSafe | src/downstream/registry.ts:253-258 | A request goes out a second time only when nothing of the call can have reached the server. |
| DownstreamTheorems.ClosesWhenIdle | src/downstream/registry.ts:607-646 | A connection starts to close only when no request is in flight on it, or at shutdown; a failed setup has none either. |
| DownstreamLaws.ConnectionExactly | src/downstream/registry.ts:437-660 | After any step: the state of every connection. |
| DownstreamLaws.OffersExactly | src/downstream/registry.ts:437-617 | After any step: which connection a server offers or has under way. |
| DownstreamLaws.RequestExactly | src/downstream/registry.ts:197-264 | After any step: the state of every request, its connection and whether it was sent again. |
| DownstreamTheorems.StepFine | src/downstream/registry.ts:437-557 | Every step keeps the maps of attempts and ready connections consistent with the connections. |
| DownstreamTheorems.StepCounted | src/downstream/registry.ts:236-262 | The call counter of a connection is the number of requests in flight on it. |
| DownstreamRegistries.DownstreamMcpRegistry.MarkConnectionStale | src/downstream/registry.ts:607-617 | A stale connection leaves both maps if it was ready and closes when idle. |
| DownstreamRegistries.DownstreamMcpRegistry.SettleCall | src/downstream/registry.ts:247-262 | What follows a request: stale marking, one resend for a request that was not sent, the counter, the close. |
| DownstreamRegistries.DownstreamMcpRegistry.EnsureServer | src/downstream/registry.ts:437-458 | One connection attempt at a time for a server. |
| DownstreamRegistries.DownstreamMcpRegistry.FinishSetup | src/downstream/registry.ts:535-556 | A setup succeeds only when the registry is open and the connection not stale. |
| SchemaTypes.Render | src/tool-descriptions.ts:15-66 | Rendering any schema, cyclic or not, ends by the pair of expansions left and schema; it never gains expansions or bytes and gives back every nesting count. |
| SchemaTypes.SchemaTypeBounded | src/tool-descriptions.ts:11-49 | At most 32 references are followed, counted along the rendering; that the result has at most 16,000 bytes is by definition. |
| SchemaTypes.Followed | src/tool-descriptions.ts:25-50 | The references followed while anything is rendered are exactly the expansions spent. |
| SchemaTypes.ShownAsIs | src/tool-descriptions.ts:11-66 | A rendering that met neither limit shows what the schema gives without them. |
| SchemaTypes.PaysAndShows | src/tool-descriptions.ts:15-20 | A text is shown exactly if it could be paid, and paid for either way. |
| SchemaTypes.GivesUpExactly | src/tool-descriptions.ts:99-127 | A construct gives up exactly when the allowance is spent before one of its checked parts. |
| SchemaTypes.PartsFit | src/tool-descriptions.ts:15-20 | A shown text was paid for in full; what does not fit is shown as unknown. |
| SchemaTypes.NothingStaysActive | src/tool-descriptions.ts:28-49 | No reference stays counted as active after its expansion. |
| SchemaRenderers.SchemaRenderer.RenderSchema | src/tool-descriptions.ts:15-20 | The recursion over mutable counters computes the rendering function. |
| SchemaRenderers.SchemaRenderer.ExpandRef | src/tool-descriptions.ts:25-53 | One expansion, with its conditions and the restored count. |
| SchemaRenderers.SchemaRenderer.RenderEach | src/tool-descriptions.ts:99-127 | The loop over the parts of a construct, which gives up before a property when the allowance is spent. |
| PngCrcs.TableStepIsEightBits | src/brand-icon.ts:81-93 | One table lookup is eight steps of the bit-by-bit CRC (section 5.5 of the W3C PNG specification). |
| PngCrcs.Crc32 | src/brand-icon.ts:88-93 | The table-driven loop returns the bit-by-bit CRC of the bytes. |
| PngCrcs.FillTable | src/brand-icon.ts:81-86 | The nested loops fill the table with eight rounds of each index. |
| PngErrors.BurstsAreFound | src/brand-icon.ts:88-102 | Two messages that differ only in up to four bytes in a row have different CRCs. |
| PngErrors.RegisterIsStream | src/brand-icon.ts:88-93 | The register takes in the bits of the bytes in order, each byte from its lowest bit on. |
| PngErrors.Generator | src/brand-icon.ts:81-86 | The constant of the table is the generator polynomial, lowest term last. |
| PngChunks.ChunksRoundTrip | src/brand-icon.ts:95-102 | A reader that checks every CRC gets back exactly the chunks of a stream. |
| PngChunks.WriteChunk | src/brand-icon.ts:95-102 | The four writes into the buffer produce the framed chunk. |
| CodeNames.PlainInjective | src/downstream/tool-id.ts:61-74 | Plain names of two tools are equal only for the same server and tool. |
| CodeNames.PlainNotHashed | src/downstream/tool-id.ts:74-85 | A plain name never equals a hashed one. |
| CodeNames.PlainExactly | src/downstream/tool-id.ts:61-86 | A tool gets its plain name exactly when that is an identifier of at most 128 characters that no other server and tool could have. |
| CodeNames.HashedExactly | src/downstream/tool-id.ts:74-93 | Any other name is the marked prefix, as much of both names as fits, and twelve characters of the digest. |
| CodeNames.NamesDistinct | src/downstream/tool-id.ts:61-86 | Two tools share a name only if their cut digests are equal. |
| CodeNames.NamesFit | src/downstream/tool-id.ts:61-93 | Every name is an identifier of at most 128 characters: letters, digits and underscores, not empty, and with no digit in front. |
| SkillRules.PrunedIsDisabled | src/skills/discover.ts:246-258 | A skill skipped before its name is known is disabled under every name. |
| SkillRules.KeptForNothingExact | src/skills/discover.ts:246-258 | The check without a name keeps a skill that is off under every name if and only if the last path rule of the file turns it off, some enabling name rule has no later path rule of the file, and each such rule is undone by a later disabling rule of its name. |
| SkillRules.OffExact | src/skills/discover.ts:246-258 | A skill is off under every name if and only if its path is off and no enabling name rule behind the last path rule of the file stays in force. |
| SkillRules.NotEveryDisabledIsPruned | src/skills/discover.ts:252-255 | Concrete rules with which the check without a name keeps a skill that every name disables. |
| SkillRules.Select | src/skills/discover.ts:246-258 | The loop over the rules: the last matching rule decides. |
| SkillRules.ToggleSetsOnlyThis | src/web/config-edit.ts:253-275 | After the edit the skill has the requested value and every other file keeps its own under every name. |
| SkillRules.ToggleExactly | src/web/config-edit.ts:253-275 | The deciding rule is changed in place when it is a path rule, and otherwise one is added. |
| SkillRules.Toggle | src/web/config-edit.ts:253-275 | The backward loop finds the path rule that decides, or a rule is appended. |

## Left out
- SessionRevivals.RevivalExact: about runs before the end of a close, which forgets all cells at once.
- NotesAnswers.OneActiveAnswer: assumes that the random ids of questions are fresh.
- SkillPaths.PathPlanLossless: how candidate prefixes are collected and ranked is not modelled; the statement holds for every ranking.
- CodeNames.NamesDistinct: the hash is an arbitrary function, so equal cut digests remain possible.
- LeaseInvariants.StepKeeps: after close the state is frozen; a yielded wait answer for a cell that has already ended, the recorded messages of ended cells and their expiry are not modelled, and which cells count as unobserved is an input.
- MemoryReclaimers.MemoryReclaimer.RunPass: readings, timeouts and host identity are inputs; a host restart is one step.
- SessionRuns.StepKeeps: the retry and termination paths of `execute`, wait observers and early yields are not modelled; they reach the session only through the events listed.
- OutputHistories.Reassembly: exact below the largest safe integer, where the program's counter saturates.
- NotesDelivery.StepGood: one call reads the clock once; fields that no rule reads (attachedAt, callId, readAt, firstSeen) are not modelled.
- ActivityProofs.IndexIsRecomputation: the lastActive, step and preview fields of a summary are not modelled.
- AuditTexts.TruncateAuditText: the share of the head is three fifths rounded up, which the program computes in floating point.
- SkillRenders.RenderSkills: fixed sentences are parameters, and descriptions come in with white space already collapsed.
- ModelOutputs.BoundFits: the notice counts with its 200 bytes; a text is its UTF-8 bytes.
- SchemaTypes.SchemaTypeBounded: what a construct makes of the texts of its parts is an arbitrary function; resolving a fragment inside the root is the parameter `Root`.
- DownstreamTheorems.SecondSendIsSafe: how a transport error proves that a request was not sent is not modelled; whether it was is an input.
- Saving and loading the notes file and its debounced writes.
- The directory traversal of skill discovery.
- Snapshots of arbitrary values for the audit, and rendering the pixels and compressing the data of the brand icon.
- Processes, PTYs, gRPC, HTTP, the file system, hashing and the SDKs: each answer is an arbitrary input.
- Paging views, previews, error wording and the Web user interface.
