# Phira-mp+ session protocol in Dafny

A model of the session protocol of the Phira-mp+ game server and proofs of its safety properties: how a
connection becomes a user's live session, how packets stay in order while it is live, how commands reach their
handlers, and how a reconnect takes over. Around that core it models the plugin dispatcher, the Phira API
client, the Ogg duration scan, the rate limiters and the managed-room normaliser.

State the server changes in place is a class whose methods are proved against a function on the abstract state
(`View()`). Concurrency is a state machine: each lock-protected section, atomic operation or await is one
action, `Do` is total (an action that is not enabled changes nothing), and a theorem about "every run" ranges
over every sequence of actions, so over every interleaving. Time is a number that only moves forward; I/O,
randomness and code that is not modelled appear as action parameters that may take any value.

| file | what it models |
|---|---|
| `Options.dfy` | the Option datatype |
| `Commands.dfy` | packets and how the authentication gate classifies them |
| `OutboundGate.dfy` | the bounded buffer in front of an unauthenticated session, its drain and its fail-closed overflow |
| `OutboundTask.dfy` | the one loop that writes a session's packets, from one queue |
| `RoomCutover.dfy` | a room, a snapshot of it and a session's queue, as seen by the client |
| `SessionBinding.dfy` | a user's binding to one session and one generation |
| `AuthProtocol.dfy` | any number of connections authenticating as one user, with rollback at every failure point |
| `GraceTimers.dfy` | disconnects, their marks and their grace timers |
| `Mailbox.dfy` | the per-session mailbox: clients, queue, worker, deadlines and replies |
| `PluginDispatch.dfy` | the plugin event queue with flush and shutdown behind a send gate |
| `PluginPermits.dfy` | the compare-and-swap admission counter |
| `CircuitBreaker.dfy`, `RetryClient.dfy` | the Phira API client's breaker and retry loop |
| `OggScan.dfy` | the page walk that finds an Ogg file's duration |
| `SlidingWindow.dfy`, `TokenBucket.dfy` | the two rate limiters |
| `Canonical.dfy`, `ManagedRooms.dfy` | first-of-each-key sorted lists, and the managed-room normaliser built on them |

## Where the code and its documentation differ

The model follows the code.

- The binding's generation is documented as only ever increasing. It falls when a rollback restores an older
  binding, so generations repeat; `AuthProtocol.GenerationFallsOnlyOnRestore` says exactly when, and
  `AuthProtocol.GenerationsRepeat` is a run in which two sessions get the same one. Safety rests on the
  (session, generation) pair.
- `classify_command` is documented as keeping every command response out of the snapshot-covered class.
  `Commands.ResponsesCoveredIff` proves that exactly LockRoom, CycleRoom and SelectChart, which are only ever
  responses, are in it; the state changes they answer are broadcast as messages. A response is sent unstamped,
  and `OutboundGate.KeptIsUncovered` shows that a cutover never removes an unstamped packet.
- A failed authentication is meant to leave its session unbound. Another attempt that captured the failing
  session before it was undone can bind it again by its own rollback. `AuthProtocol.FailedSessionBoundIff` says
  exactly when a failed session is bound, by the guard of the restoring branch and those of the later steps that
  write the binding; `AuthProtocol.FailedSessionReboundByAnother` is a run in which it happens.
- The registration gate is documented as keeping a reconnect from racing an offline transition. Binding does not
  take it, and a removal comes some awaits after the check that decided on it. A connected user is removed when a
  reconnect binds between a disconnect's check and its mark, between a timer's check and its removal, or between
  the check and the removal of a disconnect without grace; `GraceTimers.ReconnectInsideTheWindowIsLost`,
  `GraceTimers.ReconnectInsideTheGapIsLost` and `GraceTimers.ReconnectBeforeImmediateRemovalIsLost` are the runs.
  `GraceTimers.WrongRemovalIff` and `GraceTimers.WrongImmediateRemovalIff` say exactly when a removal hits a user
  bound to another session.
- The snapshot taken during authentication is documented as lining up with the events after it, none of them lost.
  `bind_and_snapshot` does not bind: a reconnecting session is handed the room's broadcasts only from `set_session`
  on, which comes after its snapshot.
  `RoomCutover.BroadcastsAreTheChanges` proves that what it lacks is exactly the changes made in between, and
  `RoomCutover.MissedIff` when there are any; `RoomCutover.ChangeBeforeBindingIsMissed` is a run with one.
- A client that reconnects to a room waiting for ready is shown chart selection and sent the waiting state as a
  post-response fix once it is active. The fix carries the state of the snapshot: when the room has moved on
  in between, the client is put back into the old state (`RoomCutover.StaleFixDiverges`).
  `RoomCutover.RepairConverges` gives the condition under which the repair works, and
  `RoomCutover.LastFixDecides` says exactly when it does for a fix that is the last packet.
- The page limit of the Ogg scan reads 200000 but lets one more page through.

## Model

| member | source | states |
|---|---|---|
| Commands.ClassesByName | phira-mp-plus-server/src/session.rs:747-787 | by name: exactly touches, judges and pongs are telemetry, and exactly six commands and six messages are covered by a room snapshot |
| Commands.ResponsesCoveredIff | phira-mp-plus-server/src/session.rs:765-787 | exactly three of the response variants are classified as snapshot-covered |
| OutboundGate.LongestFitIsLongest | phira-mp-plus-server/src/session.rs:853-887 | drop-oldest keeps the longest suffix that fits both limits: what is left fits, and no longer suffix does |
| OutboundGate.TrimEarly | phira-mp-plus-server/src/session.rs:853-887 | dropping oldest at every push loses nothing against trimming once at the end |
| OutboundGate.PushRefines | phira-mp-plus-server/src/session.rs:833-901 | one push on the bounded buffer is one packet added to the unbounded history, seen through the longest fitting suffix |
| OutboundGate.BufferIsLongestFit | phira-mp-plus-server/src/session.rs:833-901 | after any pushes: the buffer is the longest fitting suffix of the accepted packets in order, `bytes` is the exact sum, arrival numbers strictly increase, and `overflowed` is set iff some non-telemetry packet cannot fit alone |
| OutboundGate.NewestControlSurvives | phira-mp-plus-server/src/session.rs:843-898 | a packet other than touches, judges and pongs that fits alone is always kept, as the newest entry |
| OutboundGate.TelemetryYields | phira-mp-plus-server/src/session.rs:843-852 | touches, judges and pongs evict nothing: each is appended if it fits and dropped otherwise |
| OutboundGate.DrainDeliversPrefix | phira-mp-plus-server/src/session.rs:1011-1056 | the drain delivers a prefix of the entries the snapshot does not cover, all of them iff no send in its range fails, and stops right at the first failure |
| OutboundGate.KeptIsUncovered | phira-mp-plus-server/src/session.rs:1018-1044 | cutover removes exactly the covered entries; NonSnapshot, Telemetry and unstamped entries are never removed |
| OutboundGate.CoveredIff | phira-mp-plus-server/src/session.rs:1008-1017 | a buffered packet is covered iff its kind is, it carries a room change number, and the snapshot is no older |
| OutboundGate.OverflowIsFinal | phira-mp-plus-server/src/session.rs:838-1005 | over any mix of pushes, cutovers and activations: overflow is set iff some packet was oversized, and from then on every activation fails, sends nothing and leaves the gate shut and empty |
| OutboundGate.SessionOutboundGate.MakeRoom | phira-mp-plus-server/src/session.rs:856-887 | the drop-oldest loop leaves the longest fitting suffix, or empties the buffer when nothing makes the packet fit |
| OutboundGate.SessionOutboundGate.PushBounded | phira-mp-plus-server/src/session.rs:833-901 | push with its drop-oldest loop, byte counter and flag computes the pushed gate; by kind and size: touches, judges and pongs are appended or dropped, any other packet that fits alone is kept as the newest, and one that does not sets the flag |
| OutboundGate.SessionOutboundGate.Activate | phira-mp-plus-server/src/session.rs:990-1062 | the drain loop opens the gate with everything kept delivered, or leaves it shut, empty and with zero bytes |
| OutboundGate.SessionOutboundGate.BeginRoomCutover | phira-mp-plus-server/src/session.rs:1073-1077 | records the snapshot's room change number and changes nothing else |
| OutboundTask.BeforeOpening | phira-mp-plus-server/src/session.rs:626-660 | until an activation can succeed, the gate is exactly the bounded buffer of all packets so far and the wire holds critical and post-response frames only |
| OutboundTask.AfterOpening | phira-mp-plus-server/src/session.rs:626-740 | once opened, the wire is the earlier immediate frames, then the kept buffer, then every later item in queue order |
| OutboundTask.WireTrace | phira-mp-plus-server/src/session.rs:617-745 | for every queue with successful sends, the wire is the immediate items before the first successful Activate, the kept buffer, and all later items, each in order |
| OutboundTask.NothingOvertakesAuthentication | phira-mp-plus-server/src/session.rs:626-675 | under any send failures, while no activation was requested the wire is a subsequence of the critical and post-response frames: in order, none repeated, nothing else |
| OutboundTask.BarrierHolds | phira-mp-plus-server/src/session.rs:623-680 | under any send failures, the loop's `active` equals the gate's `activated` at every loop head, and an open gate is empty and never overflowed |
| OutboundTask.ActiveForGood | phira-mp-plus-server/src/session.rs:662-680 | once active, always active |
| OutboundTask.BatchIsOrdered | phira-mp-plus-server/src/official_client_compat/post_response.rs:216-231 | a batch is delivered host fixes first, then state fixes, persistent rooms and replays, and in submission order within one kind |
| OutboundTask.DeliverFailsIff | phira-mp-plus-server/src/official_client_compat/post_response.rs:153-231 | a batch fails iff the send of one of its live compensations times out, or fails for a host or state fix |
| OutboundTask.RepliesAreHonest | phira-mp-plus-server/src/session.rs:662-675 | under any send failures, in every run: a critical item is answered true iff its step put exactly its frame on the wire, flushed, and an activation iff its step left the gate open with everything kept on the wire |
| OutboundTask.ClosedIff | phira-mp-plus-server/src/session.rs:640-739 | the transport is closed iff the send of a packet timed out or a batch failed, and by nothing else |
| OutboundTask.OutboundTask.DeliverVia | phira-mp-plus-server/src/official_client_compat/post_response.rs:153-196 | a stale compensation is dropped, a critical one is flushed and must succeed, any other is sent unflushed and may fail but not time out |
| OutboundTask.OutboundTask.DeliverBatch | phira-mp-plus-server/src/session.rs:700-739 | a batch is sorted and delivered in order up to its first failure |
| OutboundTask.OutboundTask.HandleItem | phira-mp-plus-server/src/session.rs:625-742 | one item's effect on gate, wire, flags and replies; a critical item's caller is told of exactly this frame on the wire, an activation's of the open gate |
| OutboundTask.OutboundTask.RunOutboundTask | phira-mp-plus-server/src/session.rs:617-745 | the whole loop computes the run the theorems are about, its replies are the honest ones and it closes the transport exactly when it has to |
| RoomCutover.BroadcastsAreTheChanges | phira-mp-plus-server/src/session.rs:968-1077 | in every run that never drops a packet, whatever responses and compensations say, at every point after the snapshot: the changes missed and then those among the broadcasts received or on their way are exactly the room's changes since the snapshot, each once and in order, and the stream is complete iff nothing was missed |
| RoomCutover.SnapshotPlusDeltaConverges | phira-mp-plus-server/src/session.rs:968-1077 | if nothing was missed, the snapshot and the broadcasts received or on their way give the room's state, at every point of such a run |
| RoomCutover.MissedIff | phira-mp-plus-server/src/session.rs:1587-1698 | something is missed iff the room changes state between the snapshot and the binding of the session |
| RoomCutover.ChangeBeforeBindingIsMissed | phira-mp-plus-server/src/session.rs:1587-1698 | a run in which that happens and the client never learns of the change |
| RoomCutover.WholeStreamConverges | phira-mp-plus-server/src/session.rs:617-745 | the whole wire, responses and compensations included, leads to the room's state if each of them leaves the state reached at its place unchanged |
| RoomCutover.RepairConverges | phira-mp-plus-server/src/session.rs:1609-1622 | a client shown an altered snapshot ends in the room's state if a later fix restores what was altered and every direct packet, the fix included, leaves the state reached at its place unchanged |
| RoomCutover.LastFixDecides | phira-mp-plus-server/src/session.rs:1947-1960 | when that fix is the last packet, the client ends in the room's state iff applying the fix to the room's state changes nothing |
| RoomCutover.StaleFixDiverges | phira-mp-plus-server/src/session.rs:1947-1960 | a run in which the room starts playing before the repair is queued, and the client ends waiting |
| RoomCutover.EveryRunKeepsShape | phira-mp-plus-server/src/room.rs:371-388 | every change in the queue and the gate carries a room number no later than the room's, behind an activation no change is left that the snapshot covers, and before the binding no change is on its way |
| RoomCutover.BufferKeeps | phira-mp-plus-server/src/session.rs:628-638 | moving a packet from queue to gate keeps what the client is due |
| RoomCutover.ActivationKeeps | phira-mp-plus-server/src/session.rs:1011-1062 | opening the gate puts exactly what the snapshot lacks on the wire |
| RoomCutover.DirectKeeps | phira-mp-plus-server/src/session.rs:640-739 | a response or a batch of compensations, whatever it says, leaves what the client is due by broadcast as it was |
| SessionBinding.User.SetCurrent | phira-mp-plus-server/src/session_lifecycle.rs:128-136 | binds a session under a fresh generation and resets every grace field |
| SessionBinding.User.Clear | phira-mp-plus-server/src/session_lifecycle.rs:140-147 | clears the binding under a fresh generation |
| SessionBinding.User.ClearIf | phira-mp-plus-server/src/session_lifecycle.rs:152-171 | clears iff the live bound session and the generation both match |
| SessionBinding.User.ReplaceIf | phira-mp-plus-server/src/session_lifecycle.rs:204-229 | restores an older pair iff the live bound session and the generation both match |
| SessionBinding.User.RollbackBinding | phira-mp-plus-server/src/session.rs:228-262 | a failed attempt's rollback restores, clears or leaves the binding |
| AuthProtocol.RolledBackBeforeActive | phira-mp-plus-server/src/session.rs:169-175 | a failed flush is rolled back in every phase before Active, and in no other case |
| AuthProtocol.EveryRunIsSafe | phira-mp-plus-server/src/session_lifecycle.rs:128-243 | in every run the bound session's generation is the one it was first bound with, and every captured origin is a pair that was really bound |
| AuthProtocol.GenerationIsForLife | phira-mp-plus-server/src/session_lifecycle.rs:128-136 | a session's own generation never changes once it is bound |
| AuthProtocol.CurrentIffBound | phira-mp-plus-server/src/session.rs:359-380 | a live session's origin is current iff that session is the bound one, and no two origins are current together |
| AuthProtocol.RollbackRestoresExactly | phira-mp-plus-server/src/session.rs:228-262 | rollback touches the binding only while the failed session is bound, and then makes the captured pair current again or leaves the user unbound |
| AuthProtocol.GenerationFallsOnlyOnRestore | phira-mp-plus-server/src/session_lifecycle.rs:204-229 | the generation falls iff a rollback restores an older binding |
| AuthProtocol.GenerationsRepeat | phira-mp-plus-server/src/session_lifecycle.rs:204-229 | a run in which two sessions are bound with the same generation, and a late clear with it still leaves the current session alone |
| AuthProtocol.EveryRunIsTraced | phira-mp-plus-server/src/session.rs:1565-2004 | the order of effects and every attempt's progress agree in every run |
| AuthProtocol.AuthenticationTrace | phira-mp-plus-server/src/session.rs:1565-2004 | `Authenticate(Err)` is never sent after an attempted `Authenticate(Ok)`; the replaced session is closed and `UserAuthenticated` queued only after Active; and of every attempt: the session it replaces is closed iff it was handed over, `UserAuthenticated` queued iff published, and a failed one rejected iff no acceptance was attempted |
| AuthProtocol.EveryAttemptTakesOnePath | phira-mp-plus-server/src/session.rs:1446-2004 | in every interleaving each attempt has taken the eight steps of a success in order, or the first few of them, one failing step and the rollback in order, and is at the point that path leads to |
| AuthProtocol.EveryRunStaysUnbound | phira-mp-plus-server/src/session.rs:228-262 | an undone session is bound again only after a recorded restore of it |
| AuthProtocol.FailedSessionBoundIff | phira-mp-plus-server/src/session.rs:214-338 | in every run, a session whose rollback has undone its binding is bound iff another attempt that had captured it was undone while itself bound and nothing wrote the binding after that |
| AuthProtocol.FailedSessionReboundByAnother | phira-mp-plus-server/src/session.rs:1446-1456 | a run in which that happens |
| GraceTimers.TimersStartForBoundSessions | phira-mp-plus-server/src/session_lifecycle.rs:332-420 | in every run, every timer ever started was started by a disconnect whose session was the bound one at its check |
| GraceTimers.StaleDisconnectIsIgnored | phira-mp-plus-server/src/session_lifecycle.rs:332-347 | a disconnect of a session that is not the bound one starts no timer and leaves binding, mark and membership unchanged |
| GraceTimers.MarkSurvivesIffUndisturbed | phira-mp-plus-server/src/session_lifecycle.rs:128-136 | a disconnect's mark is still in place iff no rebinding and no later disconnect came since |
| GraceTimers.TimerRemovesIffUndisturbed | phira-mp-plus-server/src/session_lifecycle.rs:564-586 | a timer's check passes iff no rebinding and no later disconnect came before it; otherwise it changes neither binding nor membership |
| GraceTimers.ExpiryAlwaysRemoves | phira-mp-plus-server/src/session_lifecycle.rs:588-615 | once a timer's check has passed, its removal takes the user out of the user map, whatever happens in between |
| GraceTimers.WrongRemovalIff | phira-mp-plus-server/src/session_lifecycle.rs:404-447 | a timer removes a user bound to another session than the disconnected one iff nothing touched binding or mark between the mark and the timer's check, and the last rebinding between that check and the removal or, if there is none, the last one between the disconnect's check and its mark left another session bound |
| GraceTimers.WrongImmediateRemovalIff | phira-mp-plus-server/src/session_lifecycle.rs:462-488 | a disconnect without grace removes a user bound to another session iff the last rebinding between its check and its removal left another session bound |
| GraceTimers.ReconnectInsideTheWindowIsLost | phira-mp-plus-server/src/session_lifecycle.rs:326-378 | a run in which a bind between check and mark is lost |
| GraceTimers.ReconnectInsideTheGapIsLost | phira-mp-plus-server/src/session_lifecycle.rs:564-615 | a run in which a bind between a timer's check and its removal is lost |
| GraceTimers.ReconnectBeforeImmediateRemovalIsLost | phira-mp-plus-server/src/session_lifecycle.rs:462-488 | a run in which a bind before an immediate removal is lost |
| GraceTimers.Lifecycle.Dangle | phira-mp-plus-server/src/session_lifecycle.rs:319-420 | an undisturbed disconnect is the machine's check and mark; the mark, timer and grace fields it leaves, mode by mode |
| GraceTimers.Lifecycle.GraceElapsed | phira-mp-plus-server/src/session_lifecycle.rs:564-615 | undisturbed, the timer's check and removal in one: it takes its own mark and removes the user, clearing a playing user's deadline, or does nothing |
| Mailbox.StepsOk | phira-mp-plus-server/src/session_actor.rs:30-48 | in every run the queue is the untaken part of the enqueue order and each command's phase, reply slot and progress agree |
| Mailbox.EnqueuedIff | phira-mp-plus-server/src/session_actor.rs:558-613 | a command gets into the queue iff some step sends it while the worker receives and fewer than 64 commands wait |
| Mailbox.TurnedAwayIff | phira-mp-plus-server/src/session_actor.rs:574-613 | a command is reported as not enqueued iff it met no live session, no mailbox, a stopped worker or its deadline |
| Mailbox.StartsFollowEnqueueOrder | phira-mp-plus-server/src/session_actor.rs:30-48 | handler starts are the enqueued commands in enqueue order, some left out, none repeated |
| Mailbox.StartsAreEarned | phira-mp-plus-server/src/session_actor.rs:433-449 | no handler starts after its commit deadline or without a passed origin check |
| Mailbox.OneHandlerAtATime | phira-mp-plus-server/src/session_actor.rs:33-48 | never two handlers at once |
| Mailbox.RefusalIsFinal | phira-mp-plus-server/src/session_actor.rs:36-45 | after a failed origin check nothing starts |
| Mailbox.AnswersAreHonest | phira-mp-plus-server/src/session_actor.rs:433-477 | whatever the client is answered while its transport is open, the handler never started or ran to completion and returned exactly that |
| Mailbox.ResultsNameTheOutcome | phira-mp-plus-server/src/session_actor.rs:498-541 | not enqueued iff it never entered the queue; a completed answer is the reply sent; uncertain only with the transport closed |
| Mailbox.AnsweredIff | phira-mp-plus-server/src/session_actor.rs:518-541 | in every run exactly what each client is answered, by result; a command that never got in is answered with nothing iff its session had been replaced |
| Mailbox.ClosedOnlyWhenUncertain | phira-mp-plus-server/src/session_actor.rs:462-475 | a live session's transport is closed only over a command whose reply was lost or late or whose handler was cut off |
| Mailbox.AnsweredNeverRunsLater | phira-mp-plus-server/src/session_actor.rs:558-613 | safe retry: a command answered over an open transport without having started never runs later |
| Mailbox.UncertainMayStillRun | phira-mp-plus-server/src/session_actor.rs:600-606 | why the transport is closed on a late reply: such a command's handler can start after the answer |
| Mailbox.WorkQueueIsARun | phira-mp-plus-server/src/session_actor.rs:30-240 | the worker loop is a run of the machine, so every run property holds of it |
| Mailbox.WorkQueueServes | phira-mp-plus-server/src/session_actor.rs:30-48 | while the origin stays current the loop serves its queue in order, each command from the moment the one before it is done with: refused after its commit deadline, answered with its result if it returns within its response deadline, cut off at that deadline otherwise; the transport is closed iff one was cut off |
| Mailbox.StaleWorkerServesNobody | phira-mp-plus-server/src/session_actor.rs:35-45 | otherwise it stops, starts nothing and drops every reply |
| Mailbox.SessionMailbox.CloseUncertainSession | phira-mp-plus-server/src/session.rs:418-431 | closes the transport of a session that still exists |
| Mailbox.SessionMailbox.WorkerShouldRun | phira-mp-plus-server/src/session_actor.rs:35-45 | a stale origin stops the worker and drops every queued reply |
| Mailbox.SessionMailbox.RunHandler | phira-mp-plus-server/src/session_actor.rs:433-477 | a command is refused after its commit deadline; it finishes with its handler's result iff it returns within its response deadline, and is else cut off, closed and answered as timed out at that deadline, or at once if it has passed |
| Mailbox.SessionMailbox.Work | phira-mp-plus-server/src/session_actor.rs:30-240 | the worker loop computes `WorkQueue` and serves its queue in that order |
| PluginDispatch.ShutdownDrainsTheQueue | phira-mp-plus-server/src/plugin.rs:447-475 | in every interleaving nothing is queued behind Shutdown, events are handled once and in acceptance order, and all accepted events are handled when the consumer exits |
| PluginDispatch.NothingAcceptedAfterShutdown | phira-mp-plus-server/src/plugin.rs:478-513 | once Shutdown is queued no event is ever accepted, whichever calls are under way |
| PluginDispatch.FlushReplyMeansHandled | phira-mp-plus-server/src/plugin.rs:533-552 | a flush reply implies every event accepted before the flush was handled |
| PluginDispatch.ShutdownReplyMeansDrained | phira-mp-plus-server/src/plugin.rs:554-581 | a shutdown reply implies every accepted event was handled and the queue is empty |
| PluginDispatch.NeverReopens | phira-mp-plus-server/src/plugin.rs:567-575 | the branch that opens the closed flag again is unreachable |
| PluginDispatch.ReturnsTrueIff | phira-mp-plus-server/src/plugin.rs:478-581 | exactly which calls return true: those whose event was queued, those that got their reply, a shutdown that found the dispatcher shut, and calls that had nothing to wait for before the start |
| PluginDispatch.ExitAnswersEveryone | phira-mp-plus-server/src/plugin.rs:455-473 | once the consumer has exited every call still waiting has its reply |
| PluginDispatch.EarlyEventsAreTriggered | phira-mp-plus-server/src/plugin.rs:478-490 | exactly the events dispatched before the start are handed over directly, each once and in order |
| PluginDispatch.RecvKeepsStreamOk | phira-mp-plus-server/src/plugin.rs:456-461 | receiving keeps accepted = handled, then in hand, then queued |
| PluginDispatch.StepsOk | phira-mp-plus-server/src/plugin.rs:447-581 | one call at most is past the gate, whoever sends saw the flag open or closed it, and each queued flush carries the number of events ahead of it |
| PluginDispatch.DispatchAloneIsARun | phira-mp-plus-server/src/plugin.rs:478-531 | an uninterrupted dispatch is a run of the machine |
| PluginDispatch.ConsumeAllIsARun | phira-mp-plus-server/src/plugin.rs:455-473 | the consumer loop is a run of the machine |
| PluginDispatch.PluginManager.DispatchEvent | phira-mp-plus-server/src/plugin.rs:478-513 | trigger directly before the start, refuse after shutdown, drop when full, queue otherwise, as what happens to the queue |
| PluginDispatch.PluginManager.TryDispatchEvent | phira-mp-plus-server/src/plugin.rs:515-531 | true iff the event was queued: started, open, not suspended, and room left |
| PluginDispatch.PluginManager.Consume | phira-mp-plus-server/src/plugin.rs:455-473 | the consumer loop handles everything queued up to and including Shutdown |
| PluginPermits.InflightCountsPermits | phira-mp-plus-server/src/plugin.rs:156-201 | at every point of every interleaving of loads, swaps and drops the counter equals the permits out, never wraps, and never exceeds the largest maximum that was in force |
| PluginPermits.SettingsAreTheLastMade | phira-mp-plus-server/src/plugin.rs:178-227 | maximum and quarantine flag are the last ones set, one for a maximum of zero |
| PluginPermits.AdmittedWasCleared | phira-mp-plus-server/src/plugin.rs:188-201 | no attempt gets past the quarantine check without having found the slot out of quarantine |
| PluginPermits.FixedMaximumIsNeverExceeded | phira-mp-plus-server/src/plugin.rs:180-201 | with the maximum fixed before the first attempt it is the bound |
| PluginPermits.RisingMaximumIsNeverExceeded | phira-mp-plus-server/src/plugin.rs:180-201 | while the maximum is only raised, the one in force is never exceeded |
| PluginPermits.ExceedsIff | phira-mp-plus-server/src/plugin.rs:180-201 | a step leaves the counter above the maximum in force iff it is the exchange of an attempt that loaded a larger maximum, on a counter already at the one in force, or a maximum lowered below the counter, or the counter was above and the step is no release or new maximum that settles it |
| PluginPermits.AboveIff | phira-mp-plus-server/src/plugin.rs:180-201 | at every point of every interleaving the counter is above the maximum in force iff one of those two steps took it there and nothing has settled it since |
| PluginPermits.LoweredMaximumIsExceeded | phira-mp-plus-server/src/plugin.rs:180-201 | a run in which an attempt is admitted above a lowered maximum |
| PluginPermits.AdmittedAlone | phira-mp-plus-server/src/plugin.rs:188-201 | an undisturbed attempt is admitted iff the slot is not quarantined and has room |
| PluginPermits.PluginSlot.SetMax | phira-mp-plus-server/src/plugin.rs:178-182 | the maximum becomes the requested one, and one for zero |
| PluginPermits.PluginSlot.TryExecution | phira-mp-plus-server/src/plugin.rs:188-201 | admits iff not quarantined and below the maximum, and counts the permit |
| PluginPermits.PluginSlot.Release | phira-mp-plus-server/src/plugin.rs:160-164 | dropping a permit counts it back |
| CircuitBreaker.CountIsFailuresSinceReset | phira-mp-plus-server/src/phira_client.rs:375-398 | the stored count is the number of failures since the last success or trip, and stays below the threshold |
| CircuitBreaker.AdmittedIffNoRecentTrip | phira-mp-plus-server/src/phira_client.rs:362-373 | a request is admitted iff every trip since the last success is at least the open duration old |
| CircuitBreaker.FailureTripsIff | phira-mp-plus-server/src/phira_client.rs:380-398 | a failure opens the breaker iff it is the threshold-th since the last success or trip, or the breaker opened since the last success and its open time has run out |
| CircuitBreaker.DisabledNeverOpens | phira-mp-plus-server/src/phira_client.rs:362-383 | a disabled breaker counts nothing and admits everything |
| CircuitBreaker.PhiraCircuitBreaker.AllowRequest | phira-mp-plus-server/src/phira_client.rs:362-373 | the answer, and the rejection counted |
| CircuitBreaker.PhiraCircuitBreaker.RecordSuccess | phira-mp-plus-server/src/phira_client.rs:375-378 | count and open time reset, trips kept |
| CircuitBreaker.PhiraCircuitBreaker.RecordFailure | phira-mp-plus-server/src/phira_client.rs:380-398 | counts, or trips: at the threshold or on a failed half-open request |
| RetryClient.BackoffIsBounded | phira-mp-plus-server/src/phira_client.rs:298-309 | a backoff waits at least a millisecond and at most the maximum, and never past the deadline |
| RetryClient.BackoffIsExact | phira-mp-plus-server/src/phira_client.rs:298-309 | the delay is base times attempt plus jitter, capped; saturating arithmetic never shows |
| RetryClient.RunConserves | phira-mp-plus-server/src/phira_client.rs:603-721 | in every interleaving requests = successes + failures + calls still uncounted, and failures = circuit + transport + status + decode + failures about to be named |
| RetryClient.FinishedTotals | phira-mp-plus-server/src/phira_client.rs:1028-1063 | when every call has finished, requests = successes + failures, and every failure has exactly one kind |
| RetryClient.CallsAreBounded | phira-mp-plus-server/src/phira_client.rs:628-721 | each call starts at most `max_retries + 1` requests, none at or after its deadline, blames the breaker once if it fails by transport, retryable status or decoding and else never, and never reaches the code after the loop |
| RetryClient.BreakerHearsEveryReport | phira-mp-plus-server/src/phira_client.rs:603-721 | in every interleaving the breaker is where the reported outcomes put it, with one failure for every call that blamed it, and the retry counter counts exactly the retried replies |
| RetryClient.OpenBreakerRejects | phira-mp-plus-server/src/phira_client.rs:603-620 | a call is rejected only by an open breaker, and starts a request only past one that is not |
| RetryClient.PhiraClient.GetJson | phira-mp-plus-server/src/phira_client.rs:603-721 | the first reply that is not retried decides, a retryable reply only on the last attempt; by that reply: its value, or the failure of its kind, and the breaker closed, left alone or failed; every request starts before the deadline, a timeout is an attempt that would not; counters and clock change by exactly that |
| RetryClient.PhiraClient.Conclude | phira-mp-plus-server/src/phira_client.rs:655-716 | a reply that is not retried, by its kind: the outcome, the one counter and the breaker |
| RetryClient.PhiraClient.TryOnce | phira-mp-plus-server/src/phira_client.rs:628-716 | one attempt: a timeout at or after the deadline, a retry of a retryable reply before the last attempt, or the outcome |
| RetryClient.PhiraClient.BoundedBackoffSleep | phira-mp-plus-server/src/phira_client.rs:979-992 | sleeps for the backoff or the remaining budget, whichever is less |
| RetryClient.PhiraClient.RecordFailureKind | phira-mp-plus-server/src/phira_client.rs:1028-1063 | one failure more, of exactly one kind, and nothing else counted; a deadline failure is a status error that is neither retryable nor not |
| OggScan.OggDurationScan | phira-mp-plus-server/src/phira_client.rs:95-139 | the page walk terminates, never reads out of range, and computes the scan the theorem is about |
| OggScan.ReadEncoded | phira-mp-plus-server/src/phira_client.rs:102-112 | reading an encoded page of RFC 3533, section 6, gives its granule position and body back, whatever follows |
| OggScan.LittleEndianRoundTrip | phira-mp-plus-server/src/phira_client.rs:103-119 | decoding an encoded little-endian number gives it back |
| OggScan.IdentifyCodec | phira-mp-plus-server/src/phira_client.rs:113-121 | a Vorbis identification header gives its rate, an Opus header (section 5.1 of RFC 7845) its pre-skip and 48 kHz |
| OggScan.SpelledOut | phira-mp-plus-server/src/phira_client.rs:101-124 | the capture pattern and codec headers are the specifications' texts, and no granule position is the largest number of eight bytes |
| OggScan.SegmentsAddUp | phira-mp-plus-server/src/phira_client.rs:106-110 | a body is as long as its segments together |
| OggScan.LastGranuleIsLast | phira-mp-plus-server/src/phira_client.rs:122-124 | the last granule position is that of the last page that has one, and absent iff no page has one |
| OggScan.ScanInvertsEncoding | phira-mp-plus-server/src/phira_client.rs:95-139 | for every non-empty list of well-formed pages with a codec header first, followed by anything that is not a page: the last granule position of the pages scanned, less pre-skip floored at 0 for Opus, over the rate; none if no page has one |
| SlidingWindow.AnswersAsFullHistory | phira-mp-plus-server/src/rate_limiter.rs:33-50 | every check is answered as by a limiter that keeps every admitted timestamp forever |
| SlidingWindow.CleanupsChangeNoAnswer | phira-mp-plus-server/src/rate_limiter.rs:52-60 | cleanups, whenever they happen, change no later answer |
| SlidingWindow.AdmittedIsHistory | phira-mp-plus-server/src/rate_limiter.rs:33-50 | with a clock that never runs backwards, `check` admits exactly what the limiter that never forgets admits |
| SlidingWindow.AtMostMaxPerWindow | phira-mp-plus-server/src/rate_limiter.rs:33-50 | with such a clock, every half-open interval of window length holds at most `max_count` admissions by `check` per key |
| SlidingWindow.BackwardClockBreaksTheBound | phira-mp-plus-server/src/rate_limiter.rs:33-60 | why the clock matters: a run with a clock that runs backwards exceeds the bound |
| SlidingWindow.SlidingWindowRateLimiter.CheckKey | phira-mp-plus-server/src/rate_limiter.rs:33-50 | answers as the limiter that never forgets, records exactly the admission, keeps at most `max_count` timestamps on admission, forgets only what left the window, and touches no other key |
| SlidingWindow.SlidingWindowRateLimiter.CleanUp | phira-mp-plus-server/src/rate_limiter.rs:52-60 | leaves no empty bucket, forgets only what left the window, and changes what no later check sees |
| TokenBucket.TokensStayInRange | phira-mp-plus-server/src/rate_limiter.rs:95-109 | tokens stay in [0, burst] |
| TokenBucket.RateIsBounded | phira-mp-plus-server/src/rate_limiter.rs:95-109 | from any request to any later one at most burst + rate * elapsed are allowed |
| TokenBucket.AllowedIffEveryBoundKept | phira-mp-plus-server/src/rate_limiter.rs:95-109 | a request is allowed iff allowing it keeps that bound over every run ending in it: nothing is refused needlessly |
| TokenBucket.TokenBucketRateLimiter.TryConsume | phira-mp-plus-server/src/rate_limiter.rs:95-109 | refill, cap and consume in place |
| ManagedRooms.AnsweredByFirstRule | phira-mp-plus-server/src/managed_rooms.rs:74-155 | every definition is refused with the first rule it breaks, each rule stated on what was submitted, and accepted iff it breaks none |
| ManagedRooms.ResultKeeps | phira-mp-plus-server/src/managed_rooms.rs:74-155 | an accepted definition keeps everything submitted but for sorting, trimming, and what its kind rules out or fills in |
| ManagedRooms.ResultsAreNormal | phira-mp-plus-server/src/managed_rooms.rs:74-155 | whatever is accepted comes out in normal form: strictly increasing whitelist and pool, trimmed valid charts, a host that may enter, and the rules of its kind |
| ManagedRooms.FixedIffNormal | phira-mp-plus-server/src/managed_rooms.rs:74-155 | a definition is accepted unchanged iff it is in normal form |
| ManagedRooms.NormalizeIsIdempotent | phira-mp-plus-server/src/managed_rooms.rs:74-155 | normalising a normalised definition succeeds and changes nothing |
| ManagedRooms.WhitelistIsASet | phira-mp-plus-server/src/managed_rooms.rs:93-103 | whitelists with the same ids normalise to the same list and give the same answer |
| ManagedRooms.PoolKeepsFirst | phira-mp-plus-server/src/managed_rooms.rs:121-131 | of the charts with one id the pool keeps exactly the first submitted |
| ManagedRooms.HostMayEnter | phira-mp-plus-server/src/managed_rooms.rs:161-164 | a normalised room lets in exactly the users submitted, or anyone if it is hosted and none were, and its host |
| ManagedRooms.SameConfigurationIsEquivalence | phira-mp-plus-server/src/managed_rooms.rs:166-176 | an equivalence relation that relates two rooms iff they differ at most in a reserved room's expiry, and respects who may enter |
| ManagedRooms.TrimTakesTheEnds | phira-mp-plus-server/src/managed_rooms.rs:19-30 | trimming takes white space off both ends and nothing else |
| ManagedRooms.RetainFirst | phira-mp-plus-server/src/managed_rooms.rs:93-94 | the seen-set pass keeps the first of each id |
| ManagedRooms.BuildPool | phira-mp-plus-server/src/managed_rooms.rs:121-130 | the pool loop validates every chart and keeps the first of each id |
| ManagedRooms.ValidateAndNormalize | phira-mp-plus-server/src/managed_rooms.rs:74-155 | the operation computes `Normalize`, with its errors in order |
| Canonical.CanonIsCanonical | phira-mp-plus-server/src/managed_rooms.rs:93-95 | deduplicating and sorting gives a strictly increasing list of exactly the first elements |
| Canonical.IncreasingIsUnique | phira-mp-plus-server/src/managed_rooms.rs:93-95 | strictly increasing lists with the same elements are equal |

## Left out

- The room actor, persistence and write-ahead log, and the waiting done by response timing: a room is an abstract
  state with a counter, deadlines are comparisons on a clock, and a packet's size is a given number.
- RoomCutover: runs in which the gate drops a packet, a send fails or a full queue disconnects the session; what a
  dropped packet does is stated for the gate alone. A change of the room is one step with its number and its
  broadcasts. What the old session of a reconnecting user is sent is not part of it.
- OutboundTask: the delay of a post-response batch, and compensations to users without a session. Whether an
  origin is still current when its compensation's turn comes is part of the batch.
- The gate's own entry points for direct use (`send`, `try_send`, `send_and_flush`), used only by tests, and the
  check of its maximum duration, which appears as a failure the authentication attempt may meet at any time.
- OutboundGate.SessionOutboundGate.constructor: requires the byte limit to be below the machine word's maximum,
  which the configuration check (`server/config.rs`) guarantees; with the maximum itself the saturating sum would hide an
  oversized packet.
- AuthProtocol: console, room-monitor and game-monitor authentication, the token check before a session exists,
  removal from the user map in a rollback, and the `durable` compensation no caller asks for. Nothing is said about
  the liveness of a restored session's transport.
- GraceTimers: monitors (negative ids), which never get a grace period. Setting a mark with its deadline is one
  step, and so are leaving the room and leaving the user map.
- Mailbox: the twelve command handlers are one handler that takes any time and returns any reply, the check of the
  commit deadline and the start are one step, and the checks handlers repeat inside are not modelled.
- PluginDispatch: flush and shutdown as methods (they block on a full queue; the machine has them), the plugins'
  parallel execution of one event, and a crash of the consumer.
- PluginPermits: `wait_for_execution_until`, which retries on a message `try_execution` never returns.
- CircuitBreaker: one half-open probe at a time, which the breaker does not enforce, and clock values near the end
  of the 64-bit range; each of its methods is one step.
- RetryClient: per-endpoint statistics, retry notices, and which HTTP statuses and transport errors are retryable.
- OggScan: the final division is kept as a pair of numbers, so floating-point rounding and a zero rate are not
  modelled; the MP3 and ZIP scans are left out.
- TokenBucket: exact reals in place of 64-bit floating point.
- TokenBucket and CircuitBreaker: what their bounds become under a clock that runs backwards.
- ManagedRooms: error texts, and JSON encoding.
- Terminal, HTTP, SSE, WebSocket, WASM, PostgreSQL, backup, logging, localisation and self-update.
