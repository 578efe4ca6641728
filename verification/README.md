# PhonArch control plane: a Dafny model

PhonArch runs conference rooms over telephone calls. A control API keeps rooms, participants, sessions and
call legs in PostgreSQL and drives PBX nodes through sidecars; SIP edges pick a node for a call and keep later
requests of the dialog on it; a dashboard normalises the numbers people type. This project models the parts
whose correctness is not visible in any one function and proves what they keep.

**Room session protocol** (`Tables`, `Statements`, `RoomProtocol` and the modules on top). The tables are maps,
each SQL statement is a function on them, and partial unique indexes and foreign keys are guards on the writes.
Every in-flight handler and background goroutine is a thread whose constructor is its program counter. One
statement is one step, one transaction is one step, and a run is any sequence of steps: what the code does not
decide (who runs next, what a sidecar answers, which row a cursor yields) comes with the action.
`Isolation` and `RoomTenancy` hold tenancy and consistency, `Lifecycle` is the room lifecycle on its own and
`LifecycleRefinement` shows that every statement is one of its steps, `ControlFlow` says where threads come from.
`RoomPromises` says what is promised of one state, `Dispatches`, `RoomHandlers` and `RoomOutcomes` what each handler
achieves undisturbed, with the whole state it leaves; `Continuations` and `Endings` are about what a state can go on to.

**The whole control API** (`SpeakerProtocol` and the modules on top): the speaker handlers statement by statement,
interleaved with the statements of the room protocol and with whole roster handlers over the same tables.
All promises are over its runs. `SpeakerTheorems` has tenancy and isolation, `SystemTheorems` the rooms and
sessions, `HostFirst` and `ListenerCalls` who is called, after whom and how often, `Finality` and `Disorder` the
exact conditions of two promises that fail without them, `SpeakerCap` and `SpeakerTightness` the speaker limit,
`RaisedHands` and `Stranding` raised hands statement by statement, `HandRaised` and `SpeakerHandlers` whole speaker
handlers, `Backing` what the rest of the API does to raised hands and `Frames` what it leaves alone.

**Fan-out** (`FanOut`): the goroutines, semaphore and wait group behind one step of the protocol.

**Roster** (`Roster`, `RosterTenancy`, `RosterTheorems`, `RosterRuns`, `RosterContents`, `RosterOutcomes`,
`RosterRace`): whole roster handlers, with the bulk import's loops, what each of them answers and writes, and adds whose
insert comes later than their count.

**SIP edge** (`Affinity`, `AffinityRuns`, `AffinityFound`, `AffinityGone`, `NodeSelection`): the registry as a class over
a shared Redis, its cache accesses and Redis commands as steps of any number of edges, when a bound call is found and
an unbound one gone, and node selection on an array.

**PBX sidecar** (`Sidecar`, `SidecarLedger`, `SidecarReplay`): the store as a class, the counter's ledger at lock
granularity, and command replay over whole handlers.

**Numbers and slugs** (`DialNumbers`, `Slugs`, `Text`): the normalisers of both languages, on ASCII text.

Where the code is weaker than its comments suggest the model follows the code. Seven naive statements are false. For
each a run shows it, and a theorem says when the statement holds:

- A room mirrors its session: a run breaks it (`RoomWitnesses.StaleActivator`); it holds when starts wait for the
  writes of the earlier sessions' handlers, and only then (`Disorder.OrderIsExact`).
- A closed session keeps its status: `RoomWitnesses.FailedBecomesEnded`; it does iff no handler in flight still has to do
  one of the two session writes that ask for no status (`Finality.ClosedIsFinal`).
- The configured speaker limit holds: `SpeakerWitnesses.TwoGrantsPassTheLimit`; with k grants between count and write
  the limit is limit - 1 + k, and it is reached (`SpeakerCap.SpeakersBounded`, `SpeakerTightness.BoundIsReached`).
- A room's listeners stay within its limit: `RosterRace.TwoAddsPassTheLimit`; they do when adds run whole
  (`RosterRuns.RosterCopiesAndBound`), and with k adds between count and insert the limit is limit + k, and it is reached
  (`RosterRace.RosterBounded`, `RosterRace.RosterBoundIsReached`).
- A raised hand has an open request: `SpeakerWitnesses.RaisedWithoutRequest`; it does when speaker handlers run whole
  (`HandRaised.RaisedHandHasOneRequest`), and statement by statement up to a lowering still to come unless a closing
  statement strands a `0`, and only then (`RaisedHands.RaisedHandIsSheltered`, `Stranding.StrandingIsExact`).
- A call bound in Redis is found at its destination: `AffinityWitnesses.RebindLeavesStale`; it is iff no trace that the
  bind leaves behind contradicts it (`AffinityFound.BoundIsFound`).
- An unbound call is gone: `AffinityWitnesses.LookupUndoesUnbind`; it is from an edge iff nothing with an unexpired
  entry of it is left there or on its way (`AffinityGone.UnboundIsGone`).

Assumptions shared by all modules: database writes succeed, processes do not crash in the middle of a handler,
ids are never issued twice and one counter issues them, requests arrive decoded, and the edges and Redis share one
clock. Each edge may restart.

## Model

| member | source | states |
|---|---|---|
| SystemTheorems.NoStuckRoom | components/phonarch-platform-api/cmd/control-api/main.go:1078-1220 | In every state the whole control API can reach (speaker handlers statement by statement, roster handlers whole, between the statements of the room protocol) a room that is not READY has a STARTING or RUNNING session, or some handler's READY write is still to come |
| SystemTheorems.QuiescentRoom | components/phonarch-platform-api/cmd/control-api/main.go:2446-2462 | With no handler of the room protocol in flight, a room without an active session is READY |
| SystemTheorems.NeverResurrected | components/phonarch-platform-api/cmd/control-api/main.go:1146-1155 | A session that is ENDED or FAILED at some moment of a run is never STARTING or RUNNING later |
| SystemTheorems.PromotedOnce | components/phonarch-platform-api/cmd/control-api/main.go:1146-1151 | A session moves from STARTING to RUNNING in at most one step of a run |
| SystemTheorems.RunningWasPromoted | components/phonarch-platform-api/cmd/control-api/main.go:1117-1156 | Every RUNNING session got there by such a step: there is no other way to RUNNING |
| Finality.ClosedIsFinal | components/phonarch-platform-api/cmd/control-api/main.go:1121-1216 | A closed session keeps its status however the run goes on iff nobody in flight may still overwrite it: for FAILED no stop of it before its ENDED write, for ENDED no start of it whose host call can still fail |
| Finality.CanChange | components/phonarch-platform-api/cmd/control-api/main.go:1121-1216 | From any reachable state with such a handler in flight some continuation turns FAILED into ENDED, or ENDED into FAILED |
| RoomWitnesses.FailedBecomesEnded | components/phonarch-platform-api/cmd/control-api/main.go:1130-1131 | A run that does it: a stop under way turns FAILED into ENDED |
| SystemTheorems.OneActiveSessionPerRoom | components/phonarch-platform-api/migrations/004_room_lifecycle_roster.sql:31-32 | No reachable state has two STARTING or RUNNING sessions of one room |
| SystemTheorems.RoomMirrorsSession | components/phonarch-platform-api/cmd/control-api/main.go:1183-1218 | When every start that takes effect waits for the earlier sessions' handlers to have done their writes, a settled room is READY iff it has no active session, STARTING iff that is STARTING, RUNNING iff that is RUNNING |
| Disorder.OrderIsExact | components/phonarch-platform-api/cmd/control-api/main.go:1117-1218 | That condition is exact: after an orderly run an action leaves every room mirroring its session, whatever orderly actions follow, iff it is orderly itself |
| Disorder.DisorderBreaks | components/phonarch-platform-api/cmd/control-api/main.go:1117-1218 | A start that takes effect while a handler still has writes for the room can be followed, by the handlers in flight alone, by a settled state in which the room does not mirror its session |
| RoomWitnesses.StaleActivator | components/phonarch-platform-api/cmd/control-api/main.go:1183-1192 | A run that does it: stop, start, and the stopped session's activator leaves the room READY, with no write pending, under a STARTING session |
| HostFirst.ListenerAfterHost | components/phonarch-platform-api/cmd/control-api/main.go:1331-1351 | Every LISTENER leg ever created, by fan-out, live dial or add-back, is preceded by a state where a HOST leg of its room was ANSWERED or IN_BRIDGE |
| HostFirst.FanOutAfterOwnHost | components/phonarch-platform-api/cmd/control-api/main.go:1140-1181 | Every leg a session's fan-out creates is preceded by the call of that session's own host, then by that leg being up, then by the session's move from STARTING to RUNNING |
| HostFirst.FansOutAfterPromotion | components/phonarch-platform-api/cmd/control-api/main.go:1144-1181 | It lists them only after its own host was called and up and the session was moved to RUNNING |
| SystemTheorems.FansOutOnce | components/phonarch-platform-api/cmd/control-api/main.go:1157-1166 | A session's activator lists the listeners at most once in a run |
| ListenerCalls.CalledOnce | components/phonarch-platform-api/cmd/control-api/main.go:1167-1181 | For a session and a listener at most one step of a run starts a fan-out call, and it starts one |
| HostFirst.CreatedByDispatch | components/phonarch-platform-api/cmd/control-api/main.go:1288-1329 | Call legs come from the dispatch path only, as legs of the participant it calls |
| HostFirst.CreatedMuted | components/phonarch-platform-api/cmd/control-api/main.go:1309-1313 | A new leg is DISPATCHED, and muted iff its participant is a LISTENER |
| Dispatches.DispatchCalls | components/phonarch-platform-api/cmd/control-api/main.go:1288-1329 | An accepted dispatch, whoever asks for it (start, fan-out, live dial, add-back), leaves a new DISPATCHED leg of the participant, muted iff a LISTENER, a HOST ACTIVE and a LISTENER MUTED, an attendance row of the session, participant and leg for a session's call and none for a live one, and nothing else changed |
| Dispatches.DispatchRefused | components/phonarch-platform-api/cmd/control-api/main.go:1313-1319 | A dispatch the sidecar refuses leaves the new leg FAILED, the participant as before and no attendance row |
| Dispatches.LookedUp | components/phonarch-platform-api/cmd/control-api/main.go:1288-1308 | A dispatch goes on to its leg iff the participant is on the room's roster, the room has its ACTIVE number, and number and node are good; else it changes nothing, and a start goes on to fail its session |
| Dispatches.FanOutCallsAll | components/phonarch-platform-api/cmd/control-api/main.go:1157-1181 | A fan-out whose calls are accepted, in whatever order, leaves for every listener on its list, and for nobody else, one DISPATCHED muted leg and one attendance row of the session |
| RoomOutcomes.StartCallsEveryone | components/phonarch-platform-api/cmd/control-api/main.go:1078-1182 | A start that takes effect, whose host answers and whose calls are accepted: room and session RUNNING, the host's leg up and unmuted, and exactly the LISTENERs of the room called, each once, muted and attending the session; nothing else changes |
| RoomOutcomes.StartGuard | components/phonarch-platform-api/cmd/control-api/main.go:1086-1115 | A start takes effect iff the room is READY, with a host name and number, an ACTIVE number, a roster within a positive limit, and no STARTING or RUNNING session |
| RoomOutcomes.StartFails | components/phonarch-platform-api/cmd/control-api/main.go:1123-1135 | A start whose host call is refused leaves a FAILED session, a FAILED leg and the room READY as it was |
| RoomOutcomes.GivesUp | components/phonarch-platform-api/cmd/control-api/main.go:1183-1192 | When the activator's time is up or the host's leg is over, a STARTING session is FAILED and the room READY |
| RoomOutcomes.PollWaits | components/phonarch-platform-api/cmd/control-api/main.go:1139-1145 | It waits iff its time is not up and the host's leg is neither up nor over |
| RoomOutcomes.HostEndCloses | components/phonarch-platform-api/cmd/control-api/main.go:2437-2462 | The reported end of a host's leg closes the session it attends, FAILED if STARTING and ENDED if RUNNING, sets its room READY and changes nothing else |
| RoomOutcomes.OtherReports | components/phonarch-platform-api/cmd/control-api/main.go:2430-2448 | Any other report, of another leg's end or of no end, writes that leg's state and nothing else |
| Dispatches.DialCalls | components/phonarch-platform-api/cmd/control-api/main.go:1331-1351 | An accepted live dial adds one listener, named by the number where no name is given, and its muted leg, and attends no session |
| Dispatches.DialGuard | components/phonarch-platform-api/cmd/control-api/main.go:1334-1345 | The live dialler goes on iff the room is RUNNING, has its number and a place left |
| Dispatches.AddBackCalls | components/phonarch-platform-api/cmd/control-api/main.go:1518-1539 | A participant of a RUNNING room is called again without an attendance row, one of another room is not called |
| SystemTheorems.StepRefines | components/phonarch-platform-api/cmd/control-api/main.go:1078-1224 | Every action of the control API, speaker and roster handlers included, is a step of the lifecycle machine |
| LifecycleRefinement.StepRefines | components/phonarch-platform-api/cmd/control-api/main.go:1078-1224 | Every statement of every handler is a step of the room lifecycle machine on room states, session statuses and pending writes |
| Lifecycle.NoStuckKept | components/phonarch-platform-api/cmd/control-api/main.go:1121-1132 | The lifecycle machine keeps every non-READY room backed by an active session or a pending READY write |
| Lifecycle.MirrorsKept | components/phonarch-platform-api/cmd/control-api/main.go:1117-1156 | With orderly starts, the writes still to come belong to the active session and the room follows it |
| Lifecycle.StepForward | components/phonarch-platform-api/cmd/control-api/main.go:1131-1216 | Session statuses never go back, and a new session is STARTING |
| ControlFlow.StepFlows | components/phonarch-platform-api/cmd/control-api/main.go:1078-1224 | Every thread of the next state was there, runs the next statement of one that was, was started by a fan-out for a listener on its list, or arrived under its request's guard |
| Endings.ToClose | components/phonarch-platform-api/cmd/control-api/main.go:1121-1220 | Every handler that owns or closes a session can come to its session write on its own, with refused calls and a spent deadline, leaving rooms and sessions as they were up to there |
| SpeakerTheorems.StepWithin | components/phonarch-platform-api/cmd/control-api/main.go:2340-2408 | Each action of the whole control API (a statement of the room protocol or of a speaker handler, or a whole roster handler) keeps foreign keys, workspace columns and unique indexes, and leaves every row of every other workspace as it was |
| SpeakerTheorems.RunIsolated | components/phonarch-platform-api/cmd/control-api/main.go:1384-1479 | Over a stretch of a run of the control API whose writing actions belong to one workspace no row of another changes, in any table |
| SpeakerTheorems.RowsCarryWorkspace | components/phonarch-platform-api/cmd/control-api/main.go:894-955 | In every state the control API can reach participants, sessions, legs, requests and batches carry their room's workspace, batch rows their batch's |
| SpeakerTheorems.OneOpenRequestPerParticipant | components/phonarch-platform-api/migrations/003_multitenant_media_ha.sql:159-161 | A participant has at most one open request in a room in every reachable state |
| SpeakerWitnesses.FilledAndEmptied | components/phonarch-platform-api/cmd/control-api/main.go:725-774 | A run fills every table with rows of one room (start, 0, hang-up, import); deleting the room then leaves no row of it anywhere |
| RoomTenancy.DeleteTakesAll | components/phonarch-platform-api/cmd/control-api/main.go:725-774 | Deleting a room without a live leg leaves no row of the room in any table, whatever the tables hold |
| RoomTenancy.StepWithin | components/phonarch-platform-api/cmd/control-api/main.go:725-774 | Each action of the room protocol, from any state whose tables and threads are sound, keeps foreign keys, workspace columns and unique indexes, and leaves every row of every other workspace as it was |
| RosterTenancy.HandleWithin | components/phonarch-platform-api/cmd/control-api/main.go:990-1076 | Each whole roster handler keeps any sound tables sound and leaves the other workspaces' rows alone |
| RosterTenancy.ImportWithin | components/phonarch-platform-api/cmd/control-api/main.go:1541-1623 | The bulk import, committed, refused or rolled back, keeps any sound tables sound and stays in its workspace |
| RosterRuns.RosterIsolated | components/phonarch-platform-api/cmd/control-api/main.go:1384-1436 | From any sound tables, over any run of roster handlers of one workspace, no row of another changes |
| Statements.CascadeWithin | components/phonarch-platform-api/migrations/002_room_delete_constraints.sql:1-16 | ON DELETE CASCADE and SET NULL from rooms or participants of one workspace keep every foreign key and touch no other workspace |
| SpeakerCap.SpeakersBounded | components/phonarch-platform-api/cmd/control-api/main.go:2364-2403 | With at most k grants of a room between count and write, approved speakers plus those grants are at most limit - 1 + k in every reachable state |
| SpeakerTightness.BoundIsReached | components/phonarch-platform-api/cmd/control-api/main.go:2364-2403 | The bound is tight: from every reachable world with limit - 1 approved and no grant under way, any k waiting requests can be granted to limit - 1 + k approved with at most k grants between count and write throughout |
| SpeakerCap.OneAtATime | components/phonarch-platform-api/cmd/control-api/main.go:2364-2372 | Grants one at a time keep the configured limit |
| SpeakerWitnesses.TwoGrantsPassTheLimit | components/phonarch-platform-api/cmd/control-api/main.go:2364-2403 | A run with never more than two grants between count and write under a limit of one ends with two approved speakers: the bound for k = 2 is reached |
| HandRaised.RaisedHandHasOneRequest | components/phonarch-platform-api/cmd/control-api/main.go:2300-2312 | When each speaker handler (0, #, grant, withdraw, mute, unmute, drop) runs whole, a HAND_RAISED participant has exactly one open request, however the statements of starts, activators, stops, events, dispatches and live calls, and whole roster handlers, come in between |
| HandRaised.HandleBacked | components/phonarch-platform-api/cmd/control-api/main.go:1466-1477 | Each such step keeps that, from any sound state in which it holds |
| Backing.CoreHarmless | components/phonarch-platform-api/cmd/control-api/main.go:1078-1224 | No statement of the room protocol raises a hand or closes the open request of a participant who stays |
| Backing.ManagedHarmless | components/phonarch-platform-api/cmd/control-api/main.go:990-1076 | Nor does a roster handler |
| RaisedHands.RaisedHandIsSheltered | components/phonarch-platform-api/cmd/control-api/main.go:2300-2312 | Statement by statement a raised hand has an open request or a handler about to lower it, unless a # or withdrawal closed the participant's last open request while a 0 of theirs was between its two writes |
| Stranding.StrandingIsExact | components/phonarch-platform-api/cmd/control-api/main.go:2300-2312 | That condition is exact: after a run that never strands a 0, a statement leaves every raised hand with an open request or a lowering to come, over every continuation that strands none, iff it does not strand one itself |
| Stranding.StrandingBreaks | components/phonarch-platform-api/cmd/control-api/main.go:2300-2359 | After a closing statement that strands a 0, whatever state the participant is in, some continuation that strands no other leaves the hand raised with no open request and nobody to lower it |
| SpeakerWitnesses.RaisedWithoutRequest | components/phonarch-platform-api/cmd/control-api/main.go:2300-2312 | A run that does it: # between the two writes of 0 leaves a raised hand without a request and no handler in flight |
| SpeakerHandlers.ZeroAsks | components/phonarch-platform-api/cmd/control-api/main.go:2307-2312 | The whole 0 handler: the hand up unless the participant is DROPPED or FAILED, one QUEUED request with that leg where there is no open one, and nothing else changed |
| SpeakerHandlers.HashWithdraws | components/phonarch-platform-api/cmd/control-api/main.go:2300-2306 | The whole # handler: exactly the participant's open requests in the room withdrawn, a raised hand MUTED, and nothing else changed |
| SpeakerHandlers.GrantOpens | components/phonarch-platform-api/cmd/control-api/main.go:2364-2408 | A grant below the limit that the sidecar accepts: the request ACTIVE (but where that would open a second one), its participant ACTIVE, the request's leg or the newest live one unmuted, and nothing else changed |
| SpeakerHandlers.GrantStops | components/phonarch-platform-api/cmd/control-api/main.go:2364-2400 | At the limit of GRANTED and ACTIVE requests, without such a leg, or refused by the sidecar, a grant changes nothing |
| SpeakerHandlers.WithdrawCloses | components/phonarch-platform-api/cmd/control-api/main.go:2357-2363 | A withdrawal: the request WITHDRAWN, its participant MUTED whatever their state, and nothing else changed |
| SpeakerHandlers.MuteMutes | components/phonarch-platform-api/cmd/control-api/main.go:1466-1469 | An accepted mute: the participant's newest live leg muted, the participant MUTED, and nothing else changed |
| SpeakerHandlers.UnmuteUnmutes | components/phonarch-platform-api/cmd/control-api/main.go:1470-1473 | An accepted unmute: that leg unmuted, the participant ACTIVE, and nothing else changed |
| SpeakerHandlers.DropDrops | components/phonarch-platform-api/cmd/control-api/main.go:1474-1477 | An accepted drop: that leg and the participant DROPPED, and nothing else changed |
| SpeakerHandlers.ActRefused | components/phonarch-platform-api/cmd/control-api/main.go:1438-1465 | An action on any other leg, or one the sidecar refuses, changes nothing |
| SpeakerHandlers.DigitRefused | components/phonarch-platform-api/cmd/control-api/main.go:2280-2291 | A digit on a leg that is over, or on none, changes nothing |
| SpeakerHandlers.RequestRefused | components/phonarch-platform-api/cmd/control-api/main.go:2353-2356 | A request of another workspace, or none, is neither granted nor withdrawn |
| RoomHandlers.StopAlone | components/phonarch-platform-api/cmd/control-api/main.go:1195-1224 | A stop nothing interrupts, whatever the order of its drops, ends the session, sets the room READY, drops exactly the room's live legs, and changes nothing else |
| RoomHandlers.StopLeavesNoLiveLeg | components/phonarch-platform-api/cmd/control-api/main.go:1195-1224 | A stop nothing interrupts, whatever the order of its drops: the room's legs that were not over DROPPED, every leg of the room over, every session of it ENDED or FAILED, this one ENDED, the room READY, and nothing else changed |
| RoomHandlers.StopGuard | components/phonarch-platform-api/cmd/control-api/main.go:1195-1204 | A stop goes on iff it finds a STARTING or RUNNING session of the room |
| RosterRuns.RosterCopiesAndBound | components/phonarch-platform-api/cmd/control-api/main.go:894-955 | In every reachable state a room has a host name and number iff it has a HOST participant with those values, and then exactly one; listeners are within the limit and everybody within the limit plus one |
| RosterRuns.HostOverLimit | components/phonarch-platform-api/cmd/control-api/main.go:942 | The plus one is reached: saving a host looks at no limit |
| RosterRace.RosterBounded | components/phonarch-platform-api/cmd/control-api/main.go:1001-1023 | With adds and live dials that insert after they counted, while whole handlers run in between: listeners and those still to be inserted together are at most k over the limit where at most k of a room are between count and insert, and the copy of the host stays right |
| RosterRace.RosterBoundIsReached | components/phonarch-platform-api/cmd/control-api/main.go:1001-1023 | The bound is tight: from every reachable state in which a room at rest without a host has one place left, k such adds bring it to limit + k listeners |
| RosterRace.CountThenInsert | components/phonarch-platform-api/cmd/control-api/main.go:1001-1023 | Count and insert with nothing in between are the whole handler |
| RosterRace.TwoAddsPassTheLimit | components/phonarch-platform-api/cmd/control-api/main.go:1001-1023 | A run that does it: a room for one with two listeners and nobody adding |
| RosterContents.ItemsFollowListeners | components/phonarch-platform-api/cmd/control-api/main.go:1063-1070 | In every reachable state a listener's batch rows carry the listener's current name and number |
| RosterContents.ImportContents | components/phonarch-platform-api/cmd/control-api/main.go:1590-1618 | A committed import adds exactly one batch and, in order, one participant and one batch row a contact, with trimmed contact and role; an imported host is copied to the room; all other rows of all tables are as before |
| RosterOutcomes.EditOutcome | components/phonarch-platform-api/cmd/control-api/main.go:1030-1076 | An edit answers 200 iff the participant is a listener of the workspace in a READY room and name and number are not blank; then its row and exactly its batch rows carry the trimmed name and number, and nothing else changes; any other edit changes nothing |
| RosterOutcomes.SaveHostOutcome | components/phonarch-platform-api/cmd/control-api/main.go:928-955 | Saving the host of a READY room writes the trimmed name and number to the room's copy and to its own or a new HOST row, ACTIVE, and nothing else; without a name or number, or in another state, nothing changes |
| RosterOutcomes.ClearHostOutcome | components/phonarch-platform-api/cmd/control-api/main.go:910-926 | Clearing it empties the copy and removes exactly the HOST with its legs and requests; attendance and batch rows stay and forget it |
| RosterOutcomes.UpdateOutcome | components/phonarch-platform-api/cmd/control-api/main.go:1959-2012 | A room at rest takes the limit and number sent iff the limit is 1 to 100000 and not below the roster and a chosen number is valid; else nothing changes |
| RosterOutcomes.CreateOutcome | components/phonarch-platform-api/cmd/control-api/main.go:1932-1957 | A room is created READY, with the limit sent and no host or number, iff the limit is 1 to 100000 |
| RosterOutcomes.AddOutcome | components/phonarch-platform-api/cmd/control-api/main.go:990-1028 | An add answers 201 iff the room is READY and has a place, name and number are not blank and the role is not HOST; then exactly one MUTED listener with the trimmed contact is new |
| RosterOutcomes.DialOutcome | components/phonarch-platform-api/cmd/control-api/main.go:1331-1348 | The same for the live dialler in a RUNNING room with a number, with the number as name where none is given |
| RosterOutcomes.RemoveOutcome | components/phonarch-platform-api/cmd/control-api/main.go:1411-1437 | A removal answers 409 iff the participant has a live leg, else 200 iff it is a listener of the workspace; then exactly it goes, with its legs and requests, and attendance and batch rows forget it |
| RosterOutcomes.RemoveRoomOutcome | components/phonarch-platform-api/cmd/control-api/main.go:720-775 | A room of the workspace whose legs are all over is deleted with exactly its rows of all tables; any other is left as it was |
| RosterOutcomes.ImportOutcome | components/phonarch-platform-api/cmd/control-api/main.go:1541-1625 | An import passes its checks iff the room is READY, every row has a name and a number, at most one is a HOST and none where the room has one, and all fit the limit; else nothing changes |
| RosterOutcomes.RoleMeans | components/phonarch-platform-api/cmd/control-api/main.go:1247-1252 | A role is HOST iff it reads host in either case, with any white space around it |
| RosterTheorems.ImportNeverRejected | components/phonarch-platform-api/cmd/control-api/main.go:1577-1607 | An import that passed the checks is never rejected by the one-host index |
| RosterTheorems.InsertFits | components/phonarch-platform-api/cmd/control-api/main.go:1002-1023 | A listener added while the room's count is below its limit keeps copies and bound |
| RosterTheorems.UpdateFits | components/phonarch-platform-api/cmd/control-api/main.go:1983-2002 | A limit change not below the current count keeps them |
| RosterTheorems.StartFits | components/phonarch-platform-api/cmd/control-api/main.go:1087-1115 | Starting keeps them: a configured host already has its participant |
| RosterTheorems.SaveHostFits | components/phonarch-platform-api/cmd/control-api/main.go:928-952 | Saving the host rewrites copy and participant together |
| RosterTheorems.ClearHostFits | components/phonarch-platform-api/cmd/control-api/main.go:910-926 | Clearing the host empties the copy and leaves exactly the listeners |
| RosterTheorems.RemoveFits | components/phonarch-platform-api/cmd/control-api/main.go:1411-1436 | Removing a listener keeps them in any room state |
| RosterTheorems.ImportFits | components/phonarch-platform-api/cmd/control-api/main.go:1541-1623 | The bulk import keeps them |
| Roster.Importer.Scan | components/phonarch-platform-api/cmd/control-api/main.go:1561-1570 | The validation loop finds a row without name or number, and counts the HOST rows where there is none |
| Roster.Importer.Fill | components/phonarch-platform-api/cmd/control-api/main.go:1594-1618 | The insert loop leaves what the rows leave one after the other, or stops at the row the index rejects |
| Roster.Importer.Run | components/phonarch-platform-api/cmd/control-api/main.go:1541-1623 | The handler's status and tables: refusal, rollback or commit of the whole import |
| FanOut.BoundedFanOut | components/phonarch-platform-api/cmd/control-api/main.go:1167-1181 | In every state of every schedule at most 32 dispatches are in flight, a waiting goroutine gets its slot iff fewer than 32 are inside, nobody was dispatched more often than listed, something can run until the wait has returned, and the schedule has at most 6n + 1 operations |
| FanOut.CompleteFanOut | components/phonarch-platform-api/cmd/control-api/main.go:1167-1181 | A schedule can go no further exactly when the wait has returned, after exactly 6n + 1 operations; then nothing is in flight and each listener was dispatched exactly once |
| FanOut.StepValid | components/phonarch-platform-api/cmd/control-api/main.go:1168-1179 | Each channel, wait-group and dispatch operation keeps slots and counter in step with the goroutines and lowers the remaining work by one |
| FanOut.Progress | components/phonarch-platform-api/cmd/control-api/main.go:1173-1176 | No deadlock: an operation is always enabled; releasing a slot never blocks |
| AffinityRuns.AnswersWereBound | components/phonarch-sip-gateway/cmd/sipgo-lb/main.go:165-220 | Over any interleaving of any number of edges, restarts and time, every non-empty answer was bound for that Call-ID at most two hours before (a bind whose Redis write fails counts: its edge keeps the entry) |
| AffinityRuns.AnswersAgree | components/phonarch-sip-gateway/cmd/sipgo-lb/main.go:190-220 | If the Call-ID is bound once, the non-empty answers of all edges agree |
| AffinityFound.BoundIsFound | components/phonarch-sip-gateway/cmd/sipgo-lb/main.go:179-220 | After a successful bind every lookup of the call that Redis answers, on every edge and over every continuation that neither binds it elsewhere nor unbinds it, finds the destination up to a time before the entry expires, iff no trace left by the bind contradicts it: no unexpired cache entry to another destination, no unexpired key and no operation in flight with an entry to another destination or one that expires before that time, no DEL under way; and even if Redis never fails, where a request of the call has no tag-qualified key |
| AffinityFound.DeletingMisleads | components/phonarch-sip-gateway/cmd/sipgo-lb/main.go:190-227 | A DEL under way takes the base key from under the binding: a request without a tag-qualified key is then answered empty with Redis up throughout |
| AffinityFound.OverwritesClean | components/phonarch-sip-gateway/cmd/sipgo-lb/main.go:179-186 | Traces under the keys a bind writes do not matter, it overwrites them: an INVITE sent again that the same edge gives to another node is found there |
| AffinityFound.AgreedClean | components/phonarch-sip-gateway/cmd/sipgo-lb/main.go:478-500 | No trace contradicts it if every bind of the call so far was to that destination and is good until then, and no delete of its key is under way: an INVITE sent again that goes to the same node |
| AffinityFound.OnlyBindClean | components/phonarch-sip-gateway/cmd/sipgo-lb/main.go:478-500 | Nor if the call is bound once, and no delete from before the bind is under way |
| AffinityFound.HeldFinds | components/phonarch-sip-gateway/cmd/sipgo-lb/main.go:202-220 | While Redis holds the call and no trace of it contradicts, the registry's lookup on any edge with any cache yields the destination |
| AffinityWitnesses.RebindLeavesStale | components/phonarch-sip-gateway/cmd/sipgo-lb/main.go:190-220 | A run in which the call is bound a second time elsewhere: the other edge goes on answering the first destination from its cache |
| AffinityGone.UnboundIsGone | components/phonarch-sip-gateway/cmd/sipgo-lb/main.go:222-227 | After the DEL of an unbind every lookup of the call on an edge ends empty, over every continuation in which the call is not bound anew and the edge takes no lookup of it without a To-tag, iff there is no unexpired cache entry on the edge, no lookup there that holds an unexpired entry or is about to read one under its tag-qualified key, and no bind anywhere with an unexpired entry still to store |
| AffinityGone.GoneIsExact | components/phonarch-sip-gateway/cmd/sipgo-lb/main.go:190-227 | In every reachable state, after an unbind or not, the same holds iff besides the base key is gone from Redis or its entry is no longer good |
| AffinityGone.UnbindForgets | components/phonarch-sip-gateway/cmd/sipgo-lb/main.go:222-227 | An unbind that no other operation of the call accompanies leaves nothing of it to its own edge |
| AffinityWitnesses.LookupUndoesUnbind | components/phonarch-sip-gateway/cmd/sipgo-lb/main.go:190-227 | A run in which a lookup has read the entry before the unbind: it caches it after, and the edge goes on answering |
| AffinityRuns.LookupInOneGo | components/phonarch-sip-gateway/cmd/sipgo-lb/main.go:190-220 | A lookup whose statements nothing interrupts is the registry's lookup |
| Affinity.Registry.FindDestination | components/phonarch-sip-gateway/cmd/sipgo-lb/main.go:190-220 | A lookup answers from an unexpired cache entry, else from the tag-qualified key, else from the base key, and caches what it found |
| Affinity.Registry.Invite | components/phonarch-sip-gateway/cmd/sipgo-lb/main.go:478-500 | An INVITE with a To-tag is answered from the affinity or 481 and never bound; one without is bound to the selected node or answered 503 |
| Affinity.Registry.InDialog | components/phonarch-sip-gateway/cmd/sipgo-lb/main.go:501-517 | An in-dialog request is answered 481 iff no destination is found; a forwarded BYE or CANCEL unbinds |
| Affinity.Registry.Bind | components/phonarch-sip-gateway/cmd/sipgo-lb/main.go:165-188 | Binding writes the cache, the base key and the tag-qualified key; for two hours this edge finds the destination, and where Redis took it so does an edge with an empty cache |
| Affinity.Registry.Unbind | components/phonarch-sip-gateway/cmd/sipgo-lb/main.go:222-227 | Unbinding forgets the cache entry and the base key and nothing else: the edge then finds the call only where it has a tag-qualified key |
| Affinity.SuffixNames | components/phonarch-sip-gateway/cmd/sipgo-lb/main.go:158-163 | With colon-free tags a tag-qualified key names one dialog |
| Affinity.LookupMeans | components/phonarch-sip-gateway/cmd/sipgo-lb/main.go:190-220 | A lookup answers from the cache before the entry's time, else from the tag-qualified key where the request has a Call-ID, else from the Call-ID's key, refuses an entry after its time, and caches what it answers, key by key |
| Affinity.PutMeans | components/phonarch-sip-gateway/cmd/sipgo-lb/main.go:165-188 | A bind writes its entry, good for 7200 seconds, under both keys, or under the one without a Call-ID |
| AffinityRuns.BindInOneGo | components/phonarch-sip-gateway/cmd/sipgo-lb/main.go:165-188 | A bind whose statements nothing interrupts is the registry's bind |
| AffinityRuns.UnbindInOneGo | components/phonarch-sip-gateway/cmd/sipgo-lb/main.go:222-227 | And an unbind the registry's unbind |
| AffinityRuns.RestartReads | components/phonarch-sip-gateway/cmd/sipgo-lb/main.go:76-78 | An edge that restarts finds what Redis holds and nothing else, and the other edges are as they were |
| NodeSelection.RoundRobin | components/phonarch-sip-gateway/cmd/sipgo-lb/main.go:140-144 | With an unchanged listing of n tied candidates any k * n consecutive selections yield each exactly k times |
| NodeSelection.PickMeans | components/phonarch-sip-gateway/cmd/sipgo-lb/main.go:140-144 | The selected node is eligible and within epsilon of the least load |
| NodeSelection.CandidatesMean | components/phonarch-sip-gateway/cmd/sipgo-lb/main.go:117-139 | The candidates are the eligible nodes within epsilon of every eligible load |
| NodeSelection.Selector.SelectNode | components/phonarch-sip-gateway/cmd/sipgo-lb/main.go:109-145 | Selection fails iff the listing failed or every node is DRAINING, DRAINED or full; else it yields a listed node that is none of these, within a millionth of every such node's load, which is the cursor's candidate, and advances the cursor |
| NodeSelection.Selector.FilterInPlace | components/phonarch-sip-gateway/cmd/sipgo-lb/main.go:117-123 | The filter over the listing's own array leaves the eligible nodes, in order, at its front |
| NodeSelection.Selector.LeastLoad | components/phonarch-sip-gateway/cmd/sipgo-lb/main.go:127-132 | The loop finds the least load |
| SidecarLedger.Accounting | components/phonarch-pbx-sidecar/cmd/pbx-sidecar/main.go:268-273 | At lock granularity, in every reachable state: active = live - pending increments + pending decrements - drops of terminal records - revivals + originations over a live record |
| SidecarLedger.CallAccounting | components/phonarch-pbx-sidecar/cmd/pbx-sidecar/main.go:321-337 | With each call ID originated once the last term is zero |
| SidecarLedger.SettledAccounting | components/phonarch-pbx-sidecar/cmd/pbx-sidecar/main.go:412-459 | With nothing pending active never exceeds the live count, and equals it iff no drop hit a terminal record and no poll write revived one |
| SidecarLedger.CounterBelowZero | components/phonarch-pbx-sidecar/cmd/pbx-sidecar/main.go:322-333 | A call dropped twice under two commands leaves the counter at -1 |
| SidecarReplay.CommandReplay | components/phonarch-pbx-sidecar/cmd/pbx-sidecar/main.go:253-275 | Once a command has engaged the engine every later request with it gets the first reply, engages nobody and changes nothing, across originate, participant and room media actions |
| SidecarReplay.EngagedOnce | components/phonarch-pbx-sidecar/cmd/pbx-sidecar/main.go:302-340 | A command engages the engine at most once |
| SidecarReplay.StaysOver | components/phonarch-pbx-sidecar/cmd/pbx-sidecar/main.go:420-454 | With fresh call IDs a record once terminal stays terminal |
| SidecarReplay.StaysKeyed | components/phonarch-pbx-sidecar/cmd/pbx-sidecar/main.go:268-340 | Over every run each record stays under its own call ID, so the pass is the poller's |
| SidecarLedger.OriginateInOneGo | components/phonarch-pbx-sidecar/cmd/pbx-sidecar/main.go:233-276 | An originate whose critical sections nothing interrupts leaves the server's store |
| SidecarLedger.ActInOneGo | components/phonarch-pbx-sidecar/cmd/pbx-sidecar/main.go:278-343 | And so does an action |
| SidecarLedger.MediaInOneGo | components/phonarch-pbx-sidecar/cmd/pbx-sidecar/main.go:348-406 | And a room media command |
| SidecarLedger.RefreshInOneGo | components/phonarch-pbx-sidecar/cmd/pbx-sidecar/main.go:434-456 | The poller's write-back writes the record of its snapshot with the engine's values over whatever is there, and a live record it finds over is counted off next |
| Sidecar.Server.ActOnAll | components/phonarch-pbx-sidecar/cmd/pbx-sidecar/main.go:321-337 | The loop changes every record of the participant and takes one off the counter for each dropped record, live or not |
| Sidecar.Server.PollOnce | components/phonarch-pbx-sidecar/cmd/pbx-sidecar/main.go:420-458 | A pass refreshes exactly the live records with news and counts off those that ended |
| Sidecar.Server.WriteBack | components/phonarch-pbx-sidecar/cmd/pbx-sidecar/main.go:434-456 | The poller's write-back of a snapshot record, there or not, with a decrement iff it takes a live record to terminal |
| Sidecar.AllUpdated | components/phonarch-pbx-sidecar/cmd/pbx-sidecar/main.go:420-458 | What a pass writes: exactly the records that were not over and have news take the engine's state, mute and volume, and its member where it names one, and those over now are the ones counted off |
| Sidecar.RefreshedMeans | components/phonarch-pbx-sidecar/cmd/pbx-sidecar/main.go:434-446 | The same for one write-back, and when there is one |
| Sidecar.Server.HandleOriginate | components/phonarch-pbx-sidecar/cmd/pbx-sidecar/main.go:233-276 | 400 without call or destination, the stored reply for a known command, 502 when the engine fails, else 202 with a DISPATCHED record of the request and the engine's member, stored under its call, kept for replay and counted; the same request again is answered alike and changes nothing |
| Sidecar.Server.HandleAction | components/phonarch-pbx-sidecar/cmd/pbx-sidecar/main.go:278-343 | 400, replay, 502, or: every record of the participant muted, unmuted or DROPPED as asked in that column only, all other records as before, one counted off for each dropped, and the reply kept for replay; replayed alike |
| Sidecar.Server.HandleMedia | components/phonarch-pbx-sidecar/cmd/pbx-sidecar/main.go:348-406 | 400, replay, 502, or the engine's answer kept for replay; no record or count changes; replayed alike |
| DialNumbers.ApiAndDashboardAgree | components/phonarch-platform-web/src/app/dashboard.tsx:108-114 | For a supported region both sides agree iff the number is not a plus-less one whose digits, of which there are some, are all zeros |
| DialNumbers.DialledForm | components/phonarch-platform-api/cmd/control-api/main.go:1256-1286 | What is dialled: trimmed of all white space around it, exactly the digits of the number in order, after a plus if it began with one, else after the supported region's code (or +91) from the first digit on that is no zero; empty where there is none |
| DialNumbers.DashboardForm | components/phonarch-platform-web/src/app/dashboard.tsx:108-137 | What the dashboard shows is made of exactly the same digits |
| DialNumbers.DigitsOfBoth | components/phonarch-platform-api/cmd/control-api/main.go:1269-1274 | Digits are picked character by character: those of two texts together are those of each |
| Text.TrimIs | components/phonarch-platform-api/cmd/control-api/main.go:1265 | Trimming cuts the white space off both ends, all of it, and nothing else |
| Text.BlankIs | components/phonarch-platform-api/cmd/control-api/main.go:930 | A text is blank iff it is white space throughout |
| DialNumbers.LocalDigitsAre | components/phonarch-platform-web/src/app/dashboard.tsx:102-106 | The local digits are the number's after the region's, or all of them where it begins otherwise |
| DialNumbers.DialledEmpty | components/phonarch-platform-api/cmd/control-api/main.go:1264-1286 | It is empty iff there is no digit, or no plus and only zeros |
| DialNumbers.DialledIsFixed | components/phonarch-platform-api/cmd/control-api/main.go:1256-1286 | It is a fixed point under every later region |
| DialNumbers.Canonical | components/phonarch-platform-api/cmd/control-api/main.go:1696-1707 | A canonical number has 7 to 15 digits, is its own canonical form, and is what both sides dial |
| DialNumbers.CanonicalIffRegionFree | components/phonarch-platform-api/cmd/control-api/main.go:1696-1707 | A number has a canonical form iff what is dialled for it does not depend on the region and has 7 to 15 digits |
| DialNumbers.PrefixFree | components/phonarch-platform-web/src/app/dashboard.tsx:88-95 | No region code begins another |
| DialNumbers.RegionIs | components/phonarch-platform-web/src/app/dashboard.tsx:97-100 | The region of a number is the one code that begins it, or the fallback |
| DialNumbers.RegionAndLocalRebuild | components/phonarch-platform-web/src/app/dashboard.tsx:97-106 | For a plus and digits with a supported prefix, region and local digits rebuild the number |
| Slugs.Slugify | components/phonarch-platform-api/cmd/control-api/main.go:1680-1694 | The builder loop yields the maximal alphanumeric runs of the lower-cased text joined by single dashes |
| Slugs.SlugIdempotent | components/phonarch-platform-api/cmd/control-api/main.go:1680-1694 | A slug is its own slug |
| Slugs.SlugOfWord | components/phonarch-platform-api/cmd/control-api/main.go:1680-1690 | A text of letters and digits is its own slug, in lower case |
| Slugs.SlugOfParts | components/phonarch-platform-api/cmd/control-api/main.go:1680-1694 | Anything else separates: the slug of two parts around it is their slugs with one dash between, or the one that is not empty |
| Slugs.SlugIgnoresCase | components/phonarch-platform-api/cmd/control-api/main.go:1681 | Names that differ in case only have one slug |
| Slugs.WordsOfJoin | components/phonarch-platform-api/cmd/control-api/main.go:1680-1694 | Splitting a slug gives back the runs it was joined from |
| Slugs.Workspaces.Create | components/phonarch-platform-api/cmd/control-api/main.go:1846-1870 | The search takes the first free one of base, base-2, ..., base-1000, and gives up iff all are taken, which are a thousand different slugs |
| Slugs.ItoaReads | components/phonarch-platform-api/cmd/control-api/main.go:1856-1859 | The number in a slug is decimal, without leading zero |
| Slugs.CandidateCount | components/phonarch-platform-api/cmd/control-api/main.go:1856-1859 | The candidates of a base are all different |
| RoomTenancy.RemoveRoomWithin | components/phonarch-platform-api/cmd/control-api/main.go:725-774 | Deleting a room, with the deletes before it and everything that cascades, keeps any sound tables sound and stays in the workspace |
| RoomTenancy.ClearHostWithin | components/phonarch-platform-api/cmd/control-api/main.go:910-926 | Clearing the host, with the cascade of the participant's delete, does too |
| RoomTenancy.SaveHostWithin | components/phonarch-platform-api/cmd/control-api/main.go:934-952 | Saving the host does too, whether it inserts or updates the HOST participant |
| RoomTenancy.DeleteListenerWithin | components/phonarch-platform-api/cmd/control-api/main.go:1424 | The roster delete does too, with the legs and requests it takes along |
| Statements.ActivateRequestWithin | components/phonarch-platform-api/cmd/control-api/main.go:2403 | The grant's unguarded status write does too, because the open-request index rejects it where it would reopen a second request |
| Statements.InsertRequestWithin | components/phonarch-platform-api/cmd/control-api/main.go:2307 | A new speaker request where none is open does too |
| Statements.SetSessionStatusWithin | components/phonarch-platform-api/cmd/control-api/main.go:1216 | A session-status write does too; it makes a session active only from an active one |
| Statements.InsertSessionWithin | components/phonarch-platform-api/cmd/control-api/main.go:1117 | A new session, or the rejection of a second active one, does too |
| Statements.InsertParticipantWithin | components/phonarch-platform-api/cmd/control-api/main.go:1110 | A new participant, or the rejection of a second HOST, does too |
| Statements.InsertRoomWithin | components/phonarch-platform-api/cmd/control-api/main.go:645 | A new room keeps the tables consistent and touches no other workspace |
| Statements.InsertLegWithin | components/phonarch-platform-api/cmd/control-api/main.go:1311 | A new leg of a participant of the room does too |
| Statements.InsertAttendanceWithin | components/phonarch-platform-api/cmd/control-api/main.go:1326 | A new attendance row of the room's session does too |
| Statements.InsertBatchWithin | components/phonarch-platform-api/cmd/control-api/main.go:1590 | A new batch does too |
| Statements.InsertItemWithin | components/phonarch-platform-api/cmd/control-api/main.go:1612 | A new batch row does too |
| Statements.SetRoomStateWithin | components/phonarch-platform-api/cmd/control-api/main.go:1156 | A room-state write filtered by room and workspace does too |
| Statements.SetLegStateWithin | components/phonarch-platform-api/cmd/control-api/main.go:2438 | A leg-state write does too |
| Statements.SetDesiredWithin | components/phonarch-platform-api/cmd/control-api/main.go:1324 | A write of a participant's desired state does too |
| Statements.WithdrawRequestsOfWithin | components/phonarch-platform-api/cmd/control-api/main.go:2301 | Withdrawing all open requests of a participant does too |
| Statements.DeleteItemsOfRoomWithin | components/phonarch-platform-api/cmd/control-api/main.go:761 | The delete of batch rows by participant before a room delete does too |

## Left out

- HTTP routing, JSON, cookies, login, roles and configuration parsing: handlers start after their input is decoded.
- Node choice, the validity of a dialled number at dispatch and the sidecar's answers are one boolean of the action; node epochs and `node_commands` are not modelled.
- Wall-clock columns, `room_events`, batch and item statuses and an attendance row's `call_state` and `left_at`: written, but read by no decision the model covers.
- A room's number is the one fact that an ACTIVE number is assigned; `telephony_numbers` and the index on it are not modelled.
- Interleaving inside a transaction: each transaction is one atomic step, so READ COMMITTED effects between its statements are not shown.
- In `RosterRace` limit changes and imports run whole: one that writes later than it counted is not modelled. What the roster's rows hold (`RosterContents`) is proved for whole handlers.
- `runBatch`: nothing calls it.
- `FanOut` and the `FanningOut` thread of `RoomProtocol` are two views of the same loop: the second spawns one dispatch a listener and leaves the semaphore to the first.
- Rate limits and the polling interval of the activator: its 90 seconds are the environment's choice to end the polling.
- SIP transactions, response forwarding, DTMF parsing, heartbeats and leases: the registry and node selection begin with a parsed request and a listing. Redis is a map with expiry that loses no key before its time.
- Floating point: load scores and epsilon are reals, so rounding and NaN are not modelled. The round-robin cursor is unbounded, so the wrap of Go's int is not modelled.
- The engine's own state, the SIP OPTIONS heartbeat and the sidecar's member look-up before an action: the look-up only fills in the request to the engine.
- Slugs.Slugify: does not model lower-casing or white space outside ASCII, because text is ASCII throughout.
- DialNumbers.ApiAndDashboardAgree: does not model Unicode white space, which the two languages trim differently.
- React components, style sheets, spreadsheet parsing, deploy scripts and the mock PBX.
