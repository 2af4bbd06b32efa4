# Verified model of the AGV traffic simulator

The simulator plays one automated guided vehicle (AGV) that receives VDA 5050 orders, reports its state, and is
now and then taken over by a human (teleoperation). Its controller runs as discrete events: each event sends one or
two commands to the Base or UE program, changes four deques, three event handles, a flag and a counter, and schedules
or cancels other events. Base and UE forward those commands as stamped messages; a receiver records the stamps; a
script evaluates the latencies.

This project models that chain and proves what it keeps over whole runs, for every configuration, every random draw
and every number of events.

| file | what it holds |
|---|---|
| `EventQueue.dfy` | clock, pending events, handles; next event = least (time, uid) |
| `AgvModel.dfy` | data, one function per event handler, runs |
| `AgvMachine.dfy` | the same as classes: `Simulator` and `Agv`, handlers that change fields in place, the run loop |
| `SentLog.dfy` | reading the log of sent commands |
| `AgvInvariants.dfy` | what every event keeps, in both scenarios |
| `OrderChain.dfy` | one order read through two cursors, and its clock, while there is a single chain of orders |
| `Teleoperation.dfy` | the control stream and the quiet session |
| `AgvRuns.dfy`, `AgvPromises.dfy` | the theorems about runs |
| `Timetable.dfy` | what every event of every run sends, schedules and cancels, as tables |
| `OrderSchedule.dfy` | when the first and the restarted order are sent, what orders are made of, which draws are possible |
| `FixedMessages.dfy` | connection, factsheet, capabilities and visualization, at times the configuration alone decides |
| `OrderLog.dfy` | an order's history counted in the log of sent commands |
| `MixedOrders.dfy` | when a new order is generated while another is under way |
| `StateInterval.dfy` | how long the AGV can be silent in any run, teleoperation included |
| `Progress.dfy` | time passes, so orders are in fact completed |
| `OrdersContinue.dfy` | order messages keep coming |
| `Reports.dfy` | what is reported about teleoperation and when the camera is on |
| `StrayOrder.dfy` | three concrete runs showing what the untracked continuation event does |
| `OrderText.dfy` | the append-comma-then-drop-one way of writing JSON lists |
| `Timestamp.dfy` | the 26-character stamp: printing, parsing, ordering |
| `MainLoop.dfy` | the command loop of Base and UE, and the recording client |
| `Composition.dfy` | controller, Base and UE together |
| `Delivery.dfy` | from a log entry to the client, topic text and message it becomes |
| `ZenohClient.dfy` | publishing through predeclared publishers |
| `WarmUp.dfy` | run detection and the warm-up mask of the evaluation script |

## How it is modelled

* `Agv` and `Simulator` have the fields of the original; each handler is a method with the statement order and the
  loops of the original, proved to do exactly what the function of the same handler in `AgvModel` says
  (`Abs() == After...(old(Abs()))`). `Agv.RunFor` then shows that the objects go through a `Run` of the state machine,
  so every theorem about runs holds of the objects. The deques are sequences.
* A run is a list of states and moves: state 0 is what the constructor leaves, and each move takes the next event off
  the queue and runs its handler with some draw. Draws are arbitrary within the ranges of the distributions.
* `Phase`, `Ledger`, `Chain`, `opening` and `clean` are history: the handlers write them and never read them. `BeforeStart`
  is every state of a VDA5050 run and every state of a TELEOP run before `startTeleoperation`. Promises about a single
  order chain are made for that phase and for all states after a teleoperation session that found nothing planned
  (`AgvRuns.Single`); all others are made for all phases.
* `orderUpdateId` and clock arithmetic: the counter is a 32-bit unsigned integer that wraps in the model, and is
  shown to stay below the order length (`AgvRuns.UpdatesCounted`); times are unbounded.

Assumptions: 1 <= `order_len_min` <= `order_len_max` < 2^31 and `start_s` <= `stop_s` (`Config.Valid`; at equal times
start comes first because it is scheduled first); ns-3 runs events in the order (time, uid), hands out uids in
scheduling order, and `Cancel` on an unset, finished or cancelled event does nothing; the command sockets are reliable
and keep the order; clock readings lie between 1970 and the end of 9999. A positive control period is needed only for
the number of control commands, and repeating delays of at least 1 ms (`Progress.Ticks`) only for the progress of time.

Some proofs begin with `hide`: they do not need the bodies of the functions named there, and are much cheaper without.

Where the C++ text is damaged (missing semicolons after raw strings, `nodePosition.x` for `x`) the evident intent is
modelled.

## Where code and documentation disagree

* `agv.cpp:64` starts a new order when nothing is *planned*, without asking whether anything released is left. Before
  and during teleoperation nothing ever is (`MixedOrders.FreshFindsEmpty`). After it, the nodes of two orders can end up
  in one message: `StrayOrder.TwoOrdersInOneMessage` gives a run, `MixedOrders.MixesExactly` says for all runs exactly
  when it happens, and `MixedOrders.MixesOnce` that it happens at most once.
* `startTeleoperation` is meant to stop the order simulation, but the continuation scheduled at `agv.cpp:125` is
  stored in no handle. `StrayOrder.OrderWhileTeleoperating` gives a run in which an order is sent while teleoperating,
  and `AgvPromises.NoOrderDuringTeleoperation` says for all runs exactly when none is. `StrayOrder.TwoOrdersAfterStop`
  gives a run with two pending `sendOrder` events after stop, and `AgvPromises.StopLeavesOneChain` says for all runs
  exactly when stop leaves a single order chain: when nothing was planned at start. `AgvRuns.ChainsMerge` says exactly
  when two chains become one again.
* VDA 5050 shares one sequence between nodes (even) and edges (odd) and an order has one edge fewer than nodes; the
  code numbers both from 0 and generates as many edges as nodes. The model follows the code.
* The published `orderUpdateId` is a literal 0 (`agv.cpp:102`); the theorems speak about the field.
* `ue_zenoh.cpp:29` declares a publisher for `teleop_capabilities`, but the capabilities are sent on
  `teleoperationCapabilities` (`agv.cpp:307`), so `publisher_.at` throws and the UE program ends
  (`ZenohClient.UePublishes`: if and only if capabilities were sent; `ZenohClient.UeFailsInTeleop`: in no VDA5050 run, and
  in every TELEOP run once the reply is due; `ZenohClient.DefaultUeFailsBeforeStart`: with config.yaml, before
  teleoperation starts). Without predeclared publishers, and with MQTT, it does not happen.
* `eval_e2e.py` says "first 100 samples" and "500ms" in comments and uses 50 and 700 ms. The model follows the code.
* Dropping the last character after writing a list is right exactly when the list is not empty
  (`OrderText.JoinsExactlyWhenNonEmpty`): always for order messages (`OrderText.OrderMessagesWellFormed`), for state
  messages exactly while edges are left (`OrderText.StateMessagesWellFormed`). An idle AGV's state messages lose the
  opening bracket of both lists, and the last state message of every order, sent when one node and no edge is left,
  loses that of its edge list (`OrderText.LastStateOfOrder`).

## Model

| member | source | states |
|---|---|---|
| AgvRuns.NoPopFromEmpty | src/controller/agv.cpp:93-99 | in every reachable state, whatever event is next and whatever is drawn, no `front` or `pop_front` meets an empty deque |
| AgvRuns.RunsContinue | src/controller/agv.cpp:60-178 | the simulation never runs dry: every run has exactly one next event and a legal draw for it |
| AgvRuns.InvHolds | src/controller/agv.cpp:8-310 | the inductive invariant over all handlers holds in every state of every run |
| AgvRuns.InitQueueLive | src/controller/agv.cpp:8-31 | exactly which events are pending under which uids when the constructor returns, per scenario |
| Timetable.EveryStep | src/controller/agv.cpp:33-310 | in every step of every run exactly the commands of one table are sent (time, program, type, topic, payload), exactly the events of another are scheduled with its delays, exactly the handles of a third are cancelled, and every other pending event is untouched |
| Timetable.FirstState | src/controller/agv.cpp:8-31 | every run starts with exactly these five or eight events at these times, two handles naming the state and the order event, and nothing else set |
| Timetable.EveryCommand | src/controller/agv.cpp:33-310 | every command ever sent goes to the program, has the type and carries the kind of payload that belong to its topic |
| Timetable.ControlCarriesDraw | src/controller/agv.cpp:269-277 | every control command of every run goes to Base and carries the two numbers drawn in the step that sent it |
| FixedMessages.ConnectsOnce | src/controller/agv.cpp:11-12 | in every run the connection is announced exactly once, at its configured time |
| FixedMessages.VisualizationStream | src/controller/agv.cpp:180-191 | in every run, whatever orders and teleoperation do: visualization k goes out at start + k*period, and exactly one more is pending, at the next such time |
| FixedMessages.FactsheetOnce | src/controller/agv.cpp:41-58 | in every run: the request is due at its configured time, then the factsheet exactly the response time later, then it has been sent at that time, once, and neither is ever due again |
| FixedMessages.CapabilitiesOnce | src/controller/agv.cpp:283-310 | in every TELEOP run the same holds of the capabilities |
| FixedMessages.NoCapabilities | src/controller/agv.cpp:22-31 | in no VDA5050 run are they ever sent or due |
| AgvRuns.OneStateEvent | src/controller/agv.cpp:129-177 | exactly one `sendState` is pending at all times, in both scenarios, and `next_state_` names it |
| AgvInvariants.StateTrackedKept | src/controller/agv.cpp:129-237 | every handler, across each cancel and re-arm path, keeps that |
| AgvInvariants.Untouched | src/controller/agv.cpp:193-244 | cancelling through the stored handles never removes an event of a kind the handler is not meant to touch |
| AgvInvariants.PairedKept | src/controller/agv.cpp:72-99 | planned deques have equal length, released nodes exceed released edges by 0 or 1, aligned items share their sequence id; every handler keeps this |
| AgvRuns.EdgesAndNodesAlternate | src/controller/agv.cpp:163-168 | traversal strictly alternates edge, node, always from the front; no other event changes the balance except start, which clears all |
| AgvRuns.EverythingConserved | src/controller/agv.cpp:72-99 | in every state: generated = traversed, with what start dropped put back in its place, then released, then planned, in order, for nodes and edges |
| AgvInvariants.ConservedKept | src/controller/agv.cpp:163-201 | every handler keeps that equation |
| AgvPromises.TogglesOnce | src/controller/agv.cpp:26-29 | in no run does teleoperation start twice, stop twice, or start after it has stopped |
| AgvRuns.PhasedHolds | src/controller/agv.cpp:193-244 | in every state the flag is on exactly between start and stop, and the two events are pending at their configured times until then |
| AgvInvariants.PhasedKept | src/controller/agv.cpp:26-29 | every handler keeps that |
| AgvRuns.PendingOrders | src/controller/agv.cpp:124-243 | with f = 0 while everything planned is released and not yet traversed, else 1: f pending `sendOrder` events before start; f, or 0 with all deques empty, until stop; f or f+1 after; never more than 2 |
| AgvInvariants.OrdersCountedKept | src/controller/agv.cpp:124-243 | every handler keeps that count and the tracking behind it |
| AgvRuns.HandleNamesOrder | src/controller/agv.cpp:124-127 | before start the pending `sendOrder` is the one `next_order_` names if and only if nothing is planned |
| AgvRuns.StartCancelsOrders | src/controller/agv.cpp:195-201 | start clears the deques and leaves a pending `sendOrder` if and only if something was planned |
| AgvRuns.OverlapStep | src/controller/agv.cpp:60-178 | outside start and stop, the pending `sendOrder` events in excess of f fall by exactly one when a `sendOrder` finds everything released and not yet traversed, and stay the same otherwise |
| AgvRuns.ChainsMerge | src/controller/agv.cpp:60-178 | after stop there are one or two order chains; two become one exactly at a `sendOrder` that finds everything released and not yet traversed, and one never meets such a `sendOrder` |
| MixedOrders.ChainsAfterStop | src/controller/agv.cpp:60-243 | in every state after stop there are two order chains if something was planned at start and no `sendOrder` has generated an order as the only pending one since, else one |
| MixedOrders.FreshFindsEmpty | src/controller/agv.cpp:64-88 | in any run, before and during teleoperation a new order is generated only when all four deques are empty |
| MixedOrders.MixesExactly | src/controller/agv.cpp:64-99 | after stop a new order is generated while released items of another are left if and only if something was planned at start, no other `sendOrder` is pending, and none before it since stop generated an order as the only pending one |
| MixedOrders.TogglesBehind | src/controller/agv.cpp:26-29 | every state after stop has its start and its stop behind it, so the previous row covers all of them |
| MixedOrders.MixesOnce | src/controller/agv.cpp:64-99 | that happens at most once in a run |
| OrderSchedule.GeneratedOrder | src/controller/agv.cpp:64-88 | both scenarios: an order is generated exactly when `sendOrder` finds nothing planned; it has as many nodes as edges, between `order_len_min` and `order_len_max`, ids from 0, the names and coordinates drawn; nothing else is ever generated |
| OrderSchedule.ReleasedOrder | src/controller/agv.cpp:90-122 | both scenarios: as many planned items as were drawn, at least one, go from the front of the planned to the back of the released deques, and all that is then released is sent |
| OrderSchedule.PossibleDraws | src/controller/agv.cpp:67-91 | a run can go on with a draw if and only if the length, when nothing is planned, is within the configured bounds and the release is between 1 and all that is then planned |
| OrderSchedule.FirstOrder | src/controller/agv.cpp:17-18 | before teleoperation the first order goes out at exactly its configured time; until then the deques are empty |
| OrderSchedule.RestartedAt | src/controller/agv.cpp:239-243 | every stop leaves a `sendOrder` pending at stop + restart delay, and `next_order_` names it |
| OrderSchedule.RestartedOrder | src/controller/agv.cpp:239-243 | after a session that found nothing planned, the first order after stop goes out at exactly that time, and until then the deques are empty |
| AgvRuns.MergedStaysMerged | src/controller/agv.cpp:124-176 | after stop, a single order chain stays single for the rest of the run |
| AgvRuns.OrdersReturn | src/controller/agv.cpp:163-176 | while no `sendOrder` is pending and something is released, fewer state messages are sent than nodes and edges were released |
| OrdersContinue.AlwaysComing | src/controller/agv.cpp:124-243 | in every state before start and after stop there is a time by which the next order message is due: a `sendOrder` is pending, or the released items are traversed until one is |
| OrdersContinue.OrdersKeepComing | src/controller/agv.cpp:60-178 | with repeating delays of at least 1 ms, every run that goes on from there without start or stop until it is beyond that time has sent another order message |
| AgvRuns.WorkFalls | src/controller/agv.cpp:90-168 | 3 * planned nodes + nodes + edges falls with every order update, and by exactly one with every state message that traverses |
| AgvRuns.UpdatesCounted | src/controller/agv.cpp:62-66 | `order_update_id_` restarts at 0 with a new order, grows by one otherwise, and stays below the longest order length, so it never wraps |
| AgvPromises.TwoCursors | src/controller/agv.cpp:64-99 | while there is a single chain, the four deques are slices of one order at its two cursors, ids contiguous from 0; all empty if and only if everything is released and 2L steps are made |
| AgvPromises.SingleAfterStop | src/controller/agv.cpp:193-243 | after stop there is a single chain for the rest of the run, to which the promises about a single chain apply, if and only if nothing was planned at start |
| OrderChain.FollowedKept | src/controller/agv.cpp:124-176 | while there is a single chain every handler keeps this: the continuation is the pending `sendOrder` while something is planned, the one `next_order_` names when all deques are empty, none in between |
| OrderChain.CursorsKept | src/controller/agv.cpp:90-168 | every handler keeps the two-cursor form |
| OrderChain.BlocksKept | src/controller/agv.cpp:90-99 | the released blocks are non-empty and concatenate to the released part; their number fixes the update counter |
| AgvPromises.FreshOnlyWhenEmpty | src/controller/agv.cpp:64-88 | while there is a single chain, a new order is generated only when all four deques are empty |
| AgvPromises.FinishedOrder | src/controller/agv.cpp:62-178 | counted in the log from the order's first message on: the update counter is the index of the latest order message; a finished order of length L took exactly 2L traversing state messages and 1 to L order messages, whose blocks make up the order |
| OrderLog.CountsHold | src/controller/agv.cpp:90-168 | in every state of every run, both scenarios, the counters of the latest order are the numbers of its order messages and traversing state messages in the log |
| AgvPromises.UpdatesStitch | src/controller/agv.cpp:90-122 | each update's nodes and edges are what is left of the previous message's, followed by a non-empty new block |
| AgvPromises.StatesReportWhatIsLeft | src/controller/agv.cpp:134-168 | each state message lists exactly what of the latest order message has not been traversed |
| AgvPromises.OrdersComplete | src/controller/agv.cpp:124-176 | an order of length L started at u is empty at the time given by its messages, at most u + (L-1)*continuation + state_after_order + (2L-1)*step |
| Progress.ClockAdvances | src/controller/controller.cpp:38-39 | with repeating delays of at least 1 ms, every run gets beyond any given time after a number of events that depends on that time alone |
| Progress.LoadFalls | src/controller/agv.cpp:11-292 | every event up to a given time uses up more of that number than the events it schedules add |
| Progress.OrdersAreCompleted | src/controller/agv.cpp:124-176 | while there is a single chain: once a run is beyond an order's completion bound, with neither start nor stop on the way, that very order has been traversed to its end in some state on the way |
| AgvPromises.NextOrderOnTime | src/controller/agv.cpp:171-176 | the next order starts exactly `next_order_after_finish_ms` after the emptying state message |
| AgvPromises.NeverSilentForLong | src/controller/agv.cpp:124-170 | consecutive state messages, and the latest and now, are at most max(idle, step) + (Lmax-1)*continuation + state_after_order apart; without the middle term when continuation > state_after_order |
| StateInterval.NeverSilentInAnyRun | src/controller/agv.cpp:129-237 | in every run, through start, stop and overlapping order chains: consecutive state messages, and the latest and now, are at most max(idle, step) + 3*Lmax*state_after_order + 2*state_after_toggle apart; max(idle, step) + Lmax*state_after_order without teleoperation |
| StateInterval.OnTimeKept | src/controller/agv.cpp:129-237 | every handler keeps the balance behind that: what each put-off adds to the wait it takes from the put-offs still possible |
| OrderChain.SilenceKept | src/controller/agv.cpp:129-170 | every handler keeps the spacing, although each order message cancels and re-arms the state timer |
| OrderChain.TimedKept | src/controller/agv.cpp:124-176 | every handler keeps the exact times of the pending state and order events |
| AgvPromises.DefaultKeepsStateInterval | config.yaml:4-24 | the shipped configuration sends states at most 5.1 s apart, within the 30 s of section 6.10 of VDA 5050 |
| StateInterval.DefaultKeepsStateIntervalInTeleop | config.yaml:18-36 | with the shipped delays a TELEOP run sends states at most 11.3 s apart throughout, within the 30 s |
| AgvPromises.OneControlEvent | src/controller/agv.cpp:222-281 | at most one `sendControl` is pending, the one `next_control_` names; none outside teleoperation, even if stop precedes the delayed teleop-state event |
| AgvPromises.ControlStream | src/controller/agv.cpp:246-281 | control commands go out exactly at start+d+c+k*p, strictly before stop; after stop their number is the ceiling of (stop-start-d-c)/p, or 0 |
| Teleoperation.ControlOkKept | src/controller/agv.cpp:208-281 | every handler keeps the stream regular |
| AgvPromises.QuietTeleoperation | src/controller/agv.cpp:193-201 | if nothing is planned at start, until stop no order is sent and every state message is empty |
| AgvPromises.QuietStop | src/controller/agv.cpp:239-243 | right after the stop of such a session exactly one `sendOrder` is pending and `next_order_` names it |
| AgvPromises.StopLeavesOneChain | src/controller/agv.cpp:124-243 | stop leaves exactly f pending `sendOrder` events if and only if nothing was planned when teleoperation started, else f+1 |
| AgvPromises.NoOrderDuringTeleoperation | src/controller/agv.cpp:124-201 | no order is sent during teleoperation if and only if nothing was planned at start or the continuation was due no earlier than stop |
| StrayOrder.OrderWhileTeleoperating | src/controller/agv.cpp:124-127 | a concrete run in which an order is sent one second after teleoperation started |
| StrayOrder.TwoOrdersAfterStop | src/controller/agv.cpp:239-243 | a concrete run in which the bound of two pending `sendOrder` events is reached |
| StrayOrder.TwoOrdersInOneMessage | src/controller/agv.cpp:64-127 | a concrete run in which the old continuation generates an order while two nodes of another are released, and the message carries the ids 0, 1, 0 |
| EventQueue.NextExists | src/controller/controller.cpp:36-39 | a queue that is not empty has exactly one next event by (time, uid) |
| EventQueue.Schedule | src/controller/agv.cpp:11-20 | scheduling adds one event with a new uid and changes nothing else |
| EventQueue.Cancel | src/controller/agv.cpp:129-129 | cancelling removes at most the named event and changes nothing else |
| AgvMachine.Simulator.FindNext | src/controller/controller.cpp:39-39 | scanning the pending events finds the next one |
| AgvMachine.Agv.constructor | src/controller/agv.cpp:8-31 | the initial fields and events, per scenario |
| AgvMachine.Agv.GenerateOrder | src/controller/agv.cpp:72-87 | the loop appends one numbered edge and node per place |
| AgvMachine.Agv.ReleasePlanned | src/controller/agv.cpp:93-99 | the loop moves exactly the first `num` planned nodes and edges behind the released ones |
| AgvMachine.Agv.Replenish | src/controller/agv.cpp:62-88 | counts the update and generates a new order exactly when nothing is planned |
| AgvMachine.Agv.SendOrder | src/controller/agv.cpp:60-132 | the object does the step of the state machine |
| AgvMachine.Agv.SendState | src/controller/agv.cpp:134-178 | the object does the step of the state machine |
| AgvMachine.Agv.StartTeleoperation | src/controller/agv.cpp:193-217 | the object does the step of the state machine |
| AgvMachine.Agv.StopTeleoperation | src/controller/agv.cpp:219-244 | the object does the step of the state machine |
| AgvMachine.Agv.SendTeleoperationState | src/controller/agv.cpp:246-267 | the object does the step of the state machine |
| AgvMachine.Agv.SendControl | src/controller/agv.cpp:269-281 | the object does the step of the state machine |
| AgvMachine.Agv.SendOneShot | src/controller/agv.cpp:283-310 | the senders that touch no field: one message and at most one follow-up event |
| AgvMachine.Agv.RunNext | src/controller/controller.cpp:39-39 | one turn of the simulator is one step of the state machine, for any draws in range |
| AgvMachine.Agv.RunFor | src/controller/controller.cpp:36-39 | what the objects go through is a run, so all theorems about runs hold of them |
| OrderText.AppendList | src/controller/agv.cpp:101-117 | the loop and the dropped last character produce the prefix and the terminated items less one character |
| OrderText.JoinAppend | src/controller/agv.cpp:109-109 | the joined list grows by a comma and the next item |
| OrderText.JoinsExactlyWhenNonEmpty | src/controller/agv.cpp:140-153 | the result is the joined list if and only if the list is not empty |
| OrderText.OrderMessagesWellFormed | src/controller/agv.cpp:101-119 | in every run, both scenarios, and whatever its items look like, the text of every logged order message is the comma-joined one |
| OrderText.TextIsJoined | src/controller/agv.cpp:101-119 | a text with a node and an edge list built that way is the joined one if and only if neither list is empty |
| OrderText.StateMessagesWellFormed | src/controller/agv.cpp:137-158 | in every run, both scenarios, a state message is joined properly if and only if edges are left |
| OrderText.LastStateOfOrder | src/controller/agv.cpp:148-176 | the state message that empties the deques lists one node and no edge and is not joined properly, although the AGV is not idle |
| Timestamp.StampRoundTrip | src/utils/command.cpp:6-21 | 1970 to 9999: exactly 26 characters, `YYYY-MM-DDThh:mm:ss.ffffff` with these separators at these positions, every field the decimal digits of the number `gmtime` gives, and a parser recovers the time truncated to microseconds |
| Timestamp.GmTimeInvertsPosix | src/utils/command.cpp:13-15 | broken-down time by counting years and months inverts the closed formula of POSIX, "Seconds Since the Epoch" |
| Timestamp.PrintRoundTrip | src/utils/command.cpp:18-19 | fixed-width fields can be read back, for any list of fields that fit |
| Timestamp.StampOrder | src/utils/command.cpp:6-21 | dictionary order of stamps is time order in microseconds, and equal stamps mean equal microseconds |
| Timestamp.LatencyWithinMicrosecond | src/utils/command.cpp:6-21 | a latency computed from two stamps is off by less than a microsecond |
| MainLoop.Run | src/utils/main_loop.cpp:23-55 | the loop with its in-place stamping, camera and exit computes the fold of one-command steps |
| MainLoop.AcceptedAreServed | src/utils/main_loop.cpp:32-49 | accepted commands: every publication is forwarded in order, the camera follows the last video command |
| MainLoop.LoopEnds | src/utils/main_loop.cpp:50-54 | the first command that is not accepted ends the loop: EXIT leaves, anything else aborts, and nothing after it is looked at |
| MainLoop.WhatTheLoopDoes | src/utils/main_loop.cpp:32-54 | any command sequence, both builds, with and without camera: exactly the publications before the first unhandled command are handed on, in order; each keeps its topic, goes to `send_teleop` if and only if its type is PUBLISH_TELEOP, and carries the stamp of its own clock reading; camera, outcome and end follow from the command types |
| MainLoop.VideoWithoutCamera | src/utils/main_loop.cpp:46-54 | without a camera the loop aborts if and only if a video command arrives |
| MainLoop.StampRecovered | src/utils/main_loop.cpp:33-34 | a stamped message begins with the stamp, keeps the payload behind it, and has length max(26, payload) |
| MainLoop.StampsRecovered | src/mqtt/mqtt_client.cpp:11-21 | every sequence, both builds: every recorded entry is exactly the sender's timestamp |
| MainLoop.EntriesAre | src/mqtt/mqtt_client.cpp:11-21 | exactly the messages on subscribed topics leave an entry, less the teleoperation state in one of the two builds, each with its first 26 characters and its arrival |
| MainLoop.SizesLogged | src/mqtt/mqtt_client.cpp:29-33 | for every command sequence, video commands included, both builds: each publication is logged with topic size + max(26, payload size), or its own size where no stamp is written, at the clock reading of its own iteration |
| MainLoop.Client.MessageArrived | src/mqtt/mqtt_client.cpp:11-21 | appends the first 26 characters, unless this build leaves the teleoperation state out |
| MainLoop.Client.PublishMessage | src/mqtt/mqtt_client.cpp:29-33 | appends topic plus payload size |
| MainLoop.Client.PublishAll | src/mqtt/mqtt_client.cpp:29-33 | a client publishing what a loop forwarded logs exactly those sizes |
| MainLoop.Client.ReceiveAll | src/mqtt/mqtt_client.cpp:11-21 | a subscribed client records exactly the entries of its topics, in order |
| Composition.BaseForwardsEverything | src/base/base_mqtt.cpp:23-25 | for every run the Base loop never meets an invalid command: it forwards every command in order and leaves at EXIT |
| Composition.UeForwardsEverything | src/ue/ue_mqtt.cpp:27-33 | for every run the UE loop forwards every publication in order, ends with the camera as last reported, and leaves at EXIT |
| Delivery.CommandsAre | src/controller/controller_interface_zmq.cpp:17-31 | the commands for a program are exactly the log entries meant for it, in order, with type, topic and rendered payload |
| Delivery.Delivered | src/utils/main_loop.cpp:32-45 | end to end, every run, both programs and builds: exactly the publications in the log for a program reach its clients, in order; `control`, `teleop_state` and `teleoperationCapabilities` through `send_teleop`, all others through `send_vda`, under their literal topics and stamped |
| ZenohClient.Zenoh.Publish | src/zenoh/zenoh.cpp:23-31 | logs the size, then succeeds if and only if no publisher or that of this topic was declared |
| ZenohClient.DeclareForUe | src/ue/ue_zenoh.cpp:22-31 | the publishers the two clients of the UE end up with |
| ZenohClient.DeclareForBase | src/base/base_zenoh.cpp:21-26 | the publishers the client of Base ends up with |
| ZenohClient.PublishForUe | src/ue/ue_zenoh.cpp:37-43 | each publication goes to the client of its callback; the first without a publisher ends it, logged but not published, and nothing after it is logged |
| ZenohClient.BasePublishes | src/base/base_zenoh.cpp:21-35 | in every run every publication of Base finds a declared publisher |
| ZenohClient.UePublishes | src/ue/ue_zenoh.cpp:22-43 | in every run every publication of the UE finds one if and only if no capabilities were sent |
| ZenohClient.UeFailsInTeleop | src/ue/ue_zenoh.cpp:29-29 | it never fails in a VDA5050 run, and it has failed in every TELEOP run that is past request + response |
| ZenohClient.DefaultUeFailsBeforeStart | config.yaml:28-32 | with the shipped delays that is so in every state from the start of teleoperation on |
| Composition.StampsReachReceivers | src/mqtt/mqtt_client.cpp:11-21 | end to end, every run, both programs, both builds: a subscriber records, for each of the controller's publications on its topics, exactly the stamp written when it was forwarded |
| Composition.BaseOnlyPublishes | src/controller/agv.cpp:33-310 | no handler sends a video command to Base |
| Composition.CameraFollowsReports | src/utils/main_loop.cpp:46-49 | after every event the UE camera is alive if and only if the last reported flag was on |
| Reports.ReportsOnTime | src/controller/agv.cpp:208-259 | exactly what is reported and when: at start+d whether stop is still ahead, at stop+d that teleoperation is off; nothing early, late or else |
| Reports.ReportsKept | src/controller/agv.cpp:193-267 | every handler keeps the balance of reports made and reports pending |
| Reports.CameraFollowsSession | src/utils/main_loop.cpp:46-49 | the UE camera is on if and only if the report at start+d has been made, came before stop, and the one at stop+d has not been made |
| Reports.CameraEverOn | src/controller/agv.cpp:208-259 | in a run that reaches stop the last reported flag is ever on if and only if start+d is earlier than stop |
| Composition.CameraIsNeeded | src/ue/ue_mqtt.cpp:27-33 | a UE loop without a camera would abort if and only if a teleoperation state has been sent |
| WarmUp.DetectRuns | eval/e2e_latency_middleware/eval_e2e.py:54-58 | finds 0 and every index more than 700 ms after its predecessor |
| WarmUp.StartsAfterPauses | eval/e2e_latency_middleware/eval_e2e.py:54-58 | the starts are exactly 0 and the indices more than 700 ms after their predecessor |
| WarmUp.StartsAreRuns | eval/e2e_latency_middleware/eval_e2e.py:57-58 | these starts cut the samples into consecutive runs |
| WarmUp.KeepMask | eval/e2e_latency_middleware/eval_e2e.py:62-71 | clearing slices in place keeps a sample if and only if it lies at least 50 positions after the start of its run |
| WarmUp.KeepIs | eval/e2e_latency_middleware/eval_e2e.py:54-71 | a sample is kept if and only if at least 50 precede it and none of the 50 steps up to it is longer than 700 ms |
| WarmUp.MaskIsTrim | eval/e2e_latency_middleware/eval_e2e.py:61-73 | the kept samples are the concatenation of the runs without their first 50; the dropped ones number the sum of min(50, run length) |
| WarmUp.RunsPartition | eval/e2e_latency_middleware/eval_e2e.py:54-58 | the runs concatenate to all samples |
| WarmUp.DropWarmUp | eval/e2e_latency_middleware/eval_e2e.py:52-73 | the whole loop returns exactly that |

## Left out

- Text of messages: ids, coordinates and the constant JSON around the lists are opaque; `Composition` takes the rendering of a payload as a parameter. Well-formedness is claimed only of the two lists of order and state messages.
- Random generator: draws are arbitrary values in range, so no statement about distributions or the seed is made; the two numbers of a control command are arbitrary reals.
- Real-time clock of ns-3: events run at their scheduled time; lag of the real-time simulator is not modelled.
- `Simulator::Stop(length_s)`: `RunFor` stops after any number of events instead, so every prefix of a run is covered.
- ZeroMQ, msgpack, MQTT, Zenoh, GStreamer, YAML and CSV: external libraries; sockets are reliable FIFO queues, subscriptions a set of topics.
- QoS choice in `publishMessage`; Zenoh sessions and their configuration files.
- Several UEs: one AGV talks to one UE, as `controller.cpp` starts it.
- Completion and single-chain promises during teleoperation, and after a session that found something planned: two order chains may overlap there and no order is then read through two cursors; the counting, conservation, mixing and silence theorems apply instead.
- AgvPromises.NeverSilentForLong: the sharper bound, before teleoperation only; `StateInterval.NeverSilentInAnyRun` covers whole runs with a larger one that is not claimed to be the least. It does not shrink when continuation > state_after_order, because two overlapping chains can put the state message off in turn as long as continuation <= 2 * state_after_order.
- Progress.ClockAdvances: asks for six repeating delays of at least 1 ms; which zero delays would still let time pass is not worked out, and the number of events it allows is not the least.
- Timestamp.StampRoundTrip: clock readings before 1970 or after 9999, where the stamp has another width, are not modelled.
- The high-frequency scenario fields of the configuration, plots, percentages and the CSV concatenation of the evaluation scripts.
