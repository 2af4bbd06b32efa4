/** What every event sends, schedules and cancels, read off two consecutive states of a run. The tables are stated in the
    terms of the configuration and mention none of the functions that make up the handlers. */
module Timetable {
  import opened Basics
  import opened EventQueue
  import opened Commands
  import opened AgvModel
  import opened AgvInvariants
  import opened AgvRuns

  // ---------------------------------------------------------------- scheduled and cancelled

  /** The events scheduled by this step, in the order of their uids, with their delays. */
  function FollowUps(cfg: Config, s: AgvState, m: Move, t: AgvState): seq<(Kind, nat)>
    requires IsNext(s.q, m.u)
  {
    match KindOf(s, m)
    case SendConnection => []
    case SendFactsheetRequest => [(SendFactsheet, cfg.factsheetResponse)]
    case SendFactsheet => []
    case SendOrder =>
      (if t.d.plannedNodes != [] then [(SendOrder, cfg.continuation)] else []) + [(SendState, cfg.stateAfterOrder)]
    case SendState =>
      if s.d.nodes == [] && s.d.edges == [] then [(SendState, cfg.idleInterval)]
      else [(SendState, cfg.finishStep)] + (if t.d.AllEmpty() then [(SendOrder, cfg.nextOrderAfterFinish)] else [])
    case SendVisualization => [(SendVisualization, cfg.visualizationPeriod)]
    case StartTeleoperation => [(SendTeleoperationState, cfg.teleopStateDelay), (SendState, cfg.stateAfterToggle)]
    case StopTeleoperation =>
      [(SendTeleoperationState, cfg.teleopStateDelay), (SendState, cfg.stateAfterToggle), (SendOrder, cfg.restartOrders)]
    case SendTeleoperationState => if s.teleoperating then [(SendControl, cfg.controlStart)] else []
    case SendControl => [(SendControl, cfg.controlPeriod)]
    case RequestCapabilities => [(SendCapabilities, cfg.capabilityResponse)]
    case SendCapabilities => []
  }

  /** The handles this step cancels. */
  function Cancels(s: AgvState, m: Move): set<nat>
    requires IsNext(s.q, m.u)
  {
    match KindOf(s, m)
    case SendOrder => Named(s.nextState)
    case StartTeleoperation => Named(s.nextOrder) + Named(s.nextState)
    case StopTeleoperation => Named(s.nextState) + Named(s.nextControl)
    case _ => {}
  }

  /** Event `u` is pending, this kind at this delay from `now`. */
  predicate PendingAt(q: Queue, u: nat, now: nat, event: (Kind, nat)) {
    u in q.pending && q.pending[u] == Event(now + event.1, event.0)
  }

  /** `r` is `q` with these events added at their delays from now, under the next uids. */
  ghost predicate Added(q: Queue, r: Queue, events: seq<(Kind, nat)>) {
    && r.now == q.now && r.nextUid == q.nextUid + |events|
    && (forall v :: v in r.pending && v < q.nextUid <==> v in q.pending && v < q.nextUid)
    && (forall v <- q.pending | v < q.nextUid :: r.pending[v] == q.pending[v])
    && (forall k: nat :: k < |events| ==> PendingAt(r, q.nextUid + k, q.now, events[k]))
  }

  /** `q` without these events. */
  ghost predicate Removed(q: Queue, r: Queue, uids: set<nat>) {
    && r.now == q.now && r.nextUid == q.nextUid
    && (forall v :: v in r.pending <==> v in q.pending && v !in uids)
    && (forall v <- r.pending :: r.pending[v] == q.pending[v])
  }

  lemma AddedNone(q: Queue)
    ensures Added(q, q, [])
  {}

  lemma AddedOne(q: Queue, kind: Kind, delay: nat)
    ensures Added(q, Schedule(q, delay, kind), [(kind, delay)])
  {}

  lemma AddedTwo(q: Queue, kind: Kind, delay: nat, kind': Kind, delay': nat)
    ensures Added(q, Schedule(Schedule(q, delay, kind), delay', kind'), [(kind, delay), (kind', delay')])
  {}

  lemma AddedThree(q: Queue, kind: Kind, delay: nat, kind': Kind, delay': nat, kind'': Kind, delay'': nat)
    ensures Added(q, Schedule(Schedule(Schedule(q, delay, kind), delay', kind'), delay'', kind''),
                  [(kind, delay), (kind', delay'), (kind'', delay'')])
  {
    hide WellFormed, Live, Extends;
  }

  lemma RemovedOne(q: Queue, h: Handle)
    ensures Removed(q, Cancel(q, h), Named(h))
  {}

  lemma RemovedTwo(q: Queue, h: Handle, h': Handle)
    ensures Removed(q, CancelBoth(q, h, h'), Named(h) + Named(h'))
  {
    RemovedOne(q, h);
    RemovedOne(Cancel(q, h), h');
  }

  /** The queue `r` after an event at time `now`: that event and the cancelled ones are gone, the new ones are there,
      and every other event is untouched. */
  ghost predicate Turned(q: Queue, u: nat, cancelled: set<nat>, r: Queue, events: seq<(Kind, nat)>) {
    && u in q.pending && r.now == q.pending[u].time && r.nextUid == q.nextUid + |events|
    && (forall v :: v in r.pending && v < q.nextUid <==> v in q.pending && v < q.nextUid && v != u && v !in cancelled)
    && (forall v <- r.pending | v < q.nextUid :: v in q.pending && r.pending[v] == q.pending[v])
    && (forall k: nat :: k < |events| ==> PendingAt(r, q.nextUid + k, r.now, events[k]))
  }

  lemma TurnedBy(q: Queue, u: nat, cancelled: set<nat>, middle: Queue, r: Queue, events: seq<(Kind, nat)>)
    requires IsNext(q, u) && Removed(Take(q, u), middle, cancelled) && Added(middle, r, events)
    ensures Turned(q, u, cancelled, r, events)
  {
    hide WellFormed, Live;
    forall v | v in r.pending && v < q.nextUid ensures v in q.pending && v != u && v !in cancelled && r.pending[v] == q.pending[v] {
      assert v in middle.pending && v in Take(q, u).pending;
    }
    forall v | v in q.pending && v < q.nextUid && v != u && v !in cancelled ensures v in r.pending {
      assert v in Take(q, u).pending && v in middle.pending;
    }
  }

  /** The continuation, if any, is scheduled before the state message is cancelled; the two commute. */
  lemma OrderSchedules(cfg: Config, q: Queue, more: bool, h: Handle)
    requires WellFormed(q) && Past(q, h)
    ensures Added(Cancel(q, h), QueueAfterOrder(cfg, q, more, h),
                  (if more then [(SendOrder, cfg.continuation)] else []) + [(SendState, cfg.stateAfterOrder)])
  {
    hide WellFormed, Live, Extends, Added;
    if more {
      var events := [(SendOrder, cfg.continuation), (SendState, cfg.stateAfterOrder)];
      AddedTwo(Cancel(q, h), SendOrder, cfg.continuation, SendState, cfg.stateAfterOrder);
      assert Cancel(Schedule(q, cfg.continuation, SendOrder), h).pending == Schedule(Cancel(q, h), cfg.continuation, SendOrder).pending;
      assert [events[0]] + [events[1]] == events;
    } else {
      AddedOne(Cancel(q, h), SendState, cfg.stateAfterOrder);
      assert [] + [(SendState, cfg.stateAfterOrder)] == [(SendState, cfg.stateAfterOrder)];
    }
  }

  lemma StateSchedules(cfg: Config, q: Queue, idle: bool, done: bool)
    ensures Added(q, QueueAfterState(cfg, q, idle, done),
                  [(SendState, if idle then cfg.idleInterval else cfg.finishStep)]
                  + (if done then [(SendOrder, cfg.nextOrderAfterFinish)] else []))
  {
    var delay := if idle then cfg.idleInterval else cfg.finishStep;
    if done {
      AddedTwo(q, SendState, delay, SendOrder, cfg.nextOrderAfterFinish);
    } else {
      AddedOne(q, SendState, delay);
    }
  }

  lemma StartSchedules(cfg: Config, q: Queue, h: Handle, h': Handle)
    ensures Added(CancelBoth(q, h, h'), QueueAfterStart(cfg, q, h, h'),
                  [(SendTeleoperationState, cfg.teleopStateDelay), (SendState, cfg.stateAfterToggle)])
  {
    AddedTwo(CancelBoth(q, h, h'), SendTeleoperationState, cfg.teleopStateDelay, SendState, cfg.stateAfterToggle);
  }

  lemma StopSchedules(cfg: Config, q: Queue, h: Handle, h': Handle)
    ensures Added(CancelBoth(q, h, h'), QueueAfterStop(cfg, q, h, h'),
                  [(SendTeleoperationState, cfg.teleopStateDelay), (SendState, cfg.stateAfterToggle), (SendOrder, cfg.restartOrders)])
  {
    AddedThree(CancelBoth(q, h, h'), SendTeleoperationState, cfg.teleopStateDelay, SendState, cfg.stateAfterToggle,
               SendOrder, cfg.restartOrders);
  }

  /** This step does with the queue what the two tables say. */
  ghost predicate Scheduled(cfg: Config, s: AgvState, m: Move, t: AgvState)
    requires IsNext(s.q, m.u)
  {
    Turned(s.q, m.u, Cancels(s, m), t.q, FollowUps(cfg, s, m, t))
  }

  lemma RemovedNone(q: Queue)
    ensures Removed(q, q, {})
  {}

  lemma ScheduledByOrder(cfg: Config, s: AgvState, m: Move, t: AgvState)
    requires Tidy(s) && Step(cfg, s, m, t) && KindOf(s, m).SendOrder?
    ensures Scheduled(cfg, s, m, t)
  {
    hide Added, Removed, Turned, QueueAfterOrder;
    var q := Started(s, m).q;
    OrderQueue(cfg, s, m, t);
    OrderSchedules(cfg, q, t.d.plannedNodes != [], s.nextState);
    RemovedOne(q, s.nextState);
    TurnedBy(s.q, m.u, Named(s.nextState), Cancel(q, s.nextState), t.q, FollowUps(cfg, s, m, t));
  }

  lemma OrderQueue(cfg: Config, s: AgvState, m: Move, t: AgvState)
    requires Step(cfg, s, m, t) && KindOf(s, m).SendOrder?
    ensures t.q == QueueAfterOrder(cfg, Started(s, m).q, t.d.plannedNodes != [], s.nextState)
  {
    hide QueueAfterOrder, ChainAfterOrder;
  }

  lemma StateQueue(cfg: Config, s: AgvState, m: Move, t: AgvState)
    requires Step(cfg, s, m, t) && KindOf(s, m).SendState?
    ensures t.q == QueueAfterState(cfg, Started(s, m).q, s.d.NothingReleased(), !s.d.NothingReleased() && t.d.AllEmpty())
  {
    hide QueueAfterState;
  }

  lemma ScheduledByState(cfg: Config, s: AgvState, m: Move, t: AgvState)
    requires Step(cfg, s, m, t) && KindOf(s, m).SendState?
    ensures Scheduled(cfg, s, m, t)
  {
    hide Added, Removed, Turned, QueueAfterState, RunHandler;
    var q := Started(s, m).q;
    StateQueue(cfg, s, m, t);
    StateSchedules(cfg, q, s.d.NothingReleased(), !s.d.NothingReleased() && t.d.AllEmpty());
    RemovedNone(q);
    assert s.d.NothingReleased() ==> [(SendState, cfg.idleInterval)] + [] == FollowUps(cfg, s, m, t);
    TurnedBy(s.q, m.u, {}, q, t.q, FollowUps(cfg, s, m, t));
  }

  lemma ToggleQueues(cfg: Config, s: AgvState, m: Move, t: AgvState)
    requires Step(cfg, s, m, t)
    ensures KindOf(s, m).StartTeleoperation? ==> t.q == QueueAfterStart(cfg, Started(s, m).q, s.nextOrder, s.nextState)
    ensures KindOf(s, m).StopTeleoperation? ==> t.q == QueueAfterStop(cfg, Started(s, m).q, s.nextState, s.nextControl)
  {
    hide QueueAfterStart, QueueAfterStop, QueueAfterOrder, QueueAfterState, ChainAfterOrder;
  }

  lemma ScheduledByToggle(cfg: Config, s: AgvState, m: Move, t: AgvState)
    requires Step(cfg, s, m, t) && (KindOf(s, m).StartTeleoperation? || KindOf(s, m).StopTeleoperation?)
    ensures Scheduled(cfg, s, m, t)
  {
    hide Added, Removed, Turned, QueueAfterStart, QueueAfterStop, RunHandler, CancelBoth;
    var q := Started(s, m).q;
    ToggleQueues(cfg, s, m, t);
    if KindOf(s, m).StartTeleoperation? {
      StartSchedules(cfg, q, s.nextOrder, s.nextState);
      RemovedTwo(q, s.nextOrder, s.nextState);
      TurnedBy(s.q, m.u, Cancels(s, m), CancelBoth(q, s.nextOrder, s.nextState), t.q, FollowUps(cfg, s, m, t));
    } else {
      StopSchedules(cfg, q, s.nextState, s.nextControl);
      RemovedTwo(q, s.nextState, s.nextControl);
      TurnedBy(s.q, m.u, Cancels(s, m), CancelBoth(q, s.nextState, s.nextControl), t.q, FollowUps(cfg, s, m, t));
    }
  }

  lemma RestQueue(cfg: Config, s: AgvState, m: Move, t: AgvState)
    requires Step(cfg, s, m, t) && !MovesOrders(KindOf(s, m))
    ensures var q, events := Started(s, m).q, FollowUps(cfg, s, m, t);
            && |events| <= 1
            && (events == [] ==> t.q == q)
            && (events != [] ==> t.q == Schedule(q, events[0].1, events[0].0))
  {
    hide Schedule;
  }

  lemma ScheduledByRest(cfg: Config, s: AgvState, m: Move, t: AgvState)
    requires Step(cfg, s, m, t) && !MovesOrders(KindOf(s, m))
    ensures Scheduled(cfg, s, m, t)
  {
    hide Added, Removed, Turned, RunHandler, FollowUps;
    var q, events := Started(s, m).q, FollowUps(cfg, s, m, t);
    RestQueue(cfg, s, m, t);
    RemovedNone(q);
    if events == [] {
      AddedNone(q);
      TurnedBy(s.q, m.u, {}, q, t.q, []);
    } else {
      AddedOne(q, events[0].0, events[0].1);
      assert events == [(events[0].0, events[0].1)];
      TurnedBy(s.q, m.u, {}, q, t.q, events);
    }
  }

  lemma ScheduledAlways(cfg: Config, s: AgvState, m: Move, t: AgvState)
    requires Tidy(s) && Step(cfg, s, m, t)
    ensures Scheduled(cfg, s, m, t)
  {
    hide RunHandler, Scheduled;
    match KindOf(s, m)
    case SendOrder => ScheduledByOrder(cfg, s, m, t);
    case SendState => ScheduledByState(cfg, s, m, t);
    case StartTeleoperation => ScheduledByToggle(cfg, s, m, t);
    case StopTeleoperation => ScheduledByToggle(cfg, s, m, t);
    case _ => ScheduledByRest(cfg, s, m, t);
  }

  // ---------------------------------------------------------------- sent

  /** The commands sent by this step, in order. */
  function Says(s: AgvState, m: Move, t: AgvState): seq<Sent>
    requires IsNext(s.q, m.u)
  {
    var now := t.q.now;
    match KindOf(s, m)
    case SendConnection => [Sent(now, Ue, PUBLISH_VDA, Connection, Constant)]
    case SendFactsheetRequest => [Sent(now, Base, PUBLISH_VDA, InstantActions, Constant)]
    case SendFactsheet => [Sent(now, Ue, PUBLISH_VDA, Factsheet, Constant)]
    case SendOrder => [Sent(now, Base, PUBLISH_VDA, Order, OrderMessage(t.d.nodes, t.d.edges))]
    case SendState => [Sent(now, Ue, PUBLISH_VDA, State, StateMessage(s.d.nodes, s.d.edges))]
    case SendVisualization => [Sent(now, Ue, PUBLISH_VDA, Visualization, Constant)]
    case StartTeleoperation => [Sent(now, Base, PUBLISH_VDA, InstantActions, Constant)]
    case StopTeleoperation => [Sent(now, Base, PUBLISH_VDA, InstantActions, Constant)]
    case SendTeleoperationState =>
      [Sent(now, Ue, PUBLISH_TELEOP, TeleopState, Teleoperating(s.teleoperating)),
       Sent(now, Ue, if s.teleoperating then START_VIDEO else STOP_VIDEO, NoTopic, Constant)]
    case SendControl => [Sent(now, Base, PUBLISH_TELEOP, Control, Speeds(m.draw.speed, m.draw.steering))]
    case RequestCapabilities => [Sent(now, Base, PUBLISH_VDA, InstantActions, Constant)]
    case SendCapabilities => [Sent(now, Ue, PUBLISH_TELEOP, Capabilities, Constant)]
  }

  lemma SaidByMover(cfg: Config, s: AgvState, m: Move, t: AgvState)
    requires Tidy(s) && Step(cfg, s, m, t) && MovesOrders(KindOf(s, m))
    ensures t.sent == s.sent + Says(s, m, t)
  {
    hide QueueAfterOrder, QueueAfterState, QueueAfterStart, QueueAfterStop, WellFormed, Live, ChainAfterOrder;
  }

  lemma SaidByRest(cfg: Config, s: AgvState, m: Move, t: AgvState)
    requires Step(cfg, s, m, t) && !MovesOrders(KindOf(s, m))
    ensures t.sent == s.sent + Says(s, m, t)
  {
    hide WellFormed, Live;
  }

  lemma SaidAlways(cfg: Config, s: AgvState, m: Move, t: AgvState)
    requires Tidy(s) && Step(cfg, s, m, t)
    ensures t.sent == s.sent + Says(s, m, t)
  {
    hide RunHandler;
    if MovesOrders(KindOf(s, m)) { SaidByMover(cfg, s, m, t); } else { SaidByRest(cfg, s, m, t); }
  }

  // ---------------------------------------------------------------- runs

  /** Every step of every run sends, schedules and cancels exactly what the tables say. */
  lemma EveryStep(cfg: Config, r: Run, i: nat)
    requires cfg.Valid() && r.Of(cfg) && i < |r.moves| && |r.states| == |r.moves| + 1
    requires IsNext(r.states[i].q, r.moves[i].u)
    ensures Scheduled(cfg, r.states[i], r.moves[i], r.states[i + 1])
    ensures r.states[i + 1].sent == r.states[i].sent + Says(r.states[i], r.moves[i], r.states[i + 1])
  {
    hide RunHandler, Scheduled, Says;
    StepAt(cfg, r, i);
    TrackedHolds(cfg, r, i);
    ScheduledAlways(cfg, r.states[i], r.moves[i], r.states[i + 1]);
    SaidAlways(cfg, r.states[i], r.moves[i], r.states[i + 1]);
  }

  /** Every entry of the log was sent by one step of the run, as the table says. */
  lemma {:induction false} SentBy(cfg: Config, r: Run, i: nat, k: nat) returns (n: nat)
    requires cfg.Valid() && r.Of(cfg) && i < |r.states| && k < |r.states[i].sent|
    ensures n < i && n < |r.moves| && IsNext(r.states[n].q, r.moves[n].u) && |r.states[n].sent| <= k
    ensures var says := Says(r.states[n], r.moves[n], r.states[n + 1]);
            k - |r.states[n].sent| < |says| && r.states[i].sent[k] == says[k - |r.states[n].sent|]
  {
    hide RunHandler, Says, Scheduled;
    Lengths(cfg, r);
    StartsBlank(cfg, r);
    StepAt(cfg, r, i - 1);
    EveryStep(cfg, r, i - 1);
    if k < |r.states[i - 1].sent| { n := SentBy(cfg, r, i - 1, k); } else { n := i - 1; }
  }

  /** Which commands there are: the program, the type and the kind of payload that go with each topic. */
  predicate Listed(x: Sent) {
    match x.topic
    case NoTopic => x.to == Ue && x.typ in {START_VIDEO, STOP_VIDEO} && x.payload == Constant
    case Connection => x.to == Ue && x.typ == PUBLISH_VDA && x.payload == Constant
    case InstantActions => x.to == Base && x.typ == PUBLISH_VDA && x.payload == Constant
    case Factsheet => x.to == Ue && x.typ == PUBLISH_VDA && x.payload == Constant
    case Order => x.to == Base && x.typ == PUBLISH_VDA && x.payload.OrderMessage?
    case State => x.to == Ue && x.typ == PUBLISH_VDA && x.payload.StateMessage?
    case Visualization => x.to == Ue && x.typ == PUBLISH_VDA && x.payload == Constant
    case TeleopState => x.to == Ue && x.typ == PUBLISH_TELEOP && x.payload.Teleoperating?
    case Control => x.to == Base && x.typ == PUBLISH_TELEOP && x.payload.Speeds?
    case Capabilities => x.to == Ue && x.typ == PUBLISH_TELEOP && x.payload == Constant
  }

  lemma SaysListed(s: AgvState, m: Move, t: AgvState, j: nat)
    requires IsNext(s.q, m.u) && j < |Says(s, m, t)|
    ensures Listed(Says(s, m, t)[j])
  {}

  /** Every command ever sent is one of these. */
  lemma EveryCommand(cfg: Config, r: Run, i: nat, k: nat)
    requires cfg.Valid() && r.Of(cfg) && i < |r.states| && k < |r.states[i].sent|
    ensures Listed(r.states[i].sent[k])
  {
    hide Says, Listed;
    var n := SentBy(cfg, r, i, k);
    SaysListed(r.states[n], r.moves[n], r.states[n + 1], k - |r.states[n].sent|);
  }

  /** A control command carries the two numbers drawn in the step that sent it, at the time of that step. */
  lemma ControlCarriesDraw(cfg: Config, r: Run, i: nat, k: nat) returns (n: nat)
    requires cfg.Valid() && r.Of(cfg) && i < |r.states| && k < |r.states[i].sent| && r.states[i].sent[k].topic == Control
    ensures n < i && n < |r.moves| && IsNext(r.states[n].q, r.moves[n].u) && KindOf(r.states[n], r.moves[n]) == SendControl
    ensures |r.states[n].sent| == k
    ensures r.states[i].sent[k] == Sent(r.states[n + 1].q.now, Base, PUBLISH_TELEOP, Control,
                                        Speeds(r.moves[n].draw.speed, r.moves[n].draw.steering))
  {
    n := SentBy(cfg, r, i, k);
  }

  /** What is pending when the constructor returns: uids 0 to 4 in both scenarios, 5 to 7 in TELEOP. */
  ghost predicate ConstructedQueue(cfg: Config, q: Queue) {
    && q.now == 0 && q.nextUid == (if cfg.scenario.TELEOP? then 8 else 5)
    && (forall v :: v in q.pending <==> 0 <= v < q.nextUid)
    && q.pending[0] == Event(cfg.connectionAfter, SendConnection)
    && q.pending[1] == Event(cfg.stateAfter, SendState)
    && q.pending[2] == Event(cfg.factsheetRequestAfter, SendFactsheetRequest)
    && q.pending[3] == Event(cfg.orderAfter, SendOrder)
    && q.pending[4] == Event(cfg.visualizationAfter, SendVisualization)
    && (cfg.scenario.TELEOP? ==>
          && q.pending[5] == Event(cfg.capabilityRequestAfter, RequestCapabilities)
          && q.pending[6] == Event(1000 * cfg.startS, StartTeleoperation)
          && q.pending[7] == Event(1000 * cfg.stopS, StopTeleoperation))
  }

  lemma ConstructedVda(cfg: Config)
    ensures InitQueueVda(cfg).nextUid == 5 && InitQueueVda(cfg).now == 0
    ensures InitQueueVda(cfg).pending == map[0 := Event(cfg.connectionAfter, SendConnection), 1 := Event(cfg.stateAfter, SendState),
      2 := Event(cfg.factsheetRequestAfter, SendFactsheetRequest), 3 := Event(cfg.orderAfter, SendOrder),
      4 := Event(cfg.visualizationAfter, SendVisualization)]
  {
    hide WellFormed, Live, Extends;
  }

  lemma ConstructedTeleop(cfg: Config, q: Queue)
    requires q.nextUid == 5 && q.now == 0 && forall v :: v in q.pending <==> 0 <= v < 5
    ensures var r := WithTeleoperation(cfg, q);
            && r.now == 0 && r.nextUid == 8 && (forall v :: v in r.pending <==> 0 <= v < 8)
            && (forall v :: 0 <= v < 5 ==> r.pending[v] == q.pending[v])
            && r.pending[5] == Event(cfg.capabilityRequestAfter, RequestCapabilities)
            && r.pending[6] == Event(1000 * cfg.startS, StartTeleoperation)
            && r.pending[7] == Event(1000 * cfg.stopS, StopTeleoperation)
  {
    hide WellFormed, Live, Extends;
  }

  /** Every run starts with exactly these events, at exactly these times, and nothing in any deque. */
  lemma FirstState(cfg: Config, r: Run)
    requires r.Of(cfg)
    ensures ConstructedQueue(cfg, r.states[0].q)
    ensures r.states[0].nextState == Some(1) && r.states[0].nextOrder == Some(3) && r.states[0].nextControl == None
    ensures r.states[0].d.AllEmpty() && !r.states[0].teleoperating && r.states[0].updateId == 0 && r.states[0].sent == []
  {
    hide InitQueueVda, WithTeleoperation, WellFormed, Live, Extends;
    assert r.Reached(cfg, 0);
    ConstructedVda(cfg);
    if cfg.scenario.TELEOP? { ConstructedTeleop(cfg, InitQueueVda(cfg)); }
  }
}
