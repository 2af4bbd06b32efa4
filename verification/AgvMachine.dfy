/** The controller as it runs: a simulator object with a clock and pending events, and an AGV object whose
    handlers change its fields in place. Every method does exactly what the state machine of `AgvModel` says. */
module AgvMachine {
  import opened Basics
  import opened EventQueue
  import opened Commands
  import opened AgvModel
  import opened AgvInvariants
  import opened AgvRuns

  class Simulator {
    var now: nat
    var nextUid: nat
    var pending: map<nat, Event>

    ghost function Abs(): Queue
      reads this
    {
      Queue(now, nextUid, pending)
    }

    constructor ()
      ensures Abs() == EMPTY
    {
      now, nextUid, pending := 0, 0, map[];
    }

    method ScheduleEvent(delay: nat, kind: Kind) returns (h: Handle)
      modifies this
      ensures Abs() == Schedule(old(Abs()), delay, kind) && h == Some(old(nextUid))
    {
      pending := pending[nextUid := Event(now + delay, kind)];
      h := Some(nextUid);
      nextUid := nextUid + 1;
    }

    method CancelEvent(h: Handle)
      modifies this
      ensures Abs() == Cancel(old(Abs()), h)
    {
      if h.Some? { pending := pending - {h.value}; }
    }

    /** The earliest pending event, the one scheduled first among several at the same time. */
    method FindNext() returns (u: nat)
      requires pending != map[]
      ensures IsNext(Abs(), u)
    {
      var rest := pending.Keys;
      u :| u in rest;
      rest := rest - {u};
      while rest != {}
        invariant rest <= pending.Keys && u in pending
        invariant forall v <- pending | v !in rest :: Earlier(Abs(), u, v)
        decreases |rest|
      {
        var v :| v in rest;
        if pending[v].time < pending[u].time || (pending[v].time == pending[u].time && v < u) { u := v; }
        rest := rest - {v};
      }
    }

    /** Takes event `u` off the queue and moves the clock to it. */
    method Advance(u: nat) returns (kind: Kind)
      requires IsNext(Abs(), u)
      modifies this
      ensures Abs() == Take(old(Abs()), u) && kind == old(pending)[u].kind
    {
      kind := pending[u].kind;
      now := pending[u].time;
      pending := pending - {u};
    }
  }

  /** What each of the four large handlers leaves, field by field. */
  lemma OrderFields(cfg: Config, s: AgvState, draw: Draw, t: AgvState)
    requires OrderSafe(s.d, draw)
    requires t.d == Released(Replenished(s.d, draw), draw.release)
    requires t.q == QueueAfterOrder(cfg, s.q, t.d.plannedNodes != [], s.nextState)
    requires t.nextState == Some(if t.d.plannedNodes != [] then s.q.nextUid + 1 else s.q.nextUid)
    requires t.nextOrder == s.nextOrder && t.nextControl == s.nextControl
    requires t.updateId == if s.d.NothingPlanned() then 0 else (s.updateId + 1) % 0x1_0000_0000
    requires t.teleoperating == s.teleoperating && t.phase == s.phase
    requires t.sent == s.sent + [Sent(s.q.now, Base, PUBLISH_VDA, Topic.Order, OrderMessage(t.d.nodes, t.d.edges))]
    requires t.ledger == if s.d.NothingPlanned() then
                           s.ledger.(generatedNodes := s.ledger.generatedNodes + MakeNodes(draw.places),
                                     generatedEdges := s.ledger.generatedEdges + MakeEdges(draw.places))
                         else s.ledger
    requires t.chain == ChainAfterOrder(s.chain, s.q.now, s.q.nextUid, s.d.NothingPlanned(), Replenished(s.d, draw), draw.release)
    requires t.opening == (if s.d.NothingPlanned() then |s.sent| else s.opening) && t.clean == s.clean
    ensures t == AfterOrder(cfg, s, draw)
  {}

  lemma StateFields(cfg: Config, s: AgvState, t: AgvState)
    requires StateSafe(s.d)
    requires t.sent == s.sent + [Sent(s.q.now, Ue, PUBLISH_VDA, Topic.State, StateMessage(s.d.nodes, s.d.edges))]
    requires t.nextState == Some(s.q.nextUid) && t.nextControl == s.nextControl && t.updateId == s.updateId
    requires t.teleoperating == s.teleoperating && t.phase == s.phase && t.opening == s.opening && t.clean == s.clean
    requires if s.d.NothingReleased() then
               && t.q == QueueAfterState(cfg, s.q, true, false) && t.nextOrder == s.nextOrder
               && t.d == s.d && t.ledger == s.ledger && t.chain == s.chain.(sinceState := 0)
             else
               && t.d == Traversed(s.d) && t.ledger == LedgerAfterStep(s.ledger, s.d)
               && t.q == QueueAfterState(cfg, s.q, false, t.d.AllEmpty())
               && t.nextOrder == (if t.d.AllEmpty() then Some(s.q.nextUid + 1) else s.nextOrder)
               && t.chain == s.chain.(steps := s.chain.steps + 1, sinceState := 0,
                                      emptiedAt := if t.d.AllEmpty() then s.q.now else s.chain.emptiedAt)
    ensures t == AfterState(cfg, s)
  {}

  lemma StartFields(cfg: Config, s: AgvState, t: AgvState)
    requires t.q == QueueAfterStart(cfg, s.q, s.nextOrder, s.nextState) && t.nextState == Some(s.q.nextUid + 1)
    requires t.d == Deques([], [], [], []) && t.ledger == LedgerAfterStart(s.ledger, s.d)
    requires t.sent == s.sent + [Sent(s.q.now, Base, PUBLISH_VDA, InstantActions, Constant)]
    requires t.teleoperating && t.phase == Teleop && t.nextOrder == s.nextOrder && t.nextControl == s.nextControl
    requires t.updateId == s.updateId && t.chain == NO_CHAIN && t.opening == s.opening && t.clean == s.d.NothingPlanned()
    ensures t == AfterStart(cfg, s)
  {}

  lemma StopFields(cfg: Config, s: AgvState, t: AgvState)
    requires t.q == QueueAfterStop(cfg, s.q, s.nextState, s.nextControl)
    requires t.nextState == Some(s.q.nextUid + 1) && t.nextOrder == Some(s.q.nextUid + 2)
    requires t.sent == s.sent + [Sent(s.q.now, Base, PUBLISH_VDA, InstantActions, Constant)]
    requires !t.teleoperating && t.phase == AfterStop && t.d == s.d && t.ledger == s.ledger
    requires t.nextControl == s.nextControl && t.updateId == s.updateId
    requires t.chain == s.chain && t.opening == s.opening && t.clean == s.clean
    ensures t == AfterStopTeleop(cfg, s)
  {}

  class Agv {
    const cfg: Config
    const sim: Simulator

    var nextState: Handle
    var nextOrder: Handle
    var nextControl: Handle

    var plannedNodes: seq<NodeState>
    var plannedEdges: seq<EdgeState>
    var nodes: seq<NodeState>
    var edges: seq<EdgeState>

    var updateId: nat
    var teleoperating: bool

    /** What has been handed to the controller interface. */
    var sent: seq<Sent>

    ghost var phase: Phase
    ghost var ledger: Ledger
    ghost var chain: Chain
    ghost var opening: nat
    ghost var clean: bool

    ghost function Contents(): Deques
      reads this
    {
      Deques(plannedNodes, plannedEdges, nodes, edges)
    }

    ghost function Abs(): AgvState
      reads this, sim
    {
      AgvState(sim.Abs(), nextState, nextOrder, nextControl, Contents(), updateId, teleoperating, sent, phase, ledger, chain,
               opening, clean)
    }

    constructor (cfg: Config, sim: Simulator)
      requires sim.Abs() == EMPTY
      modifies sim
      ensures this.cfg == cfg && this.sim == sim && Abs() == Init(cfg)
    {
      hide WellFormed, Live, Extends;
      this.cfg := cfg;
      this.sim := sim;
      plannedNodes, plannedEdges, nodes, edges := [], [], [], [];
      nextControl := None;
      updateId, teleoperating, sent := 0, false, [];
      phase, ledger, chain, opening, clean := BeforeStart, NO_LEDGER, NO_CHAIN, 0, true;
      new;
      var _ := sim.ScheduleEvent(cfg.connectionAfter, Kind.SendConnection);
      nextState := sim.ScheduleEvent(cfg.stateAfter, Kind.SendState);
      var _ := sim.ScheduleEvent(cfg.factsheetRequestAfter, Kind.SendFactsheetRequest);
      nextOrder := sim.ScheduleEvent(cfg.orderAfter, Kind.SendOrder);
      var _ := sim.ScheduleEvent(cfg.visualizationAfter, Kind.SendVisualization);
      if cfg.scenario == TELEOP {
        var _ := sim.ScheduleEvent(cfg.capabilityRequestAfter, Kind.RequestCapabilities);
        var _ := sim.ScheduleEvent(1000 * cfg.startS, Kind.StartTeleoperation);
        var _ := sim.ScheduleEvent(1000 * cfg.stopS, Kind.StopTeleoperation);
      }
    }

    method Execute(to: Destination, typ: CommandType, topic: Topic, payload: Payload)
      modifies this`sent
      ensures sent == old(sent) + [Sent(sim.now, to, typ, topic, payload)]
    {
      sent := sent + [Sent(sim.now, to, typ, topic, payload)];
    }

    /** Generates a new order: one edge and one node for each drawn place. */
    method GenerateOrder(places: seq<Place>)
      modifies this`plannedNodes, this`plannedEdges
      ensures plannedNodes == old(plannedNodes) + MakeNodes(places)
      ensures plannedEdges == old(plannedEdges) + MakeEdges(places)
    {
      var i := 0;
      while i < |places|
        invariant 0 <= i <= |places|
        invariant plannedNodes == old(plannedNodes) + MakeNodes(places)[..i]
        invariant plannedEdges == old(plannedEdges) + MakeEdges(places)[..i]
      {
        plannedEdges := plannedEdges + [EdgeState(i, places[i].edgeId)];
        plannedNodes := plannedNodes + [NodeState(i, places[i].nodeId, places[i].x, places[i].y)];
        i := i + 1;
      }
    }

    /** Moves the first `num` planned nodes and edges to the released ones. */
    method ReleasePlanned(num: nat)
      requires num <= |plannedNodes| && num <= |plannedEdges|
      modifies this`plannedNodes, this`plannedEdges, this`nodes, this`edges
      ensures Contents() == Released(old(Contents()), num)
    {
      var i := 0;
      while i < num
        invariant 0 <= i <= num
        invariant plannedNodes == old(plannedNodes)[i..] && plannedEdges == old(plannedEdges)[i..]
        invariant nodes == old(nodes) + old(plannedNodes)[..i] && edges == old(edges) + old(plannedEdges)[..i]
      {
        nodes := nodes + [plannedNodes[0]];
        plannedNodes := plannedNodes[1..];
        edges := edges + [plannedEdges[0]];
        plannedEdges := plannedEdges[1..];
        i := i + 1;
      }
    }

    /** The tail of `SendOrder`: continue while something is planned, and answer with a state message soon. */
    method ScheduleAfterOrder()
      modifies sim, this`nextState
      ensures sim.Abs() == QueueAfterOrder(cfg, old(sim.Abs()), plannedNodes != [], old(nextState))
      ensures nextState == Some(if plannedNodes != [] then old(sim.nextUid) + 1 else old(sim.nextUid))
    {
      if plannedNodes != [] {
        var _ := sim.ScheduleEvent(cfg.continuation, Kind.SendOrder);
      }
      sim.CancelEvent(nextState);
      nextState := sim.ScheduleEvent(cfg.stateAfterOrder, Kind.SendState);
    }

    /** Counts the update and, when everything planned has been released, generates a new order instead. */
    method Replenish(draw: Draw)
      modifies this`plannedNodes, this`plannedEdges, this`updateId, this`ledger
      ensures Contents() == Replenished(old(Contents()), draw)
      ensures updateId == if old(Contents()).NothingPlanned() then 0 else (old(updateId) + 1) % 0x1_0000_0000
      ensures ledger == if old(Contents()).NothingPlanned() then
                          old(ledger).(generatedNodes := old(ledger).generatedNodes + plannedNodes,
                                       generatedEdges := old(ledger).generatedEdges + plannedEdges)
                        else old(ledger)
    {
      updateId := (updateId + 1) % 0x1_0000_0000;
      if plannedNodes == [] && plannedEdges == [] {
        updateId := 0;
        GenerateOrder(draw.places);
        assert plannedNodes == MakeNodes(draw.places) && plannedEdges == MakeEdges(draw.places);
        ledger := ledger.(generatedNodes := ledger.generatedNodes + plannedNodes,
                          generatedEdges := ledger.generatedEdges + plannedEdges);
      }
    }

    /** The part of `SendOrder` that works on the deques. */
    method ReleaseOrder(draw: Draw)
      requires OrderSafe(Contents(), draw)
      modifies this`plannedNodes, this`plannedEdges, this`nodes, this`edges, this`updateId, this`ledger, this`chain, this`opening
      ensures Contents() == Released(Replenished(old(Contents()), draw), draw.release)
      ensures opening == if old(Contents()).NothingPlanned() then |sent| else old(opening)
      ensures updateId == if old(Contents()).NothingPlanned() then 0 else (old(updateId) + 1) % 0x1_0000_0000
      ensures ledger == if old(Contents()).NothingPlanned() then
                          old(ledger).(generatedNodes := old(ledger).generatedNodes + MakeNodes(draw.places),
                                       generatedEdges := old(ledger).generatedEdges + MakeEdges(draw.places))
                        else old(ledger)
      ensures chain == ChainAfterOrder(old(chain), sim.now, sim.nextUid, old(Contents()).NothingPlanned(),
                                       Replenished(old(Contents()), draw), draw.release)
    {
      opening := if Contents().NothingPlanned() then |sent| else opening;
      chain := ChainAfterOrder(chain, sim.now, sim.nextUid, Contents().NothingPlanned(), Replenished(Contents(), draw), draw.release);
      Replenish(draw);
      ReleasePlanned(draw.release);
    }

    method SendOrder(draw: Draw)
      requires OrderSafe(Contents(), draw)
      modifies this, sim
      ensures Abs() == AfterOrder(cfg, old(Abs()), draw)
    {
      hide AfterOrder, QueueAfterOrder, ChainAfterOrder;
      ghost var s := Abs();
      ReleaseOrder(draw);
      Execute(Base, PUBLISH_VDA, Topic.Order, OrderMessage(nodes, edges));
      ScheduleAfterOrder();
      OrderFields(cfg, s, draw, Abs());
    }

    /** The tail of `SendState`. */
    method ScheduleAfterState(idle: bool, done: bool)
      modifies sim, this`nextState, this`nextOrder
      ensures sim.Abs() == QueueAfterState(cfg, old(sim.Abs()), idle, done)
      ensures nextState == Some(old(sim.nextUid))
      ensures nextOrder == if done then Some(old(sim.nextUid) + 1) else old(nextOrder)
    {
      if idle {
        nextState := sim.ScheduleEvent(cfg.idleInterval, Kind.SendState);
      } else {
        nextState := sim.ScheduleEvent(cfg.finishStep, Kind.SendState);
      }
      if done {
        nextOrder := sim.ScheduleEvent(cfg.nextOrderAfterFinish, Kind.SendOrder);
      }
    }

    /** Takes the next edge, or the next node if its edge has been taken already. */
    method Traverse()
      requires StateSafe(Contents()) && !Contents().NothingReleased()
      modifies this`nodes, this`edges, this`ledger
      ensures Contents() == Traversed(old(Contents())) && ledger == LedgerAfterStep(old(ledger), old(Contents()))
    {
      ledger := LedgerAfterStep(ledger, Contents());
      if |nodes| == |edges| {
        edges := edges[1..];
      } else {
        nodes := nodes[1..];
      }
    }

    method SendState()
      requires StateSafe(Contents())
      modifies this, sim
      ensures Abs() == AfterState(cfg, old(Abs()))
    {
      hide AfterState, QueueAfterState, WellFormed, Live, Extends;
      ghost var s := Abs();
      Execute(Ue, PUBLISH_VDA, Topic.State, StateMessage(nodes, edges));
      if nodes == [] && edges == [] {
        chain := chain.(sinceState := 0);
        ScheduleAfterState(true, false);
      } else {
        SendStateStep();
      }
      StateFields(cfg, s, Abs());
    }

    /** The branch of `SendState` that has something to traverse. */
    method SendStateStep()
      requires StateSafe(Contents()) && !Contents().NothingReleased()
      modifies sim, this`nodes, this`edges, this`ledger, this`chain, this`nextState, this`nextOrder
      ensures Contents() == Traversed(old(Contents())) && ledger == LedgerAfterStep(old(ledger), old(Contents()))
      ensures sim.Abs() == QueueAfterState(cfg, old(sim.Abs()), false, Contents().AllEmpty())
      ensures nextState == Some(old(sim.nextUid))
      ensures nextOrder == if Contents().AllEmpty() then Some(old(sim.nextUid) + 1) else old(nextOrder)
      ensures chain == old(chain).(steps := old(chain).steps + 1, sinceState := 0,
                                   emptiedAt := if Contents().AllEmpty() then old(sim.now) else old(chain).emptiedAt)
    {
      Traverse();
      var done := nodes == [] && edges == [] && plannedEdges == [] && plannedNodes == [];
      chain := chain.(steps := chain.steps + 1, emptiedAt := if done then sim.now else chain.emptiedAt, sinceState := 0);
      ScheduleAfterState(false, done);
    }

    /** The tail of `StartTeleoperation` and `StopTeleoperation`: the flag and the operating mode are reported soon. */
    method ScheduleReports()
      modifies sim, this`nextState
      ensures sim.Abs() == WithReports(cfg, old(sim.Abs()))
      ensures nextState == Some(old(sim.nextUid) + 1) && sim.nextUid == old(sim.nextUid) + 2
    {
      var _ := sim.ScheduleEvent(cfg.teleopStateDelay, Kind.SendTeleoperationState);
      nextState := sim.ScheduleEvent(cfg.stateAfterToggle, Kind.SendState);
    }

    /** Clears the four deques. */
    method DropOrders()
      modifies this`plannedNodes, this`plannedEdges, this`nodes, this`edges, this`ledger
      ensures Contents() == Deques([], [], [], []) && ledger == LedgerAfterStart(old(ledger), old(Contents()))
    {
      ledger := LedgerAfterStart(ledger, Contents());
      nodes := [];
      edges := [];
      plannedNodes := [];
      plannedEdges := [];
    }

    method CancelEvents(h: Handle, h': Handle)
      modifies sim
      ensures sim.Abs() == CancelBoth(old(sim.Abs()), h, h') && sim.now == old(sim.now) && sim.nextUid == old(sim.nextUid)
    {
      sim.CancelEvent(h);
      sim.CancelEvent(h');
    }

    method StartTeleoperation()
      modifies this, sim
      ensures Abs() == AfterStart(cfg, old(Abs()))
    {
      hide AfterStart, Schedule, Cancel, WellFormed, Live, Extends;
      ghost var s := Abs();
      CancelEvents(nextOrder, nextState);
      chain, clean := NO_CHAIN, Contents().NothingPlanned();
      DropOrders();
      Execute(Base, PUBLISH_VDA, InstantActions, Constant);
      teleoperating := true;
      phase := Teleop;
      ScheduleReports();
      assert sim.Abs() == QueueAfterStart(cfg, s.q, s.nextOrder, s.nextState);
      StartFields(cfg, s, Abs());
    }

    method StopTeleoperation()
      modifies this, sim
      ensures Abs() == AfterStopTeleop(cfg, old(Abs()))
    {
      hide AfterStopTeleop, Schedule, Cancel, WellFormed, Live, Extends;
      ghost var s := Abs();
      CancelEvents(nextState, nextControl);
      Execute(Base, PUBLISH_VDA, InstantActions, Constant);
      teleoperating := false;
      phase := AfterStop;
      ScheduleReports();
      nextOrder := sim.ScheduleEvent(cfg.restartOrders, Kind.SendOrder);
      assert sim.Abs() == QueueAfterStop(cfg, s.q, s.nextState, s.nextControl);
      StopFields(cfg, s, Abs());
    }

    method SendTeleoperationState()
      modifies this, sim
      ensures Abs() == AfterTeleopState(cfg, old(Abs()))
    {
      Execute(Ue, PUBLISH_TELEOP, TeleopState, Teleoperating(teleoperating));
      Execute(Ue, if teleoperating then START_VIDEO else STOP_VIDEO, NoTopic, Constant);
      if teleoperating {
        nextControl := sim.ScheduleEvent(cfg.controlStart, Kind.SendControl);
      }
    }

    method SendControl(draw: Draw)
      modifies this, sim
      ensures Abs() == AfterControl(cfg, old(Abs()), draw)
    {
      Execute(Base, PUBLISH_TELEOP, Topic.Control, Speeds(draw.speed, draw.steering));
      nextControl := sim.ScheduleEvent(cfg.controlPeriod, Kind.SendControl);
    }

    method SendOneShot(kind: Kind)
      requires OneShot(kind)
      modifies this, sim
      ensures Abs() == AfterOneShot(cfg, old(Abs()), kind)
    {
      match kind
      case SendConnection =>
        Execute(Ue, PUBLISH_VDA, Connection, Constant);
      case SendFactsheetRequest =>
        Execute(Base, PUBLISH_VDA, InstantActions, Constant);
        var _ := sim.ScheduleEvent(cfg.factsheetResponse, Kind.SendFactsheet);
      case SendFactsheet =>
        Execute(Ue, PUBLISH_VDA, Factsheet, Constant);
      case SendVisualization =>
        Execute(Ue, PUBLISH_VDA, Visualization, Constant);
        var _ := sim.ScheduleEvent(cfg.visualizationPeriod, Kind.SendVisualization);
      case RequestCapabilities =>
        Execute(Base, PUBLISH_VDA, InstantActions, Constant);
        var _ := sim.ScheduleEvent(cfg.capabilityResponse, Kind.SendCapabilities);
      case SendCapabilities =>
        Execute(Ue, PUBLISH_TELEOP, Capabilities, Constant);
    }

    /** Runs the handler an event names. */
    method Dispatch(kind: Kind, draw: Draw)
      requires Safe(Contents(), kind, draw)
      modifies this, sim
      ensures Abs() == RunHandler(cfg, old(Abs()), kind, draw)
    {
      match kind
      case SendOrder => SendOrder(draw);
      case SendState => SendState();
      case StartTeleoperation => StartTeleoperation();
      case StopTeleoperation => StopTeleoperation();
      case SendTeleoperationState => SendTeleoperationState();
      case SendControl => SendControl(draw);
      case _ => SendOneShot(kind);
    }

    /** Any number between the bounds: one draw from a uniform integer distribution. */
    method DrawBetween(lo: nat, hi: nat) returns (n: nat)
      requires lo <= hi
      ensures lo <= n <= hi
    {
      n :| lo <= n <= hi;
    }

    /** Everything `sendOrder` and `sendControl` may draw: a length, that many places, how many to release. */
    method DrawForNext() returns (draw: Draw)
      requires cfg.Valid() && Paired(Contents())
      ensures DrawInRange(cfg, Contents(), draw)
    {
      var length := DrawBetween(cfg.orderLenMin, cfg.orderLenMax);
      var places: seq<Place> := [];
      while |places| < length
        invariant |places| <= length
      {
        var place: Place := *;
        places := places + [place];
      }
      var release := DrawBetween(1, if plannedNodes == [] && plannedEdges == [] then length else |plannedNodes|);
      var speed: real := *;
      var steering: real := *;
      draw := Draw(places, release, speed, steering);
    }

    /** One turn of the simulator: take the next event and run its handler. */
    method RunNext(ghost r: Run) returns (ghost m: Move)
      requires cfg.Valid() && r.Of(cfg) && Abs() == r.states[|r.moves|]
      modifies this, sim
      ensures Step(cfg, old(Abs()), m, Abs())
    {
      ghost var s := Abs();
      TrackedHolds(cfg, r, |r.moves|);
      PairedHolds(cfg, r, |r.moves|);
      assert s.nextState.value in Live(s.q, Kind.SendState);
      var draw := DrawForNext();
      var u := sim.FindNext();
      m := Move(u, draw);
      PairedIsSafe(cfg, s, m);
      var kind := sim.Advance(u);
      Dispatch(kind, draw);
    }

    /** Runs the simulation for a number of events. What the objects go through is a run of the state machine,
        so every promise about runs holds of them. */
    method RunFor(events: nat) returns (ghost r: Run)
      requires cfg.Valid() && Abs() == Init(cfg)
      modifies this, sim
      ensures r.Of(cfg) && |r.moves| == events && Abs() == r.states[events]
    {
      r := Run([Init(cfg)], []);
      var i := 0;
      while i < events
        invariant i <= events && r.Of(cfg) && |r.moves| == i && Abs() == r.states[i]
      {
        ghost var m := RunNext(r);
        RunExtends(cfg, r, m, Abs());
        r := Run(r.states + [Abs()], r.moves + [m]);
        i := i + 1;
      }
    }
  }
}
