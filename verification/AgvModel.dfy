/** The simulated AGV as a state machine: one function per event handler of the controller.
    The classes in `AgvMachine` perform the same handlers step by step on mutable fields. */
module AgvModel {
  import opened Basics
  import opened EventQueue
  import opened Commands

  // ---------------------------------------------------------------- configuration

  datatype Scenario = VDA5050 | TELEOP

  /** Delays and periods in milliseconds; `startS` and `stopS` in seconds. */
  datatype Config = Config(
    scenario: Scenario,
    connectionAfter: nat,
    stateAfter: nat,
    factsheetRequestAfter: nat,
    orderAfter: nat,
    visualizationAfter: nat,
    visualizationPeriod: nat,
    factsheetResponse: nat,
    continuation: nat,
    stateAfterOrder: nat,
    idleInterval: nat,
    finishStep: nat,
    nextOrderAfterFinish: nat,
    orderLenMin: nat,
    orderLenMax: nat,
    startS: nat,
    stopS: nat,
    controlPeriod: nat,
    capabilityRequestAfter: nat,
    capabilityResponse: nat,
    teleopStateDelay: nat,
    stateAfterToggle: nat,
    restartOrders: nat,
    controlStart: nat)
  {
    /** What a meaningful configuration file provides: drawable lengths, start not after stop. */
    predicate Valid() {
      1 <= orderLenMin <= orderLenMax < 0x8000_0000 && startS <= stopS
    }
  }

  // ---------------------------------------------------------------- data

  datatype NodeState = NodeState(sequenceId: nat, nodeId: string, x: real, y: real)

  datatype EdgeState = EdgeState(sequenceId: nat, edgeId: string)

  /** One draw of the names and coordinates of an edge and the node it leads to. */
  datatype Place = Place(edgeId: string, nodeId: string, x: real, y: real)

  /** Everything a handler may take from the random generator. */
  datatype Draw = Draw(places: seq<Place>, release: nat, speed: real, steering: real)

  /** The four deques. */
  datatype Deques = Deques(
    plannedNodes: seq<NodeState>,
    plannedEdges: seq<EdgeState>,
    nodes: seq<NodeState>,
    edges: seq<EdgeState>)
  {
    predicate NothingPlanned() { plannedNodes == [] && plannedEdges == [] }

    predicate NothingReleased() { nodes == [] && edges == [] }

    predicate AllEmpty() { NothingPlanned() && NothingReleased() }
  }

  datatype Topic =
    | NoTopic | Connection | InstantActions | Factsheet | Order | State
    | Visualization | TeleopState | Control | Capabilities

  datatype Payload =
    | Constant
    | OrderMessage(nodes: seq<NodeState>, edges: seq<EdgeState>)
    | StateMessage(nodes: seq<NodeState>, edges: seq<EdgeState>)
    | Teleoperating(on: bool)
    | Speeds(speed: real, steering: real)

  datatype Destination = Base | Ue

  /** A command as handed to the controller interface, with the time of the call. */
  datatype Sent = Sent(time: nat, to: Destination, typ: CommandType, topic: Topic, payload: Payload)

  // ---------------------------------------------------------------- history (observes, never decides)

  datatype Phase = BeforeStart | Teleop | AfterStop

  /** Every node and edge that was ever generated and how it left the deques.
      `cutNodes` and `cutEdges` say how many had been traversed when teleoperation started. */
  datatype Ledger = Ledger(
    generatedNodes: seq<NodeState>,
    generatedEdges: seq<EdgeState>,
    traversedNodes: seq<NodeState>,
    traversedEdges: seq<EdgeState>,
    droppedNodes: seq<NodeState>,
    droppedEdges: seq<EdgeState>,
    cutNodes: nat,
    cutEdges: nat)

  /** The order generated last and what has happened to it since. */
  datatype Chain = Chain(
    nodes: seq<NodeState>,
    edges: seq<EdgeState>,
    released: nat,                  // nodes (and edges) released so far
    steps: nat,                     // state steps that traversed something
    blocks: seq<seq<NodeState>>,    // node block released by each order message
    startedAt: nat,                 // time of its first order message
    lastMessageAt: nat,             // time of its latest order message
    stepsAtMessage: nat,            // `steps` when that message was sent
    emptiedAt: nat,                 // time of the state that emptied the deques
    continuation: nat,              // uid of the latest continuation event
    sinceState: nat)                // order messages since the latest state message

  datatype AgvState = AgvState(
    q: Queue,
    nextState: Handle,
    nextOrder: Handle,
    nextControl: Handle,
    d: Deques,
    updateId: nat,
    teleoperating: bool,
    sent: seq<Sent>,
    phase: Phase,
    ledger: Ledger,
    chain: Chain,
    opening: nat,                   // index in `sent` of the first message of the latest order
    clean: bool)                    // nothing was planned when teleoperation started

  const NO_LEDGER := Ledger([], [], [], [], [], [], 0, 0)
  const NO_CHAIN := Chain([], [], 0, 0, [], 0, 0, 0, 0, 0, 0)

  // ---------------------------------------------------------------- construction

  function InitQueueVda(cfg: Config): Queue {
    var q := Schedule(EMPTY, cfg.connectionAfter, SendConnection);
    var q := Schedule(q, cfg.stateAfter, SendState);
    var q := Schedule(q, cfg.factsheetRequestAfter, SendFactsheetRequest);
    var q := Schedule(q, cfg.orderAfter, SendOrder);
    Schedule(q, cfg.visualizationAfter, SendVisualization)
  }

  function WithTeleoperation(cfg: Config, q: Queue): Queue {
    var q := Schedule(q, cfg.capabilityRequestAfter, RequestCapabilities);
    var q := Schedule(q, 1000 * cfg.startS, StartTeleoperation);
    Schedule(q, 1000 * cfg.stopS, StopTeleoperation)
  }

  function InitQueue(cfg: Config): Queue {
    if cfg.scenario.TELEOP? then WithTeleoperation(cfg, InitQueueVda(cfg)) else InitQueueVda(cfg)
  }

  /** The fields as the constructor leaves them; the handles name the second and fourth event scheduled. */
  function Blank(q: Queue): AgvState {
    AgvState(q, Some(1), Some(3), None, Deques([], [], [], []), 0, false, [], BeforeStart, NO_LEDGER, NO_CHAIN, 0,
             true)
  }

  function Init(cfg: Config): AgvState { Blank(InitQueue(cfg)) }

  // ---------------------------------------------------------------- handlers

  function Send(s: AgvState, to: Destination, typ: CommandType, topic: Topic, payload: Payload): AgvState {
    s.(sent := s.sent + [Sent(s.q.now, to, typ, topic, payload)])
  }

  function MakeNodes(places: seq<Place>): (r: seq<NodeState>) {
    seq(|places|, i requires 0 <= i < |places| => NodeState(i, places[i].nodeId, places[i].x, places[i].y))
  }

  function MakeEdges(places: seq<Place>): (r: seq<EdgeState>) {
    seq(|places|, i requires 0 <= i < |places| => EdgeState(i, places[i].edgeId))
  }

  /** The deques once a fresh order, if one is due, has been generated. */
  function Replenished(d: Deques, draw: Draw): Deques {
    if d.NothingPlanned() then
      d.(plannedNodes := MakeNodes(draw.places), plannedEdges := MakeEdges(draw.places))
    else d
  }

  /** The ranges of the two integer distributions `sendOrder` draws from. */
  predicate DrawInRange(cfg: Config, d: Deques, draw: Draw) {
    && (d.NothingPlanned() ==> cfg.orderLenMin <= |draw.places| <= cfg.orderLenMax)
    && 1 <= draw.release <= |Replenished(d, draw).plannedNodes|
  }

  /** No `front` or `pop_front` of `sendOrder` meets an empty deque. */
  predicate OrderSafe(d: Deques, draw: Draw) {
    var d := Replenished(d, draw);
    draw.release <= |d.plannedNodes| && draw.release <= |d.plannedEdges|
  }

  /** No `pop_front` of `sendState` meets an empty deque. */
  predicate StateSafe(d: Deques) {
    |d.nodes| == |d.edges| || d.nodes != []
  }

  function Released(d: Deques, n: nat): Deques
    requires n <= |d.plannedNodes| && n <= |d.plannedEdges|
  {
    Deques(d.plannedNodes[n..], d.plannedEdges[n..], d.nodes + d.plannedNodes[..n], d.edges + d.plannedEdges[..n])
  }

  function ChainAfterOrder(c: Chain, now: nat, uid: nat, anew: bool, planned: Deques, n: nat): Chain
    requires n <= |planned.plannedNodes|
  {
    var c := if anew then
               NO_CHAIN.(nodes := planned.plannedNodes, edges := planned.plannedEdges,
                         startedAt := now, sinceState := c.sinceState)
             else c;
    c.(released := c.released + n,
       blocks := c.blocks + [planned.plannedNodes[..n]],
       lastMessageAt := now,
       stepsAtMessage := c.steps,
       continuation := uid,
       sinceState := c.sinceState + 1)
  }

  /** `before`, less what was cancelled, plus what was scheduled. */
  function Changed(before: set<nat>, cancelled: set<nat>, scheduled: set<nat>): set<nat> {
    (before - cancelled) + scheduled
  }

  function Named(h: Handle): set<nat> { if h.Some? then {h.value} else {} }

  predicate Past(q: Queue, h: Handle) { h.Some? ==> h.value < q.nextUid }

  /** State message re-armed, continuation scheduled: the tail of `sendOrder`. */
  function QueueAfterOrder(cfg: Config, q: Queue, more: bool, nextState: Handle): (r: Queue)
    ensures WellFormed(q) && Past(q, nextState) ==> WellFormed(r)
    ensures Extends(q, r)
    ensures WellFormed(q) && Past(q, nextState) ==> forall k ::
        Live(r, k) == Changed(Live(q, k), Named(nextState),
          if k == SendOrder && more then {q.nextUid} else if k == SendState then {if more then q.nextUid + 1 else q.nextUid} else {})
  {
    var q := if more then Schedule(q, cfg.continuation, SendOrder) else q;
    Schedule(Cancel(q, nextState), cfg.stateAfterOrder, SendState)
  }

  /** Next state message scheduled, and the next order if everything is done: the tail of `sendState`. */
  function QueueAfterState(cfg: Config, q: Queue, idle: bool, done: bool): (r: Queue)
    ensures WellFormed(q) ==> WellFormed(r)
    ensures Extends(q, r)
    ensures WellFormed(q) ==> forall k ::
        Live(r, k) == Changed(Live(q, k), {},
          if k == SendState then {q.nextUid} else if k == SendOrder && done then {q.nextUid + 1} else {})
  {
    var q := Schedule(q, if idle then cfg.idleInterval else cfg.finishStep, SendState);
    if done then Schedule(q, cfg.nextOrderAfterFinish, SendOrder) else q
  }

  function CancelBoth(q: Queue, h: Handle, h': Handle): (r: Queue)
    ensures WellFormed(q) ==> WellFormed(r)
    ensures Extends(q, r) && r.nextUid == q.nextUid
    ensures forall k :: Live(r, k) == Changed(Live(q, k), Named(h) + Named(h'), {})
  {
    Cancel(Cancel(q, h), h')
  }

  /** Both toggles have the flag and the operating mode reported soon. */
  function WithReports(cfg: Config, q: Queue): (r: Queue)
    ensures WellFormed(q) ==> WellFormed(r)
    ensures Extends(q, r) && r.nextUid == q.nextUid + 2
    ensures WellFormed(q) ==> forall k ::
        Live(r, k) == Changed(Live(q, k), {},
          if k == SendTeleoperationState then {q.nextUid} else if k == SendState then {q.nextUid + 1} else {})
  {
    var q := Schedule(q, cfg.teleopStateDelay, SendTeleoperationState);
    Schedule(q, cfg.stateAfterToggle, SendState)
  }

  function QueueAfterStart(cfg: Config, q: Queue, nextOrder: Handle, nextState: Handle): (r: Queue)
    ensures WellFormed(q) ==> WellFormed(r)
    ensures Extends(q, r)
    ensures WellFormed(q) ==> forall k ::
        Live(r, k) == Changed(Live(q, k), Named(nextOrder) + Named(nextState),
          if k == SendTeleoperationState then {q.nextUid} else if k == SendState then {q.nextUid + 1} else {})
  {
    WithReports(cfg, CancelBoth(q, nextOrder, nextState))
  }

  function QueueAfterStop(cfg: Config, q: Queue, nextState: Handle, nextControl: Handle): (r: Queue)
    ensures WellFormed(q) ==> WellFormed(r)
    ensures Extends(q, r)
    ensures WellFormed(q) ==> forall k ::
        Live(r, k) == Changed(Live(q, k), Named(nextState) + Named(nextControl),
          if k == SendTeleoperationState then {q.nextUid} else if k == SendState then {q.nextUid + 1}
          else if k == SendOrder then {q.nextUid + 2} else {})
  {
    Schedule(WithReports(cfg, CancelBoth(q, nextState, nextControl)), cfg.restartOrders, SendOrder)
  }

  function AfterOrder(cfg: Config, s: AgvState, draw: Draw): AgvState
    requires OrderSafe(s.d, draw)
  {
    var anew := s.d.NothingPlanned();
    var planned := Replenished(s.d, draw);
    var d := Released(planned, draw.release);
    var more := d.plannedNodes != [];
    s.(q := QueueAfterOrder(cfg, s.q, more, s.nextState),
       nextState := Some(if more then s.q.nextUid + 1 else s.q.nextUid),
       d := d,
       updateId := if anew then 0 else (s.updateId + 1) % 0x1_0000_0000,
       sent := s.sent + [Sent(s.q.now, Base, PUBLISH_VDA, Topic.Order, OrderMessage(d.nodes, d.edges))],
       ledger := if anew then
                   s.ledger.(generatedNodes := s.ledger.generatedNodes + planned.plannedNodes,
                             generatedEdges := s.ledger.generatedEdges + planned.plannedEdges)
                 else s.ledger,
       chain := ChainAfterOrder(s.chain, s.q.now, s.q.nextUid, anew, planned, draw.release),
       opening := if anew then |s.sent| else s.opening)
  }

  /** `sendState` takes an edge when there are as many nodes as edges, else a node. */
  function Traversed(d: Deques): Deques
    requires StateSafe(d) && !d.NothingReleased()
  {
    if |d.nodes| == |d.edges| then d.(edges := d.edges[1..]) else d.(nodes := d.nodes[1..])
  }

  function LedgerAfterStep(l: Ledger, d: Deques): Ledger
    requires StateSafe(d) && !d.NothingReleased()
  {
    if |d.nodes| == |d.edges| then l.(traversedEdges := l.traversedEdges + [d.edges[0]])
    else l.(traversedNodes := l.traversedNodes + [d.nodes[0]])
  }

  function AfterState(cfg: Config, s: AgvState): AgvState
    requires StateSafe(s.d)
  {
    var s := Send(s, Ue, PUBLISH_VDA, Topic.State, StateMessage(s.d.nodes, s.d.edges));
    if s.d.NothingReleased() then
      s.(q := QueueAfterState(cfg, s.q, true, false),
         nextState := Some(s.q.nextUid),
         chain := s.chain.(sinceState := 0))
    else
      var d := Traversed(s.d);
      s.(q := QueueAfterState(cfg, s.q, false, d.AllEmpty()),
         nextState := Some(s.q.nextUid),
         nextOrder := if d.AllEmpty() then Some(s.q.nextUid + 1) else s.nextOrder,
         d := d,
         ledger := LedgerAfterStep(s.ledger, s.d),
         chain := s.chain.(steps := s.chain.steps + 1,
                           emptiedAt := if d.AllEmpty() then s.q.now else s.chain.emptiedAt,
                           sinceState := 0))
  }

  function LedgerAfterStart(l: Ledger, d: Deques): Ledger {
    l.(droppedNodes := l.droppedNodes + d.nodes + d.plannedNodes,
       droppedEdges := l.droppedEdges + d.edges + d.plannedEdges,
       cutNodes := |l.traversedNodes|,
       cutEdges := |l.traversedEdges|)
  }

  function AfterStart(cfg: Config, s: AgvState): AgvState {
    Send(s, Base, PUBLISH_VDA, InstantActions, Constant)
    .(q := QueueAfterStart(cfg, s.q, s.nextOrder, s.nextState),
      nextState := Some(s.q.nextUid + 1),
      d := Deques([], [], [], []),
      teleoperating := true,
      phase := Teleop,
      ledger := LedgerAfterStart(s.ledger, s.d),
      chain := NO_CHAIN,
      clean := s.d.NothingPlanned())
  }

  function AfterStopTeleop(cfg: Config, s: AgvState): AgvState {
    Send(s, Base, PUBLISH_VDA, InstantActions, Constant)
    .(q := QueueAfterStop(cfg, s.q, s.nextState, s.nextControl),
      nextState := Some(s.q.nextUid + 1),
      nextOrder := Some(s.q.nextUid + 2),
      teleoperating := false,
      phase := AfterStop)
  }

  function AfterTeleopState(cfg: Config, s: AgvState): AgvState {
    var s := Send(s, Ue, PUBLISH_TELEOP, TeleopState, Teleoperating(s.teleoperating));
    var s := Send(s, Ue, if s.teleoperating then START_VIDEO else STOP_VIDEO, NoTopic, Constant);
    if s.teleoperating then
      s.(q := Schedule(s.q, cfg.controlStart, SendControl), nextControl := Some(s.q.nextUid))
    else s
  }

  function AfterControl(cfg: Config, s: AgvState, draw: Draw): AgvState {
    var s := Send(s, Base, PUBLISH_TELEOP, Control, Speeds(draw.speed, draw.steering));
    s.(q := Schedule(s.q, cfg.controlPeriod, SendControl), nextControl := Some(s.q.nextUid))
  }

  predicate OneShot(kind: Kind) {
    || kind.SendConnection? || kind.SendFactsheetRequest? || kind.SendFactsheet?
    || kind.SendVisualization? || kind.RequestCapabilities? || kind.SendCapabilities?
  }

  /** The senders that never look at the AGV's own fields: a message, and perhaps a follow-up event. */
  function AfterOneShot(cfg: Config, s: AgvState, kind: Kind): AgvState
    requires OneShot(kind)
  {
    match kind
    case SendConnection =>
      Send(s, Ue, PUBLISH_VDA, Connection, Constant)
    case SendFactsheetRequest =>
      Send(s, Base, PUBLISH_VDA, InstantActions, Constant).(q := Schedule(s.q, cfg.factsheetResponse, SendFactsheet))
    case SendFactsheet =>
      Send(s, Ue, PUBLISH_VDA, Factsheet, Constant)
    case SendVisualization =>
      Send(s, Ue, PUBLISH_VDA, Visualization, Constant)
      .(q := Schedule(s.q, cfg.visualizationPeriod, SendVisualization))
    case RequestCapabilities =>
      Send(s, Base, PUBLISH_VDA, InstantActions, Constant)
      .(q := Schedule(s.q, cfg.capabilityResponse, SendCapabilities))
    case SendCapabilities =>
      Send(s, Ue, PUBLISH_TELEOP, Capabilities, Constant)
  }

  // ---------------------------------------------------------------- runs

  predicate Safe(d: Deques, kind: Kind, draw: Draw) {
    && (kind.SendOrder? ==> OrderSafe(d, draw))
    && (kind.SendState? ==> StateSafe(d))
  }

  /** Runs the handler of `kind` on a state whose event has already been taken off the queue. */
  function RunHandler(cfg: Config, s: AgvState, kind: Kind, draw: Draw): AgvState
    requires Safe(s.d, kind, draw)
  {
    if OneShot(kind) then AfterOneShot(cfg, s, kind) else
    match kind
    case SendOrder => AfterOrder(cfg, s, draw)
    case SendState => AfterState(cfg, s)
    case StartTeleoperation => AfterStart(cfg, s)
    case StopTeleoperation => AfterStopTeleop(cfg, s)
    case SendTeleoperationState => AfterTeleopState(cfg, s)
    case _ => AfterControl(cfg, s, draw)
  }

  /** One iteration of the simulator: event `u` is next, its handler runs at its time. */
  datatype Move = Move(u: nat, draw: Draw)

  predicate Enabled(cfg: Config, s: AgvState, m: Move) {
    && IsNext(s.q, m.u)
    && (s.q.pending[m.u].kind.SendOrder? ==> DrawInRange(cfg, s.d, m.draw))
  }

  function KindOf(s: AgvState, m: Move): Kind
    requires IsNext(s.q, m.u)
  {
    s.q.pending[m.u].kind
  }

  predicate Step(cfg: Config, s: AgvState, m: Move, t: AgvState) {
    && Enabled(cfg, s, m)
    && Safe(s.d, KindOf(s, m), m.draw)
    && t == RunHandler(cfg, s.(q := Take(s.q, m.u)), KindOf(s, m), m.draw)
  }

  datatype Run = Run(states: seq<AgvState>, moves: seq<Move>) {
    /** State 0 is what the constructor leaves; state `i` is what move `i - 1` makes of state `i - 1`. */
    predicate Reached(cfg: Config, i: nat)
      requires i < |states| == |moves| + 1
    {
      if i == 0 then states[0] == Init(cfg) else Step(cfg, states[i - 1], moves[i - 1], states[i])
    }

    predicate Of(cfg: Config) {
      && |states| == |moves| + 1
      && forall i: nat | i < |states| :: Reached(cfg, i)
    }
  }
}
