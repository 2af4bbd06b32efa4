/** The promises of the simulator over whole runs: any length, any draws, any valid configuration. */
module AgvRuns {
  import opened Basics
  import opened EventQueue
  import opened Commands
  import opened AgvModel
  import opened AgvInvariants
  import opened SentLog
  import opened OrderChain
  import opened Teleoperation

  /** The update counter never comes near its 32-bit limit. */
  predicate CounterOk(cfg: Config, s: AgvState) {
    s.updateId + |s.d.plannedNodes| < cfg.orderLenMax
  }

  lemma CounterKept(cfg: Config, s: AgvState, m: Move, t: AgvState)
    requires cfg.Valid() && Paired(s.d) && CounterOk(cfg, s) && Step(cfg, s, m, t)
    ensures CounterOk(cfg, t)
    ensures KindOf(s, m).SendOrder? ==> t.updateId == if s.d.plannedNodes == [] then 0 else s.updateId + 1
  {
    hide QueueAfterOrder, QueueAfterState, QueueAfterStart, QueueAfterStop, Schedule, WellFormed, Live, Extends, ChainAfterOrder;
    if !MovesOrders(KindOf(s, m)) { OrderStateUnmoved(cfg, s, m, t); }
  }

  ghost predicate AllPhases(cfg: Config, s: AgvState) {
    && StateTracked(s) && Paired(s.d) && Conserved(s) && Phased(cfg, s) && OrdersCounted(s)
    && ControlOk(cfg, s) && CounterOk(cfg, s)
  }

  ghost predicate OneChain(cfg: Config, s: AgvState) {
    && Cursors(s.d, s.chain) && Numbered(s.chain) && Blocks(cfg, s.chain, s.updateId)
    && MessageLogged(s.sent, s.chain) && TimedOk(cfg, s) && Followed(s)
  }

  /** Orders form a single chain: teleoperation has not started, or it found nothing planned and is over. */
  predicate Single(s: AgvState) { s.phase.BeforeStart? || (s.phase.AfterStop? && s.clean) }

  /** A session that found nothing planned leaves nothing behind. */
  predicate Resting(s: AgvState) { s.phase.Teleop? && s.clean ==> Quiet(s) && s.chain == NO_CHAIN }

  ghost predicate Inv(cfg: Config, s: AgvState) {
    && AllPhases(cfg, s) && Resting(s)
    && (Single(s) ==> OneChain(cfg, s))
    && (s.phase.BeforeStart? ==> SilenceOk(cfg, s))
  }

  /** The uids the constructor hands out before the teleoperation events. */
  function FirstUids(k: Kind): set<nat> {
    match k
    case SendConnection => {0}
    case SendState => {1}
    case SendFactsheetRequest => {2}
    case SendOrder => {3}
    case SendVisualization => {4}
    case _ => {}
  }

  lemma LiveAfterSchedule(q: Queue, delay: nat, kind: Kind, k: Kind)
    requires WellFormed(q)
    ensures WellFormed(Schedule(q, delay, kind)) && Schedule(q, delay, kind).nextUid == q.nextUid + 1
    ensures Live(Schedule(q, delay, kind), k) == Live(q, k) + (if k == kind then {q.nextUid} else {})
  {}

  lemma LiveAfterTwo(q: Queue, delay: nat, kind: Kind, delay': nat, kind': Kind, k: Kind)
    requires WellFormed(q)
    ensures var r := Schedule(Schedule(q, delay, kind), delay', kind');
            && WellFormed(r) && r.nextUid == q.nextUid + 2 && r.now == q.now
            && Live(r, k) == Live(q, k) + (if k == kind then {q.nextUid} else {})
                                        + (if k == kind' then {q.nextUid + 1} else {})
  {
    LiveAfterSchedule(q, delay, kind, k);
    LiveAfterSchedule(Schedule(q, delay, kind), delay', kind', k);
  }

  lemma InitQueueVdaLive(cfg: Config, k: Kind)
    ensures WellFormed(InitQueueVda(cfg)) && InitQueueVda(cfg).nextUid == 5 && InitQueueVda(cfg).now == 0
    ensures Live(InitQueueVda(cfg), k) == FirstUids(k)
  {
    var q := Schedule(EMPTY, cfg.connectionAfter, SendConnection);
    LiveAfterSchedule(EMPTY, cfg.connectionAfter, SendConnection, k);
    assert Live(q, k) == if k == SendConnection then {0} else {};
    FirstEvents(cfg, q, k);
  }

  lemma FirstEvents(cfg: Config, q: Queue, k: Kind)
    requires WellFormed(q) && q.nextUid == 1 && q.now == 0
    requires Live(q, k) == if k == SendConnection then {0} else {}
    ensures var r := Schedule(Schedule(Schedule(Schedule(q, cfg.stateAfter, SendState), cfg.factsheetRequestAfter, SendFactsheetRequest),
                                       cfg.orderAfter, SendOrder), cfg.visualizationAfter, SendVisualization);
            WellFormed(r) && r.nextUid == 5 && r.now == 0 && Live(r, k) == FirstUids(k)
  {
    LiveAfterTwo(q, cfg.stateAfter, SendState, cfg.factsheetRequestAfter, SendFactsheetRequest, k);
    LiveAfterTwo(Schedule(Schedule(q, cfg.stateAfter, SendState), cfg.factsheetRequestAfter, SendFactsheetRequest),
                 cfg.orderAfter, SendOrder, cfg.visualizationAfter, SendVisualization, k);
  }

  /** The uids the constructor hands out to the teleoperation events. */
  function ToggleUids(k: Kind): set<nat> {
    match k
    case RequestCapabilities => {5}
    case StartTeleoperation => {START_UID}
    case StopTeleoperation => {STOP_UID}
    case _ => {}
  }

  lemma ToggleQueueLive(cfg: Config, q: Queue, k: Kind)
    requires WellFormed(q) && q.nextUid == 5 && q.now == 0
    ensures WellFormed(WithTeleoperation(cfg, q)) && WithTeleoperation(cfg, q).nextUid == 8
    ensures Live(WithTeleoperation(cfg, q), k) == Live(q, k) + ToggleUids(k)
    ensures TimeOf(WithTeleoperation(cfg, q), START_UID) == 1000 * cfg.startS
    ensures TimeOf(WithTeleoperation(cfg, q), STOP_UID) == 1000 * cfg.stopS
  {
    var q1 := Schedule(q, cfg.capabilityRequestAfter, RequestCapabilities);
    var q2 := Schedule(q1, 1000 * cfg.startS, StartTeleoperation);
    LiveAfterSchedule(q, cfg.capabilityRequestAfter, RequestCapabilities, k);
    LiveAfterSchedule(q1, 1000 * cfg.startS, StartTeleoperation, k);
    LiveAfterSchedule(q2, 1000 * cfg.stopS, StopTeleoperation, k);
  }

  /** What is pending when the constructor returns. */
  function InitUids(cfg: Config, k: Kind): set<nat> {
    FirstUids(k) + (if cfg.scenario.TELEOP? then ToggleUids(k) else {})
  }

  predicate InitTimes(cfg: Config, q: Queue) {
    && q.nextUid == (if cfg.scenario.TELEOP? then 8 else 5)
    && (cfg.scenario.TELEOP? ==> TimeOf(q, START_UID) == 1000 * cfg.startS && TimeOf(q, STOP_UID) == 1000 * cfg.stopS)
  }

  lemma InitQueueLive(cfg: Config, k: Kind)
    ensures WellFormed(InitQueue(cfg)) && InitTimes(cfg, InitQueue(cfg))
    ensures Live(InitQueue(cfg), k) == InitUids(cfg, k)
  {
    InitQueueVdaLive(cfg, k);
    if cfg.scenario.TELEOP? { ToggleQueueLive(cfg, InitQueueVda(cfg), k); }
  }

  /** What the invariants need to know of it. */
  predicate FreshQueue(cfg: Config, q: Queue) {
    && WellFormed(q) && InitTimes(cfg, q)
    && Live(q, SendState) == {1} && Live(q, SendOrder) == {3}
    && Live(q, SendControl) == {} && Live(q, SendTeleoperationState) == {}
    && Live(q, StartTeleoperation) == (if cfg.scenario.TELEOP? then {START_UID} else {})
    && Live(q, StopTeleoperation) == (if cfg.scenario.TELEOP? then {STOP_UID} else {})
  }

  lemma FreshIfInitial(cfg: Config, q: Queue)
    requires WellFormed(q) && InitTimes(cfg, q) && forall k :: Live(q, k) == InitUids(cfg, k)
    ensures FreshQueue(cfg, q)
  {}

  lemma InitQueueFresh(cfg: Config, q: Queue)
    requires q == InitQueue(cfg)
    ensures FreshQueue(cfg, q)
  {
    forall k ensures Live(q, k) == InitUids(cfg, k) { InitQueueLive(cfg, k); }
    InitQueueLive(cfg, SendState);
    FreshIfInitial(cfg, q);
  }

  lemma FreshTracked(cfg: Config, q: Queue)
    requires FreshQueue(cfg, q)
    ensures StateTracked(Blank(q)) && OrdersCounted(Blank(q)) && ControlOk(cfg, Blank(q))
  {}

  lemma FreshPhased(cfg: Config, q: Queue)
    requires cfg.Valid() && FreshQueue(cfg, q)
    ensures Phased(cfg, Blank(q))
  {}

  lemma BlankOk(cfg: Config, q: Queue)
    requires cfg.Valid()
    ensures Paired(Blank(q).d) && Conserved(Blank(q)) && CounterOk(cfg, Blank(q))
  {}

  lemma BlankOrder(cfg: Config, d: Deques, updateId: nat, sent: seq<Sent>)
    requires d.AllEmpty()
    ensures Cursors(d, NO_CHAIN) && Numbered(NO_CHAIN) && Blocks(cfg, NO_CHAIN, updateId) && MessageLogged(sent, NO_CHAIN)
  {
    assert NO_CHAIN.nodes == [] && NO_CHAIN.edges == [] && NO_CHAIN.blocks == [];
    assert Flatten(NO_CHAIN.blocks) == [];
  }

  lemma BlankTimed(cfg: Config, d: Deques, stateAt: nat, orderAt: nat)
    requires d.AllEmpty()
    ensures Timed(cfg, d, NO_CHAIN, stateAt, orderAt)
  {}

  lemma BlankSilence(cfg: Config, d: Deques, stateAt: nat)
    ensures Silence(cfg, [], d, NO_CHAIN, stateAt)
  {}

  lemma BlankChain(cfg: Config, q: Queue)
    requires cfg.Valid() && OrdersCounted(Blank(q))
    ensures OneChain(cfg, Blank(q)) && SilenceOk(cfg, Blank(q))
  {
    var s := Blank(q);
    BlankOrder(cfg, s.d, s.updateId, s.sent);
    BlankTimed(cfg, s.d, StateAt(s), OrderAt(s));
    BlankSilence(cfg, s.d, StateAt(s));
  }

  lemma AllPhasesKept(cfg: Config, s: AgvState, m: Move, t: AgvState)
    requires cfg.Valid() && AllPhases(cfg, s) && Step(cfg, s, m, t)
    ensures AllPhases(cfg, t)
  {
    ToggleOrder(cfg, s, m);
    StateTrackedKept(cfg, s, m, t);
    PairedKept(cfg, s, m, t);
    ConservedKept(cfg, s, m, t);
    PhasedKept(cfg, s, m, t);
    OrdersCountedKept(cfg, s, m, t);
    ControlOkKept(cfg, s, m, t);
    CounterKept(cfg, s, m, t);
  }

  lemma OneChainKept(cfg: Config, s: AgvState, m: Move, t: AgvState)
    requires cfg.Valid() && AllPhases(cfg, s) && OneChain(cfg, s) && Step(cfg, s, m, t) && !Toggles(KindOf(s, m))
    ensures OneChain(cfg, t)
  {
    hide RunHandler;
    CursorsKept(cfg, s, m, t);
    BlocksKept(cfg, s, m, t);
    MessageLoggedKept(cfg, s, m, t);
    TimedKept(cfg, s, m, t);
    FollowedKept(cfg, s, m, t);
  }

  lemma SilentKept(cfg: Config, s: AgvState, m: Move, t: AgvState)
    requires cfg.Valid() && AllPhases(cfg, s) && OneChain(cfg, s) && SilenceOk(cfg, s)
    requires Step(cfg, s, m, t) && !Toggles(KindOf(s, m))
    ensures SilenceOk(cfg, t)
  {
    hide RunHandler;
    SilenceKept(cfg, s, m, t);
  }

  /** `clean` is decided when teleoperation starts. */
  lemma CleanAfter(cfg: Config, s: AgvState, m: Move, t: AgvState)
    requires Step(cfg, s, m, t)
    ensures t.clean == if KindOf(s, m).StartTeleoperation? then s.d.NothingPlanned() else s.clean
  {
    hide QueueAfterOrder, QueueAfterState, QueueAfterStart, QueueAfterStop, Schedule, WellFormed, Live, Extends;
  }

  lemma RestingAtStart(cfg: Config, s: AgvState, m: Move, t: AgvState)
    requires Tidy(s) && Paired(s.d) && OrdersCounted(s) && s.phase.BeforeStart?
    requires Step(cfg, s, m, t) && KindOf(s, m).StartTeleoperation?
    ensures Resting(t) && t.phase.Teleop?
  {
    CountedAfterStart(cfg, s, m, t);
  }

  lemma RestingKept(cfg: Config, s: AgvState, m: Move, t: AgvState)
    requires Tidy(s) && Quiet(s) && s.chain == NO_CHAIN && Step(cfg, s, m, t) && !Toggles(KindOf(s, m))
    ensures Quiet(t) && t.chain == NO_CHAIN
  {
    QuietKept(cfg, s, m, t);
    assert KindOf(s, m).SendOrder? ==> m.u in Orders(s);
    if !KindOf(s, m).SendState? { OrderStateUnmoved(cfg, s, m, t); }
  }

  lemma StopKeepsHistory(cfg: Config, s: AgvState, m: Move, t: AgvState)
    requires Step(cfg, s, m, t) && KindOf(s, m).StopTeleoperation?
    ensures t.chain == s.chain
  {}

  /** The restarted order begins a new chain. */
  lemma OneChainAtStop(cfg: Config, s: AgvState, m: Move, t: AgvState)
    requires Tidy(s) && Quiet(s) && s.chain == NO_CHAIN && t.nextState.Some?
    requires Step(cfg, s, m, t) && KindOf(s, m).StopTeleoperation?
    ensures OneChain(cfg, t)
  {
    hide RunHandler, OneChain;
    StopRestarts(cfg, s, m, t);
    StopKeepsHistory(cfg, s, m, t);
    ChainRestarted(cfg, t);
  }

  lemma ChainRestarted(cfg: Config, t: AgvState)
    requires t.d.AllEmpty() && t.chain == NO_CHAIN && t.nextState.Some? && t.nextOrder.Some?
    requires Orders(t) == {t.nextOrder.value}
    ensures OneChain(cfg, t)
  {
    hide Cursors, Numbered, Blocks, MessageLogged, Timed;
    BlankOrder(cfg, t.d, t.updateId, t.sent);
    BlankTimed(cfg, t.d, StateAt(t), OrderAt(t));
  }

  lemma InvByStart(cfg: Config, s: AgvState, m: Move, t: AgvState)
    requires cfg.Valid() && Inv(cfg, s) && AllPhases(cfg, t) && Step(cfg, s, m, t) && KindOf(s, m).StartTeleoperation?
    ensures Inv(cfg, t)
  {
    hide RunHandler;
    ToggleOrder(cfg, s, m);
    RestingAtStart(cfg, s, m, t);
  }

  lemma InvByStop(cfg: Config, s: AgvState, m: Move, t: AgvState)
    requires cfg.Valid() && Inv(cfg, s) && AllPhases(cfg, t) && Step(cfg, s, m, t) && KindOf(s, m).StopTeleoperation?
    ensures Inv(cfg, t)
  {
    hide RunHandler;
    ToggleOrder(cfg, s, m);
    PhaseAfter(cfg, s, m, t);
    CleanAfter(cfg, s, m, t);
    if s.clean { OneChainAtStop(cfg, s, m, t); }
  }

  lemma InvByRest(cfg: Config, s: AgvState, m: Move, t: AgvState)
    requires cfg.Valid() && Inv(cfg, s) && AllPhases(cfg, t) && Step(cfg, s, m, t) && !Toggles(KindOf(s, m))
    ensures Inv(cfg, t)
  {
    hide RunHandler, AllPhases, OneChain;
    PhaseAfter(cfg, s, m, t);
    CleanAfter(cfg, s, m, t);
    if Single(s) { OneChainKept(cfg, s, m, t); }
    if s.phase.BeforeStart? { SilentKept(cfg, s, m, t); }
    if s.phase.Teleop? && s.clean { RestsOn(cfg, s, m, t); }
  }

  lemma RestsOn(cfg: Config, s: AgvState, m: Move, t: AgvState)
    requires AllPhases(cfg, s) && Quiet(s) && s.chain == NO_CHAIN && Step(cfg, s, m, t) && !Toggles(KindOf(s, m))
    ensures Quiet(t) && t.chain == NO_CHAIN
  {
    hide RunHandler;
    RestingKept(cfg, s, m, t);
  }

  lemma InvKept(cfg: Config, s: AgvState, m: Move, t: AgvState)
    requires cfg.Valid() && Inv(cfg, s) && Step(cfg, s, m, t)
    ensures Inv(cfg, t)
  {
    hide RunHandler;
    AllPhasesKept(cfg, s, m, t);
    if KindOf(s, m).StartTeleoperation? { InvByStart(cfg, s, m, t); }
    else if KindOf(s, m).StopTeleoperation? { InvByStop(cfg, s, m, t); }
    else { InvByRest(cfg, s, m, t); }
  }

  lemma InitInv(cfg: Config)
    requires cfg.Valid()
    ensures Inv(cfg, Init(cfg))
  {
    var q := InitQueue(cfg);
    InitQueueFresh(cfg, q);
    FreshTracked(cfg, q);
    FreshPhased(cfg, q);
    BlankOk(cfg, q);
    BlankChain(cfg, q);
  }

  lemma StepAt(cfg: Config, r: Run, i: nat)
    requires r.Of(cfg) && i < |r.moves|
    ensures |r.states| == |r.moves| + 1 && Step(cfg, r.states[i], r.moves[i], r.states[i + 1])
  {
    assert r.Reached(cfg, i + 1);
  }

  lemma Lengths(cfg: Config, r: Run)
    requires r.Of(cfg)
    ensures |r.states| == |r.moves| + 1
  {}

  lemma StartsBlank(cfg: Config, r: Run)
    requires r.Of(cfg)
    ensures r.states[0].sent == [] && r.states[0].chain == NO_CHAIN && r.states[0].phase.BeforeStart?
  {
    assert r.Reached(cfg, 0);
  }

  lemma InvFirst(cfg: Config, r: Run)
    requires cfg.Valid() && r.Of(cfg)
    ensures Inv(cfg, r.states[0])
  {
    assert r.Reached(cfg, 0);
    InitInv(cfg);
  }

  lemma InvStep(cfg: Config, r: Run, i: nat)
    requires cfg.Valid() && r.Of(cfg) && 0 < i < |r.states| == |r.moves| + 1 && Inv(cfg, r.states[i - 1])
    ensures Inv(cfg, r.states[i])
  {
    hide *;
    StepAt(cfg, r, i - 1);
    InvKept(cfg, r.states[i - 1], r.moves[i - 1], r.states[i]);
  }

  lemma {:induction false} InvHolds(cfg: Config, r: Run, i: nat)
    requires cfg.Valid() && r.Of(cfg) && i < |r.states|
    ensures Inv(cfg, r.states[i])
  {
    hide *;
    if i == 0 {
      InvFirst(cfg, r);
    } else {
      Lengths(cfg, r);
      InvHolds(cfg, r, i - 1);
      InvStep(cfg, r, i);
    }
  }

  // What the invariant says, one piece at a time.

  lemma TrackedHolds(cfg: Config, r: Run, i: nat)
    requires cfg.Valid() && r.Of(cfg) && i < |r.states|
    ensures StateTracked(r.states[i])
  {
    InvHolds(cfg, r, i);
  }

  lemma PairedHolds(cfg: Config, r: Run, i: nat)
    requires cfg.Valid() && r.Of(cfg) && i < |r.states|
    ensures Paired(r.states[i].d) && CounterOk(cfg, r.states[i])
  {
    InvHolds(cfg, r, i);
  }

  lemma PhasedHolds(cfg: Config, r: Run, i: nat)
    requires cfg.Valid() && r.Of(cfg) && i < |r.states|
    ensures Phased(cfg, r.states[i])
  {
    InvHolds(cfg, r, i);
  }

  lemma CountedHolds(cfg: Config, r: Run, i: nat)
    requires cfg.Valid() && r.Of(cfg) && i < |r.states|
    ensures OrdersCounted(r.states[i])
  {
    InvHolds(cfg, r, i);
  }

  lemma ConservedHolds(cfg: Config, r: Run, i: nat)
    requires cfg.Valid() && r.Of(cfg) && i < |r.states|
    ensures Conserved(r.states[i])
  {
    InvHolds(cfg, r, i);
  }

  lemma ControlHolds(cfg: Config, r: Run, i: nat)
    requires cfg.Valid() && r.Of(cfg) && i < |r.states|
    ensures ControlOk(cfg, r.states[i])
  {
    InvHolds(cfg, r, i);
  }

  lemma OrderHolds(cfg: Config, r: Run, i: nat)
    requires cfg.Valid() && r.Of(cfg) && i < |r.states| && Single(r.states[i])
    ensures Cursors(r.states[i].d, r.states[i].chain) && Numbered(r.states[i].chain)
    ensures Blocks(cfg, r.states[i].chain, r.states[i].updateId)
    ensures MessageLogged(r.states[i].sent, r.states[i].chain)
  {
    InvHolds(cfg, r, i);
  }

  lemma ClockHolds(cfg: Config, r: Run, i: nat)
    requires cfg.Valid() && r.Of(cfg) && i < |r.states| && Single(r.states[i])
    ensures TimedOk(cfg, r.states[i]) && Followed(r.states[i])
  {
    InvHolds(cfg, r, i);
  }

  lemma SilenceHolds(cfg: Config, r: Run, i: nat)
    requires cfg.Valid() && r.Of(cfg) && i < |r.states| && r.states[i].phase.BeforeStart?
    ensures SilenceOk(cfg, r.states[i])
  {
    InvHolds(cfg, r, i);
  }

  // ---------------------------------------------------------------- no undefined behaviour, no deadlock

  /** Whatever event is next and whatever is drawn, no handler takes from an empty deque. */
  lemma NoPopFromEmpty(cfg: Config, r: Run, i: nat, m: Move)
    requires cfg.Valid() && r.Of(cfg) && i < |r.states| && Enabled(cfg, r.states[i], m)
    ensures Safe(r.states[i].d, KindOf(r.states[i], m), m.draw)
  {
    PairedHolds(cfg, r, i);
    PairedIsSafe(cfg, r.states[i], m);
  }

  lemma MoveExists(cfg: Config, s: AgvState) returns (m: Move)
    requires cfg.Valid() && Paired(s.d) && s.q.pending != map[]
    ensures Enabled(cfg, s, m) && forall u | IsNext(s.q, u) :: u == m.u
  {
    var u := NextExists(s.q);
    var places := seq(cfg.orderLenMin, i => Place("", "", 0.0, 0.0));
    m := Move(u, Draw(places, 1, 0.0, 0.0));
  }

  lemma RunExtends(cfg: Config, r: Run, m: Move, t: AgvState)
    requires r.Of(cfg) && Step(cfg, r.states[|r.moves|], m, t)
    ensures Run(r.states + [t], r.moves + [m]).Of(cfg)
  {
    var longer := Run(r.states + [t], r.moves + [m]);
    forall i: nat | i < |longer.states| ensures longer.Reached(cfg, i) {
      if i <= |r.moves| { assert r.Reached(cfg, i); }
    }
  }

  /** Every run can be continued: exactly one event is next, and the ranges drawn from are never empty. */
  lemma RunsContinue(cfg: Config, r: Run) returns (m: Move, t: AgvState)
    requires cfg.Valid() && r.Of(cfg)
    ensures Run(r.states + [t], r.moves + [m]).Of(cfg)
    ensures IsNext(r.states[|r.moves|].q, m.u) && forall u | IsNext(r.states[|r.moves|].q, u) :: u == m.u
  {
    var s := r.states[|r.moves|];
    TrackedHolds(cfg, r, |r.moves|);
    assert s.nextState.value in Live(s.q, SendState);
    PairedHolds(cfg, r, |r.moves|);
    m := MoveExists(cfg, s);
    NoPopFromEmpty(cfg, r, |r.moves|, m);
    t := RunHandler(cfg, s.(q := Take(s.q, m.u)), KindOf(s, m), m.draw);
    RunExtends(cfg, r, m, t);
  }

  // ---------------------------------------------------------------- all phases

  /** Exactly one `sendState` is pending at all times, and `next_state_` names it. */
  lemma OneStateEvent(cfg: Config, r: Run, i: nat)
    requires cfg.Valid() && r.Of(cfg) && i < |r.states|
    ensures r.states[i].nextState.Some? && Live(r.states[i].q, SendState) == {r.states[i].nextState.value}
  {
    TrackedHolds(cfg, r, i);
  }

  /** How many more nodes than edges are released: 0 before an edge is traversed, 1 before a node is. */
  function Lead(d: Deques): int { |d.nodes| - |d.edges| }

  /** The front edge is traversed if there are as many edges as nodes, else the front node; then it is the other's turn. */
  predicate TakesNext(s: AgvState, t: AgvState)
    requires Paired(s.d) && !s.d.NothingReleased()
  {
    && Lead(t.d) == 1 - Lead(s.d)
    && t.ledger == if Lead(s.d) == 0 then s.ledger.(traversedEdges := s.ledger.traversedEdges + s.d.edges[..1])
                   else s.ledger.(traversedNodes := s.ledger.traversedNodes + s.d.nodes[..1])
  }

  /** Nothing is traversed, and the turn stays where it is. */
  predicate TakesNothing(s: AgvState, t: AgvState) {
    && Lead(t.d) == Lead(s.d)
    && t.ledger.traversedNodes == s.ledger.traversedNodes && t.ledger.traversedEdges == s.ledger.traversedEdges
  }

  lemma TraversalTakes(cfg: Config, s: AgvState, m: Move, t: AgvState)
    requires Paired(s.d) && Step(cfg, s, m, t) && KindOf(s, m).SendState? && !s.d.NothingReleased()
    ensures TakesNext(s, t)
  {
    if Lead(s.d) == 0 { assert s.d.edges[..1] == [s.d.edges[0]]; } else { assert s.d.nodes[..1] == [s.d.nodes[0]]; }
  }

  lemma LeadUnmoved(cfg: Config, s: AgvState, m: Move, t: AgvState)
    requires Step(cfg, s, m, t) && (KindOf(s, m).SendState? ==> s.d.NothingReleased())
    requires !KindOf(s, m).StartTeleoperation?
    ensures TakesNothing(s, t)
  {
    hide QueueAfterOrder, QueueAfterState, QueueAfterStart, QueueAfterStop, Schedule, WellFormed, Live, Extends, ChainAfterOrder;
  }

  /** Nodes and edges stay aligned; each traversal of an edge is followed by one of a node and vice versa. */
  lemma EdgesAndNodesAlternate(cfg: Config, r: Run, i: nat)
    requires cfg.Valid() && r.Of(cfg) && i < |r.moves| && |r.states| == |r.moves| + 1
    requires IsNext(r.states[i].q, r.moves[i].u)
    ensures Paired(r.states[i].d) && Lead(r.states[i].d) in {0, 1}
    ensures if KindOf(r.states[i], r.moves[i]).SendState? && !r.states[i].d.NothingReleased()
            then TakesNext(r.states[i], r.states[i + 1])
            else KindOf(r.states[i], r.moves[i]).StartTeleoperation? || TakesNothing(r.states[i], r.states[i + 1])
  {
    PairedHolds(cfg, r, i);
    StepAt(cfg, r, i);
    var s, m, t := r.states[i], r.moves[i], r.states[i + 1];
    if KindOf(s, m).SendState? && !s.d.NothingReleased() {
      TraversalTakes(cfg, s, m, t);
    } else if !KindOf(s, m).StartTeleoperation? {
      LeadUnmoved(cfg, s, m, t);
    }
  }

  lemma ConservedBeforeStart(s: AgvState)
    requires Conserved(s) && s.phase.BeforeStart?
    ensures s.ledger.generatedNodes == s.ledger.traversedNodes + s.d.nodes + s.d.plannedNodes
    ensures s.ledger.generatedEdges == s.ledger.traversedEdges + s.d.edges + s.d.plannedEdges
  {
    var l := s.ledger;
    assert l.traversedNodes == l.traversedNodes[..l.cutNodes] + [] + l.traversedNodes[l.cutNodes..];
    assert l.traversedEdges == l.traversedEdges[..l.cutEdges] + [] + l.traversedEdges[l.cutEdges..];
  }

  /** Nothing is lost, duplicated or reordered, across all orders and across the start of teleoperation. */
  lemma EverythingConserved(cfg: Config, r: Run, i: nat)
    requires cfg.Valid() && r.Of(cfg) && i < |r.states|
    ensures NodesConserved(r.states[i].ledger, r.states[i].d) && EdgesConserved(r.states[i].ledger, r.states[i].d)
    ensures r.states[i].phase.BeforeStart? ==>
              && r.states[i].ledger.generatedNodes
                 == r.states[i].ledger.traversedNodes + r.states[i].d.nodes + r.states[i].d.plannedNodes
              && r.states[i].ledger.generatedEdges
                 == r.states[i].ledger.traversedEdges + r.states[i].d.edges + r.states[i].d.plannedEdges
  {
    ConservedHolds(cfg, r, i);
    if r.states[i].phase.BeforeStart? { ConservedBeforeStart(r.states[i]); }
  }

  /** The number of pending `sendOrder` events, phase by phase. */
  lemma PendingOrders(cfg: Config, r: Run, i: nat)
    requires cfg.Valid() && r.Of(cfg) && i < |r.states|
    ensures |Orders(r.states[i])| <= 2
    ensures r.states[i].phase.BeforeStart? ==> |Orders(r.states[i])| == Due(r.states[i].d)
    ensures r.states[i].phase.Teleop? ==>
              |Orders(r.states[i])| == Due(r.states[i].d) || (Orders(r.states[i]) == {} && r.states[i].d.AllEmpty())
    ensures r.states[i].phase.AfterStop? ==>
              |Orders(r.states[i])| == Due(r.states[i].d) || |Orders(r.states[i])| == Due(r.states[i].d) + 1
    ensures cfg.scenario.VDA5050? ==> r.states[i].phase.BeforeStart?
  {
    CountedHolds(cfg, r, i);
    PhasedHolds(cfg, r, i);
  }

  /** Before start, `next_order_` names the pending `sendOrder` exactly when nothing is planned. */
  lemma HandleNamesOrder(cfg: Config, r: Run, i: nat)
    requires cfg.Valid() && r.Of(cfg) && i < |r.states| && r.states[i].phase.BeforeStart?
    requires Orders(r.states[i]) != {}
    ensures r.states[i].nextOrder.Some?
    ensures Orders(r.states[i]) == {r.states[i].nextOrder.value} <==> r.states[i].d.plannedNodes == []
  {
    CountedHolds(cfg, r, i);
  }

  /** So starting teleoperation leaves a pending `sendOrder` if and only if something was planned. */
  lemma StartCancelsOrders(cfg: Config, r: Run, i: nat)
    requires cfg.Valid() && r.Of(cfg) && i < |r.moves| && |r.states| == |r.moves| + 1
    requires IsNext(r.states[i].q, r.moves[i].u) && KindOf(r.states[i], r.moves[i]).StartTeleoperation?
    ensures r.states[i + 1].d.AllEmpty() && r.states[i + 1].phase.Teleop?
    ensures Orders(r.states[i + 1]) != {} <==> r.states[i].d.plannedNodes != []
  {
    StepAt(cfg, r, i);
    TrackedHolds(cfg, r, i);
    PairedHolds(cfg, r, i);
    PhasedHolds(cfg, r, i);
    CountedHolds(cfg, r, i);
    ToggleOrder(cfg, r.states[i], r.moves[i]);
    CountedAfterStart(cfg, r.states[i], r.moves[i], r.states[i + 1]);
  }

  // ---------------------------------------------------------------- after stop

  /** Pending `sendOrder` events in excess of those due: 1 while two order chains overlap. */
  function Excess(s: AgvState): int { |Orders(s)| - Due(s.d) }

  /** A `sendOrder` that finds everything released but not yet traversed: it starts an order while another is under way. */
  predicate Intrudes(kind: Kind, d: Deques) { kind.SendOrder? && Due(d) == 0 }

  lemma OrderIsHandled(cfg: Config, s: AgvState, m: Move, t: AgvState)
    requires Step(cfg, s, m, t) && KindOf(s, m).SendOrder?
    ensures OrderSafe(s.d, m.draw) && t == AfterOrder(cfg, Started(s, m), m.draw) && t.d.nodes != []
  {}

  lemma OverlapOfSets(orders: set<nat>, u: nat, uid: nat, d': Deques)
    requires u in orders && uid !in orders && d'.nodes != []
    ensures |orders - {u} + (if d'.plannedNodes != [] then {uid} else {})| - Due(d') == |orders| - 1
  {
    SizeAfterRemove(orders, u);
  }

  lemma OverlapByOrder(cfg: Config, s: AgvState, m: Move, t: AgvState)
    requires Tidy(s) && Step(cfg, s, m, t) && KindOf(s, m).SendOrder?
    ensures Excess(t) == Excess(s) - (if Due(s.d) == 0 then 1 else 0)
  {
    hide RunHandler, AfterOrder;
    var s1 := Started(s, m);
    OrderIsHandled(cfg, s, m, t);
    OrdersAfterOrder(cfg, s1, m.draw);
    assert s.q.nextUid !in Orders(s);
    OverlapOfSets(Orders(s), m.u, s.q.nextUid, t.d);
  }

  lemma OverlapOfEffect(s: AgvState, t: AgvState)
    requires Tidy(s) && Paired(s.d) && StateSafe(s.d) && StateEffect(s, t)
    ensures Excess(t) == Excess(s)
  {
    DueAfterState(s.d);
    assert s.q.nextUid + 1 !in Orders(s);
  }

  lemma OverlapByState(cfg: Config, s: AgvState, m: Move, t: AgvState)
    requires Tidy(s) && Paired(s.d) && Step(cfg, s, m, t) && KindOf(s, m).SendState?
    ensures Excess(t) == Excess(s)
  {
    hide RunHandler;
    StateHasEffect(cfg, s, m, t);
    OverlapOfEffect(s, t);
  }

  lemma OverlapByRest(cfg: Config, s: AgvState, m: Move, t: AgvState)
    requires Tidy(s) && Step(cfg, s, m, t) && !MovesOrders(KindOf(s, m))
    ensures Excess(t) == Excess(s)
  {
    OrderStateUnmoved(cfg, s, m, t);
    Untouched(cfg, s, m, t, SendOrder);
  }

  /** While neither start nor stop runs, the excess falls by exactly one when an order intrudes, and else stays. */
  lemma OverlapStep(cfg: Config, s: AgvState, m: Move, t: AgvState)
    requires Tidy(s) && Paired(s.d) && Step(cfg, s, m, t)
    requires !KindOf(s, m).StartTeleoperation? && !KindOf(s, m).StopTeleoperation?
    ensures Excess(t) == Excess(s) - (if Intrudes(KindOf(s, m), s.d) then 1 else 0)
  {
    if KindOf(s, m).SendOrder? {
      OverlapByOrder(cfg, s, m, t);
    } else if KindOf(s, m).SendState? {
      OverlapByState(cfg, s, m, t);
    } else {
      OverlapByRest(cfg, s, m, t);
    }
  }

  lemma PhaseStays(cfg: Config, r: Run, i: nat)
    requires cfg.Valid() && r.Of(cfg) && i < |r.moves| && |r.states| == |r.moves| + 1
    ensures r.states[i].phase.AfterStop? ==>
              && r.states[i + 1].phase.AfterStop? && IsNext(r.states[i].q, r.moves[i].u)
              && !KindOf(r.states[i], r.moves[i]).StartTeleoperation? && !KindOf(r.states[i], r.moves[i]).StopTeleoperation?
    ensures r.states[i + 1].phase.BeforeStart? ==> r.states[i].phase.BeforeStart?
    ensures r.states[i].phase.Teleop? ==> !r.states[i + 1].phase.BeforeStart?
  {
    StepAt(cfg, r, i);
    PhasedHolds(cfg, r, i);
    ToggleOrder(cfg, r.states[i], r.moves[i]);
    PhaseAfter(cfg, r.states[i], r.moves[i], r.states[i + 1]);
  }

  /** From state `i` to state `j` neither start nor stop runs. */
  predicate Undisturbed(r: Run, i: nat, j: nat) {
    i <= j < |r.states| && r.states[i].phase == r.states[j].phase && !r.states[j].phase.Teleop?
  }

  lemma {:induction false} StoppedStaysStopped(cfg: Config, r: Run, i: nat, j: nat)
    requires cfg.Valid() && r.Of(cfg) && i <= j < |r.states| && r.states[i].phase.AfterStop?
    ensures r.states[j].phase.AfterStop?
  {
    hide RunHandler;
    if i < j {
      Lengths(cfg, r);
      StoppedStaysStopped(cfg, r, i, j - 1);
      PhaseStays(cfg, r, j - 1);
    }
  }

  lemma UndisturbedBefore(cfg: Config, r: Run, i: nat, j: nat)
    requires cfg.Valid() && r.Of(cfg) && i < j && Undisturbed(r, i, j)
    ensures Undisturbed(r, i, j - 1)
  {
    Lengths(cfg, r);
    PhaseStays(cfg, r, j - 1);
    if r.states[i].phase.AfterStop? { StoppedStaysStopped(cfg, r, i, j - 1); }
  }

  /** After stop the number of chains, one or two, changes only when an order intrudes: then two become one. */
  lemma ChainsMerge(cfg: Config, r: Run, i: nat)
    requires cfg.Valid() && r.Of(cfg) && i < |r.moves| && |r.states| == |r.moves| + 1
    requires r.states[i].phase.AfterStop? && IsNext(r.states[i].q, r.moves[i].u)
    ensures r.states[i + 1].phase.AfterStop? && Excess(r.states[i]) in {0, 1} && Excess(r.states[i + 1]) in {0, 1}
    ensures Excess(r.states[i]) == 0 ==>
              Excess(r.states[i + 1]) == 0 && !Intrudes(KindOf(r.states[i], r.moves[i]), r.states[i].d)
    ensures Excess(r.states[i]) == 1 ==>
              (Excess(r.states[i + 1]) == 0 <==> Intrudes(KindOf(r.states[i], r.moves[i]), r.states[i].d))
  {
    PhaseStays(cfg, r, i);
    StepAt(cfg, r, i);
    TrackedHolds(cfg, r, i);
    PairedHolds(cfg, r, i);
    CountedHolds(cfg, r, i);
    CountedHolds(cfg, r, i + 1);
    OverlapStep(cfg, r.states[i], r.moves[i], r.states[i + 1]);
  }

  lemma MergedAt(cfg: Config, r: Run, i: nat)
    requires cfg.Valid() && r.Of(cfg) && i < |r.moves| && |r.states| == |r.moves| + 1
    requires r.states[i].phase.AfterStop? && Excess(r.states[i]) == 0
    ensures r.states[i + 1].phase.AfterStop? && Excess(r.states[i + 1]) == 0
  {
    StepAt(cfg, r, i);
    ChainsMerge(cfg, r, i);
  }

  /** A single order chain stays single for the rest of the run. */
  lemma {:induction false} MergedStaysMerged(cfg: Config, r: Run, i: nat, j: nat)
    requires cfg.Valid() && r.Of(cfg) && i <= j < |r.states| && r.states[i].phase.AfterStop?
    requires Excess(r.states[i]) == 0
    ensures r.states[j].phase.AfterStop? && Excess(r.states[j]) == 0
  {
    if i < j {
      MergedStaysMerged(cfg, r, i, j - 1);
      MergedAt(cfg, r, j - 1);
    }
  }

  // ---------------------------------------------------------------- progress

  /** What is left to do, in state steps and order messages. */
  function Work(d: Deques): nat {
    3 * |d.plannedNodes| + |d.nodes| + |d.edges|
  }

  /** Every update of an order and every state message that traverses something brings the order closer to its end. */
  lemma WorkFalls(cfg: Config, r: Run, i: nat)
    requires cfg.Valid() && r.Of(cfg) && i < |r.moves| && |r.states| == |r.moves| + 1
    requires IsNext(r.states[i].q, r.moves[i].u)
    requires (KindOf(r.states[i], r.moves[i]).SendOrder? && !r.states[i].d.NothingPlanned())
          || (KindOf(r.states[i], r.moves[i]).SendState? && !r.states[i].d.NothingReleased())
    ensures Work(r.states[i + 1].d) < Work(r.states[i].d)
    ensures KindOf(r.states[i], r.moves[i]).SendState? ==> Work(r.states[i + 1].d) == Work(r.states[i].d) - 1
  {
    PairedHolds(cfg, r, i);
    StepAt(cfg, r, i);
  }

  /** The update counter restarts with each new order, counts its updates, and never comes near its 32-bit limit. */
  lemma UpdatesCounted(cfg: Config, r: Run, i: nat)
    requires cfg.Valid() && r.Of(cfg) && i < |r.moves| && |r.states| == |r.moves| + 1
    requires IsNext(r.states[i].q, r.moves[i].u) && KindOf(r.states[i], r.moves[i]).SendOrder?
    ensures r.states[i + 1].updateId == if r.states[i].d.NothingPlanned() then 0 else r.states[i].updateId + 1
    ensures r.states[i + 1].updateId < cfg.orderLenMax
  {
    PairedHolds(cfg, r, i);
    StepAt(cfg, r, i);
    CounterKept(cfg, r.states[i], r.moves[i], r.states[i + 1]);
  }

  lemma DrainByState(cfg: Config, s: AgvState, m: Move, t: AgvState)
    requires Paired(s.d) && Step(cfg, s, m, t) && KindOf(s, m).SendState? && s.d.nodes != [] && s.d.plannedNodes == []
    ensures StateSafe(s.d) && !s.d.NothingReleased() && t.d == Traversed(s.d)
    ensures |TimesOf(t.sent, State)| == |TimesOf(s.sent, State)| + 1
  {
    hide QueueAfterState;
    LogAppend(s.sent, Sent(Started(s, m).q.now, Ue, PUBLISH_VDA, Topic.State, StateMessage(s.d.nodes, s.d.edges)), State);
  }

  lemma ToggleDeques(cfg: Config, s: AgvState, m: Move, t: AgvState)
    requires Step(cfg, s, m, t) && Toggles(KindOf(s, m)) && t.d.nodes != []
    ensures t.d == s.d
  {
    hide QueueAfterStart, QueueAfterStop;
  }

  /** A step while no `sendOrder` is pending and something is released: state messages drain the deques one by one. */
  lemma DrainStep(cfg: Config, s: AgvState, m: Move, t: AgvState)
    requires Paired(s.d) && Step(cfg, s, m, t) && Orders(s) == {} && s.d.nodes != [] && s.d.plannedNodes == []
    requires t.d.nodes != []
    ensures t.d.plannedNodes == []
    ensures Work(t.d) + |TimesOf(t.sent, State)| == Work(s.d) + |TimesOf(s.sent, State)|
  {
    hide RunHandler;
    assert m.u in Live(s.q, KindOf(s, m));
    if KindOf(s, m).SendState? {
      DrainByState(cfg, s, m, t);
    } else {
      LogUnmoved(cfg, s, m, t, State);
      if Toggles(KindOf(s, m)) { ToggleDeques(cfg, s, m, t); } else { OrderStateUnmoved(cfg, s, m, t); }
    }
  }

  lemma DrainAt(cfg: Config, r: Run, i: nat)
    requires cfg.Valid() && r.Of(cfg) && i < |r.moves| && |r.states| == |r.moves| + 1
    requires Orders(r.states[i]) == {} && r.states[i].d.nodes != [] && r.states[i].d.plannedNodes == []
    requires r.states[i + 1].d.nodes != []
    ensures r.states[i + 1].d.plannedNodes == []
    ensures Work(r.states[i + 1].d) + |TimesOf(r.states[i + 1].sent, State)| == Work(r.states[i].d) + |TimesOf(r.states[i].sent, State)|
  {
    StepAt(cfg, r, i);
    PairedHolds(cfg, r, i);
    DrainStep(cfg, r.states[i], r.moves[i], r.states[i + 1]);
  }

  lemma {:induction false} Drains(cfg: Config, r: Run, i: nat, j: nat)
    requires cfg.Valid() && r.Of(cfg) && i <= j < |r.states| == |r.moves| + 1
    requires forall k | i <= k <= j :: Orders(r.states[k]) == {} && r.states[k].d.nodes != []
    requires r.states[i].d.plannedNodes == []
    ensures r.states[j].d.plannedNodes == []
    ensures Work(r.states[j].d) + |TimesOf(r.states[j].sent, State)| == Work(r.states[i].d) + |TimesOf(r.states[i].sent, State)|
  {
    if i < j {
      Drains(cfg, r, i, j - 1);
      DrainAt(cfg, r, j - 1);
    }
  }

  /** The order simulation cannot die: while no `sendOrder` is pending and something is released, every state
      message traverses, so there are fewer of them than released nodes and edges. */
  lemma OrdersReturn(cfg: Config, r: Run, i: nat, j: nat)
    requires cfg.Valid() && r.Of(cfg) && i <= j < |r.states|
    requires forall k | i <= k <= j :: Orders(r.states[k]) == {} && r.states[k].d.nodes != []
    ensures |TimesOf(r.states[j].sent, State)| - |TimesOf(r.states[i].sent, State)| < |r.states[i].d.nodes| + |r.states[i].d.edges|
  {
    assert |r.states| == |r.moves| + 1;
    CountedHolds(cfg, r, i);
    NothingPlannedWhileNoOrder(r.states[i]);
    Drains(cfg, r, i, j);
  }

  lemma NothingPlannedWhileNoOrder(s: AgvState)
    requires OrdersCounted(s) && Orders(s) == {} && s.d.nodes != []
    ensures s.d.plannedNodes == []
  {}
}
