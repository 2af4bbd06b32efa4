/** What every event of every run keeps, in both scenarios. */
module AgvInvariants {
  import opened Basics
  import opened EventQueue
  import opened AgvModel

  // ---------------------------------------------------------------- the state timer

  /** A handle is never from the future, and if its event is live it is of the given kind. */
  ghost predicate Names(q: Queue, h: Handle, kind: Kind) {
    && Past(q, h)
    && (h.Some? ==> forall k | k != kind :: h.value !in Live(q, k))
  }

  ghost predicate Tidy(s: AgvState) {
    && WellFormed(s.q)
    && s.nextState.Some?
    && Names(s.q, s.nextState, SendState)
    && Names(s.q, s.nextOrder, SendOrder)
    && Names(s.q, s.nextControl, SendControl)
  }

  /** Exactly one `sendState` is pending and `next_state_` names it. */
  ghost predicate StateTracked(s: AgvState) {
    Tidy(s) && Live(s.q, SendState) == {s.nextState.value}
  }

  /** The state a handler starts from: its event is off the queue. */
  function Started(s: AgvState, m: Move): (r: AgvState)
    requires IsNext(s.q, m.u)
    ensures WellFormed(s.q) ==> WellFormed(r.q)
    ensures forall k :: Live(r.q, k) == if k == KindOf(s, m) then Live(s.q, k) - {m.u} else Live(s.q, k)
    ensures m.u in Live(s.q, KindOf(s, m))
  {
    var r := s.(q := Take(s.q, m.u));
    assert m.u in Live(s.q, KindOf(s, m));
    assert forall k | k != KindOf(s, m) :: m.u !in Live(s.q, k);
    r
  }

  lemma TidyStarted(s: AgvState, m: Move)
    requires Tidy(s) && IsNext(s.q, m.u)
    ensures Tidy(Started(s, m))
  {}

  lemma StateTrackedAfterOrder(cfg: Config, s: AgvState, draw: Draw)
    requires StateTracked(s) && OrderSafe(s.d, draw)
    ensures StateTracked(AfterOrder(cfg, s, draw))
  {
    var t := AfterOrder(cfg, s, draw);
    assert Live(t.q, SendState) == Changed({s.nextState.value}, {s.nextState.value}, {t.nextState.value});
  }

  lemma StateTrackedAfterState(cfg: Config, s: AgvState)
    requires Tidy(s) && Live(s.q, SendState) == {} && StateSafe(s.d)
    ensures StateTracked(AfterState(cfg, s))
  {
    var t := AfterState(cfg, s);
    assert Live(t.q, SendState) == Changed({}, {}, {t.nextState.value});
  }

  lemma StateTrackedAfterStart(cfg: Config, s: AgvState)
    requires StateTracked(s)
    ensures StateTracked(AfterStart(cfg, s))
  {
    var t := AfterStart(cfg, s);
    assert Live(t.q, SendState) == Changed({s.nextState.value}, Named(s.nextOrder) + {s.nextState.value}, {t.nextState.value});
  }

  lemma StateTrackedAfterStop(cfg: Config, s: AgvState)
    requires StateTracked(s)
    ensures StateTracked(AfterStopTeleop(cfg, s))
  {
    var t := AfterStopTeleop(cfg, s);
    assert Live(t.q, SendState) == Changed({s.nextState.value}, {s.nextState.value} + Named(s.nextControl), {t.nextState.value});
  }

  lemma StateTrackedAfterRest(cfg: Config, s: AgvState, kind: Kind, draw: Draw)
    requires StateTracked(s) && (OneShot(kind) || kind.SendTeleoperationState? || kind.SendControl?)
    ensures StateTracked(RunHandler(cfg, s, kind, draw))
  {}

  lemma StateTrackedKept(cfg: Config, s: AgvState, m: Move, t: AgvState)
    requires StateTracked(s) && Step(cfg, s, m, t)
    ensures StateTracked(t)
  {
    var s1 := Started(s, m);
    match KindOf(s, m)
    case SendOrder => StateTrackedAfterOrder(cfg, s1, m.draw);
    case SendState => StateTrackedAfterState(cfg, s1);
    case StartTeleoperation => StateTrackedAfterStart(cfg, s1);
    case StopTeleoperation => StateTrackedAfterStop(cfg, s1);
    case _ => StateTrackedAfterRest(cfg, s1, KindOf(s, m), m.draw);
  }

  /** The kinds of events a handler may schedule or cancel. */
  predicate Touches(handler: Kind, k: Kind) {
    match handler
    case SendOrder => k.SendState? || k.SendOrder?
    case SendState => k.SendState? || k.SendOrder?
    case StartTeleoperation => k.SendState? || k.SendOrder? || k.SendTeleoperationState?
    case StopTeleoperation => k.SendState? || k.SendOrder? || k.SendTeleoperationState? || k.SendControl?
    case SendTeleoperationState => k.SendControl?
    case SendControl => k.SendControl?
    case _ => OneShot(k)
  }

  lemma UntouchedByOrder(cfg: Config, q: Queue, more: bool, h: Handle, k: Kind)
    requires WellFormed(q) && Names(q, h, SendState) && !Touches(SendOrder, k)
    ensures Live(QueueAfterOrder(cfg, q, more, h), k) == Live(q, k)
  {
    assert Changed(Live(q, k), Named(h), {}) == Live(q, k);
  }

  lemma UntouchedByState(cfg: Config, q: Queue, idle: bool, done: bool, k: Kind)
    requires WellFormed(q) && !Touches(SendState, k)
    ensures Live(QueueAfterState(cfg, q, idle, done), k) == Live(q, k)
  {
    assert Changed(Live(q, k), {}, {}) == Live(q, k);
  }

  lemma UntouchedByStart(cfg: Config, q: Queue, h: Handle, h': Handle, k: Kind)
    requires WellFormed(q) && Names(q, h, SendOrder) && Names(q, h', SendState) && !Touches(StartTeleoperation, k)
    ensures Live(QueueAfterStart(cfg, q, h, h'), k) == Live(q, k)
  {
    assert Changed(Live(q, k), Named(h) + Named(h'), {}) == Live(q, k);
  }

  lemma UntouchedByStop(cfg: Config, q: Queue, h: Handle, h': Handle, k: Kind)
    requires WellFormed(q) && Names(q, h, SendState) && Names(q, h', SendControl) && !Touches(StopTeleoperation, k)
    ensures Live(QueueAfterStop(cfg, q, h, h'), k) == Live(q, k)
  {
    assert Changed(Live(q, k), Named(h) + Named(h'), {}) == Live(q, k);
  }

  lemma UntouchedByHandler(cfg: Config, s: AgvState, kind: Kind, draw: Draw, k: Kind)
    requires Tidy(s) && Safe(s.d, kind, draw) && !Touches(kind, k)
    ensures Live(RunHandler(cfg, s, kind, draw).q, k) == Live(s.q, k)
  {
    match kind
    case SendOrder =>
      var more := Released(Replenished(s.d, draw), draw.release).plannedNodes != [];
      UntouchedByOrder(cfg, s.q, more, s.nextState, k);
    case SendState =>
      var done := !s.d.NothingReleased() && Traversed(s.d).AllEmpty();
      UntouchedByState(cfg, s.q, s.d.NothingReleased(), done, k);
    case StartTeleoperation => UntouchedByStart(cfg, s.q, s.nextOrder, s.nextState, k);
    case StopTeleoperation => UntouchedByStop(cfg, s.q, s.nextState, s.nextControl, k);
    case _ =>
  }

  /** Cancelling through the stored handles never removes an event of another kind. */
  lemma Untouched(cfg: Config, s: AgvState, m: Move, t: AgvState, k: Kind)
    requires Tidy(s) && Step(cfg, s, m, t) && !Touches(KindOf(s, m), k)
    ensures Live(t.q, k) == Live(s.q, k) - {m.u}
    ensures KindOf(s, m) != k ==> Live(t.q, k) == Live(s.q, k)
  {
    UntouchedByHandler(cfg, Started(s, m), KindOf(s, m), m.draw, k);
  }

  lemma HandlerExtends(cfg: Config, s: AgvState, kind: Kind, draw: Draw)
    requires Tidy(s) && Safe(s.d, kind, draw)
    ensures WellFormed(RunHandler(cfg, s, kind, draw).q) && Extends(s.q, RunHandler(cfg, s, kind, draw).q)
  {}

  /** Uids are never reused: an event that is pending before and after a step is the same event. */
  lemma EventsKeepTheirTime(cfg: Config, s: AgvState, m: Move, t: AgvState)
    requires Tidy(s) && Step(cfg, s, m, t)
    ensures WellFormed(t.q) && s.q.nextUid <= t.q.nextUid && t.q.now == s.q.pending[m.u].time
    ensures forall v <- t.q.pending | v < s.q.nextUid :: v != m.u && v in s.q.pending && t.q.pending[v] == s.q.pending[v]
  {
    HandlerExtends(cfg, Started(s, m), KindOf(s, m), m.draw);
  }

  /** The handlers of these kinds move orders; all others leave the order state alone. */
  predicate MovesOrders(kind: Kind) {
    kind.SendOrder? || kind.SendState? || kind.StartTeleoperation? || kind.StopTeleoperation?
  }

  lemma OrderStateUnmoved(cfg: Config, s: AgvState, m: Move, t: AgvState)
    requires Step(cfg, s, m, t) && !MovesOrders(KindOf(s, m))
    ensures t.d == s.d && t.phase == s.phase && t.ledger == s.ledger && t.chain == s.chain
    ensures t.nextState == s.nextState && t.nextOrder == s.nextOrder && t.updateId == s.updateId
  {}

  // ---------------------------------------------------------------- the deques

  predicate SameIds(nodes: seq<NodeState>, edges: seq<EdgeState>) {
    |nodes| == |edges| && forall i :: 0 <= i < |nodes| ==> nodes[i].sequenceId == edges[i].sequenceId
  }

  /** Planned deques pair up; released deques pair up from the back, with at most one extra node in front. */
  predicate Paired(d: Deques) {
    && SameIds(d.plannedNodes, d.plannedEdges)
    && |d.edges| <= |d.nodes| <= |d.edges| + 1
    && SameIds(d.nodes[|d.nodes| - |d.edges|..], d.edges)
  }

  lemma SameIdsSplit(nodes: seq<NodeState>, edges: seq<EdgeState>, n: nat)
    requires SameIds(nodes, edges) && n <= |nodes|
    ensures SameIds(nodes[..n], edges[..n]) && SameIds(nodes[n..], edges[n..])
  {}

  lemma SameIdsConcat(nodes: seq<NodeState>, edges: seq<EdgeState>, nodes': seq<NodeState>, edges': seq<EdgeState>)
    requires SameIds(nodes, edges) && SameIds(nodes', edges')
    ensures SameIds(nodes + nodes', edges + edges')
  {}

  lemma PairedAfterRelease(d: Deques, n: nat)
    requires Paired(d) && n <= |d.plannedNodes|
    ensures Paired(Released(d, n))
  {
    var r := Released(d, n);
    var k := |d.nodes| - |d.edges|;
    SameIdsSplit(d.plannedNodes, d.plannedEdges, n);
    SameIdsConcat(d.nodes[k..], d.edges, d.plannedNodes[..n], d.plannedEdges[..n]);
    assert r.nodes[k..] == d.nodes[k..] + d.plannedNodes[..n];
  }

  lemma PairedAfterReplenish(d: Deques, draw: Draw)
    requires Paired(d)
    ensures Paired(Replenished(d, draw))
  {}

  lemma PairedAfterTraverse(d: Deques)
    requires Paired(d) && !d.NothingReleased()
    ensures StateSafe(d) && Paired(Traversed(d))
  {
    var r := Traversed(d);
    if |d.nodes| == |d.edges| {
      assert r.nodes[1..] == d.nodes[0..][1..];
    } else {
      assert r.nodes[0..] == d.nodes[1..];
    }
  }

  lemma PairedKept(cfg: Config, s: AgvState, m: Move, t: AgvState)
    requires Paired(s.d) && Step(cfg, s, m, t)
    ensures Paired(t.d)
  {
    hide QueueAfterOrder, QueueAfterState, QueueAfterStart, QueueAfterStop, Schedule, WellFormed, Live, Extends, ChainAfterOrder;
    match KindOf(s, m)
    case SendOrder =>
      PairedAfterReplenish(s.d, m.draw);
      PairedAfterRelease(Replenished(s.d, m.draw), m.draw.release);
    case SendState =>
      if !s.d.NothingReleased() { PairedAfterTraverse(s.d); }
    case _ =>
  }

  /** With paired deques no handler can take from an empty deque, whatever the generator draws. */
  lemma PairedIsSafe(cfg: Config, s: AgvState, m: Move)
    requires Paired(s.d) && Enabled(cfg, s, m)
    ensures Safe(s.d, KindOf(s, m), m.draw)
  {
    PairedAfterReplenish(s.d, m.draw);
  }

  // ---------------------------------------------------------------- conservation

  /** What was generated is what was traversed, with the items dropped at the start of
      teleoperation put back in their place, then what is released, then what is planned. */
  ghost predicate Conserves<T>(generated: seq<T>, traversed: seq<T>, cut: nat, dropped: seq<T>, released: seq<T>, planned: seq<T>) {
    && cut <= |traversed|
    && generated == traversed[..cut] + dropped + traversed[cut..] + released + planned
  }

  ghost predicate NodesConserved(l: Ledger, d: Deques) {
    Conserves(l.generatedNodes, l.traversedNodes, l.cutNodes, l.droppedNodes, d.nodes, d.plannedNodes)
  }

  ghost predicate EdgesConserved(l: Ledger, d: Deques) {
    Conserves(l.generatedEdges, l.traversedEdges, l.cutEdges, l.droppedEdges, d.edges, d.plannedEdges)
  }

  ghost predicate Conserved(s: AgvState) {
    && NodesConserved(s.ledger, s.d)
    && EdgesConserved(s.ledger, s.d)
    && (s.phase == BeforeStart ==> s.ledger.droppedNodes == [] && s.ledger.droppedEdges == [])
  }

  lemma ConservesGenerated<T>(g: seq<T>, tr: seq<T>, cut: nat, dr: seq<T>, re: seq<T>, more: seq<T>)
    requires Conserves(g, tr, cut, dr, re, [])
    ensures Conserves(g + more, tr, cut, dr, re, more)
  {}

  lemma ConservesReleased<T>(g: seq<T>, tr: seq<T>, cut: nat, dr: seq<T>, re: seq<T>, pl: seq<T>, n: nat)
    requires Conserves(g, tr, cut, dr, re, pl) && n <= |pl|
    ensures Conserves(g, tr, cut, dr, re + pl[..n], pl[n..])
  {
    assert pl == pl[..n] + pl[n..];
  }

  lemma ConservesTraversed<T>(g: seq<T>, tr: seq<T>, cut: nat, dr: seq<T>, re: seq<T>, pl: seq<T>)
    requires Conserves(g, tr, cut, dr, re, pl) && re != []
    ensures Conserves(g, tr + [re[0]], cut, dr, re[1..], pl)
  {
    assert (tr + [re[0]])[cut..] == tr[cut..] + [re[0]];
    assert re == [re[0]] + re[1..];
  }

  lemma ConservesDropped<T>(g: seq<T>, tr: seq<T>, cut: nat, re: seq<T>, pl: seq<T>)
    requires Conserves(g, tr, cut, [], re, pl)
    ensures Conserves(g, tr, |tr|, [] + re + pl, [], [])
  {
    assert tr == tr[..cut] + tr[cut..];
    assert tr[..|tr|] == tr && tr[|tr|..] == [];
  }

  lemma ConservedAfterOrder(cfg: Config, s: AgvState, draw: Draw)
    requires Conserved(s) && OrderSafe(s.d, draw)
    ensures Conserved(AfterOrder(cfg, s, draw))
  {
    var l, d, p := s.ledger, s.d, Replenished(s.d, draw);
    var l' := AfterOrder(cfg, s, draw).ledger;
    if d.NothingPlanned() {
      ConservesGenerated(l.generatedNodes, l.traversedNodes, l.cutNodes, l.droppedNodes, d.nodes, p.plannedNodes);
      ConservesGenerated(l.generatedEdges, l.traversedEdges, l.cutEdges, l.droppedEdges, d.edges, p.plannedEdges);
    }
    ConservesReleased(l'.generatedNodes, l.traversedNodes, l.cutNodes, l.droppedNodes, d.nodes, p.plannedNodes, draw.release);
    ConservesReleased(l'.generatedEdges, l.traversedEdges, l.cutEdges, l.droppedEdges, d.edges, p.plannedEdges, draw.release);
  }

  lemma ConservedAfterTraverse(s: AgvState)
    requires Conserved(s) && StateSafe(s.d) && !s.d.NothingReleased()
    ensures NodesConserved(LedgerAfterStep(s.ledger, s.d), Traversed(s.d))
    ensures EdgesConserved(LedgerAfterStep(s.ledger, s.d), Traversed(s.d))
  {
    var l, d := s.ledger, s.d;
    if |d.nodes| == |d.edges| {
      ConservesTraversed(l.generatedEdges, l.traversedEdges, l.cutEdges, l.droppedEdges, d.edges, d.plannedEdges);
    } else {
      ConservesTraversed(l.generatedNodes, l.traversedNodes, l.cutNodes, l.droppedNodes, d.nodes, d.plannedNodes);
    }
  }

  lemma ConservedKept(cfg: Config, s: AgvState, m: Move, t: AgvState)
    requires Conserved(s) && Step(cfg, s, m, t)
    requires KindOf(s, m) == StartTeleoperation ==> s.phase == BeforeStart
    ensures Conserved(t)
  {
    hide QueueAfterOrder, QueueAfterState, QueueAfterStart, QueueAfterStop, Schedule, WellFormed, Live, Extends, ChainAfterOrder;
    match KindOf(s, m)
    case SendOrder => ConservedAfterOrder(cfg, s.(q := Take(s.q, m.u)), m.draw);
    case SendState => if !s.d.NothingReleased() { ConservedAfterTraverse(s); }
    case StartTeleoperation =>
      var l, d := s.ledger, s.d;
      ConservesDropped(l.generatedNodes, l.traversedNodes, l.cutNodes, d.nodes, d.plannedNodes);
      ConservesDropped(l.generatedEdges, l.traversedEdges, l.cutEdges, d.edges, d.plannedEdges);
    case _ =>
  }

  // ---------------------------------------------------------------- start and stop

  const START_UID: nat := 6
  const STOP_UID: nat := 7

  /** Start and stop are each scheduled once, fire in that order, and set the flag. */
  predicate Phased(cfg: Config, s: AgvState) {
    && (cfg.scenario.VDA5050? ==> s.phase.BeforeStart?)
    && s.teleoperating == s.phase.Teleop?
    && Live(s.q, StartTeleoperation) == (if cfg.scenario.TELEOP? && s.phase.BeforeStart? then {START_UID} else {})
    && Live(s.q, StopTeleoperation) == (if cfg.scenario.TELEOP? && !s.phase.AfterStop? then {STOP_UID} else {})
    && (cfg.scenario.TELEOP? ==> s.q.nextUid > STOP_UID)
    && (START_UID in Live(s.q, StartTeleoperation) ==> s.q.pending[START_UID].time == 1000 * cfg.startS)
    && (STOP_UID in Live(s.q, StopTeleoperation) ==> s.q.pending[STOP_UID].time == 1000 * cfg.stopS)
    && (s.phase.Teleop? ==> 1000 * cfg.startS <= s.q.now <= 1000 * cfg.stopS)
    && (s.phase.AfterStop? ==> 1000 * cfg.stopS <= s.q.now)
  }

  /** Start happens once, stop happens once, and stop never comes first. */
  lemma ToggleOrder(cfg: Config, s: AgvState, m: Move)
    requires cfg.Valid() && Phased(cfg, s) && IsNext(s.q, m.u)
    ensures KindOf(s, m) == StartTeleoperation ==> s.phase == BeforeStart && m.u == START_UID
    ensures KindOf(s, m) == StopTeleoperation ==> s.phase == Teleop && m.u == STOP_UID
  {
    assert m.u in Live(s.q, KindOf(s, m));
    assert s.phase.BeforeStart? && cfg.scenario.TELEOP? ==> START_UID in Live(s.q, StartTeleoperation);
    assert START_UID in s.q.pending ==> Earlier(s.q, m.u, START_UID);
  }

  lemma PhaseAfter(cfg: Config, s: AgvState, m: Move, t: AgvState)
    requires Step(cfg, s, m, t)
    ensures t.phase == (if KindOf(s, m) == StartTeleoperation then Teleop
                        else if KindOf(s, m) == StopTeleoperation then AfterStop else s.phase)
    ensures t.teleoperating == (if KindOf(s, m) == StartTeleoperation then true
                                else if KindOf(s, m) == StopTeleoperation then false else s.teleoperating)
  {
    hide QueueAfterOrder, QueueAfterState, QueueAfterStart, QueueAfterStop, Schedule, WellFormed, Live, Extends;
  }

  lemma PhasedKept(cfg: Config, s: AgvState, m: Move, t: AgvState)
    requires cfg.Valid() && Tidy(s) && Phased(cfg, s) && Step(cfg, s, m, t)
    ensures Phased(cfg, t)
  {
    ToggleOrder(cfg, s, m);
    PhaseAfter(cfg, s, m, t);
    Untouched(cfg, s, m, t, StartTeleoperation);
    Untouched(cfg, s, m, t, StopTeleoperation);
    EventsKeepTheirTime(cfg, s, m, t);
    assert m.u in Live(s.q, KindOf(s, m));
    if STOP_UID in Live(s.q, StopTeleoperation) { assert Earlier(s.q, m.u, STOP_UID); }
  }

  // ---------------------------------------------------------------- how many orders are pending

  /** 0 while everything planned is released but not yet traversed, else 1. */
  function Due(d: Deques): nat {
    if d.plannedNodes == [] && d.nodes != [] then 0 else 1
  }

  function Orders(s: AgvState): set<nat> { Live(s.q, SendOrder) }

  /** Before start the pending `sendOrder` is named by `next_order_` exactly when nothing is planned;
      a pending continuation is named by no handle. */
  predicate Tracked(d: Deques, orders: set<nat>, nextOrder: Handle, continuation: nat) {
    && nextOrder.Some?
    && (d.plannedNodes != [] ==> orders == {continuation} && nextOrder.value != continuation)
    && (d.plannedNodes == [] && d.nodes == [] ==> orders == {nextOrder.value})
    && (d.plannedNodes == [] && d.nodes != [] ==> orders == {})
  }

  predicate Counted(phase: Phase, d: Deques, orders: set<nat>, nextOrder: Handle, continuation: nat) {
    match phase
    case BeforeStart => Tracked(d, orders, nextOrder, continuation)
    case Teleop => |orders| == Due(d) || (orders == {} && d.AllEmpty())
    case AfterStop => Due(d) <= |orders| <= Due(d) + 1
  }

  predicate OrdersCounted(s: AgvState) {
    Counted(s.phase, s.d, Orders(s), s.nextOrder, s.chain.continuation)
  }

  lemma SizeAfterRemove(a: set<nat>, u: nat)
    ensures |a - {u}| == if u in a then |a| - 1 else |a|
  {
    if u in a { assert a == (a - {u}) + {u}; } else { assert a - {u} == a; }
  }

  /** How `sendOrder` changes the set of pending `sendOrder` events. */
  lemma OrdersAfterOrder(cfg: Config, s: AgvState, draw: Draw)
    requires Tidy(s) && OrderSafe(s.d, draw)
    ensures var more := AfterOrder(cfg, s, draw).d.plannedNodes != [];
            Orders(AfterOrder(cfg, s, draw)) == Orders(s) + (if more then {s.q.nextUid} else {})
  {
    var t := AfterOrder(cfg, s, draw);
    assert Orders(t) == Changed(Orders(s), Named(s.nextState), if t.d.plannedNodes != [] then {s.q.nextUid} else {});
    assert Changed(Orders(s), Named(s.nextState), {}) == Orders(s);
  }

  /** This `sendState` traverses the last item of all. */
  predicate Empties(d: Deques)
    requires StateSafe(d)
  {
    !d.NothingReleased() && Traversed(d).AllEmpty()
  }

  lemma DueAfterState(d: Deques)
    requires Paired(d)
    ensures d.NothingReleased() == (d.nodes == [])
    ensures Empties(d) ==> Due(d) == 0
    ensures !d.NothingReleased() && !Empties(d) ==> Due(Traversed(d)) == Due(d)
  {
    if d.nodes != [] { PairedAfterTraverse(d); }
  }

  /** How `sendState` changes it: an order is scheduled exactly when this step empties all four deques. */
  lemma OrdersAfterState(cfg: Config, s: AgvState)
    requires Tidy(s) && StateSafe(s.d)
    ensures !Empties(s.d) ==> Orders(AfterState(cfg, s)) == Orders(s)
    ensures Empties(s.d) ==> s.q.nextUid + 1 !in Orders(s)
    ensures Empties(s.d) ==> Orders(AfterState(cfg, s)) == Orders(s) + {s.q.nextUid + 1}
  {
    assert Changed(Orders(s), {}, {}) == Orders(s);
  }

  lemma OrdersAfterStart(cfg: Config, s: AgvState)
    requires Tidy(s)
    ensures var t := AfterStart(cfg, s);
            t.d.AllEmpty() && t.phase == Teleop && Orders(t) == Orders(s) - Named(s.nextOrder)
  {
    var t := AfterStart(cfg, s);
    assert Orders(t) == Changed(Orders(s), Named(s.nextOrder) + Named(s.nextState), {});
  }

  lemma OrdersAfterStop(cfg: Config, s: AgvState)
    requires Tidy(s)
    ensures var t := AfterStopTeleop(cfg, s);
            s.q.nextUid + 2 !in Orders(s) && Orders(t) == Orders(s) + {s.q.nextUid + 2}
  {
    var t := AfterStopTeleop(cfg, s);
    assert Orders(t) == Changed(Orders(s), Named(s.nextState) + Named(s.nextControl), {s.q.nextUid + 2});
  }

  lemma CountedReleased(phase: Phase, d: Deques, orders: set<nat>, nextOrder: Handle, continuation: nat,
                        u: nat, uid: nat, d': Deques)
    requires Paired(d) && Counted(phase, d, orders, nextOrder, continuation)
    requires u in orders && uid !in orders && d'.nodes != []
    requires nextOrder.Some? ==> nextOrder.value < uid
    ensures Counted(phase, d', orders - {u} + (if d'.plannedNodes != [] then {uid} else {}), nextOrder, uid)
  {
    SizeAfterRemove(orders, u);
  }

  lemma CountedTraversed(phase: Phase, d: Deques, orders: set<nat>, nextOrder: Handle, continuation: nat, uid: nat)
    requires Paired(d) && StateSafe(d) && Counted(phase, d, orders, nextOrder, continuation)
    requires uid !in orders
    ensures !d.NothingReleased() && !Empties(d) ==> Counted(phase, Traversed(d), orders, nextOrder, continuation)
    ensures Empties(d) ==> Counted(phase, Traversed(d), orders + {uid}, Some(uid), continuation)
  {
    DueAfterState(d);
  }

  lemma CountedAfterOrder(cfg: Config, s: AgvState, m: Move, t: AgvState)
    requires Tidy(s) && Paired(s.d) && OrdersCounted(s) && Step(cfg, s, m, t) && KindOf(s, m).SendOrder?
    ensures OrdersCounted(t)
  {
    var s1 := Started(s, m);
    OrdersAfterOrder(cfg, s1, m.draw);
    assert s.q.nextUid !in Orders(s);
    CountedReleased(s.phase, s.d, Orders(s), s.nextOrder, s.chain.continuation, m.u, s.q.nextUid, t.d);
  }

  /** What a `sendState` does to the order simulation. */
  predicate StateEffect(s: AgvState, t: AgvState)
    requires StateSafe(s.d)
  {
    && t.phase == s.phase && t.chain.continuation == s.chain.continuation
    && t.d == (if s.d.NothingReleased() then s.d else Traversed(s.d))
    && t.nextOrder == (if Empties(s.d) then Some(s.q.nextUid + 1) else s.nextOrder)
    && Orders(t) == (if Empties(s.d) then Orders(s) + {s.q.nextUid + 1} else Orders(s))
  }

  lemma StateHasEffect(cfg: Config, s: AgvState, m: Move, t: AgvState)
    requires Tidy(s) && StateSafe(s.d) && Step(cfg, s, m, t) && KindOf(s, m).SendState?
    ensures StateEffect(s, t)
  {
    OrdersAfterState(cfg, Started(s, m));
  }

  lemma CountedByEffect(s: AgvState, t: AgvState)
    requires Tidy(s) && Paired(s.d) && OrdersCounted(s) && StateSafe(s.d) && StateEffect(s, t)
    ensures OrdersCounted(t)
  {
    assert s.q.nextUid + 1 !in Orders(s);
    CountedTraversed(s.phase, s.d, Orders(s), s.nextOrder, s.chain.continuation, s.q.nextUid + 1);
  }

  lemma CountedAfterState(cfg: Config, s: AgvState, m: Move, t: AgvState)
    requires Tidy(s) && Paired(s.d) && OrdersCounted(s) && Step(cfg, s, m, t) && KindOf(s, m).SendState?
    ensures OrdersCounted(t)
  {
    StateHasEffect(cfg, s, m, t);
    CountedByEffect(s, t);
  }

  lemma CountedAfterStart(cfg: Config, s: AgvState, m: Move, t: AgvState)
    requires Tidy(s) && OrdersCounted(s) && s.phase.BeforeStart? && Paired(s.d) && Step(cfg, s, m, t) && KindOf(s, m) == StartTeleoperation
    ensures t.phase == Teleop && t.d.AllEmpty()
    ensures Orders(t) == if s.d.plannedNodes != [] then {s.chain.continuation} else {}
  {
    OrdersAfterStart(cfg, Started(s, m));
  }

  lemma StopIsHandled(cfg: Config, s: AgvState, m: Move, t: AgvState)
    requires Step(cfg, s, m, t) && KindOf(s, m).StopTeleoperation?
    ensures t == AfterStopTeleop(cfg, Started(s, m))
  {}

  lemma StopKeepsDeques(cfg: Config, s: AgvState, m: Move, t: AgvState)
    requires Step(cfg, s, m, t) && KindOf(s, m).StopTeleoperation?
    ensures t.d == s.d && t.phase == AfterStop && t.nextOrder == Some(s.q.nextUid + 2)
  {}

  lemma StopRestarts(cfg: Config, s: AgvState, m: Move, t: AgvState)
    requires Tidy(s) && Step(cfg, s, m, t) && KindOf(s, m).StopTeleoperation?
    ensures t.d == s.d && t.phase == AfterStop && t.nextOrder == Some(s.q.nextUid + 2)
    ensures s.q.nextUid + 2 !in Orders(s) && Orders(t) == Orders(s) + {s.q.nextUid + 2}
  {
    hide RunHandler, AfterStopTeleop;
    var s1 := Started(s, m);
    assert Orders(s1) == Orders(s) && s1.q.nextUid == s.q.nextUid;
    TidyStarted(s, m);
    StopIsHandled(cfg, s, m, t);
    StopKeepsDeques(cfg, s, m, t);
    OrdersAfterStop(cfg, s1);
  }

  lemma CountedRestarted(d: Deques, orders: set<nat>, uid: nat, nextOrder: Handle, continuation: nat)
    requires |orders| == Due(d) || (orders == {} && d.AllEmpty())
    requires uid !in orders
    ensures Counted(AfterStop, d, orders + {uid}, nextOrder, continuation)
  {}

  lemma CountedAfterStop(cfg: Config, s: AgvState, m: Move, t: AgvState)
    requires Tidy(s) && OrdersCounted(s) && s.phase == Teleop && Step(cfg, s, m, t) && KindOf(s, m).StopTeleoperation?
    ensures OrdersCounted(t)
  {
    StopRestarts(cfg, s, m, t);
    CountedRestarted(s.d, Orders(s), s.q.nextUid + 2, t.nextOrder, t.chain.continuation);
  }

  lemma CountedAfterRest(cfg: Config, s: AgvState, m: Move, t: AgvState)
    requires Tidy(s) && OrdersCounted(s) && Step(cfg, s, m, t) && !MovesOrders(KindOf(s, m))
    ensures OrdersCounted(t)
  {
    OrderStateUnmoved(cfg, s, m, t);
    Untouched(cfg, s, m, t, SendOrder);
  }

  lemma OrdersCountedKept(cfg: Config, s: AgvState, m: Move, t: AgvState)
    requires cfg.Valid() && Tidy(s) && Paired(s.d) && Phased(cfg, s) && OrdersCounted(s) && Step(cfg, s, m, t)
    ensures OrdersCounted(t)
  {
    ToggleOrder(cfg, s, m);
    if KindOf(s, m).SendOrder? { CountedAfterOrder(cfg, s, m, t); }
    else if KindOf(s, m).SendState? { CountedAfterState(cfg, s, m, t); }
    else if KindOf(s, m).StartTeleoperation? { CountedAfterStart(cfg, s, m, t); }
    else if KindOf(s, m).StopTeleoperation? { CountedAfterStop(cfg, s, m, t); }
    else { CountedAfterRest(cfg, s, m, t); }
  }
}
