/** Short runs that show what the untracked continuation of an order does around teleoperation: an order sent while
    teleoperating, two pending `sendOrder` events after stop, and a message that mixes the nodes of two orders. */
module StrayOrder {
  import opened Basics
  import opened EventQueue
  import opened AgvModel
  import opened AgvInvariants
  import opened AgvRuns
  import opened MixedOrders
  import opened SentLog

  /** Orders of two nodes with updates two seconds apart; teleoperation starts after one second, and orders start
      again half a second after it stops. */
  function Short(stopS: nat): Config {
    Config(TELEOP, 90_000, 90_000, 90_000, 0, 90_000, 90_000, 90_000, 2000, 60_000, 90_000, 90_000, 90_000, 2, 2,
           1, stopS, 90_000, 90_000, 90_000, 70_000, 70_000, 500, 90_000)
  }

  const PLACE := Place("edge", "node", 0.0, 0.0)

  const DRAW := Draw([PLACE, PLACE], 1, 0.0, 0.0)

  predicate Has(q: Queue, u: nat, time: nat, kind: Kind) {
    u in q.pending && q.pending[u] == Event(time, kind)
  }

  /** Every pending event but these is a minute away. */
  predicate OnlySoon(q: Queue, soon: set<nat>) {
    forall v <- q.pending :: v in soon || q.pending[v].time >= 60_000
  }

  /** The queue as the constructor leaves it: the first order is next. */
  predicate Constructed(q: Queue, stopS: nat) {
    && q.now == 0 && q.nextUid == 8 && OnlySoon(q, {3, 6, 7})
    && Has(q, 3, 0, SendOrder) && Has(q, 6, 1000, StartTeleoperation) && Has(q, 7, 1000 * stopS, StopTeleoperation)
  }

  /** After the first order message: its continuation is event 8, and no handle names it. */
  predicate Ordered(q: Queue, stopS: nat) {
    && q.now == 0 && q.nextUid == 10 && OnlySoon(q, {6, 7, 8})
    && Has(q, 8, 2000, SendOrder) && Has(q, 6, 1000, StartTeleoperation) && Has(q, 7, 1000 * stopS, StopTeleoperation)
  }

  /** After start, which cancelled event 3, long run: the continuation is still there. */
  predicate Toggled(q: Queue, stopS: nat) {
    && q.now == 1000 && q.nextUid == 12 && OnlySoon(q, {7, 8})
    && Has(q, 8, 2000, SendOrder) && Has(q, 7, 1000 * stopS, StopTeleoperation)
  }

  lemma QueueConstructed(stopS: nat)
    ensures Constructed(InitQueue(Short(stopS)), stopS)
  {}

  lemma QueueOrdering(q: Queue, stopS: nat)
    requires Constructed(q, stopS) && stopS >= 1
    ensures IsNext(q, 3)
    ensures var r := Take(q, 3);
            && r.now == 0 && r.nextUid == 8 && OnlySoon(r, {6, 7})
            && Has(r, 6, 1000, StartTeleoperation) && Has(r, 7, 1000 * stopS, StopTeleoperation)
  {
    forall v <- q.pending ensures Earlier(q, 3, v) {
      assert v in {3, 6, 7} || q.pending[v].time >= 60_000;
    }
  }

  lemma QueueOrdered(q: Queue, stopS: nat)
    requires q.now == 0 && q.nextUid == 8 && OnlySoon(q, {6, 7})
    requires Has(q, 6, 1000, StartTeleoperation) && Has(q, 7, 1000 * stopS, StopTeleoperation)
    ensures Ordered(QueueAfterOrder(Short(stopS), q, true, Some(1)), stopS)
  {}

  lemma QueueStarting(q: Queue, stopS: nat)
    requires Ordered(q, stopS) && stopS >= 1
    ensures IsNext(q, 6)
    ensures var r := Take(q, 6);
            r.now == 1000 && r.nextUid == 10 && OnlySoon(r, {7, 8}) && Has(r, 8, 2000, SendOrder) && Has(r, 7, 1000 * stopS, StopTeleoperation)
  {
    forall v <- q.pending ensures Earlier(q, 6, v) {
      assert v in {6, 7, 8} || q.pending[v].time >= 60_000;
    }
  }

  lemma QueueToggled(q: Queue, stopS: nat)
    requires q.now == 1000 && q.nextUid == 10 && OnlySoon(q, {7, 8})
    requires Has(q, 8, 2000, SendOrder) && Has(q, 7, 1000 * stopS, StopTeleoperation)
    ensures Toggled(QueueAfterStart(Short(stopS), q, Some(3), Some(9)), stopS)
  {}

  /** The draw is in range for an order of two, and leaves one node planned. */
  lemma DrawFits(stopS: nat, d: Deques)
    requires d.AllEmpty()
    ensures DrawInRange(Short(stopS), d, DRAW) && OrderSafe(d, DRAW)
    ensures Released(Replenished(d, DRAW), DRAW.release).plannedNodes != []
  {
    assert |MakeNodes(DRAW.places)| == 2 && |MakeEdges(DRAW.places)| == 2;
  }

  lemma FirstOrder(stopS: nat, s: AgvState) returns (t: AgvState)
    requires stopS >= 1 && s == Blank(s.q) && Constructed(s.q, stopS)
    ensures Step(Short(stopS), s, Move(3, DRAW), t) && Ordered(t.q, stopS)
    ensures t.nextOrder == Some(3) && t.nextState == Some(9) && t.nextControl == None && TimesOf(t.sent, Order) == [0]
  {
    hide QueueAfterOrder, MakeNodes, MakeEdges, DrawInRange, Released, ChainAfterOrder;
    QueueOrdering(s.q, stopS);
    DrawFits(stopS, s.d);
    var s1 := s.(q := Take(s.q, 3));
    QueueOrdered(s1.q, stopS);
    t := AfterOrder(Short(stopS), s1, DRAW);
    LogAppend([], t.sent[0], Order);
    assert t.sent == [] + [t.sent[0]];
  }

  lemma Start(stopS: nat, s: AgvState) returns (t: AgvState)
    requires stopS >= 1 && Ordered(s.q, stopS) && s.nextOrder == Some(3) && s.nextState == Some(9)
    ensures Step(Short(stopS), s, Move(6, DRAW), t) && Toggled(t.q, stopS)
    ensures t.phase.Teleop? && t.d.AllEmpty() && TimesOf(t.sent, Order) == TimesOf(s.sent, Order)
    ensures t.nextState == Some(11) && t.nextControl == s.nextControl
  {
    QueueStarting(s.q, stopS);
    var s1 := s.(q := Take(s.q, 6));
    QueueToggled(s1.q, stopS);
    t := AfterStart(Short(stopS), s1);
    LogUnmoved(Short(stopS), s, Move(6, DRAW), t, Order);
  }

  lemma TwoSteps(cfg: Config, s: AgvState, m: Move, t: AgvState, n: Move, u: AgvState)
    requires s == Init(cfg) && Step(cfg, s, m, t) && Step(cfg, t, n, u)
    ensures Run([s, t, u], [m, n]).Of(cfg)
  {
    var r := Run([s, t, u], [m, n]);
    forall i: nat | i < |r.states| ensures r.Reached(cfg, i) {
      assert i == 0 || i == 1 || i == 2;
    }
  }

  lemma ConstructedFirst(stopS: nat) returns (s: AgvState)
    ensures s == Init(Short(stopS)) && s == Blank(s.q) && Constructed(s.q, stopS)
  {
    s := Init(Short(stopS));
    QueueConstructed(stopS);
  }

  lemma FirstTwo(stopS: nat) returns (r: Run)
    requires stopS >= 1
    ensures r.Of(Short(stopS)) && |r.moves| == 2 && r.states[2].phase.Teleop? && r.states[2].d.AllEmpty()
    ensures Toggled(r.states[2].q, stopS) && TimesOf(r.states[2].sent, Order) == [0]
    ensures r.states[2].nextState == Some(11) && r.states[2].nextControl == None
  {
    hide InitQueue, RunHandler, AfterOrder;
    var s := ConstructedFirst(stopS);
    var t := FirstOrder(stopS, s);
    var u := Start(stopS, t);
    TwoSteps(Short(stopS), s, Move(3, DRAW), t, Move(6, DRAW), u);
    r := Run([s, t, u], [Move(3, DRAW), Move(6, DRAW)]);
  }

  lemma StrayStep(s: AgvState) returns (t: AgvState)
    requires Toggled(s.q, 3) && s.phase.Teleop? && s.d.AllEmpty() && TimesOf(s.sent, Order) == [0]
    ensures Step(Short(3), s, Move(8, DRAW), t) && t.phase.Teleop? && TimesOf(t.sent, Order) == [0, 2000]
  {
    t := AfterOrder(Short(3), s.(q := Take(s.q, 8)), DRAW);
    LogAppend(s.sent, t.sent[|s.sent|], Order);
    assert t.sent == s.sent + [t.sent[|s.sent|]];
  }

  /** Starting teleoperation does not stop the order simulation: here an order is sent a second after start. */
  lemma OrderWhileTeleoperating() returns (r: Run)
    ensures Short(3).Valid() && r.Of(Short(3)) && |r.moves| == 3
    ensures r.states[2].phase.Teleop? && TimesOf(r.states[2].sent, Order) == [0]
    ensures r.states[3].phase.Teleop? && TimesOf(r.states[3].sent, Order) == [0, 2000]
  {
    r := FirstTwo(3);
    var t := StrayStep(r.states[2]);
    RunExtends(Short(3), r, Move(8, DRAW), t);
    r := Run(r.states + [t], r.moves + [Move(8, DRAW)]);
  }

  /** After a stop at once: the old continuation and the restarted order. */
  predicate Restarted(q: Queue) {
    && q.now == 1000 && q.nextUid == 15 && OnlySoon(q, {8, 14})
    && Has(q, 8, 2000, SendOrder) && Has(q, 14, 1500, SendOrder)
  }

  lemma QueueStopping(q: Queue)
    requires Toggled(q, 1)
    ensures IsNext(q, 7)
    ensures var r := Take(q, 7); r.now == 1000 && r.nextUid == 12 && OnlySoon(r, {8}) && Has(r, 8, 2000, SendOrder)
  {
    forall v <- q.pending ensures Earlier(q, 7, v) {
      assert v in {7, 8} || q.pending[v].time >= 60_000;
    }
  }

  lemma QueueRestarted(q: Queue)
    requires q.now == 1000 && q.nextUid == 12 && OnlySoon(q, {8}) && Has(q, 8, 2000, SendOrder)
    ensures Restarted(QueueAfterStop(Short(1), q, Some(11), None))
  {}

  lemma StopStep(s: AgvState) returns (t: AgvState)
    requires Toggled(s.q, 1) && s.nextState == Some(11) && s.nextControl == None && s.d.AllEmpty()
    ensures Step(Short(1), s, Move(7, DRAW), t) && t.phase.AfterStop? && t.d.AllEmpty()
    ensures Restarted(t.q) && t.nextState == Some(13)
    ensures 8 in Orders(s) && KindOf(s, Move(7, DRAW)).StopTeleoperation?
  {
    hide QueueAfterStop;
    QueueStopping(s.q);
    var s1 := s.(q := Take(s.q, 7));
    QueueRestarted(s1.q);
    t := AfterStopTeleop(Short(1), s1);
  }

  lemma PairSize(orders: set<nat>, uid: nat)
    requires |orders| == 1 && uid !in orders
    ensures |orders + {uid}| == 2
  {}

  lemma StoppedRun() returns (r: Run)
    ensures r.Of(Short(1)) && |r.moves| == 3 && r.states[3].phase.AfterStop? && |Orders(r.states[3])| == 2
    ensures Restarted(r.states[3].q) && r.states[3].nextState == Some(13) && r.states[3].d.AllEmpty()
  {
    r := FirstTwo(1);
    var s := r.states[2];
    var t := StopStep(s);
    PendingOrders(Short(1), r, 2);
    TrackedHolds(Short(1), r, 2);
    StopRestarts(Short(1), s, Move(7, DRAW), t);
    PairSize(Orders(s), s.q.nextUid + 2);
    RunExtends(Short(1), r, Move(7, DRAW), t);
    r := Run(r.states + [t], r.moves + [Move(7, DRAW)]);
  }

  /** After stop the bound of two pending `sendOrder` events is reached: the old continuation and the restarted order. */
  lemma TwoOrdersAfterStop() returns (r: Run)
    ensures Short(1).Valid() && r.Of(Short(1)) && |r.moves| == 3
    ensures r.states[3].phase.AfterStop? && |Orders(r.states[3])| == 2
  {
    r := StoppedRun();
  }

  // ---------------------------------------------------------------- two orders in one message

  const DRAW_BOTH := Draw([PLACE, PLACE], 2, 0.0, 0.0)

  lemma QueueResuming(q: Queue)
    requires Restarted(q)
    ensures IsNext(q, 14)
    ensures var r := Take(q, 14); r.now == 1500 && r.nextUid == 15 && OnlySoon(r, {8}) && Has(r, 8, 2000, SendOrder)
  {
    forall v <- q.pending ensures Earlier(q, 14, v) {
      assert v in {8, 14} || q.pending[v].time >= 60_000;
    }
  }

  lemma QueueResumed(q: Queue)
    requires q.now == 1500 && q.nextUid == 15 && OnlySoon(q, {8}) && Has(q, 8, 2000, SendOrder)
    ensures IsNext(QueueAfterOrder(Short(1), q, false, Some(13)), 8)
    ensures Has(QueueAfterOrder(Short(1), q, false, Some(13)), 8, 2000, SendOrder)
  {}

  /** The ids of a list of nodes. */
  function Ids(nodes: seq<NodeState>): seq<nat> {
    seq(|nodes|, i requires 0 <= i < |nodes| => nodes[i].sequenceId)
  }

  lemma BothFit(d: Deques)
    requires d.AllEmpty()
    ensures DrawInRange(Short(1), d, DRAW_BOTH) && OrderSafe(d, DRAW_BOTH)
    ensures var r := Released(Replenished(d, DRAW_BOTH), 2); r.NothingPlanned() && Ids(r.nodes) == [0, 1] && |r.edges| == 2
  {
    assert |MakeNodes(DRAW_BOTH.places)| == 2 && |MakeEdges(DRAW_BOTH.places)| == 2;
  }

  lemma ResumeStep(s: AgvState) returns (t: AgvState)
    requires Restarted(s.q) && s.nextState == Some(13) && s.d.AllEmpty() && s.phase.AfterStop?
    ensures Step(Short(1), s, Move(14, DRAW_BOTH), t) && t.phase.AfterStop?
    ensures IsNext(t.q, 8) && Has(t.q, 8, 2000, SendOrder)
    ensures t.d.NothingPlanned() && Ids(t.d.nodes) == [0, 1] && |t.d.edges| == 2
  {
    hide QueueAfterOrder, MakeNodes, MakeEdges, DrawInRange, ChainAfterOrder;
    QueueResuming(s.q);
    BothFit(s.d);
    var s1 := s.(q := Take(s.q, 14));
    QueueResumed(s1.q);
    t := AfterOrder(Short(1), s1, DRAW_BOTH);
  }

  lemma OneMoreFits(d: Deques)
    requires d.NothingPlanned() && Ids(d.nodes) == [0, 1]
    ensures DrawInRange(Short(1), d, DRAW) && OrderSafe(d, DRAW)
    ensures Ids(Released(Replenished(d, DRAW), 1).nodes) == [0, 1, 0]
  {
    assert |MakeNodes(DRAW.places)| == 2 && |MakeEdges(DRAW.places)| == 2;
    assert |d.nodes| == |Ids(d.nodes)| == 2;
    assert d.nodes[0].sequenceId == Ids(d.nodes)[0] && d.nodes[1].sequenceId == Ids(d.nodes)[1];
  }

  lemma MixStep(s: AgvState) returns (t: AgvState)
    requires IsNext(s.q, 8) && Has(s.q, 8, 2000, SendOrder) && s.d.NothingPlanned() && Ids(s.d.nodes) == [0, 1]
    ensures Step(Short(1), s, Move(8, DRAW), t)
    ensures LastOf(t.sent, Order) == Some(OrderMessage(t.d.nodes, t.d.edges)) && Ids(t.d.nodes) == [0, 1, 0]
  {
    hide QueueAfterOrder, MakeNodes, MakeEdges, DrawInRange, ChainAfterOrder;
    OneMoreFits(s.d);
    t := AfterOrder(Short(1), s.(q := Take(s.q, 8)), DRAW);
    LogAppend(s.sent, t.sent[|s.sent|], Order);
    assert t.sent == s.sent + [t.sent[|s.sent|]];
  }

  /** The old continuation finds a new order released but not yet traversed and nothing planned, so it generates
      another order: its message starts with two nodes of one order and goes on with the first node of the next. */
  lemma TwoOrdersInOneMessage() returns (r: Run)
    ensures Short(1).Valid() && r.Of(Short(1)) && |r.moves| == 5
    ensures Mixes(r, 4) && Ids(r.states[4].d.nodes) == [0, 1]
    ensures LastOf(r.states[5].sent, Order) == Some(OrderMessage(r.states[5].d.nodes, r.states[5].d.edges))
    ensures Ids(r.states[5].d.nodes) == [0, 1, 0]
  {
    hide RunHandler;
    r := StoppedRun();
    var s := ResumeStep(r.states[3]);
    var t := MixStep(s);
    RunExtends(Short(1), r, Move(14, DRAW_BOTH), s);
    r := Run(r.states + [s], r.moves + [Move(14, DRAW_BOTH)]);
    RunExtends(Short(1), r, Move(8, DRAW), t);
    r := Run(r.states + [t], r.moves + [Move(8, DRAW)]);
    assert Ids(r.states[4].d.nodes)[0] == 0;
  }
}
