/** Orders while there is a single chain of them: in every state of a VDA5050 run, and of a TELEOP run before start and
    after a session that found nothing planned. The four deques are one order read through two cursors, and the clock
    bounds how long that takes. */
module OrderChain {
  import opened Basics
  import opened EventQueue
  import opened Commands
  import opened AgvModel
  import opened AgvInvariants
  import opened SentLog

  // ---------------------------------------------------------------- cursors

  /** `c.released` nodes and edges have left the plan, `c.steps` state steps have been made. */
  predicate Cursors(d: Deques, c: Chain) {
    && |c.nodes| == |c.edges|
    && c.steps <= 2 * c.released <= 2 * |c.nodes|
    && d.nodes == c.nodes[c.steps / 2..c.released]
    && d.edges == c.edges[(c.steps + 1) / 2..c.released]
    && d.plannedNodes == c.nodes[c.released..]
    && d.plannedEdges == c.edges[c.released..]
  }

  /** Sequence ids count from 0 without a gap. */
  predicate Numbered(c: Chain) {
    && |c.nodes| == |c.edges|
    && forall i :: 0 <= i < |c.nodes| ==> c.nodes[i].sequenceId == i && c.edges[i].sequenceId == i
  }

  /** The released part is cut into one non-empty block per order message, and the update id counts them. */
  predicate Blocks(cfg: Config, c: Chain, updateId: nat) {
    && c.released <= |c.nodes| <= cfg.orderLenMax
    && |c.blocks| <= c.released
    && (c.blocks == [] <==> c.nodes == [])
    && Flatten(c.blocks) == c.nodes[..c.released]
    && (forall i :: 0 <= i < |c.blocks| ==> c.blocks[i] != [])
    && (c.blocks != [] ==> updateId == |c.blocks| - 1)
  }

  lemma CursorsAfterFresh(d: Deques, c: Chain, n: nat)
    requires |c.nodes| == |c.edges| && n <= |c.nodes| && c.released == n && c.steps == 0
    requires d.nodes == c.nodes[..n] && d.plannedNodes == c.nodes[n..]
    requires d.edges == c.edges[..n] && d.plannedEdges == c.edges[n..]
    ensures Cursors(d, c)
  {}

  lemma CursorsAfterUpdate(d: Deques, c: Chain, n: nat, c': Chain)
    requires Cursors(d, c) && n <= |d.plannedNodes| && c'.released == c.released + n
    requires c'.nodes == c.nodes && c'.edges == c.edges && c'.steps == c.steps
    ensures Cursors(Released(d, n), c')
  {
    var r := Released(d, n);
    assert r.nodes == c.nodes[c.steps / 2..c.released] + c.nodes[c.released..c'.released];
    assert r.edges == c.edges[(c.steps + 1) / 2..c.released] + c.edges[c.released..c'.released];
  }

  lemma CursorsAfterOrder(d: Deques, c: Chain, draw: Draw, now: nat, uid: nat)
    requires Cursors(d, c) && OrderSafe(d, draw) && (d.NothingPlanned() ==> d.NothingReleased())
    ensures Cursors(Released(Replenished(d, draw), draw.release),
                    ChainAfterOrder(c, now, uid, d.NothingPlanned(), Replenished(d, draw), draw.release))
  {
    var p := Replenished(d, draw);
    var c' := ChainAfterOrder(c, now, uid, d.NothingPlanned(), p, draw.release);
    if d.NothingPlanned() {
      CursorsAfterFresh(Released(p, draw.release), c', draw.release);
    } else {
      CursorsAfterUpdate(d, c, draw.release, c');
    }
  }

  lemma CursorsAfterState(d: Deques, c: Chain)
    requires Cursors(d, c) && StateSafe(d) && !d.NothingReleased()
    ensures c.steps < 2 * c.released
    ensures Cursors(Traversed(d), c.(steps := c.steps + 1))
    ensures Empties(d) <==> c.released == |c.nodes| && c.steps + 1 == 2 * |c.nodes|
  {}

  lemma NumberedAfterOrder(d: Deques, c: Chain, draw: Draw, now: nat, uid: nat)
    requires Numbered(c) && OrderSafe(d, draw)
    ensures Numbered(ChainAfterOrder(c, now, uid, d.NothingPlanned(), Replenished(d, draw), draw.release))
  {}

  /** One more block, cut off right where the previous ones end. */
  lemma BlockAppended(blocks: seq<seq<NodeState>>, nodes: seq<NodeState>, from: nat, n: nat)
    requires from + n <= |nodes| && Flatten(blocks) == nodes[..from]
    ensures Flatten(blocks + [nodes[from..][..n]]) == nodes[..from + n]
  {
    FlattenAppend(blocks, nodes[from..][..n]);
    assert nodes[..from] + nodes[from..][..n] == nodes[..from + n];
  }

  lemma BlocksAfterFresh(cfg: Config, c: Chain, nodes: seq<NodeState>, n: nat)
    requires 1 <= n <= |nodes| <= cfg.orderLenMax
    requires c.nodes == nodes && c.released == n && c.blocks == [nodes[..n]]
    ensures Blocks(cfg, c, 0)
  {
    BlockAppended([], nodes, 0, n);
    assert [] + [nodes[0..][..n]] == [nodes[..n]];
  }

  lemma BlocksAfterUpdate(cfg: Config, c: Chain, c': Chain, updateId: nat, n: nat)
    requires Blocks(cfg, c, updateId) && 1 <= n && c.released + n <= |c.nodes|
    requires c'.nodes == c.nodes && c'.released == c.released + n && c'.blocks == c.blocks + [c.nodes[c.released..][..n]]
    ensures Blocks(cfg, c', updateId + 1)
  {
    BlockAppended(c.blocks, c.nodes, c.released, n);
  }

  lemma BlocksAfterOrder(cfg: Config, d: Deques, c: Chain, updateId: nat, draw: Draw, now: nat, uid: nat)
    requires cfg.Valid() && Cursors(d, c) && Blocks(cfg, c, updateId)
    requires OrderSafe(d, draw) && DrawInRange(cfg, d, draw)
    ensures Blocks(cfg, ChainAfterOrder(c, now, uid, d.NothingPlanned(), Replenished(d, draw), draw.release),
                   if d.NothingPlanned() then 0 else (updateId + 1) % 0x1_0000_0000)
  {
    var p := Replenished(d, draw);
    var c' := ChainAfterOrder(c, now, uid, d.NothingPlanned(), p, draw.release);
    if d.NothingPlanned() {
      assert c'.blocks == [p.plannedNodes[..draw.release]];
      BlocksAfterFresh(cfg, c', p.plannedNodes, draw.release);
    } else {
      BlocksAfterUpdate(cfg, c, c', updateId, draw.release);
      assert updateId + 1 < 0x1_0000_0000;
    }
  }

  // ---------------------------------------------------------------- time

  /** `stateAt` is the time of the pending `sendState`, `orderAt` that of the pending `sendOrder` if there is one. */
  predicate Timed(cfg: Config, d: Deques, c: Chain, stateAt: nat, orderAt: nat) {
    && c.stepsAtMessage <= c.steps
    && (c.blocks != [] ==> c.lastMessageAt == c.startedAt + (|c.blocks| - 1) * cfg.continuation)
    && (!d.NothingReleased() ==>
          stateAt == c.lastMessageAt + cfg.stateAfterOrder + (c.steps - c.stepsAtMessage) * cfg.finishStep)
    && (!d.NothingPlanned() ==> orderAt == c.lastMessageAt + cfg.continuation)
    && (d.AllEmpty() && c.blocks != [] ==>
          && c.emptiedAt == EmptyTime(cfg, c)
          && orderAt == c.emptiedAt + cfg.nextOrderAfterFinish)
  }

  /** When the deques of this order run empty: 2L state steps, the first `stateAfterOrder` after the last message. */
  function EmptyTime(cfg: Config, c: Chain): int {
    c.lastMessageAt + cfg.stateAfterOrder + (2 * |c.nodes| - 1 - c.stepsAtMessage) * cfg.finishStep
  }

  lemma TimedAfterOrder(cfg: Config, d: Deques, c: Chain, stateAt: nat, orderAt: nat, draw: Draw, uid: nat)
    requires Cursors(d, c) && Timed(cfg, d, c, stateAt, orderAt)
    requires OrderSafe(d, draw) && 1 <= draw.release
    requires d.NothingPlanned() ==> d.NothingReleased()
    requires !d.NothingPlanned() ==> c.blocks != []
    ensures Timed(cfg, Released(Replenished(d, draw), draw.release),
                  ChainAfterOrder(c, orderAt, uid, d.NothingPlanned(), Replenished(d, draw), draw.release),
                  orderAt + cfg.stateAfterOrder,
                  if Released(Replenished(d, draw), draw.release).plannedNodes != [] then orderAt + cfg.continuation else 0)
  {
    var c' := ChainAfterOrder(c, orderAt, uid, d.NothingPlanned(), Replenished(d, draw), draw.release);
    if !d.NothingPlanned() {
      OneMore(|c.blocks| - 1, cfg.continuation);
    }
  }

  lemma OneMore(n: int, delay: nat)
    ensures n * delay + delay == (n + 1) * delay
  {}

  lemma TimedAfterStep(cfg: Config, d: Deques, c: Chain, stateAt: nat, orderAt: nat)
    requires Cursors(d, c) && Timed(cfg, d, c, stateAt, orderAt) && StateSafe(d) && !d.NothingReleased()
    ensures Timed(cfg, Traversed(d),
                  c.(steps := c.steps + 1, emptiedAt := if Empties(d) then stateAt else c.emptiedAt, sinceState := 0),
                  stateAt + cfg.finishStep,
                  if Empties(d) then stateAt + cfg.nextOrderAfterFinish else orderAt)
  {
    CursorsAfterState(d, c);
    OneMore(c.steps - c.stepsAtMessage, cfg.finishStep);
  }

  /** A released but unfinished order: its next state message comes no later than `EmptyTime`,
      which is at most the stated bound after the order started. */
  lemma EmptyTimeBounded(cfg: Config, d: Deques, c: Chain, updateId: nat)
    requires Cursors(d, c) && Blocks(cfg, c, updateId) && c.blocks != [] && c.stepsAtMessage <= c.steps
    requires c.lastMessageAt == c.startedAt + (|c.blocks| - 1) * cfg.continuation
    ensures EmptyTime(cfg, c) <= CompletionBound(cfg, c)
  {
    MulMonotone(|c.blocks| - 1, |c.nodes| - 1, cfg.continuation);
    if c.stepsAtMessage < 2 * |c.nodes| {
      MulMonotone(2 * |c.nodes| - 1 - c.stepsAtMessage, 2 * |c.nodes| - 1, cfg.finishStep);
    }
  }

  function CompletionBound(cfg: Config, c: Chain): int {
    c.startedAt + (|c.nodes| - 1) * cfg.continuation + cfg.stateAfterOrder + (2 * |c.nodes| - 1) * cfg.finishStep
  }

  lemma StateBeforeEmptyTime(cfg: Config, d: Deques, c: Chain, stateAt: nat, orderAt: nat)
    requires Cursors(d, c) && Timed(cfg, d, c, stateAt, orderAt) && d.nodes != []
    ensures stateAt <= EmptyTime(cfg, c)
  {
    MulMonotone(c.steps - c.stepsAtMessage, 2 * |c.nodes| - 1 - c.stepsAtMessage, cfg.finishStep);
  }

  // ---------------------------------------------------------------- silence

  /** The longest pause between two state messages: an idle or step interval, then an order whose
      updates keep pushing the state message back. */
  function SilenceBound(cfg: Config): nat {
    Max(cfg.idleInterval, cfg.finishStep)
    + (if cfg.continuation > cfg.stateAfterOrder then 0 else (cfg.orderLenMax - 1) * cfg.continuation)
    + cfg.stateAfterOrder
  }

  predicate Spaced(times: seq<nat>, bound: nat) {
    forall i :: 0 < i < |times| ==> times[i] <= times[i - 1] + bound
  }

  predicate Silence(cfg: Config, times: seq<nat>, d: Deques, c: Chain, stateAt: nat) {
    && Spaced(times, SilenceBound(cfg))
    && c.sinceState <= |c.blocks|
    && (c.sinceState > 0 ==>
          && d.nodes != []
          && c.steps == c.stepsAtMessage
          && (cfg.continuation > cfg.stateAfterOrder ==> c.sinceState == 1))
    && (times != [] ==>
          var last := times[|times| - 1] + Max(cfg.idleInterval, cfg.finishStep);
          if c.sinceState == 0 then stateAt <= last
          else c.lastMessageAt <= last + (c.sinceState - 1) * cfg.continuation)
  }

  /** While order messages are unanswered, the state timer runs from the latest of them. */
  lemma Rearmed(cfg: Config, times: seq<nat>, d: Deques, c: Chain, stateAt: nat, orderAt: nat)
    requires Timed(cfg, d, c, stateAt, orderAt) && Silence(cfg, times, d, c, stateAt) && c.sinceState > 0
    ensures stateAt == c.lastMessageAt + cfg.stateAfterOrder
  {
    assert (c.steps - c.stepsAtMessage) * cfg.finishStep == 0;
  }

  /** The pending state message is never further than the bound from the previous one. */
  lemma SilenceBounded(cfg: Config, times: seq<nat>, d: Deques, c: Chain, stateAt: nat)
    requires Silence(cfg, times, d, c, stateAt)
    requires c.sinceState > 0 ==> stateAt == c.lastMessageAt + cfg.stateAfterOrder
    requires times != [] && |c.blocks| <= cfg.orderLenMax && 1 <= cfg.orderLenMax
    ensures stateAt <= times[|times| - 1] + SilenceBound(cfg)
  {
    var last := times[|times| - 1] + Max(cfg.idleInterval, cfg.finishStep);
    if c.sinceState > 0 {
      var pause, most := (c.sinceState - 1) * cfg.continuation, (cfg.orderLenMax - 1) * cfg.continuation;
      assert pause <= most by { MulMonotone(c.sinceState - 1, cfg.orderLenMax - 1, cfg.continuation); }
      assert cfg.continuation > cfg.stateAfterOrder ==> pause == 0;
      assert stateAt <= last + pause + cfg.stateAfterOrder;
    }
  }

  lemma SilenceAfterState(cfg: Config, times: seq<nat>, d: Deques, c: Chain, stateAt: nat, orderAt: nat,
                          d': Deques, c': Chain, delay: nat)
    requires Timed(cfg, d, c, stateAt, orderAt) && Silence(cfg, times, d, c, stateAt)
    requires |c.blocks| <= cfg.orderLenMax && 1 <= cfg.orderLenMax
    requires delay <= Max(cfg.idleInterval, cfg.finishStep) && c'.sinceState == 0
    ensures Silence(cfg, times + [stateAt], d', c', stateAt + delay)
  {
    if c.sinceState > 0 { Rearmed(cfg, times, d, c, stateAt, orderAt); }
    if times != [] { SilenceBounded(cfg, times, d, c, stateAt); }
  }

  /** An order message re-arms the state timer; it is the first since the last state message, or an
      update of the same order that came before the timer ran out. */
  lemma SilenceAfterOrder(cfg: Config, times: seq<nat>, d: Deques, c: Chain, stateAt: nat, orderAt: nat,
                          draw: Draw, uid: nat)
    requires Timed(cfg, d, c, stateAt, orderAt) && Silence(cfg, times, d, c, stateAt)
    requires OrderSafe(d, draw) && 1 <= draw.release && orderAt <= stateAt
    requires d.NothingPlanned() ==> d.NothingReleased()
    ensures Silence(cfg, times, Released(Replenished(d, draw), draw.release),
                    ChainAfterOrder(c, orderAt, uid, d.NothingPlanned(), Replenished(d, draw), draw.release),
                    orderAt + cfg.stateAfterOrder)
  {
    if c.sinceState > 0 {
      Rearmed(cfg, times, d, c, stateAt, orderAt);
      assert (c.sinceState - 1) * cfg.continuation + cfg.continuation == c.sinceState * cfg.continuation;
    }
  }

  // ---------------------------------------------------------------- every step before start

  function TimeOf(q: Queue, u: nat): nat {
    if u in q.pending then q.pending[u].time else 0
  }

  function StateAt(s: AgvState): nat
    requires s.nextState.Some?
  {
    TimeOf(s.q, s.nextState.value)
  }

  /** Time of the one pending `sendOrder`, or 0 while there is none. */
  function OrderAt(s: AgvState): nat
    requires s.nextOrder.Some?
  {
    if s.d.plannedNodes != [] then TimeOf(s.q, s.chain.continuation)
    else if s.d.nodes == [] then TimeOf(s.q, s.nextOrder.value)
    else 0
  }

  /** The latest order message carried everything released and not yet traversed at that time. */
  predicate MessageLogged(sent: seq<Sent>, c: Chain) {
    && c.stepsAtMessage <= c.steps <= 2 * c.released <= 2 * |c.nodes| == 2 * |c.edges|
    && (c.blocks != [] ==>
          LastOf(sent, Order)
          == Some(OrderMessage(c.nodes[c.stepsAtMessage / 2..c.released], c.edges[(c.stepsAtMessage + 1) / 2..c.released])))
  }

  /** At most one `sendOrder` is pending: the continuation while something is planned, the one `next_order_` names when
      all deques are empty, none in between. */
  predicate Followed(s: AgvState) { Tracked(s.d, Orders(s), s.nextOrder, s.chain.continuation) }

  predicate Toggles(kind: Kind) { kind.StartTeleoperation? || kind.StopTeleoperation? }

  lemma FollowedByOrder(cfg: Config, s: AgvState, m: Move, t: AgvState)
    requires Tidy(s) && Paired(s.d) && Followed(s) && Step(cfg, s, m, t) && KindOf(s, m).SendOrder?
    ensures Followed(t)
  {
    var s1 := Started(s, m);
    OrdersAfterOrder(cfg, s1, m.draw);
    assert s.q.nextUid !in Orders(s);
    CountedReleased(BeforeStart, s.d, Orders(s), s.nextOrder, s.chain.continuation, m.u, s.q.nextUid, t.d);
  }

  lemma FollowedByState(cfg: Config, s: AgvState, m: Move, t: AgvState)
    requires Tidy(s) && Paired(s.d) && Followed(s) && Step(cfg, s, m, t) && KindOf(s, m).SendState?
    ensures Followed(t)
  {
    hide RunHandler;
    StateHasEffect(cfg, s, m, t);
    assert s.q.nextUid + 1 !in Orders(s);
    CountedTraversed(BeforeStart, s.d, Orders(s), s.nextOrder, s.chain.continuation, s.q.nextUid + 1);
  }

  lemma FollowedKept(cfg: Config, s: AgvState, m: Move, t: AgvState)
    requires Tidy(s) && Paired(s.d) && Followed(s) && Step(cfg, s, m, t) && !Toggles(KindOf(s, m))
    ensures Followed(t)
  {
    hide RunHandler;
    if KindOf(s, m).SendOrder? { FollowedByOrder(cfg, s, m, t); }
    else if KindOf(s, m).SendState? { FollowedByState(cfg, s, m, t); }
    else { OrderStateUnmoved(cfg, s, m, t); Untouched(cfg, s, m, t, SendOrder); }
  }

  /** Then an order is generated only when all four deques are empty. */
  lemma OnlyOneOrder(s: AgvState, m: Move)
    requires Followed(s) && IsNext(s.q, m.u) && KindOf(s, m).SendOrder?
    requires Cursors(s.d, s.chain)
    ensures s.nextOrder.Some?
    ensures m.u == if s.d.plannedNodes != [] then s.chain.continuation else s.nextOrder.value
    ensures s.q.pending[m.u].time == OrderAt(s)
    ensures s.d.NothingPlanned() ==> s.d.NothingReleased()
  {
    assert m.u in Orders(s);
  }

  /** `t` differs from `s` by one traversal step, as far as orders are concerned. */
  predicate Stepped(s: AgvState, t: AgvState)
    requires StateSafe(s.d)
  {
    && t.updateId == s.updateId && LastOf(t.sent, Order) == LastOf(s.sent, Order)
    && if s.d.NothingReleased() then
         t.d == s.d && t.chain == s.chain.(sinceState := 0)
       else
         && t.d == Traversed(s.d)
         && t.chain == s.chain.(steps := s.chain.steps + 1, sinceState := 0,
                                emptiedAt := if Empties(s.d) then s.q.now else s.chain.emptiedAt)
  }

  lemma SteppedByState(cfg: Config, s: AgvState)
    requires StateSafe(s.d)
    ensures Stepped(s, AfterState(cfg, s))
  {
    LogAppend(s.sent, Sent(s.q.now, Ue, PUBLISH_VDA, Topic.State, StateMessage(s.d.nodes, s.d.edges)), Order);
  }

  lemma MessageLoggedAfterOrder(cfg: Config, s: AgvState, draw: Draw)
    requires Cursors(s.d, s.chain) && OrderSafe(s.d, draw)
    requires s.d.NothingPlanned() ==> s.d.NothingReleased()
    ensures MessageLogged(AfterOrder(cfg, s, draw).sent, AfterOrder(cfg, s, draw).chain)
  {
    var t := AfterOrder(cfg, s, draw);
    CursorsAfterOrder(s.d, s.chain, draw, s.q.now, s.q.nextUid);
    MessageOfOrder(s.sent, s.q.now, t.d, t.chain);
  }

  lemma MessageOfOrder(sent: seq<Sent>, now: nat, d: Deques, c: Chain)
    requires Cursors(d, c) && c.stepsAtMessage == c.steps && c.blocks != []
    ensures MessageLogged(sent + [Sent(now, Base, PUBLISH_VDA, Topic.Order, OrderMessage(d.nodes, d.edges))], c)
  {
    LogAppend(sent, Sent(now, Base, PUBLISH_VDA, Topic.Order, OrderMessage(d.nodes, d.edges)), Order);
  }

  lemma TimesAfterOrder(cfg: Config, q: Queue, more: bool, h: Handle)
    requires WellFormed(q) && Past(q, h)
    ensures var r := QueueAfterOrder(cfg, q, more, h);
            && TimeOf(r, if more then q.nextUid + 1 else q.nextUid) == q.now + cfg.stateAfterOrder
            && (more ==> TimeOf(r, q.nextUid) == q.now + cfg.continuation)
  {}

  lemma TimesAfterState(cfg: Config, q: Queue, idle: bool, done: bool)
    requires WellFormed(q)
    ensures TimeOf(QueueAfterState(cfg, q, idle, done), q.nextUid)
         == q.now + (if idle then cfg.idleInterval else cfg.finishStep)
    ensures done ==> TimeOf(QueueAfterState(cfg, q, idle, done), q.nextUid + 1) == q.now + cfg.nextOrderAfterFinish
    ensures forall v: nat | v < q.nextUid :: TimeOf(QueueAfterState(cfg, q, idle, done), v) == TimeOf(q, v)
  {}

  lemma ClockAfterOrder(cfg: Config, s: AgvState, draw: Draw)
    requires Tidy(s) && s.nextOrder.Some? && OrderSafe(s.d, draw) && 1 <= draw.release
    ensures var t := AfterOrder(cfg, s, draw);
            && StateAt(t) == s.q.now + cfg.stateAfterOrder
            && OrderAt(t) == (if t.d.plannedNodes != [] then s.q.now + cfg.continuation else 0)
            && TimesOf(t.sent, State) == TimesOf(s.sent, State)
  {
    var t := AfterOrder(cfg, s, draw);
    TimesAfterOrder(cfg, s.q, t.d.plannedNodes != [], s.nextState);
    LogAppend(s.sent, Sent(s.q.now, Base, PUBLISH_VDA, Topic.Order, OrderMessage(t.d.nodes, t.d.edges)), State);
  }

  lemma ClockAfterState(cfg: Config, s: AgvState)
    requires Tidy(s) && s.nextOrder.Some? && Paired(s.d)
    requires s.d.plannedNodes != [] ==> s.chain.continuation < s.q.nextUid
    ensures var t := AfterState(cfg, s);
            && StateAt(t) == s.q.now + (if s.d.NothingReleased() then cfg.idleInterval else cfg.finishStep)
            && OrderAt(t) == (if Empties(s.d) then s.q.now + cfg.nextOrderAfterFinish else OrderAt(s))
            && TimesOf(t.sent, State) == TimesOf(s.sent, State) + [s.q.now]
  {
    TimesAfterState(cfg, s.q, s.d.NothingReleased(), Empties(s.d));
    LogAppend(s.sent, Sent(s.q.now, Ue, PUBLISH_VDA, Topic.State, StateMessage(s.d.nodes, s.d.edges)), State);
    DueAfterState(s.d);
  }

  lemma TimedOkAfterOrder(cfg: Config, s: AgvState, draw: Draw, stateAt: nat)
    requires Tidy(s) && s.nextOrder.Some? && Cursors(s.d, s.chain)
    requires Timed(cfg, s.d, s.chain, stateAt, s.q.now)
    requires OrderSafe(s.d, draw) && 1 <= draw.release
    requires s.d.NothingPlanned() ==> s.d.NothingReleased()
    requires !s.d.NothingPlanned() ==> s.chain.blocks != []
    ensures var t := AfterOrder(cfg, s, draw); Timed(cfg, t.d, t.chain, StateAt(t), OrderAt(t))
  {
    TimedAfterOrder(cfg, s.d, s.chain, stateAt, s.q.now, draw, s.q.nextUid);
    ClockAfterOrder(cfg, s, draw);
  }

  lemma SilenceOkAfterOrder(cfg: Config, s: AgvState, draw: Draw, stateAt: nat)
    requires Tidy(s) && s.nextOrder.Some?
    requires Timed(cfg, s.d, s.chain, stateAt, s.q.now)
    requires Silence(cfg, TimesOf(s.sent, State), s.d, s.chain, stateAt) && s.q.now <= stateAt
    requires OrderSafe(s.d, draw) && 1 <= draw.release
    requires s.d.NothingPlanned() ==> s.d.NothingReleased()
    ensures var t := AfterOrder(cfg, s, draw); Silence(cfg, TimesOf(t.sent, State), t.d, t.chain, StateAt(t))
  {
    SilenceAfterOrder(cfg, TimesOf(s.sent, State), s.d, s.chain, stateAt, s.q.now, draw, s.q.nextUid);
    ClockAfterOrder(cfg, s, draw);
  }

  lemma SilenceOkAfterState(cfg: Config, s: AgvState)
    requires Tidy(s) && s.nextOrder.Some? && Paired(s.d)
    requires Timed(cfg, s.d, s.chain, s.q.now, OrderAt(s))
    requires Silence(cfg, TimesOf(s.sent, State), s.d, s.chain, s.q.now)
    requires |s.chain.blocks| <= cfg.orderLenMax && 1 <= cfg.orderLenMax
    requires s.d.plannedNodes != [] ==> s.chain.continuation < s.q.nextUid
    ensures var t := AfterState(cfg, s); Silence(cfg, TimesOf(t.sent, State), t.d, t.chain, StateAt(t))
  {
    var t := AfterState(cfg, s);
    var delay := if s.d.NothingReleased() then cfg.idleInterval else cfg.finishStep;
    SilenceAfterState(cfg, TimesOf(s.sent, State), s.d, s.chain, s.q.now, OrderAt(s), t.d, t.chain, delay);
    ClockAfterState(cfg, s);
  }

  lemma TimedIfStepped(cfg: Config, s: AgvState, t: AgvState)
    requires s.nextOrder.Some? && StateSafe(s.d) && Cursors(s.d, s.chain) && Timed(cfg, s.d, s.chain, s.q.now, OrderAt(s))
    requires Stepped(s, t) && t.nextState.Some? && t.nextOrder.Some?
    requires !s.d.NothingReleased() ==> StateAt(t) == s.q.now + cfg.finishStep
    requires OrderAt(t) == if Empties(s.d) then s.q.now + cfg.nextOrderAfterFinish else OrderAt(s)
    ensures Timed(cfg, t.d, t.chain, StateAt(t), OrderAt(t))
  {
    if !s.d.NothingReleased() { TimedAfterStep(cfg, s.d, s.chain, s.q.now, OrderAt(s)); }
  }

  lemma TimedOkAfterState(cfg: Config, s: AgvState)
    requires Tidy(s) && s.nextOrder.Some? && Paired(s.d) && Cursors(s.d, s.chain)
    requires Timed(cfg, s.d, s.chain, s.q.now, OrderAt(s))
    requires s.d.plannedNodes != [] ==> s.chain.continuation < s.q.nextUid
    ensures var t := AfterState(cfg, s); t.nextOrder.Some? && Timed(cfg, t.d, t.chain, StateAt(t), OrderAt(t))
  {
    ClockAfterState(cfg, s);
    SteppedByState(cfg, s);
    TimedIfStepped(cfg, s, AfterState(cfg, s));
  }

  // ---------------------------------------------------------------- one step of a run

  lemma CursorsKeptByOrder(cfg: Config, s: AgvState, m: Move, t: AgvState)
    requires Cursors(s.d, s.chain) && Step(cfg, s, m, t) && KindOf(s, m).SendOrder?
    requires s.d.NothingPlanned() ==> s.d.NothingReleased()
    ensures Cursors(t.d, t.chain)
  {
    CursorsAfterOrder(s.d, s.chain, m.draw, Started(s, m).q.now, s.q.nextUid);
  }

  lemma BlocksKeptByOrder(cfg: Config, s: AgvState, m: Move, t: AgvState)
    requires cfg.Valid() && Step(cfg, s, m, t) && KindOf(s, m).SendOrder?
    requires Cursors(s.d, s.chain) && Numbered(s.chain) && Blocks(cfg, s.chain, s.updateId)
    ensures Numbered(t.chain) && Blocks(cfg, t.chain, t.updateId)
  {
    hide Blocks, Numbered, Cursors, ChainAfterOrder, Released, QueueAfterOrder;
    NumberedAfterOrder(s.d, s.chain, m.draw, Started(s, m).q.now, s.q.nextUid);
    BlocksAfterOrder(cfg, s.d, s.chain, s.updateId, m.draw, Started(s, m).q.now, s.q.nextUid);
  }

  lemma SteppedByStep(cfg: Config, s: AgvState, m: Move, t: AgvState)
    requires Step(cfg, s, m, t) && KindOf(s, m).SendState?
    ensures Stepped(Started(s, m), t)
  {
    SteppedByState(cfg, Started(s, m));
  }

  lemma SameCursors(d: Deques, c: Chain, c': Chain)
    requires Cursors(d, c) && c'.nodes == c.nodes && c'.edges == c.edges && c'.released == c.released && c'.steps == c.steps
    ensures Cursors(d, c')
  {}

  lemma CursorsIfStepped(s: AgvState, t: AgvState)
    requires Cursors(s.d, s.chain) && StateSafe(s.d) && Stepped(s, t)
    ensures Cursors(t.d, t.chain)
  {
    if !s.d.NothingReleased() {
      CursorsAfterState(s.d, s.chain);
      SameCursors(t.d, s.chain.(steps := s.chain.steps + 1), t.chain);
    } else {
      SameCursors(t.d, s.chain, t.chain);
    }
  }

  lemma BlocksIfStepped(cfg: Config, s: AgvState, t: AgvState)
    requires Numbered(s.chain) && Blocks(cfg, s.chain, s.updateId) && StateSafe(s.d) && Stepped(s, t)
    ensures Numbered(t.chain) && Blocks(cfg, t.chain, t.updateId)
  {}

  lemma CursorsKept(cfg: Config, s: AgvState, m: Move, t: AgvState)
    requires Cursors(s.d, s.chain) && Followed(s) && Step(cfg, s, m, t) && !Toggles(KindOf(s, m))
    ensures Cursors(t.d, t.chain)
  {
    if KindOf(s, m).SendOrder? { OnlyOneOrder(s, m); CursorsKeptByOrder(cfg, s, m, t); }
    else if KindOf(s, m).SendState? { SteppedByStep(cfg, s, m, t); CursorsIfStepped(Started(s, m), t); }
    else { OrderStateUnmoved(cfg, s, m, t); }
  }

  lemma BlocksKept(cfg: Config, s: AgvState, m: Move, t: AgvState)
    requires cfg.Valid() && Step(cfg, s, m, t) && !Toggles(KindOf(s, m))
    requires Cursors(s.d, s.chain) && Numbered(s.chain) && Blocks(cfg, s.chain, s.updateId)
    ensures Numbered(t.chain) && Blocks(cfg, t.chain, t.updateId)
  {
    if KindOf(s, m).SendOrder? { BlocksKeptByOrder(cfg, s, m, t); }
    else if KindOf(s, m).SendState? { SteppedByStep(cfg, s, m, t); BlocksIfStepped(cfg, Started(s, m), t); }
    else { OrderStateUnmoved(cfg, s, m, t); }
  }

  lemma MessageIfStepped(s: AgvState, t: AgvState)
    requires Cursors(s.d, s.chain) && MessageLogged(s.sent, s.chain) && StateSafe(s.d) && Stepped(s, t)
    ensures MessageLogged(t.sent, t.chain)
  {
    if !s.d.NothingReleased() { CursorsAfterState(s.d, s.chain); }
  }

  lemma MessageLoggedKept(cfg: Config, s: AgvState, m: Move, t: AgvState)
    requires Cursors(s.d, s.chain) && MessageLogged(s.sent, s.chain) && Followed(s)
    requires Step(cfg, s, m, t) && !Toggles(KindOf(s, m))
    ensures MessageLogged(t.sent, t.chain)
  {
    if KindOf(s, m).SendOrder? { OnlyOneOrder(s, m); MessageLoggedAfterOrder(cfg, Started(s, m), m.draw); }
    else if KindOf(s, m).SendState? { SteppedByStep(cfg, s, m, t); MessageIfStepped(Started(s, m), t); }
    else { OrderStateUnmoved(cfg, s, m, t); LogUnmoved(cfg, s, m, t, Order); }
  }

  // The two clock invariants.

  ghost predicate TimedOk(cfg: Config, s: AgvState) {
    s.nextState.Some? && s.nextOrder.Some? && Timed(cfg, s.d, s.chain, StateAt(s), OrderAt(s))
  }

  ghost predicate SilenceOk(cfg: Config, s: AgvState) {
    s.nextState.Some? && Silence(cfg, TimesOf(s.sent, State), s.d, s.chain, StateAt(s))
  }

  /** The state and order events that are pending stay where they are, unless it is one of them that runs. */
  lemma ClockUnmoved(cfg: Config, s: AgvState, m: Move, t: AgvState)
    requires StateTracked(s) && Followed(s) && Step(cfg, s, m, t)
    requires !MovesOrders(KindOf(s, m))
    ensures s.nextOrder.Some? && StateAt(t) == StateAt(s) && OrderAt(t) == OrderAt(s)
  {
    OrderStateUnmoved(cfg, s, m, t);
    EventsKeepTheirTime(cfg, s, m, t);
    Untouched(cfg, s, m, t, SendState);
    Untouched(cfg, s, m, t, SendOrder);
    assert s.nextState.value in Live(t.q, SendState) && s.nextState.value in Live(s.q, SendState);
    assert forall v <- Orders(s) :: v in Orders(t) && v in s.q.pending && v in t.q.pending;
  }

  /** `sendState` runs at `StateAt`; taking it off the queue leaves the pending order where it is. */
  lemma StateIsDue(s: AgvState, m: Move)
    requires StateTracked(s) && Followed(s) && IsNext(s.q, m.u) && KindOf(s, m).SendState?
    ensures Started(s, m).q.now == StateAt(s)
    ensures s.nextOrder.Some? && OrderAt(Started(s, m)) == OrderAt(s)
    ensures s.d.plannedNodes != [] ==> s.chain.continuation < s.q.nextUid
  {
    assert m.u in Live(s.q, SendState);
    assert forall v <- Orders(s) :: v in s.q.pending && v != m.u;
  }

  /** `sendOrder` runs at `OrderAt`, no later than the pending `sendState`. */
  lemma OrderIsDue(s: AgvState, m: Move)
    requires StateTracked(s) && Followed(s) && IsNext(s.q, m.u) && KindOf(s, m).SendOrder?
    requires Cursors(s.d, s.chain)
    ensures s.nextOrder.Some? && Started(s, m).q.now == OrderAt(s) <= StateAt(s)
    ensures s.d.NothingPlanned() ==> s.d.NothingReleased()
  {
    OnlyOneOrder(s, m);
    assert s.nextState.value in Live(s.q, SendState);
    assert Earlier(s.q, m.u, s.nextState.value);
  }

  /** While everything but the clock is as the other invariants say. */
  ghost predicate Settled(cfg: Config, s: AgvState) {
    && cfg.Valid() && StateTracked(s) && Paired(s.d) && Followed(s)
    && Cursors(s.d, s.chain) && Blocks(cfg, s.chain, s.updateId) && TimedOk(cfg, s)
  }

  lemma TimedKeptByOrder(cfg: Config, s: AgvState, m: Move, t: AgvState)
    requires Settled(cfg, s) && Step(cfg, s, m, t) && KindOf(s, m).SendOrder?
    ensures TimedOk(cfg, t)
  {
    TidyStarted(s, m);
    OrderIsDue(s, m);
    TimedOkAfterOrder(cfg, Started(s, m), m.draw, StateAt(s));
  }

  lemma TimedKeptByState(cfg: Config, s: AgvState, m: Move, t: AgvState)
    requires Settled(cfg, s) && Step(cfg, s, m, t) && KindOf(s, m).SendState?
    ensures TimedOk(cfg, t)
  {
    TidyStarted(s, m);
    StateIsDue(s, m);
    TimedOkAfterState(cfg, Started(s, m));
  }

  lemma TimedKept(cfg: Config, s: AgvState, m: Move, t: AgvState)
    requires Settled(cfg, s) && Step(cfg, s, m, t) && !Toggles(KindOf(s, m))
    ensures TimedOk(cfg, t)
  {
    if KindOf(s, m).SendOrder? {
      TimedKeptByOrder(cfg, s, m, t);
    } else if KindOf(s, m).SendState? {
      TimedKeptByState(cfg, s, m, t);
    } else {
      OrderStateUnmoved(cfg, s, m, t);
      ClockUnmoved(cfg, s, m, t);
    }
  }

  lemma SilenceKeptByOrder(cfg: Config, s: AgvState, m: Move, t: AgvState)
    requires Settled(cfg, s) && SilenceOk(cfg, s) && Step(cfg, s, m, t) && KindOf(s, m).SendOrder?
    ensures SilenceOk(cfg, t)
  {
    TidyStarted(s, m);
    OrderIsDue(s, m);
    SilenceOkAfterOrder(cfg, Started(s, m), m.draw, StateAt(s));
  }

  lemma SilenceKeptByState(cfg: Config, s: AgvState, m: Move, t: AgvState)
    requires Settled(cfg, s) && SilenceOk(cfg, s) && Step(cfg, s, m, t) && KindOf(s, m).SendState?
    ensures SilenceOk(cfg, t)
  {
    TidyStarted(s, m);
    StateIsDue(s, m);
    SilenceOkAfterState(cfg, Started(s, m));
  }

  lemma SilenceKept(cfg: Config, s: AgvState, m: Move, t: AgvState)
    requires Settled(cfg, s) && SilenceOk(cfg, s) && Step(cfg, s, m, t) && !Toggles(KindOf(s, m))
    ensures SilenceOk(cfg, t)
  {
    if KindOf(s, m).SendOrder? {
      SilenceKeptByOrder(cfg, s, m, t);
    } else if KindOf(s, m).SendState? {
      SilenceKeptByState(cfg, s, m, t);
    } else {
      OrderStateUnmoved(cfg, s, m, t);
      ClockUnmoved(cfg, s, m, t);
      LogUnmoved(cfg, s, m, t, State);
    }
  }
}
