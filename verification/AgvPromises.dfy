/** Orders and clocks while there is a single chain of orders, and the teleoperation session, as promises over whole runs.
    In the VDA5050 scenario every state is before start. */
module AgvPromises {
  import opened Basics
  import opened EventQueue
  import opened Commands
  import opened AgvModel
  import opened AgvInvariants
  import opened SentLog
  import opened OrderChain
  import opened Teleoperation
  import opened AgvRuns
  import opened OrderLog

  // ---------------------------------------------------------------- one order, two cursors

  /** The deques are slices of one order with contiguous sequence ids: released so far, traversed so far, still planned. */
  lemma TwoCursors(cfg: Config, r: Run, i: nat)
    requires cfg.Valid() && r.Of(cfg) && i < |r.states| && Single(r.states[i])
    ensures Cursors(r.states[i].d, r.states[i].chain) && Numbered(r.states[i].chain)
    ensures r.states[i].d.AllEmpty() <==>
              r.states[i].chain.released == |r.states[i].chain.nodes| && r.states[i].chain.steps == 2 * |r.states[i].chain.nodes|
  {
    OrderHolds(cfg, r, i);
  }

  /** A new order is generated only once the previous one has been traversed to its end. */
  lemma FreshOnlyWhenEmpty(cfg: Config, r: Run, i: nat)
    requires cfg.Valid() && r.Of(cfg) && i < |r.moves| && |r.states| == |r.moves| + 1
    requires Single(r.states[i]) && IsNext(r.states[i].q, r.moves[i].u)
    requires KindOf(r.states[i], r.moves[i]).SendOrder? && r.states[i].d.NothingPlanned()
    ensures r.states[i].d.AllEmpty()
  {
    OrderHolds(cfg, r, i);
    ClockHolds(cfg, r, i);
    OnlyOneOrder(r.states[i], r.moves[i]);
  }

  /** A finished order of length L took 2L traversing state messages and between 1 and L order messages, counted in
      the log from its first message on; the update counter is the index of the latest of them. */
  lemma FinishedOrder(cfg: Config, r: Run, i: nat)
    requires cfg.Valid() && r.Of(cfg) && i < |r.states| && Single(r.states[i])
    requires r.states[i].chain.blocks != []
    ensures var s, c := r.states[i], r.states[i].chain;
            && s.opening < |s.sent| && s.sent[s.opening].topic.Order? && s.sent[s.opening].time == c.startedAt
            && s.updateId == OrderMessages(s.sent[s.opening..]) - 1 && |c.blocks| == OrderMessages(s.sent[s.opening..])
            && (s.d.AllEmpty() ==>
                  && Traversals(s.sent[s.opening..]) == 2 * |c.nodes|
                  && 1 <= OrderMessages(s.sent[s.opening..]) <= |c.nodes| <= cfg.orderLenMax
                  && Flatten(c.blocks) == c.nodes)
  {
    OrderHolds(cfg, r, i);
    CountsHold(cfg, r, i);
    var c := r.states[i].chain;
    assert c.nodes[..|c.nodes|] == c.nodes;
  }

  /** Nodes traversed since the latest order message. */
  function NodesPassed(c: Chain): int { c.steps / 2 - c.stepsAtMessage / 2 }

  /** Edges traversed since the latest order message. */
  function EdgesPassed(c: Chain): int { (c.steps + 1) / 2 - (c.stepsAtMessage + 1) / 2 }

  /** What the deques still hold is what the latest order message announced, less what has been traversed since. */
  predicate LeftOf(message: Option<Payload>, d: Deques, c: Chain) {
    && message.Some? && message.value.OrderMessage?
    && 0 <= NodesPassed(c) <= |message.value.nodes| && d.nodes == message.value.nodes[NodesPassed(c)..]
    && 0 <= EdgesPassed(c) <= |message.value.edges| && d.edges == message.value.edges[EdgesPassed(c)..]
  }

  lemma UpdateStitches(s: AgvState)
    requires Cursors(s.d, s.chain) && MessageLogged(s.sent, s.chain) && s.chain.blocks != []
    ensures LeftOf(LastOf(s.sent, Order), s.d, s.chain)
  {
    var c := s.chain;
    assert c.nodes[c.stepsAtMessage / 2..c.released][NodesPassed(c)..] == c.nodes[c.steps / 2..c.released];
    assert c.edges[(c.stepsAtMessage + 1) / 2..c.released][EdgesPassed(c)..] == c.edges[(c.steps + 1) / 2..c.released];
  }

  /** Section 6.6.2 of VDA 5050: an update starts with what is left of the previous message's nodes and edges
      and appends a non-empty block of newly released ones. */
  lemma UpdatesStitch(cfg: Config, r: Run, i: nat)
    requires cfg.Valid() && r.Of(cfg) && i < |r.moves| && |r.states| == |r.moves| + 1
    requires Single(r.states[i]) && IsNext(r.states[i].q, r.moves[i].u)
    requires KindOf(r.states[i], r.moves[i]).SendOrder? && !r.states[i].d.NothingPlanned()
    ensures var s, n := r.states[i], r.moves[i].draw.release;
            var prev, next := LastOf(s.sent, Order), LastOf(r.states[i + 1].sent, Order);
            && LeftOf(prev, s.d, s.chain) && next.Some? && next.value.OrderMessage?
            && 1 <= n <= |s.d.plannedNodes| == |s.d.plannedEdges|
            && next.value.nodes == prev.value.nodes[NodesPassed(s.chain)..] + s.d.plannedNodes[..n]
            && next.value.edges == prev.value.edges[EdgesPassed(s.chain)..] + s.d.plannedEdges[..n]
  {
    OrderHolds(cfg, r, i);
    StepAt(cfg, r, i);
    var s, m, t := r.states[i], r.moves[i], r.states[i + 1];
    UpdateStitches(s);
    LogAppend(s.sent, Sent(t.q.now, Base, PUBLISH_VDA, Topic.Order, OrderMessage(t.d.nodes, t.d.edges)), Order);
  }

  /** Section 6.10 of VDA 5050: a state message lists exactly the nodes and edges of the latest order message
      that have not been traversed yet. */
  lemma StatesReportWhatIsLeft(cfg: Config, r: Run, i: nat)
    requires cfg.Valid() && r.Of(cfg) && i < |r.moves| && |r.states| == |r.moves| + 1
    requires Single(r.states[i]) && IsNext(r.states[i].q, r.moves[i].u)
    requires KindOf(r.states[i], r.moves[i]).SendState? && r.states[i].chain.blocks != []
    ensures var s := r.states[i];
            var order, state := LastOf(s.sent, Order), LastOf(r.states[i + 1].sent, State);
            && LeftOf(order, s.d, s.chain) && state.Some?
            && state.value == StateMessage(order.value.nodes[NodesPassed(s.chain)..], order.value.edges[EdgesPassed(s.chain)..])
  {
    OrderHolds(cfg, r, i);
    StepAt(cfg, r, i);
    var s, m, t := r.states[i], r.moves[i], r.states[i + 1];
    UpdateStitches(s);
    LogAppend(s.sent, Sent(Started(s, m).q.now, Ue, PUBLISH_VDA, Topic.State, StateMessage(s.d.nodes, s.d.edges)), State);
  }

  // ---------------------------------------------------------------- completion

  /** An order of length L that started at time u is finished by
      u + (L-1)*continuation + stateAfterOrder + (2L-1)*finishStep; until then the clock has not passed that time. */
  lemma OrdersComplete(cfg: Config, r: Run, i: nat)
    requires cfg.Valid() && r.Of(cfg) && i < |r.states| && Single(r.states[i])
    requires r.states[i].chain.blocks != []
    ensures !r.states[i].d.AllEmpty() ==> r.states[i].q.now <= CompletionBound(cfg, r.states[i].chain)
    ensures r.states[i].d.AllEmpty() ==>
              && r.states[i].chain.emptiedAt == EmptyTime(cfg, r.states[i].chain) <= CompletionBound(cfg, r.states[i].chain)
  {
    OrderHolds(cfg, r, i);
    ClockHolds(cfg, r, i);
    TrackedHolds(cfg, r, i);
    CompletesInTime(cfg, r.states[i]);
  }

  lemma CompletesInTime(cfg: Config, s: AgvState)
    requires StateTracked(s) && Followed(s) && s.chain.blocks != []
    requires Cursors(s.d, s.chain) && Blocks(cfg, s.chain, s.updateId) && TimedOk(cfg, s)
    ensures EmptyTime(cfg, s.chain) <= CompletionBound(cfg, s.chain)
    ensures !s.d.AllEmpty() ==> s.q.now <= CompletionBound(cfg, s.chain)
  {
    var c := s.chain;
    EmptyTimeBounded(cfg, s.d, c, s.updateId);
    if s.d.nodes != [] {
      StateBeforeEmptyTime(cfg, s.d, c, StateAt(s), OrderAt(s));
      assert s.nextState.value in Live(s.q, SendState);
    } else if s.d.plannedNodes != [] {
      assert c.continuation in Orders(s);
      assert OrderAt(s) == c.lastMessageAt + cfg.continuation;
      ContinuationInTime(cfg, c);
    }
  }

  lemma ContinuationInTime(cfg: Config, c: Chain)
    requires c.blocks != [] && |c.blocks| < |c.nodes|
    requires c.lastMessageAt == c.startedAt + (|c.blocks| - 1) * cfg.continuation
    ensures c.lastMessageAt + cfg.continuation <= CompletionBound(cfg, c)
  {
    MulMonotone(|c.blocks|, |c.nodes| - 1, cfg.continuation);
    assert (|c.blocks| - 1) * cfg.continuation + cfg.continuation == |c.blocks| * cfg.continuation;
    assert (2 * |c.nodes| - 1) * cfg.finishStep >= 0;
  }

  /** The next order starts exactly `nextOrderAfterFinish` after the state message that emptied the deques. */
  lemma NextOrderOnTime(cfg: Config, r: Run, i: nat)
    requires cfg.Valid() && r.Of(cfg) && i < |r.moves| && |r.states| == |r.moves| + 1
    requires Single(r.states[i]) && IsNext(r.states[i].q, r.moves[i].u) && r.states[i].chain.blocks != []
    requires KindOf(r.states[i], r.moves[i]).SendOrder? && r.states[i].d.NothingPlanned()
    ensures r.states[i + 1].q.now == r.states[i].chain.emptiedAt + cfg.nextOrderAfterFinish
    ensures r.states[i + 1].chain.startedAt == r.states[i + 1].q.now
  {
    FreshOnlyWhenEmpty(cfg, r, i);
    OrderHolds(cfg, r, i);
    ClockHolds(cfg, r, i);
    OnlyOneOrder(r.states[i], r.moves[i]);
    StepAt(cfg, r, i);
  }

  // ---------------------------------------------------------------- silence

  lemma StateBound(cfg: Config, s: AgvState)
    requires StateTracked(s) && TimedOk(cfg, s) && SilenceOk(cfg, s) && |s.chain.blocks| <= cfg.orderLenMax
    requires 1 <= cfg.orderLenMax && TimesOf(s.sent, State) != []
    ensures s.q.now <= TimesOf(s.sent, State)[|TimesOf(s.sent, State)| - 1] + SilenceBound(cfg)
  {
    var times := TimesOf(s.sent, State);
    assert s.nextState.value in Live(s.q, SendState);
    assert s.q.now <= StateAt(s);
    if s.chain.sinceState > 0 { Rearmed(cfg, times, s.d, s.chain, StateAt(s), OrderAt(s)); }
    SilenceBounded(cfg, times, s.d, s.chain, StateAt(s));
  }

  /** Consecutive state messages are never further apart than the bound, and neither is the latest from now. */
  lemma NeverSilentForLong(cfg: Config, r: Run, i: nat)
    requires cfg.Valid() && r.Of(cfg) && i < |r.states| && r.states[i].phase.BeforeStart?
    ensures Spaced(TimesOf(r.states[i].sent, State), SilenceBound(cfg))
    ensures TimesOf(r.states[i].sent, State) != [] ==>
              r.states[i].q.now <= TimesOf(r.states[i].sent, State)[|TimesOf(r.states[i].sent, State)| - 1] + SilenceBound(cfg)
  {
    OrderHolds(cfg, r, i);
    ClockHolds(cfg, r, i);
    SilenceHolds(cfg, r, i);
    TrackedHolds(cfg, r, i);
    if TimesOf(r.states[i].sent, State) != [] { StateBound(cfg, r.states[i]); }
  }

  /** The configuration shipped with the simulator (config.yaml). */
  const DEFAULT := Config(VDA5050, 1000, 5000, 6000, 8000, 1200, 100, 200, 2000, 100, 5000, 1000, 3000, 4, 20,
                          20, 40, 50, 6500, 200, 100, 150, 5000, 100)

  /** Section 6.10 of VDA 5050 asks for a state at least every 30 seconds: the shipped configuration keeps it. */
  lemma DefaultKeepsStateInterval(r: Run, i: nat, k: nat)
    requires r.Of(DEFAULT) && i < |r.states| && 0 < k < |TimesOf(r.states[i].sent, State)|
    ensures TimesOf(r.states[i].sent, State)[k] <= TimesOf(r.states[i].sent, State)[k - 1] + 5100
    ensures 5100 < 30 * 1000
  {
    PendingOrders(DEFAULT, r, i);
    NeverSilentForLong(DEFAULT, r, i);
    assert SilenceBound(DEFAULT) == 5100;
  }

  // ---------------------------------------------------------------- the control stream

  /** At most one control event is pending, and it is the one `next_control_` names; none once stop has run. */
  lemma OneControlEvent(cfg: Config, r: Run, i: nat)
    requires cfg.Valid() && r.Of(cfg) && i < |r.states|
    ensures Live(r.states[i].q, SendControl) <= Named(r.states[i].nextControl)
    ensures !r.states[i].phase.Teleop? ==> Live(r.states[i].q, SendControl) == {}
  {
    ControlHolds(cfg, r, i);
  }

  /** Control commands go out at start + d + c + k*p, strictly before stop, and after stop exactly as many
      as fit have been sent. */
  lemma ControlStream(cfg: Config, r: Run, i: nat)
    requires cfg.Valid() && r.Of(cfg) && i < |r.states|
    ensures var times, p := TimesOf(r.states[i].sent, Control), cfg.controlPeriod;
            var first := 1000 * cfg.startS + cfg.teleopStateDelay + cfg.controlStart;
            && (forall k :: 0 <= k < |times| ==> times[k] == first + k * p && times[k] < 1000 * cfg.stopS)
            && (r.states[i].phase.AfterStop? && p > 0 ==>
                  |times| == if first < 1000 * cfg.stopS then (1000 * cfg.stopS - first + p - 1) / p else 0)
  {
    ControlHolds(cfg, r, i);
    var n := |TimesOf(r.states[i].sent, Control)|;
    if r.states[i].phase.AfterStop? && cfg.controlPeriod > 0 {
      assert n > 0 ==> TimesOf(r.states[i].sent, Control)[n - 1] < 1000 * cfg.stopS;
      CountFromProgression(cfg, n);
    }
  }

  // ---------------------------------------------------------------- quiet teleoperation

  /** A quiet state whose log has been quiet from entry `from` on. */
  predicate QuietSince(s: AgvState, from: nat) {
    s.phase.Teleop? && Quiet(s) && from <= |s.sent| && QuietLog(s.sent, from)
  }

  lemma QuietAt(cfg: Config, r: Run, i: nat, from: nat)
    requires cfg.Valid() && r.Of(cfg) && i < |r.moves| && |r.states| == |r.moves| + 1
    requires QuietSince(r.states[i], from) && r.states[i + 1].phase.Teleop?
    ensures QuietSince(r.states[i + 1], from)
  {
    StepAt(cfg, r, i);
    TrackedHolds(cfg, r, i);
    PhasedHolds(cfg, r, i);
    var s, m, t := r.states[i], r.moves[i], r.states[i + 1];
    ToggleOrder(cfg, s, m);
    PhaseAfter(cfg, s, m, t);
    QuietKept(cfg, s, m, t);
    SentGrows(cfg, s, m, t);
    QuietLogKept(cfg, s, m, t, from);
  }

  /** Step i of the run starts teleoperation. */
  predicate StartsAt(cfg: Config, r: Run, i: nat) {
    && i < |r.moves| < |r.states|
    && IsNext(r.states[i].q, r.moves[i].u) && KindOf(r.states[i], r.moves[i]).StartTeleoperation?
  }

  lemma TeleopBegins(cfg: Config, r: Run, i: nat)
    requires cfg.Valid() && r.Of(cfg) && i < |r.moves| && |r.states| == |r.moves| + 1
    requires r.states[i + 1].phase.Teleop? && !r.states[i].phase.Teleop?
    ensures r.states[i].phase.BeforeStart?
  {
    StepAt(cfg, r, i);
    PhasedHolds(cfg, r, i);
    ToggleOrder(cfg, r.states[i], r.moves[i]);
    PhaseAfter(cfg, r.states[i], r.moves[i], r.states[i + 1]);
  }

  lemma {:induction false} StartsOnce(cfg: Config, r: Run, i: nat, j: nat)
    requires cfg.Valid() && r.Of(cfg) && StartsAt(cfg, r, i) && i < j < |r.states|
    ensures !r.states[j].phase.BeforeStart?
    decreases j
  {
    if j == i + 1 {
      StartCancelsOrders(cfg, r, i);
    } else {
      StartsOnce(cfg, r, i, j - 1);
      PhaseStays(cfg, r, j - 1);
    }
  }

  /** Between its start (step i) and a state in which it is on, teleoperation has been on all along. */
  lemma StaysOn(cfg: Config, r: Run, i: nat, j: nat)
    requires cfg.Valid() && r.Of(cfg) && StartsAt(cfg, r, i) && i + 1 < j < |r.states| && r.states[j].phase.Teleop?
    ensures r.states[j - 1].phase.Teleop?
  {
    StartsOnce(cfg, r, i, j - 1);
    if !r.states[j - 1].phase.Teleop? { TeleopBegins(cfg, r, j - 1); }
  }

  /** If nothing is planned when teleoperation starts, then until it stops no order is sent and every
      state message is empty. */
  lemma {:induction false} QuietTeleoperation(cfg: Config, r: Run, i: nat, j: nat)
    requires cfg.Valid() && r.Of(cfg) && StartsAt(cfg, r, i) && i < j < |r.states|
    requires r.states[i].d.plannedNodes == [] && r.states[j].phase.Teleop?
    ensures QuietSince(r.states[j], |r.states[i + 1].sent|)
    decreases j
  {
    if j == i + 1 {
      StartCancelsOrders(cfg, r, i);
    } else {
      StaysOn(cfg, r, i, j);
      QuietTeleoperation(cfg, r, i, j - 1);
      QuietAt(cfg, r, j - 1, |r.states[i + 1].sent|);
    }
  }

  /** Just after the stop of a quiet session exactly one `sendOrder` is pending, the restarted one. */
  lemma QuietStop(cfg: Config, r: Run, i: nat, j: nat)
    requires cfg.Valid() && r.Of(cfg) && StartsAt(cfg, r, i) && i < j < |r.moves|
    requires IsNext(r.states[j].q, r.moves[j].u) && KindOf(r.states[j], r.moves[j]).StopTeleoperation?
    requires r.states[i].d.plannedNodes == []
    ensures r.states[j + 1].nextOrder.Some? && Orders(r.states[j + 1]) == {r.states[j + 1].nextOrder.value}
    ensures r.states[j + 1].d.AllEmpty()
  {
    PhasedHolds(cfg, r, j);
    ToggleOrder(cfg, r.states[j], r.moves[j]);
    QuietTeleoperation(cfg, r, i, j);
    StepAt(cfg, r, j);
    TrackedHolds(cfg, r, j);
    StopRestarts(cfg, r.states[j], r.moves[j], r.states[j + 1]);
  }

  // ---------------------------------------------------------------- exactly when teleoperation is free of orders

  predicate StopsAt(cfg: Config, r: Run, j: nat) {
    && j < |r.moves| < |r.states|
    && IsNext(r.states[j].q, r.moves[j].u) && KindOf(r.states[j], r.moves[j]).StopTeleoperation?
  }

  lemma {:induction false} StopIsFinal(cfg: Config, r: Run, i: nat, j: nat)
    requires cfg.Valid() && r.Of(cfg) && StopsAt(cfg, r, i) && i < j < |r.states|
    ensures r.states[j].phase.AfterStop?
    decreases j
  {
    if j == i + 1 {
      StepAt(cfg, r, i);
      PhaseAfter(cfg, r.states[i], r.moves[i], r.states[j]);
    } else {
      StopIsFinal(cfg, r, i, j - 1);
      PhaseStays(cfg, r, j - 1);
    }
  }

  /** Teleoperation starts at most once and stops at most once, and never starts after it has stopped. */
  lemma TogglesOnce(cfg: Config, r: Run, i: nat, j: nat)
    requires cfg.Valid() && r.Of(cfg) && i < j < |r.moves|
    ensures StartsAt(cfg, r, i) ==> !StartsAt(cfg, r, j)
    ensures StopsAt(cfg, r, i) ==> !StartsAt(cfg, r, j) && !StopsAt(cfg, r, j)
  {
    StepAt(cfg, r, j);
    PhasedHolds(cfg, r, j);
    ToggleOrder(cfg, r.states[j], r.moves[j]);
    if StartsAt(cfg, r, i) { StartsOnce(cfg, r, i, j); }
    if StopsAt(cfg, r, i) { StopIsFinal(cfg, r, i, j); }
  }

  lemma ExcessDuring(cfg: Config, r: Run, i: nat)
    requires cfg.Valid() && r.Of(cfg) && i < |r.moves| && |r.states| == |r.moves| + 1
    requires r.states[i].phase.Teleop? && r.states[i + 1].phase.Teleop? && Excess(r.states[i]) == 0
    ensures Excess(r.states[i + 1]) == 0
  {
    var s, m, t := r.states[i], r.moves[i], r.states[i + 1];
    StepAt(cfg, r, i);
    TrackedHolds(cfg, r, i);
    PairedHolds(cfg, r, i);
    PhasedHolds(cfg, r, i);
    ToggleOrder(cfg, s, m);
    PhaseAfter(cfg, s, m, t);
    OverlapStep(cfg, s, m, t);
    assert KindOf(s, m).SendOrder? ==> m.u in Orders(s);
  }

  /** A session that found an order partly released keeps exactly that chain of `sendOrder` events going until stop. */
  lemma {:induction false} ChainSurvives(cfg: Config, r: Run, i: nat, j: nat)
    requires cfg.Valid() && r.Of(cfg) && StartsAt(cfg, r, i) && i < j < |r.states|
    requires r.states[i].d.plannedNodes != [] && r.states[j].phase.Teleop?
    ensures Excess(r.states[j]) == 0
    decreases j
  {
    if j == i + 1 {
      StartCancelsOrders(cfg, r, i);
      CountedHolds(cfg, r, j);
    } else {
      StaysOn(cfg, r, i, j);
      ChainSurvives(cfg, r, i, j - 1);
      ExcessDuring(cfg, r, j - 1);
    }
  }

  /** Stop leaves a single order chain if and only if nothing was planned when teleoperation started; else it leaves two. */
  lemma StopLeavesOneChain(cfg: Config, r: Run, i: nat, j: nat)
    requires cfg.Valid() && r.Of(cfg) && StartsAt(cfg, r, i) && i < j && StopsAt(cfg, r, j)
    ensures |Orders(r.states[j + 1])| == Due(r.states[j + 1].d) <==> r.states[i].d.plannedNodes == []
    ensures r.states[i].d.plannedNodes != [] ==> |Orders(r.states[j + 1])| == Due(r.states[j + 1].d) + 1
  {
    PhasedHolds(cfg, r, j);
    ToggleOrder(cfg, r.states[j], r.moves[j]);
    if r.states[i].d.plannedNodes == [] {
      QuietStop(cfg, r, i, j);
    } else {
      ChainSurvives(cfg, r, i, j);
      StepAt(cfg, r, j);
      TrackedHolds(cfg, r, j);
      StopRestarts(cfg, r.states[j], r.moves[j], r.states[j + 1]);
    }
  }

  /** During teleoperation, nothing to release and `orders` pending, exactly as teleoperation found them. */
  ghost predicate Held(s: AgvState, orders: set<nat>, at: nat, times: seq<nat>) {
    && s.phase.Teleop? && s.d.AllEmpty() && Orders(s) == orders && TimesOf(s.sent, Order) == times
    && forall v <- orders :: v < s.q.nextUid && TimeOf(s.q, v) == at
  }

  lemma NothingMoves(cfg: Config, s: AgvState, m: Move, t: AgvState)
    requires Tidy(s) && s.d.AllEmpty() && Step(cfg, s, m, t)
    requires !KindOf(s, m).SendOrder? && !KindOf(s, m).StartTeleoperation? && !KindOf(s, m).StopTeleoperation?
    ensures t.d == s.d && Orders(t) == Orders(s)
  {
    if KindOf(s, m).SendState? {
      StateHasEffect(cfg, s, m, t);
    } else {
      OrderStateUnmoved(cfg, s, m, t);
      Untouched(cfg, s, m, t, SendOrder);
    }
  }

  lemma HeldIdle(cfg: Config, s: AgvState, m: Move, t: AgvState, orders: set<nat>, at: nat, times: seq<nat>)
    requires Tidy(s) && Held(s, orders, at, times) && Step(cfg, s, m, t)
    requires !KindOf(s, m).SendOrder? && !KindOf(s, m).StartTeleoperation? && !KindOf(s, m).StopTeleoperation?
    ensures Held(t, orders, at, times)
  {
    NothingMoves(cfg, s, m, t);
    EventsKeepTheirTime(cfg, s, m, t);
    LogUnmoved(cfg, s, m, t, Order);
    PhaseAfter(cfg, s, m, t);
    assert forall v <- orders :: v in Orders(t) && v in Orders(s);
  }

  lemma OrderIsLogged(cfg: Config, s: AgvState, m: Move, t: AgvState)
    requires Step(cfg, s, m, t)
    ensures TimesOf(s.sent, Order) <= TimesOf(t.sent, Order)
    ensures KindOf(s, m).SendOrder? ==> |TimesOf(t.sent, Order)| == |TimesOf(s.sent, Order)| + 1
  {
    if KindOf(s, m).SendOrder? {
      LogAppend(s.sent, Sent(t.q.now, Base, PUBLISH_VDA, Topic.Order, OrderMessage(t.d.nodes, t.d.edges)), Order);
    } else {
      LogUnmoved(cfg, s, m, t, Order);
    }
  }

  /** An order left pending beyond stop cannot run before stop does. */
  lemma StopComesFirst(cfg: Config, s: AgvState, m: Move, orders: set<nat>, at: nat, times: seq<nat>)
    requires Phased(cfg, s) && Held(s, orders, at, times) && IsNext(s.q, m.u) && KindOf(s, m).SendOrder?
    requires forall v <- orders :: v > STOP_UID
    ensures at < 1000 * cfg.stopS
  {
    assert m.u in Orders(s) && STOP_UID in Live(s.q, StopTeleoperation);
    assert Earlier(s.q, m.u, STOP_UID);
  }

  /** An order due before stop cannot still be pending when stop runs. */
  lemma StopComesLate(cfg: Config, s: AgvState, m: Move, orders: set<nat>, at: nat, times: seq<nat>)
    requires cfg.Valid() && Phased(cfg, s) && Held(s, orders, at, times) && IsNext(s.q, m.u)
    requires KindOf(s, m).StopTeleoperation? && orders != {} && forall v <- orders :: v > STOP_UID
    ensures 1000 * cfg.stopS <= at
  {
    ToggleOrder(cfg, s, m);
    assert STOP_UID in Live(s.q, StopTeleoperation);
    var v :| v in orders;
    assert v in Orders(s);
    assert Earlier(s.q, m.u, v);
  }

  /** Either nothing has been sent and `orders` are still pending, or one of them, due before stop, has run. */
  ghost predicate HeldOrSent(cfg: Config, s: AgvState, orders: set<nat>, at: nat, times: seq<nat>) {
    || Held(s, orders, at, times)
    || (|times| < |TimesOf(s.sent, Order)| && orders != {} && at < 1000 * cfg.stopS)
  }

  lemma HeldStep(cfg: Config, r: Run, k: nat, orders: set<nat>, at: nat, times: seq<nat>)
    requires cfg.Valid() && r.Of(cfg) && k < |r.moves| && |r.states| == |r.moves| + 1
    requires r.states[k].phase.Teleop? && r.states[k + 1].phase.Teleop? && forall v <- orders :: v > STOP_UID
    requires HeldOrSent(cfg, r.states[k], orders, at, times)
    ensures HeldOrSent(cfg, r.states[k + 1], orders, at, times)
  {
    var s, m, t := r.states[k], r.moves[k], r.states[k + 1];
    StepAt(cfg, r, k);
    TrackedHolds(cfg, r, k);
    PhasedHolds(cfg, r, k);
    ToggleOrder(cfg, s, m);
    PhaseAfter(cfg, s, m, t);
    OrderIsLogged(cfg, s, m, t);
    if Held(s, orders, at, times) {
      if KindOf(s, m).SendOrder? {
        assert m.u in Orders(s);
        StopComesFirst(cfg, s, m, orders, at, times);
      } else {
        HeldIdle(cfg, s, m, t, orders, at, times);
      }
    }
  }

  lemma {:induction false} HeldUntilStop(cfg: Config, r: Run, i: nat, j: nat, orders: set<nat>, at: nat, times: seq<nat>)
    requires cfg.Valid() && r.Of(cfg) && StartsAt(cfg, r, i) && i < j < |r.states| && r.states[j].phase.Teleop?
    requires Held(r.states[i + 1], orders, at, times) && forall v <- orders :: v > STOP_UID
    ensures HeldOrSent(cfg, r.states[j], orders, at, times)
    decreases j
  {
    if j > i + 1 {
      StaysOn(cfg, r, i, j);
      HeldUntilStop(cfg, r, i, j - 1, orders, at, times);
      HeldStep(cfg, r, j - 1, orders, at, times);
    }
  }

  lemma ContinuationAfter(cfg: Config, s: AgvState, m: Move, t: AgvState)
    requires Step(cfg, s, m, t)
    ensures KindOf(s, m).SendOrder? ==> t.chain.continuation == s.q.nextUid
    ensures !KindOf(s, m).SendOrder? ==>
              t.chain == NO_CHAIN || (t.chain.continuation == s.chain.continuation && t.chain.blocks == s.chain.blocks)
  {
    hide QueueAfterOrder, QueueAfterState, QueueAfterStart, QueueAfterStop, Schedule, WellFormed, Live, Extends, Released, Replenished;
  }

  lemma ContinuationAt(cfg: Config, r: Run, i: nat)
    requires r.Of(cfg) && i < |r.moves| && |r.states| == |r.moves| + 1
    ensures var c, c' := r.states[i].chain, r.states[i + 1].chain;
            || c'.continuation == r.states[i].q.nextUid
            || c' == NO_CHAIN
            || (c'.continuation == c.continuation && c'.blocks == c.blocks)
  {
    StepAt(cfg, r, i);
    ContinuationAfter(cfg, r.states[i], r.moves[i], r.states[i + 1]);
  }

  lemma UidsAboveStop(cfg: Config, r: Run, i: nat)
    requires cfg.Valid() && r.Of(cfg) && cfg.scenario.TELEOP? && i < |r.states|
    ensures r.states[i].q.nextUid > STOP_UID
  {
    PhasedHolds(cfg, r, i);
  }

  /** In a TELEOP run the continuation of an order is scheduled after the stop event. */
  lemma {:induction false} ContinuationIsLater(cfg: Config, r: Run, i: nat)
    requires cfg.Valid() && r.Of(cfg) && cfg.scenario.TELEOP? && i < |r.states|
    ensures r.states[i].chain.blocks != [] ==> r.states[i].chain.continuation > STOP_UID
  {
    if i == 0 {
      StartsBlank(cfg, r);
    } else {
      ContinuationIsLater(cfg, r, i - 1);
      UidsAboveStop(cfg, r, i - 1);
      ContinuationAt(cfg, r, i - 1);
    }
  }

  /** What the start of teleoperation leaves pending: the continuation of an order that is not fully released. */
  lemma HeldAfterStart(cfg: Config, s: AgvState, m: Move, t: AgvState)
    requires Tidy(s) && OrdersCounted(s) && s.phase.BeforeStart? && Paired(s.d)
    requires Step(cfg, s, m, t) && KindOf(s, m).StartTeleoperation?
    ensures Held(t, Orders(t), if s.d.plannedNodes != [] then TimeOf(s.q, s.chain.continuation) else 0, TimesOf(s.sent, Order))
    ensures Orders(t) == if s.d.plannedNodes != [] then {s.chain.continuation} else {}
  {
    CountedAfterStart(cfg, s, m, t);
    EventsKeepTheirTime(cfg, s, m, t);
    LogUnmoved(cfg, s, m, t, Order);
    if s.d.plannedNodes != [] { assert s.chain.continuation in Orders(t) && s.chain.continuation in Orders(s); }
  }

  lemma ContinuationTime(cfg: Config, r: Run, i: nat)
    requires cfg.Valid() && r.Of(cfg) && i < |r.states| && r.states[i].phase.BeforeStart? && r.states[i].d.plannedNodes != []
    ensures TimeOf(r.states[i].q, r.states[i].chain.continuation) == r.states[i].chain.lastMessageAt + cfg.continuation
    ensures r.states[i].chain.blocks != []
  {
    ClockHolds(cfg, r, i);
    OrderHolds(cfg, r, i);
  }

  lemma HeldAtStart(cfg: Config, r: Run, i: nat) returns (orders: set<nat>, at: nat)
    requires cfg.Valid() && r.Of(cfg) && StartsAt(cfg, r, i)
    ensures Held(r.states[i + 1], orders, at, TimesOf(r.states[i].sent, Order)) && forall v <- orders :: v > STOP_UID
    ensures r.states[i].d.plannedNodes == [] ==> orders == {}
    ensures r.states[i].d.plannedNodes != [] ==> orders != {} && at == r.states[i].chain.lastMessageAt + cfg.continuation
  {
    var s, m, t := r.states[i], r.moves[i], r.states[i + 1];
    StepAt(cfg, r, i);
    TrackedHolds(cfg, r, i);
    PairedHolds(cfg, r, i);
    PhasedHolds(cfg, r, i);
    CountedHolds(cfg, r, i);
    ToggleOrder(cfg, s, m);
    assert m.u in Live(s.q, StartTeleoperation);
    HeldAfterStart(cfg, s, m, t);
    ContinuationIsLater(cfg, r, i);
    if s.d.plannedNodes != [] { ContinuationTime(cfg, r, i); }
    orders := Orders(t);
    at := if s.d.plannedNodes != [] then TimeOf(s.q, s.chain.continuation) else 0;
  }

  /** The cancelled `sendOrder` is not always the pending one, so an order can be sent during teleoperation.
      It is not, exactly when nothing was planned at the start or the continuation was due no earlier than stop. */
  lemma NoOrderDuringTeleoperation(cfg: Config, r: Run, i: nat, j: nat)
    requires cfg.Valid() && r.Of(cfg) && StartsAt(cfg, r, i) && i < j && StopsAt(cfg, r, j)
    ensures TimesOf(r.states[j].sent, Order) == TimesOf(r.states[i].sent, Order)
       <==> (r.states[i].d.plannedNodes == [] || r.states[i].chain.lastMessageAt + cfg.continuation >= 1000 * cfg.stopS)
  {
    PhasedHolds(cfg, r, j);
    ToggleOrder(cfg, r.states[j], r.moves[j]);
    var times := TimesOf(r.states[i].sent, Order);
    var orders, at := HeldAtStart(cfg, r, i);
    HeldUntilStop(cfg, r, i, j, orders, at, times);
    if Held(r.states[j], orders, at, times) && orders != {} {
      StopComesLate(cfg, r.states[j], r.moves[j], orders, at, times);
    }
  }

  // ---------------------------------------------------------------- after a session that found nothing planned

  lemma {:induction false} CleanSince(cfg: Config, r: Run, i: nat, n: nat)
    requires cfg.Valid() && r.Of(cfg) && StartsAt(cfg, r, i) && i < n < |r.states|
    ensures r.states[n].clean <==> r.states[i].d.plannedNodes == []
    decreases n
  {
    hide RunHandler;
    Lengths(cfg, r);
    StepAt(cfg, r, n - 1);
    CleanAfter(cfg, r.states[n - 1], r.moves[n - 1], r.states[n]);
    if n == i + 1 {
      PairedHolds(cfg, r, i);
    } else {
      CleanSince(cfg, r, i, n - 1);
      StartsOnce(cfg, r, i, n - 1);
      PhasedHolds(cfg, r, n - 1);
      ToggleOrder(cfg, r.states[n - 1], r.moves[n - 1]);
    }
  }

  /** After stop there is a single chain of orders for the rest of the run, with all that is promised of one, if
      nothing was planned when teleoperation started. */
  lemma SingleAfterStop(cfg: Config, r: Run, i: nat, j: nat, n: nat)
    requires cfg.Valid() && r.Of(cfg) && StartsAt(cfg, r, i) && i < j && StopsAt(cfg, r, j) && j < n < |r.states|
    ensures Single(r.states[n]) <==> r.states[i].d.plannedNodes == []
  {
    CleanSince(cfg, r, i, n);
    StopIsFinal(cfg, r, j, n);
  }
}
