/** When orders are sent and what they are made of: the first order of a run, the order restarted by stop, the length,
    the names and the release of every generated order. */
module OrderSchedule {
  import opened EventQueue
  import opened Commands
  import opened AgvModel
  import opened AgvInvariants
  import opened SentLog
  import opened OrderChain
  import opened AgvRuns
  import opened AgvPromises
  import opened MixedOrders
  import opened Timetable

  // ---------------------------------------------------------------- what an order is made of

  /** `l'` is `l` with one numbered node and edge per place generated behind. */
  predicate GeneratedFrom(l: Ledger, l': Ledger, places: seq<Place>) {
    && |l'.generatedNodes| == |l.generatedNodes| + |places| && l.generatedNodes <= l'.generatedNodes
    && |l'.generatedEdges| == |l.generatedEdges| + |places| && l.generatedEdges <= l'.generatedEdges
    && (forall k :: 0 <= k < |places| ==>
          l'.generatedNodes[|l.generatedNodes| + k] == NodeState(k, places[k].nodeId, places[k].x, places[k].y))
    && (forall k :: 0 <= k < |places| ==>
          l'.generatedEdges[|l.generatedEdges| + k] == EdgeState(k, places[k].edgeId))
  }

  lemma GeneratesByOrder(cfg: Config, s: AgvState, m: Move, t: AgvState)
    requires Step(cfg, s, m, t) && KindOf(s, m).SendOrder? && s.d.NothingPlanned()
    ensures cfg.orderLenMin <= |m.draw.places| <= cfg.orderLenMax && GeneratedFrom(s.ledger, t.ledger, m.draw.places)
  {
    hide QueueAfterOrder, WellFormed, Live, Extends, ChainAfterOrder, Released;
  }

  lemma GeneratesNothing(cfg: Config, s: AgvState, m: Move, t: AgvState)
    requires Step(cfg, s, m, t) && (KindOf(s, m).SendOrder? ==> !s.d.NothingPlanned())
    ensures t.ledger.generatedNodes == s.ledger.generatedNodes && t.ledger.generatedEdges == s.ledger.generatedEdges
  {
    hide QueueAfterOrder, QueueAfterState, QueueAfterStart, QueueAfterStop, Schedule, WellFormed, Live, Extends, ChainAfterOrder;
  }

  /** In both scenarios: an order is generated exactly when `sendOrder` finds nothing planned; it has as many nodes as
      edges, a length within the configured bounds, ids from 0 and the names and coordinates drawn. Nothing else is
      ever generated. */
  lemma GeneratedOrder(cfg: Config, r: Run, n: nat)
    requires cfg.Valid() && r.Of(cfg) && n < |r.moves| && |r.states| == |r.moves| + 1
    ensures var l, l', places := r.states[n].ledger, r.states[n + 1].ledger, r.moves[n].draw.places;
            if Generates(r, n) then cfg.orderLenMin <= |places| <= cfg.orderLenMax && GeneratedFrom(l, l', places)
            else l'.generatedNodes == l.generatedNodes && l'.generatedEdges == l.generatedEdges
  {
    hide RunHandler, GeneratedFrom;
    StepAt(cfg, r, n);
    if Generates(r, n) {
      GeneratesByOrder(cfg, r.states[n], r.moves[n], r.states[n + 1]);
    } else {
      GeneratesNothing(cfg, r.states[n], r.moves[n], r.states[n + 1]);
    }
  }

  /** The planned items this `sendOrder` releases from: those generated just now, or those that were left. */
  function ReleasedFrom(s: AgvState, t: AgvState): Deques {
    var l, l' := s.ledger, t.ledger;
    if s.d.NothingPlanned() && |l.generatedNodes| <= |l'.generatedNodes| && |l.generatedEdges| <= |l'.generatedEdges| then
      s.d.(plannedNodes := l'.generatedNodes[|l.generatedNodes|..], plannedEdges := l'.generatedEdges[|l.generatedEdges|..])
    else s.d
  }

  /** `n` items have gone from the front of the planned ones to the back of the released ones. */
  predicate ReleasedFirst(d: Deques, d': Deques, n: nat) {
    && 1 <= n && |d'.nodes| == |d.nodes| + n && |d'.edges| == |d.edges| + n
    && d'.nodes + d'.plannedNodes == d.nodes + d.plannedNodes
    && d'.edges + d'.plannedEdges == d.edges + d.plannedEdges
  }

  lemma ReleaseStep(cfg: Config, s: AgvState, m: Move, t: AgvState)
    requires Step(cfg, s, m, t) && KindOf(s, m).SendOrder?
    ensures ReleasedFirst(ReleasedFrom(s, t), t.d, m.draw.release)
  {
    hide QueueAfterOrder, Schedule, WellFormed, Live, Extends, ChainAfterOrder;
    var l, l' := s.ledger, t.ledger;
    if s.d.NothingPlanned() {
      assert l'.generatedNodes[|l.generatedNodes|..] == Replenished(s.d, m.draw).plannedNodes;
      assert l'.generatedEdges[|l.generatedEdges|..] == Replenished(s.d, m.draw).plannedEdges;
    }
  }

  /** In both scenarios: `sendOrder` moves as many planned items as were drawn behind the released ones, nodes and edges
      alike, and sends what is then released. */
  lemma ReleasedOrder(cfg: Config, r: Run, n: nat)
    requires cfg.Valid() && r.Of(cfg) && n < |r.moves| && |r.states| == |r.moves| + 1
    requires IsNext(r.states[n].q, r.moves[n].u) && KindOf(r.states[n], r.moves[n]).SendOrder?
    ensures var s, t := r.states[n], r.states[n + 1];
            && ReleasedFirst(ReleasedFrom(s, t), t.d, r.moves[n].draw.release)
            && t.sent == s.sent + [Sent(t.q.now, Base, PUBLISH_VDA, Topic.Order, OrderMessage(t.d.nodes, t.d.edges))]
  {
    hide RunHandler, ReleasedFirst, Scheduled;
    StepAt(cfg, r, n);
    ReleaseStep(cfg, r.states[n], r.moves[n], r.states[n + 1]);
    EveryStep(cfg, r, n);
  }

  /** The run goes on with this event and these draws. */
  ghost predicate GoesOn(cfg: Config, r: Run, m: Move) {
    exists t :: Run(r.states + [t], r.moves + [m]).Of(cfg)
  }

  /** Which draws a pending `sendOrder` can meet: exactly every length within the configured bounds when nothing is
      planned, and every release from 1 to all that is then planned. */
  lemma PossibleDraws(cfg: Config, r: Run, m: Move)
    requires cfg.Valid() && r.Of(cfg) && IsNext(r.states[|r.moves|].q, m.u)
    requires KindOf(r.states[|r.moves|], m).SendOrder?
    ensures var d := r.states[|r.moves|].d;
            GoesOn(cfg, r, m) <==>
              if d.plannedNodes == [] then cfg.orderLenMin <= |m.draw.places| <= cfg.orderLenMax && 1 <= m.draw.release <= |m.draw.places|
              else 1 <= m.draw.release <= |d.plannedNodes|
  {
    hide RunHandler;
    var n := |r.moves|;
    var s := r.states[n];
    PairedHolds(cfg, r, n);
    if Enabled(cfg, s, m) {
      NoPopFromEmpty(cfg, r, n, m);
      var t := RunHandler(cfg, s.(q := Take(s.q, m.u)), KindOf(s, m), m.draw);
      RunExtends(cfg, r, m, t);
    }
    if GoesOn(cfg, r, m) {
      var t :| Run(r.states + [t], r.moves + [m]).Of(cfg);
      StepAt(cfg, Run(r.states + [t], r.moves + [m]), n);
    }
  }

  // ---------------------------------------------------------------- when the first order comes

  /** All deques are empty, `u` is the only pending `sendOrder` and due at `at`; orders have been sent at `times`. */
  ghost predicate Awaits(s: AgvState, u: nat, at: nat, times: seq<nat>) {
    && s.d.AllEmpty() && Orders(s) == {u} && u < s.q.nextUid && TimeOf(s.q, u) == at && TimesOf(s.sent, Order) == times
  }

  /** It is still pending, or its order is the first since. */
  ghost predicate AwaitsOrSent(s: AgvState, u: nat, at: nat, times: seq<nat>) {
    || Awaits(s, u, at, times)
    || (|times| < |TimesOf(s.sent, Order)| && times <= TimesOf(s.sent, Order) && TimesOf(s.sent, Order)[|times|] == at)
  }

  lemma AwaitedSent(cfg: Config, s: AgvState, m: Move, t: AgvState, u: nat, at: nat, times: seq<nat>)
    requires Awaits(s, u, at, times) && Step(cfg, s, m, t) && KindOf(s, m).SendOrder?
    requires t.sent == s.sent + Says(s, m, t) && t.q.now == s.q.pending[m.u].time
    ensures TimesOf(t.sent, Order) == times + [at]
  {
    hide RunHandler;
    assert m.u in Orders(s);
    LogAppend(s.sent, Says(s, m, t)[0], Order);
  }

  lemma AwaitsIdle(cfg: Config, s: AgvState, m: Move, t: AgvState, u: nat, at: nat, times: seq<nat>)
    requires Tidy(s) && Awaits(s, u, at, times) && Step(cfg, s, m, t)
    requires !KindOf(s, m).SendOrder? && !Toggles(KindOf(s, m))
    ensures Awaits(t, u, at, times)
  {
    hide RunHandler;
    NothingMoves(cfg, s, m, t);
    EventsKeepTheirTime(cfg, s, m, t);
    LogUnmoved(cfg, s, m, t, Order);
    assert u in Orders(t) && u in Orders(s);
  }

  lemma AwaitsStep(cfg: Config, r: Run, k: nat, u: nat, at: nat, times: seq<nat>)
    requires cfg.Valid() && r.Of(cfg) && k < |r.moves| && |r.states| == |r.moves| + 1
    requires AwaitsOrSent(r.states[k], u, at, times) && Undisturbed(r, k, k + 1)
    ensures AwaitsOrSent(r.states[k + 1], u, at, times)
  {
    hide RunHandler, Awaits, Scheduled, Says;
    var s, m, t := r.states[k], r.moves[k], r.states[k + 1];
    StepAt(cfg, r, k);
    TrackedHolds(cfg, r, k);
    PhasedHolds(cfg, r, k);
    ToggleOrder(cfg, s, m);
    PhaseAfter(cfg, s, m, t);
    OrderIsLogged(cfg, s, m, t);
    if Awaits(s, u, at, times) {
      if KindOf(s, m).SendOrder? {
        EveryStep(cfg, r, k);
        EventsKeepTheirTime(cfg, s, m, t);
        AwaitedSent(cfg, s, m, t, u, at, times);
      } else {
        AwaitsIdle(cfg, s, m, t, u, at, times);
      }
    }
  }

  lemma {:induction false} AwaitedOrder(cfg: Config, r: Run, i: nat, j: nat, u: nat, at: nat, times: seq<nat>)
    requires cfg.Valid() && r.Of(cfg) && Undisturbed(r, i, j) && Awaits(r.states[i], u, at, times)
    ensures AwaitsOrSent(r.states[j], u, at, times)
    decreases j
  {
    hide RunHandler, Awaits;
    Lengths(cfg, r);
    if i < j {
      UndisturbedBefore(cfg, r, i, j);
      AwaitedOrder(cfg, r, i, j - 1, u, at, times);
      AwaitsStep(cfg, r, j - 1, u, at, times);
    }
  }

  lemma AwaitedMeans(s: AgvState, u: nat, at: nat, times: seq<nat>)
    requires WellFormed(s.q) && AwaitsOrSent(s, u, at, times)
    ensures times <= TimesOf(s.sent, Order)
    ensures |TimesOf(s.sent, Order)| > |times| ==> TimesOf(s.sent, Order)[|times|] == at
    ensures |TimesOf(s.sent, Order)| == |times| ==> s.d.AllEmpty() && s.q.now <= at
  {
    if Awaits(s, u, at, times) { assert u in Orders(s); }
  }

  lemma FirstAwaits(cfg: Config, r: Run)
    requires cfg.Valid() && r.Of(cfg)
    ensures Awaits(r.states[0], 3, cfg.orderAfter, []) && r.states[0].phase.BeforeStart?
  {
    FirstState(cfg, r);
    StartsBlank(cfg, r);
    CountedHolds(cfg, r, 0);
  }

  /** Before teleoperation the first order of a run goes out at its configured time, and not a moment later. */
  lemma FirstOrder(cfg: Config, r: Run, j: nat)
    requires cfg.Valid() && r.Of(cfg) && j < |r.states| && r.states[j].phase.BeforeStart?
    ensures var times := TimesOf(r.states[j].sent, Order);
            if times != [] then times[0] == cfg.orderAfter else r.states[j].d.AllEmpty() && r.states[j].q.now <= cfg.orderAfter
  {
    FirstAwaits(cfg, r);
    hide Awaits, AwaitsOrSent;
    AwaitedOrder(cfg, r, 0, j, 3, cfg.orderAfter, []);
    TrackedHolds(cfg, r, j);
    AwaitedMeans(r.states[j], 3, cfg.orderAfter, []);
  }

  // ---------------------------------------------------------------- the order restarted by stop

  lemma RestartScheduled(cfg: Config, s: AgvState, m: Move, t: AgvState)
    requires IsNext(s.q, m.u) && KindOf(s, m).StopTeleoperation? && Scheduled(cfg, s, m, t)
    ensures PendingAt(t.q, s.q.nextUid + 2, s.q.pending[m.u].time, (Kind.SendOrder, cfg.restartOrders))
    ensures t.q.now == s.q.pending[m.u].time && t.q.nextUid == s.q.nextUid + 3
  {
    hide PendingAt, Cancels;
    assert FollowUps(cfg, s, m, t)[2] == (Kind.SendOrder, cfg.restartOrders);
  }

  /** However the session went: stop leaves its `sendOrder` pending under `next_order_`, due at stop plus the delay. */
  lemma RestartedAt(cfg: Config, r: Run, j: nat)
    requires cfg.Valid() && r.Of(cfg) && StopsAt(cfg, r, j)
    ensures j + 1 < |r.states|
    ensures var s := r.states[j + 1];
            && s.q.now == 1000 * cfg.stopS && s.nextOrder.Some? && s.nextOrder.value in s.q.pending
            && s.q.pending[s.nextOrder.value] == Event(1000 * cfg.stopS + cfg.restartOrders, Kind.SendOrder)
            && s.nextOrder.value < s.q.nextUid
  {
    hide RunHandler, Scheduled, Says;
    var s, m, t := r.states[j], r.moves[j], r.states[j + 1];
    Lengths(cfg, r);
    StepAt(cfg, r, j);
    EveryStep(cfg, r, j);
    TrackedHolds(cfg, r, j);
    PhasedHolds(cfg, r, j);
    ToggleOrder(cfg, s, m);
    StopRestarts(cfg, s, m, t);
    RestartScheduled(cfg, s, m, t);
    assert m.u in Live(s.q, StopTeleoperation);
  }

  /** After a session that found nothing planned, the first order after stop is that one, at exactly that time. */
  lemma RestartedOrder(cfg: Config, r: Run, i: nat, j: nat, n: nat)
    requires cfg.Valid() && r.Of(cfg) && StartsAt(cfg, r, i) && i < j && StopsAt(cfg, r, j) && j < n < |r.states|
    requires r.states[i].d.plannedNodes == []
    ensures var before, times, at := TimesOf(r.states[j].sent, Order), TimesOf(r.states[n].sent, Order), 1000 * cfg.stopS + cfg.restartOrders;
            && before <= times
            && (if |times| > |before| then times[|before|] == at else r.states[n].d.AllEmpty() && r.states[n].q.now <= at)
  {
    hide RunHandler;
    var t, before, at := r.states[j + 1], TimesOf(r.states[j].sent, Order), 1000 * cfg.stopS + cfg.restartOrders;
    QuietStop(cfg, r, i, j);
    RestartedAt(cfg, r, j);
    StepAt(cfg, r, j);
    LogUnmoved(cfg, r.states[j], r.moves[j], t, Order);
    assert Awaits(t, t.nextOrder.value, at, before);
    StopIsFinal(cfg, r, j, j + 1);
    StopIsFinal(cfg, r, j, n);
    AwaitedOrder(cfg, r, j + 1, n, t.nextOrder.value, at, before);
    TrackedHolds(cfg, r, n);
    AwaitedMeans(r.states[n], t.nextOrder.value, at, before);
  }
}
