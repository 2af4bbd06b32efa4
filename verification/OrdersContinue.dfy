/** The order simulation never dies: before teleoperation and after it, another order message is always on its way,
    and every run that is long enough sends it. */
module OrdersContinue {
  import opened Basics
  import opened EventQueue
  import opened AgvModel
  import opened AgvInvariants
  import opened SentLog
  import opened OrderChain
  import opened AgvRuns
  import opened AgvPromises
  import opened StateInterval
  import opened Progress

  /** When the next order starts, if from now on only state messages traverse what is released. */
  function DrainedAt(cfg: Config, s: AgvState): int
    requires s.nextState.Some?
  {
    StateAt(s) + (|s.d.nodes| + |s.d.edges| - 1) * cfg.finishStep + cfg.nextOrderAfterFinish
  }

  /** A `sendOrder` is pending for no later than `end`. */
  ghost predicate PendingBy(s: AgvState, end: nat) {
    exists v :: v in Orders(s) && TimeOf(s.q, v) <= end
  }

  /** None is pending, and everything planned is released: it takes the state message that empties the deques. */
  predicate DrainingBy(cfg: Config, s: AgvState, end: nat) {
    && s.nextState.Some? && Orders(s) == {}
    && s.d.plannedNodes == [] && s.d.nodes != [] && DrainedAt(cfg, s) <= end
  }

  ghost predicate OrderComing(cfg: Config, s: AgvState, end: nat) { PendingBy(s, end) || DrainingBy(cfg, s, end) }

  // ---------------------------------------------------------------- it stays on its way

  /** A handler other than `sendOrder`, start and stop leaves every pending `sendOrder` where it is. */
  lemma OrdersStay(cfg: Config, s: AgvState, m: Move, t: AgvState)
    requires Tidy(s) && Step(cfg, s, m, t)
    requires KindOf(s, m).SendState? || !MovesOrders(KindOf(s, m))
    ensures Orders(s) <= Orders(t)
  {
    hide RunHandler;
    if KindOf(s, m).SendState? {
      StateHasEffect(cfg, s, m, t);
    } else {
      Untouched(cfg, s, m, t, SendOrder);
    }
  }

  lemma PendingStays(cfg: Config, s: AgvState, m: Move, t: AgvState, end: nat)
    requires Tidy(s) && Step(cfg, s, m, t) && PendingBy(s, end)
    requires KindOf(s, m).SendState? || !MovesOrders(KindOf(s, m))
    ensures PendingBy(t, end)
  {
    hide RunHandler;
    OrdersStay(cfg, s, m, t);
    EventsKeepTheirTime(cfg, s, m, t);
    var v :| v in Orders(s) && TimeOf(s.q, v) <= end;
    assert v in Orders(t) && TimeOf(t.q, v) == TimeOf(s.q, v);
  }

  lemma StateQueue(cfg: Config, s: AgvState, m: Move, t: AgvState)
    requires StateSafe(s.d) && Step(cfg, s, m, t) && KindOf(s, m).SendState?
    ensures t.q == QueueAfterState(cfg, Started(s, m).q, s.d.NothingReleased(), Empties(s.d))
    ensures t.nextState == Some(s.q.nextUid)
  {
    hide QueueAfterState;
  }

  /** The state message that traverses sets the timer to the next step, and one that empties schedules an order. */
  lemma TimesOfState(cfg: Config, s: AgvState, m: Move, t: AgvState)
    requires StateTracked(s) && StateSafe(s.d) && Step(cfg, s, m, t) && KindOf(s, m).SendState? && !s.d.NothingReleased()
    ensures t.nextState.Some? && StateAt(t) == StateAt(s) + cfg.finishStep
    ensures Empties(s.d) ==> TimeOf(t.q, s.q.nextUid + 1) == StateAt(s) + cfg.nextOrderAfterFinish
  {
    hide RunHandler, QueueAfterState;
    StateQueue(cfg, s, m, t);
    assert m.u in Live(s.q, SendState);
    TimesAfterState(cfg, Started(s, m).q, false, Empties(s.d));
  }

  lemma OneLess(d: Deques)
    requires Paired(d) && d.plannedNodes == [] && d.nodes != []
    ensures StateSafe(d) && !d.NothingReleased()
    ensures Empties(d) ==> |d.nodes| + |d.edges| == 1
    ensures !Empties(d) ==> Traversed(d).nodes != [] && Traversed(d).plannedNodes == []
    ensures |Traversed(d).nodes| + |Traversed(d).edges| == |d.nodes| + |d.edges| - 1
  {}

  lemma DrainingGoesOn(cfg: Config, s: AgvState, m: Move, t: AgvState, end: nat)
    requires StateTracked(s) && Paired(s.d) && Step(cfg, s, m, t) && KindOf(s, m).SendState? && DrainingBy(cfg, s, end)
    ensures OrderComing(cfg, t, end)
  {
    hide RunHandler;
    OneLess(s.d);
    StateHasEffect(cfg, s, m, t);
    TimesOfState(cfg, s, m, t);
    if Empties(s.d) {
      assert s.q.nextUid + 1 in Orders(t);
    } else {
      OneMore(|t.d.nodes| + |t.d.edges| - 1, cfg.finishStep);
    }
  }

  lemma ComingStays(cfg: Config, s: AgvState, m: Move, t: AgvState, end: nat)
    requires StateTracked(s) && Paired(s.d) && Step(cfg, s, m, t) && OrderComing(cfg, s, end)
    requires KindOf(s, m).SendState? || !MovesOrders(KindOf(s, m))
    ensures OrderComing(cfg, t, end)
  {
    hide RunHandler;
    if PendingBy(s, end) {
      PendingStays(cfg, s, m, t, end);
    } else if KindOf(s, m).SendState? {
      DrainingGoesOn(cfg, s, m, t, end);
    } else {
      StateStays(cfg, s, m, t);
    }
  }

  lemma ComingIsAhead(cfg: Config, s: AgvState, end: nat)
    requires StateTracked(s) && OrderComing(cfg, s, end)
    ensures s.q.now <= end
  {
    if PendingBy(s, end) {
      var v :| v in Orders(s) && TimeOf(s.q, v) <= end;
    } else {
      NowBeforeState(s);
    }
  }

  // ---------------------------------------------------------------- runs

  lemma ComingAt(cfg: Config, r: Run, k: nat, end: nat)
    requires cfg.Valid() && r.Of(cfg) && k < |r.moves| && |r.states| == |r.moves| + 1
    requires Undisturbed(r, k, k + 1) && OrderComing(cfg, r.states[k], end)
    ensures TimesOf(r.states[k].sent, Order) <= TimesOf(r.states[k + 1].sent, Order)
    ensures OrderComing(cfg, r.states[k + 1], end)
         || |TimesOf(r.states[k].sent, Order)| < |TimesOf(r.states[k + 1].sent, Order)|
  {
    hide RunHandler;
    var s, m, t := r.states[k], r.moves[k], r.states[k + 1];
    StepAt(cfg, r, k);
    TrackedHolds(cfg, r, k);
    PairedHolds(cfg, r, k);
    PhasedHolds(cfg, r, k);
    ToggleOrder(cfg, s, m);
    PhaseAfter(cfg, s, m, t);
    OrderIsLogged(cfg, s, m, t);
    if !KindOf(s, m).SendOrder? { ComingStays(cfg, s, m, t, end); }
  }

  lemma SentAt(cfg: Config, r: Run, k: nat)
    requires r.Of(cfg) && k < |r.moves| && |r.states| == |r.moves| + 1
    ensures |TimesOf(r.states[k].sent, Order)| <= |TimesOf(r.states[k + 1].sent, Order)|
  {
    hide RunHandler;
    StepAt(cfg, r, k);
    OrderIsLogged(cfg, r.states[k], r.moves[k], r.states[k + 1]);
  }

  lemma {:induction false} ComingOrSent(cfg: Config, r: Run, i: nat, j: nat, end: nat)
    requires cfg.Valid() && r.Of(cfg) && Undisturbed(r, i, j) && OrderComing(cfg, r.states[i], end)
    ensures |TimesOf(r.states[i].sent, Order)| <= |TimesOf(r.states[j].sent, Order)|
    ensures OrderComing(cfg, r.states[j], end) || |TimesOf(r.states[i].sent, Order)| < |TimesOf(r.states[j].sent, Order)|
    decreases j
  {
    hide RunHandler, OrderComing;
    if i < j {
      Lengths(cfg, r);
      UndisturbedBefore(cfg, r, i, j);
      ComingOrSent(cfg, r, i, j - 1, end);
      SentAt(cfg, r, j - 1);
      if OrderComing(cfg, r.states[j - 1], end) { ComingAt(cfg, r, j - 1, end); }
    }
  }

  /** In every state before start and after stop there is a time by which the next order message is due. */
  lemma AlwaysComing(cfg: Config, r: Run, i: nat) returns (end: nat)
    requires cfg.Valid() && r.Of(cfg) && i < |r.states| && !r.states[i].phase.Teleop?
    ensures OrderComing(cfg, r.states[i], end)
  {
    var s := r.states[i];
    CountedHolds(cfg, r, i);
    TrackedHolds(cfg, r, i);
    if Orders(s) != {} {
      var v :| v in Orders(s);
      end := TimeOf(s.q, v);
    } else {
      OrderlessIsReleased(s);
      MulMonotone(0, |s.d.nodes| + |s.d.edges| - 1, cfg.finishStep);
      end := DrainedAt(cfg, s);
    }
  }

  lemma OrderlessIsReleased(s: AgvState)
    requires OrdersCounted(s) && !s.phase.Teleop? && Orders(s) == {}
    ensures s.d.plannedNodes == [] && s.d.nodes != []
  {}

  /** And every run that goes on undisturbed until it is beyond that time has sent it. With `AlwaysComing` and
      `Progress.ClockAdvances` order messages keep coming for ever, in every VDA5050 run and after every stop. */
  lemma OrdersKeepComing(cfg: Config, r: Run, i: nat, j: nat, end: nat)
    requires cfg.Valid() && Ticks(cfg) && r.Of(cfg) && Undisturbed(r, i, j)
    requires OrderComing(cfg, r.states[i], end) && EventBound(cfg, end) < j
    ensures |TimesOf(r.states[i].sent, Order)| < |TimesOf(r.states[j].sent, Order)|
  {
    hide RunHandler;
    ComingOrSent(cfg, r, i, j, end);
    ClockAdvances(cfg, r, j, end);
    if OrderComing(cfg, r.states[j], end) {
      TrackedHolds(cfg, r, j);
      ComingIsAhead(cfg, r.states[j], end);
    }
  }
}
