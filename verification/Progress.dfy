/** Time passes. When the repeating delays are at least one millisecond, only so many events can run up to any given time,
    so every run that is long enough gets beyond it, and every order is in fact completed. */
module Progress {
  import opened Basics
  import opened EventQueue
  import opened AgvModel
  import opened AgvInvariants
  import opened OrderChain
  import opened AgvRuns
  import opened AgvPromises

  /** The delays with which events come around again. */
  predicate Ticks(cfg: Config) {
    && 1 <= cfg.visualizationPeriod && 1 <= cfg.controlPeriod
    && 1 <= cfg.idleInterval && 1 <= cfg.finishStep
    && 1 <= cfg.continuation && 1 <= cfg.stateAfterOrder
  }

  // ---------------------------------------------------------------- how many events an event can lead to

  /** Counts an event and those it can lead to without any delay. */
  function Rank(kind: Kind): nat {
    match kind
    case SendState => 2
    case SendFactsheetRequest => 2
    case RequestCapabilities => 2
    case SendTeleoperationState => 2
    case StartTeleoperation => 5
    case StopTeleoperation => 6
    case _ => 1
  }

  /** One event `k` milliseconds before the end, and three of the generation after it. */
  function Generations(k: nat): nat
    decreases k, 1
  {
    1 + 3 * Later(k)
  }

  function Later(k: nat): nat
    decreases k, 0
  {
    if k == 0 then 0 else Generations(k - 1)
  }

  /** Bounds how many events up to time `end` come from this one. */
  function Weight(e: Event, end: nat): nat {
    if e.time > end then 0 else Rank(e.kind) * Generations(end - e.time)
  }

  lemma {:induction false} GenerationsGrow(j: nat, k: nat)
    requires j <= k
    ensures Generations(j) <= Generations(k)
  {
    if j > 0 { GenerationsGrow(j - 1, k - 1); }
  }

  lemma MulMonotoneRight(c: nat, a: nat, b: nat)
    requires a <= b
    ensures c * a <= c * b
  {
    MulMonotone(a, b, c);
  }

  lemma WeightAfter(now: nat, delay: nat, kind: Kind, end: nat)
    requires now <= end
    ensures Weight(Event(now + delay, kind), end) <= Rank(kind) * Generations(end - now)
    ensures delay >= 1 ==> Weight(Event(now + delay, kind), end) <= Rank(kind) * Later(end - now)
  {
    if now + delay <= end {
      GenerationsGrow(end - now - delay, end - now);
      MulMonotoneRight(Rank(kind), Generations(end - now - delay), Generations(end - now));
      if delay >= 1 {
        GenerationsGrow(end - now - delay, end - now - 1);
        MulMonotoneRight(Rank(kind), Generations(end - now - delay), Generations(end - now - 1));
      }
    }
  }

  // ---------------------------------------------------------------- the weight of all pending events

  function Sum(pending: map<nat, Event>, end: nat, n: nat): nat {
    if n == 0 then 0 else
    Sum(pending, end, n - 1) + (if n - 1 in pending then Weight(pending[n - 1], end) else 0)
  }

  function Load(q: Queue, end: nat): nat { Sum(q.pending, end, q.nextUid) }

  lemma {:induction false} SumSame(p: map<nat, Event>, p': map<nat, Event>, end: nat, n: nat)
    requires forall u: nat | u < n :: (u in p <==> u in p') && (u in p ==> p[u] == p'[u])
    ensures Sum(p, end, n) == Sum(p', end, n)
  {
    if n > 0 { SumSame(p, p', end, n - 1); }
  }

  lemma {:induction false} SumRemove(p: map<nat, Event>, u: nat, end: nat, n: nat)
    requires u in p && u < n
    ensures Sum(p, end, n) == Sum(p - {u}, end, n) + Weight(p[u], end)
  {
    if u == n - 1 {
      SumSame(p, p - {u}, end, n - 1);
    } else {
      SumRemove(p, u, end, n - 1);
    }
  }

  lemma LoadAfterSchedule(q: Queue, delay: nat, kind: Kind, end: nat)
    requires WellFormed(q) && q.now <= end
    ensures WellFormed(Schedule(q, delay, kind)) && Schedule(q, delay, kind).now == q.now
    ensures Load(Schedule(q, delay, kind), end) <= Load(q, end) + Rank(kind) * Generations(end - q.now)
    ensures delay >= 1 ==> Load(Schedule(q, delay, kind), end) <= Load(q, end) + Rank(kind) * Later(end - q.now)
  {
    SumSame(q.pending, Schedule(q, delay, kind).pending, end, q.nextUid);
    WeightAfter(q.now, delay, kind, end);
  }

  lemma LoadAfterCancel(q: Queue, h: Handle, end: nat)
    requires WellFormed(q)
    ensures WellFormed(Cancel(q, h)) && Cancel(q, h).now == q.now && Load(Cancel(q, h), end) <= Load(q, end)
  {
    if h.Some? {
      if h.value in q.pending {
        SumRemove(q.pending, h.value, end, q.nextUid);
      } else {
        SumSame(q.pending, q.pending - {h.value}, end, q.nextUid);
      }
    }
  }

  lemma LoadAfterTake(q: Queue, u: nat, end: nat)
    requires WellFormed(q) && IsNext(q, u)
    ensures Load(q, end) == Load(Take(q, u), end) + Weight(q.pending[u], end)
  {
    SumRemove(q.pending, u, end, q.nextUid);
  }

  // ---------------------------------------------------------------- every handler uses up more than it adds

  lemma LoadAfterOrder(cfg: Config, q: Queue, more: bool, h: Handle, end: nat)
    requires Ticks(cfg) && WellFormed(q) && q.now <= end
    ensures Load(QueueAfterOrder(cfg, q, more, h), end) < Load(q, end) + Generations(end - q.now)
  {
    var q1 := if more then Schedule(q, cfg.continuation, SendOrder) else q;
    if more { LoadAfterSchedule(q, cfg.continuation, SendOrder, end); }
    LoadAfterCancel(q1, h, end);
    LoadAfterSchedule(Cancel(q1, h), cfg.stateAfterOrder, SendState, end);
  }

  lemma LoadAfterState(cfg: Config, q: Queue, idle: bool, done: bool, end: nat)
    requires Ticks(cfg) && WellFormed(q) && q.now <= end
    ensures Load(QueueAfterState(cfg, q, idle, done), end) < Load(q, end) + 2 * Generations(end - q.now)
  {
    var delay := if idle then cfg.idleInterval else cfg.finishStep;
    LoadAfterSchedule(q, delay, SendState, end);
    if done { LoadAfterSchedule(Schedule(q, delay, SendState), cfg.nextOrderAfterFinish, SendOrder, end); }
  }

  lemma LoadAfterReports(cfg: Config, q: Queue, end: nat)
    requires WellFormed(q) && q.now <= end
    ensures Load(WithReports(cfg, q), end) <= Load(q, end) + 4 * Generations(end - q.now)
  {
    LoadAfterSchedule(q, cfg.teleopStateDelay, SendTeleoperationState, end);
    LoadAfterSchedule(Schedule(q, cfg.teleopStateDelay, SendTeleoperationState), cfg.stateAfterToggle, SendState, end);
  }

  lemma LoadAfterTwoCancels(q: Queue, h: Handle, h': Handle, end: nat)
    requires WellFormed(q)
    ensures Load(CancelBoth(q, h, h'), end) <= Load(q, end)
  {
    LoadAfterCancel(q, h, end);
    LoadAfterCancel(Cancel(q, h), h', end);
  }

  lemma LoadAfterStart(cfg: Config, q: Queue, h: Handle, h': Handle, end: nat)
    requires WellFormed(q) && q.now <= end
    ensures Load(QueueAfterStart(cfg, q, h, h'), end) < Load(q, end) + 5 * Generations(end - q.now)
  {
    LoadAfterTwoCancels(q, h, h', end);
    LoadAfterReports(cfg, CancelBoth(q, h, h'), end);
  }

  lemma LoadAfterStop(cfg: Config, q: Queue, h: Handle, h': Handle, end: nat)
    requires WellFormed(q) && q.now <= end
    ensures Load(QueueAfterStop(cfg, q, h, h'), end) < Load(q, end) + 6 * Generations(end - q.now)
  {
    var r := CancelBoth(q, h, h');
    LoadAfterTwoCancels(q, h, h', end);
    LoadAfterReports(cfg, r, end);
    LoadAfterSchedule(WithReports(cfg, r), cfg.restartOrders, SendOrder, end);
  }

  lemma LoadAfterOneShot(cfg: Config, s: AgvState, kind: Kind, end: nat)
    requires Ticks(cfg) && WellFormed(s.q) && s.q.now <= end && OneShot(kind)
    ensures Load(AfterOneShot(cfg, s, kind).q, end) < Load(s.q, end) + Rank(kind) * Generations(end - s.q.now)
  {
    match kind
    case SendFactsheetRequest => LoadAfterSchedule(s.q, cfg.factsheetResponse, SendFactsheet, end);
    case SendVisualization => LoadAfterSchedule(s.q, cfg.visualizationPeriod, SendVisualization, end);
    case RequestCapabilities => LoadAfterSchedule(s.q, cfg.capabilityResponse, SendCapabilities, end);
    case _ =>
  }

  lemma LoadAfterTeleopState(cfg: Config, s: AgvState, end: nat)
    requires WellFormed(s.q) && s.q.now <= end
    ensures Load(AfterTeleopState(cfg, s).q, end) < Load(s.q, end) + 2 * Generations(end - s.q.now)
  {
    LoadAfterSchedule(s.q, cfg.controlStart, SendControl, end);
  }

  lemma LoadAfterControl(cfg: Config, s: AgvState, draw: Draw, end: nat)
    requires Ticks(cfg) && WellFormed(s.q) && s.q.now <= end
    ensures Load(AfterControl(cfg, s, draw).q, end) < Load(s.q, end) + Generations(end - s.q.now)
  {
    LoadAfterSchedule(s.q, cfg.controlPeriod, SendControl, end);
  }

  lemma LoadAfterHandler(cfg: Config, s: AgvState, kind: Kind, draw: Draw, end: nat)
    requires Ticks(cfg) && WellFormed(s.q) && s.q.now <= end && Safe(s.d, kind, draw)
    ensures Load(RunHandler(cfg, s, kind, draw).q, end) < Load(s.q, end) + Rank(kind) * Generations(end - s.q.now)
  {
    hide Load, Generations, QueueAfterOrder, QueueAfterState, QueueAfterStart, QueueAfterStop;
    match kind
    case SendOrder =>
      LoadAfterOrder(cfg, s.q, Released(Replenished(s.d, draw), draw.release).plannedNodes != [], s.nextState, end);
    case SendState =>
      var idle := s.d.NothingReleased();
      LoadAfterState(cfg, s.q, idle, !idle && Traversed(s.d).AllEmpty(), end);
    case StartTeleoperation => LoadAfterStart(cfg, s.q, s.nextOrder, s.nextState, end);
    case StopTeleoperation => LoadAfterStop(cfg, s.q, s.nextState, s.nextControl, end);
    case SendTeleoperationState => LoadAfterTeleopState(cfg, s, end);
    case SendControl => LoadAfterControl(cfg, s, draw, end);
    case _ => LoadAfterOneShot(cfg, s, kind, end);
  }

  /** An event that runs no later than `end` lowers the load. */
  lemma LoadFalls(cfg: Config, s: AgvState, m: Move, t: AgvState, end: nat)
    requires Ticks(cfg) && WellFormed(s.q) && Step(cfg, s, m, t) && s.q.pending[m.u].time <= end
    ensures Load(t.q, end) < Load(s.q, end)
  {
    LoadAfterTake(s.q, m.u, end);
    LoadAfterHandler(cfg, Started(s, m), KindOf(s, m), m.draw, end);
  }

  // ---------------------------------------------------------------- runs

  /** No more events than this run up to time `end`. */
  function EventBound(cfg: Config, end: nat): nat { Load(InitQueue(cfg), end) }

  lemma LoadAt(cfg: Config, r: Run, i: nat, end: nat)
    requires cfg.Valid() && Ticks(cfg) && r.Of(cfg) && 0 < i < |r.states| && r.states[i].q.now <= end
    ensures Load(r.states[i].q, end) < Load(r.states[i - 1].q, end) && r.states[i - 1].q.now <= end
  {
    var s, m, t := r.states[i - 1], r.moves[i - 1], r.states[i];
    StepAt(cfg, r, i - 1);
    TrackedHolds(cfg, r, i - 1);
    EventsKeepTheirTime(cfg, s, m, t);
    LoadFalls(cfg, s, m, t, end);
  }

  lemma LoadAtFirst(cfg: Config, r: Run, end: nat)
    requires r.Of(cfg)
    ensures Load(r.states[0].q, end) == EventBound(cfg, end)
  {
    assert r.Reached(cfg, 0);
  }

  lemma {:induction false} EventsCost(cfg: Config, r: Run, i: nat, end: nat)
    requires cfg.Valid() && Ticks(cfg) && r.Of(cfg) && i < |r.states| && r.states[i].q.now <= end
    ensures Load(r.states[i].q, end) + i <= EventBound(cfg, end)
  {
    if i == 0 {
      LoadAtFirst(cfg, r, end);
    } else {
      LoadAt(cfg, r, i, end);
      EventsCost(cfg, r, i - 1, end);
    }
  }

  /** Every run gets beyond any given time after a number of events that depends on that time alone. */
  lemma ClockAdvances(cfg: Config, r: Run, i: nat, end: nat)
    requires cfg.Valid() && Ticks(cfg) && r.Of(cfg) && EventBound(cfg, end) < i < |r.states|
    ensures r.states[i].q.now > end
  {
    if r.states[i].q.now <= end { EventsCost(cfg, r, i, end); }
  }

  // ---------------------------------------------------------------- orders are completed

  predicate SameOrder(a: Chain, b: Chain) {
    b.nodes == a.nodes && b.edges == a.edges && b.startedAt == a.startedAt && a.blocks != [] && b.blocks != []
  }

  /** The order of state `i` has been traversed to its end in state `k`. */
  predicate Finished(r: Run, i: nat, k: nat)
    requires i < |r.states| && k < |r.states|
  {
    i <= k && r.states[k].d.AllEmpty() && SameOrder(r.states[i].chain, r.states[k].chain)
  }

  lemma OrderUnlessFresh(cfg: Config, s: AgvState, m: Move, t: AgvState)
    requires Step(cfg, s, m, t) && s.chain.blocks != [] && (KindOf(s, m).SendOrder? ==> !s.d.NothingPlanned())
    requires !KindOf(s, m).StartTeleoperation?
    ensures SameOrder(s.chain, t.chain)
  {
    hide QueueAfterOrder, QueueAfterState, QueueAfterStart, QueueAfterStop, Schedule, WellFormed, Live, Extends, Replenished, Released;
  }

  lemma OrderGoesOn(cfg: Config, r: Run, k: nat)
    requires cfg.Valid() && r.Of(cfg) && k < |r.moves| && |r.states| == |r.moves| + 1
    requires Undisturbed(r, k, k + 1) && Single(r.states[k]) && r.states[k].chain.blocks != []
    ensures r.states[k].d.AllEmpty() || SameOrder(r.states[k].chain, r.states[k + 1].chain)
  {
    hide RunHandler;
    StepAt(cfg, r, k);
    var s, m, t := r.states[k], r.moves[k], r.states[k + 1];
    PhaseAfter(cfg, s, m, t);
    if KindOf(s, m).SendOrder? && s.d.NothingPlanned() {
      FreshOnlyWhenEmpty(cfg, r, k);
    } else {
      OrderUnlessFresh(cfg, s, m, t);
    }
  }

  lemma SingleBefore(cfg: Config, r: Run, i: nat, j: nat)
    requires cfg.Valid() && r.Of(cfg) && i < j && Undisturbed(r, i, j) && Single(r.states[j])
    ensures Undisturbed(r, i, j - 1) && Undisturbed(r, j - 1, j) && Single(r.states[j - 1]) && |r.states| == |r.moves| + 1
  {
    hide RunHandler;
    Lengths(cfg, r);
    UndisturbedBefore(cfg, r, i, j);
    StepAt(cfg, r, j - 1);
    CleanAfter(cfg, r.states[j - 1], r.moves[j - 1], r.states[j]);
    PhaseAfter(cfg, r.states[j - 1], r.moves[j - 1], r.states[j]);
  }

  lemma {:induction false} FinishedOrUnderWay(cfg: Config, r: Run, i: nat, j: nat)
    requires cfg.Valid() && r.Of(cfg) && Undisturbed(r, i, j) && Single(r.states[j])
    requires r.states[i].chain.blocks != []
    ensures (exists k: nat | k <= j :: Finished(r, i, k)) || SameOrder(r.states[i].chain, r.states[j].chain)
    decreases j
  {
    hide RunHandler;
    if i < j {
      SingleBefore(cfg, r, i, j);
      FinishedOrUnderWay(cfg, r, i, j - 1);
      if SameOrder(r.states[i].chain, r.states[j - 1].chain) {
        OrderGoesOn(cfg, r, j - 1);
        assert r.states[j - 1].d.AllEmpty() ==> Finished(r, i, j - 1);
      }
    }
  }

  /** Every order of a single chain is completed: once the run has got beyond the completion bound of an order, with
      neither start nor stop on the way, some state in between has all four deques empty at the end of that very order. */
  lemma OrdersAreCompleted(cfg: Config, r: Run, i: nat, j: nat, end: nat)
    requires cfg.Valid() && Ticks(cfg) && r.Of(cfg) && Undisturbed(r, i, j) && Single(r.states[j])
    requires r.states[i].chain.blocks != [] && CompletionBound(cfg, r.states[i].chain) <= end && EventBound(cfg, end) < j
    ensures exists k: nat | k <= j :: Finished(r, i, k)
  {
    hide RunHandler;
    ClockAdvances(cfg, r, j, end);
    FinishedOrUnderWay(cfg, r, i, j);
    if SameOrder(r.states[i].chain, r.states[j].chain) {
      OrdersComplete(cfg, r, j);
      assert Finished(r, i, j);
    }
  }
}
