/** How long the AGV can be silent in any run, teleoperation included. Every order message, and the start and stop of
    teleoperation, cancel the pending state message and schedule another; what bounds the silence is that only so many
    of them can come before a state message does. */
module StateInterval {
  import opened Basics
  import opened EventQueue
  import opened Commands
  import opened AgvModel
  import opened AgvInvariants
  import opened SentLog
  import opened OrderChain
  import opened AgvRuns
  import opened AgvPromises

  // ---------------------------------------------------------------- how often the state message can still be put off

  /** Order messages that can still be sent before the next state message, start and stop aside: the rest of the plan,
      one whole order if all deques are empty, and one whole order for a second chain. */
  function OrdersLeft(cfg: Config, s: AgvState): int {
    |s.d.plannedNodes| + (if Excess(s) > 0 then cfg.orderLenMax else if Excess(s) < 0 then 0 - cfg.orderLenMax else 0)
    + (if s.d.plannedNodes == [] && s.d.nodes == [] then cfg.orderLenMax else 0)
  }

  /** Those that the toggles still ahead can add. */
  function OrdersAhead(cfg: Config, phase: Phase): nat {
    if cfg.scenario.VDA5050? || phase.AfterStop? then 0
    else if phase.Teleop? then cfg.orderLenMax else 2 * cfg.orderLenMax
  }

  function TogglesAhead(cfg: Config, phase: Phase): nat {
    if cfg.scenario.VDA5050? || phase.AfterStop? then 0 else if phase.Teleop? then 1 else 2
  }

  /** By how much the next state message can still be put off. */
  function Slack(cfg: Config, s: AgvState): int { SlackFor(cfg, OrdersLeft(cfg, s), s.phase) }

  function SlackFor(cfg: Config, left: int, phase: Phase): int {
    (left + OrdersAhead(cfg, phase)) * cfg.stateAfterOrder + TogglesAhead(cfg, phase) * cfg.stateAfterToggle
  }

  function MostSlack(cfg: Config): nat {
    if cfg.scenario.VDA5050? then cfg.orderLenMax * cfg.stateAfterOrder
    else 3 * cfg.orderLenMax * cfg.stateAfterOrder + 2 * cfg.stateAfterToggle
  }

  /** The longest pause between two state messages in any run. */
  function AnySilenceBound(cfg: Config): nat { Max(cfg.idleInterval, cfg.finishStep) + MostSlack(cfg) }

  /** What the counting invariants say about the numbers above. */
  predicate Countable(cfg: Config, s: AgvState) {
    && |s.d.plannedNodes| < cfg.orderLenMax
    && (cfg.scenario.VDA5050? ==> s.phase.BeforeStart?)
    && Excess(s) <= (if s.phase.AfterStop? then 1 else 0)
    && (Excess(s) < 0 ==> s.phase.Teleop? && Excess(s) == -1 && s.d.plannedNodes == [] && s.d.nodes == [])
  }

  lemma CountableHere(cfg: Config, s: AgvState)
    requires Phased(cfg, s) && OrdersCounted(s) && CounterOk(cfg, s)
    ensures Countable(cfg, s)
  {}

  lemma OrdersLeftBounded(cfg: Config, s: AgvState)
    requires Countable(cfg, s)
    ensures 0 <= OrdersLeft(cfg, s) <= (if s.phase.AfterStop? then 2 * cfg.orderLenMax else cfg.orderLenMax)
  {}

  lemma SlackBounded(cfg: Config, s: AgvState)
    requires Countable(cfg, s)
    ensures 0 <= Slack(cfg, s) <= MostSlack(cfg)
  {
    OrdersLeftBounded(cfg, s);
    var most := if cfg.scenario.VDA5050? then cfg.orderLenMax else 3 * cfg.orderLenMax;
    MulMonotone(OrdersLeft(cfg, s) + OrdersAhead(cfg, s.phase), most, cfg.stateAfterOrder);
    MulMonotone(TogglesAhead(cfg, s.phase), 2, cfg.stateAfterToggle);
  }

  // ---------------------------------------------------------------- each put-off uses some of it up

  lemma OrderTakesFromPlan(cfg: Config, s: AgvState, m: Move, t: AgvState)
    requires Paired(s.d) && Step(cfg, s, m, t) && KindOf(s, m).SendOrder?
    ensures t.d.nodes != [] && t.phase == s.phase
    ensures |t.d.plannedNodes| < if s.d.plannedNodes == [] then cfg.orderLenMax else |s.d.plannedNodes|
  {}

  lemma OrdersLeftFall(cfg: Config, s: AgvState, m: Move, t: AgvState)
    requires Tidy(s) && Paired(s.d) && Countable(cfg, s) && Step(cfg, s, m, t) && KindOf(s, m).SendOrder?
    ensures OrdersLeft(cfg, t) + 1 <= OrdersLeft(cfg, s) && t.phase == s.phase
  {
    hide RunHandler;
    OrderTakesFromPlan(cfg, s, m, t);
    OverlapStep(cfg, s, m, t);
    assert m.u in Orders(s);
  }

  lemma OrderUsesUp(cfg: Config, s: AgvState, m: Move, t: AgvState)
    requires Tidy(s) && Paired(s.d) && Countable(cfg, s) && Step(cfg, s, m, t) && KindOf(s, m).SendOrder?
    ensures Slack(cfg, t) + cfg.stateAfterOrder <= Slack(cfg, s)
  {
    OrdersLeftFall(cfg, s, m, t);
    SlackFalls(cfg, OrdersLeft(cfg, t), OrdersLeft(cfg, s), s.phase);
  }

  lemma SlackFalls(cfg: Config, left': int, left: int, phase: Phase)
    requires left' + 1 <= left
    ensures SlackFor(cfg, left', phase) + cfg.stateAfterOrder <= SlackFor(cfg, left, phase)
  {
    LessByOne(left' + OrdersAhead(cfg, phase), left + OrdersAhead(cfg, phase), cfg.stateAfterOrder);
  }

  lemma Distribute(a: int, b: int, c: int)
    ensures (a + b) * c == a * c + b * c
  {}

  lemma LessByOne(a: int, b: int, c: nat)
    requires a + 1 <= b
    ensures a * c + c <= b * c
  {
    Distribute(a, 1, c);
    Distribute(a + 1, b - a - 1, c);
    MulMonotone(0, b - a - 1, c);
  }

  lemma StartUsesUp(cfg: Config, s: AgvState, t: AgvState)
    requires cfg.scenario.TELEOP? && Countable(cfg, s) && s.phase.BeforeStart? && Countable(cfg, t) && t.phase.Teleop?
    ensures Slack(cfg, t) + cfg.stateAfterToggle <= Slack(cfg, s)
  {
    OrdersLeftBounded(cfg, s);
    OrdersLeftBounded(cfg, t);
    MulMonotone(OrdersLeft(cfg, t) + OrdersAhead(cfg, t.phase), OrdersLeft(cfg, s) + OrdersAhead(cfg, s.phase), cfg.stateAfterOrder);
  }

  lemma StopUsesUp(cfg: Config, s: AgvState, t: AgvState)
    requires cfg.scenario.TELEOP? && Countable(cfg, s)
    requires s.phase.Teleop? && t.phase.AfterStop? && t.d == s.d && Excess(t) == Excess(s) + 1
    ensures Slack(cfg, t) + cfg.stateAfterToggle <= Slack(cfg, s)
  {
    assert OrdersLeft(cfg, t) + OrdersAhead(cfg, t.phase) == OrdersLeft(cfg, s) + OrdersAhead(cfg, s.phase);
  }

  // ---------------------------------------------------------------- the pending state message

  lemma QueueByOrder(cfg: Config, s: AgvState, m: Move, t: AgvState)
    requires Step(cfg, s, m, t) && KindOf(s, m).SendOrder?
    ensures t.q == QueueAfterOrder(cfg, Started(s, m).q, t.d.plannedNodes != [], s.nextState)
    ensures t.nextState == Some(if t.d.plannedNodes != [] then s.q.nextUid + 1 else s.q.nextUid)
  {
    hide WellFormed, Live, Extends, Schedule, Cancel, QueueAfterOrder, ChainAfterOrder;
  }

  lemma PutOffByOrder(cfg: Config, s: AgvState, m: Move, t: AgvState)
    requires StateTracked(s) && Step(cfg, s, m, t) && KindOf(s, m).SendOrder?
    ensures t.nextState.Some? && StateAt(t) == t.q.now + cfg.stateAfterOrder
  {
    hide RunHandler, AfterOrder, QueueAfterOrder;
    QueueByOrder(cfg, s, m, t);
    TimesAfterOrder(cfg, Started(s, m).q, t.d.plannedNodes != [], s.nextState);
  }

  lemma TimesAfterStart(cfg: Config, q: Queue, h: Handle, h': Handle)
    requires WellFormed(q)
    ensures TimeOf(QueueAfterStart(cfg, q, h, h'), q.nextUid + 1) == q.now + cfg.stateAfterToggle
  {}

  lemma TimesAfterStop(cfg: Config, q: Queue, h: Handle, h': Handle)
    requires WellFormed(q)
    ensures TimeOf(QueueAfterStop(cfg, q, h, h'), q.nextUid + 1) == q.now + cfg.stateAfterToggle
  {}

  lemma PutOffByStart(cfg: Config, s: AgvState, m: Move, t: AgvState)
    requires WellFormed(s.q) && Step(cfg, s, m, t) && KindOf(s, m).StartTeleoperation?
    ensures t.nextState.Some? && StateAt(t) == t.q.now + cfg.stateAfterToggle
  {
    var s1 := Started(s, m);
    TimesAfterStart(cfg, s1.q, s1.nextOrder, s1.nextState);
  }

  lemma PutOffByStop(cfg: Config, s: AgvState, m: Move, t: AgvState)
    requires WellFormed(s.q) && Step(cfg, s, m, t) && KindOf(s, m).StopTeleoperation?
    ensures t.nextState.Some? && StateAt(t) == t.q.now + cfg.stateAfterToggle
  {
    hide QueueAfterStop;
    var s1 := Started(s, m);
    TimesAfterStop(cfg, s1.q, s1.nextState, s1.nextControl);
  }

  lemma StateSent(cfg: Config, s: AgvState, m: Move, t: AgvState)
    requires StateTracked(s) && Step(cfg, s, m, t) && KindOf(s, m).SendState?
    ensures t.nextState.Some? && t.q.now == StateAt(s)
    ensures t.q.now <= StateAt(t) <= t.q.now + Max(cfg.idleInterval, cfg.finishStep)
    ensures TimesOf(t.sent, State) == TimesOf(s.sent, State) + [t.q.now]
  {
    var s1 := Started(s, m);
    assert m.u in Live(s.q, SendState);
    TimesAfterState(cfg, s1.q, s.d.NothingReleased(), !s.d.NothingReleased() && Traversed(s.d).AllEmpty());
    LogAppend(s.sent, Sent(s1.q.now, Ue, PUBLISH_VDA, Topic.State, StateMessage(s.d.nodes, s.d.edges)), State);
  }

  /** Whatever runs, runs no later than the pending state message. */
  lemma StateIsAhead(cfg: Config, s: AgvState, m: Move, t: AgvState)
    requires StateTracked(s) && Step(cfg, s, m, t)
    ensures t.q.now <= StateAt(s)
  {
    EventsKeepTheirTime(cfg, s, m, t);
    assert s.nextState.value in Live(s.q, SendState);
    assert Earlier(s.q, m.u, s.nextState.value);
  }

  lemma StateStays(cfg: Config, s: AgvState, m: Move, t: AgvState)
    requires StateTracked(s) && Step(cfg, s, m, t) && !MovesOrders(KindOf(s, m))
    ensures t.nextState == s.nextState && StateAt(t) == StateAt(s)
    ensures t.d == s.d && t.phase == s.phase && Orders(t) == Orders(s)
  {
    OrderStateUnmoved(cfg, s, m, t);
    EventsKeepTheirTime(cfg, s, m, t);
    Untouched(cfg, s, m, t, SendState);
    Untouched(cfg, s, m, t, SendOrder);
    assert s.nextState.value in Live(t.q, SendState) && s.nextState.value in Live(s.q, SendState);
  }

  // ---------------------------------------------------------------- the invariant

  /** The pending state message is late by no more than the slack used up since the latest one. */
  predicate OnTime(cfg: Config, times: seq<nat>, stateAt: nat, slack: int) {
    && Spaced(times, AnySilenceBound(cfg))
    && (times != [] ==>
          stateAt <= times[|times| - 1] + Max(cfg.idleInterval, cfg.finishStep) + MostSlack(cfg) - slack)
  }

  ghost predicate AllOnTime(cfg: Config, s: AgvState) {
    s.nextState.Some? && OnTime(cfg, TimesOf(s.sent, State), StateAt(s), Slack(cfg, s))
  }

  lemma OnTimeWhenPutOff(cfg: Config, times: seq<nat>, stateAt: nat, slack: int, now: nat, delay: nat, slack': int)
    requires OnTime(cfg, times, stateAt, slack) && now <= stateAt && slack' + delay <= slack
    ensures OnTime(cfg, times, now + delay, slack')
  {}

  lemma OnTimeWhenSent(cfg: Config, times: seq<nat>, stateAt: nat, slack: int, stateAt': nat, slack': int)
    requires OnTime(cfg, times, stateAt, slack) && 0 <= slack && slack' <= MostSlack(cfg)
    requires stateAt' <= stateAt + Max(cfg.idleInterval, cfg.finishStep)
    ensures OnTime(cfg, times + [stateAt], stateAt', slack')
  {}

  /** What the other invariants provide. */
  ghost predicate Grounded(cfg: Config, s: AgvState) {
    StateTracked(s) && Paired(s.d) && Phased(cfg, s) && OrdersCounted(s) && CounterOk(cfg, s)
  }

  lemma OnTimeByOrder(cfg: Config, s: AgvState, m: Move, t: AgvState)
    requires Grounded(cfg, s) && AllOnTime(cfg, s) && Step(cfg, s, m, t) && KindOf(s, m).SendOrder?
    ensures AllOnTime(cfg, t)
  {
    hide SlackFor, MostSlack;
    StateIsAhead(cfg, s, m, t);
    PutOffByOrder(cfg, s, m, t);
    CountableHere(cfg, s);
    OrderUsesUp(cfg, s, m, t);
    LogUnmoved(cfg, s, m, t, State);
    OnTimeWhenPutOff(cfg, TimesOf(s.sent, State), StateAt(s), Slack(cfg, s), t.q.now, cfg.stateAfterOrder, Slack(cfg, t));
  }

  lemma OnTimeByState(cfg: Config, s: AgvState, m: Move, t: AgvState)
    requires Grounded(cfg, s) && Grounded(cfg, t) && AllOnTime(cfg, s) && Step(cfg, s, m, t) && KindOf(s, m).SendState?
    ensures AllOnTime(cfg, t)
  {
    hide SlackFor, MostSlack;
    StateSent(cfg, s, m, t);
    CountableHere(cfg, s);
    SlackBounded(cfg, s);
    CountableHere(cfg, t);
    SlackBounded(cfg, t);
    OnTimeWhenSent(cfg, TimesOf(s.sent, State), StateAt(s), Slack(cfg, s), StateAt(t), Slack(cfg, t));
  }

  lemma OnTimeByStart(cfg: Config, s: AgvState, m: Move, t: AgvState)
    requires cfg.Valid() && Grounded(cfg, s) && Grounded(cfg, t) && AllOnTime(cfg, s)
    requires Step(cfg, s, m, t) && KindOf(s, m).StartTeleoperation?
    ensures AllOnTime(cfg, t)
  {
    hide SlackFor, MostSlack;
    StateIsAhead(cfg, s, m, t);
    PutOffByStart(cfg, s, m, t);
    ToggleOrder(cfg, s, m);
    PhaseAfter(cfg, s, m, t);
    CountableHere(cfg, s);
    CountableHere(cfg, t);
    StartUsesUp(cfg, s, t);
    LogUnmoved(cfg, s, m, t, State);
    OnTimeWhenPutOff(cfg, TimesOf(s.sent, State), StateAt(s), Slack(cfg, s), t.q.now, cfg.stateAfterToggle, Slack(cfg, t));
  }

  lemma OnTimeByStop(cfg: Config, s: AgvState, m: Move, t: AgvState)
    requires cfg.Valid() && Grounded(cfg, s) && AllOnTime(cfg, s) && Step(cfg, s, m, t) && KindOf(s, m).StopTeleoperation?
    ensures AllOnTime(cfg, t)
  {
    hide RunHandler, SlackFor, MostSlack;
    StateIsAhead(cfg, s, m, t);
    PutOffByStop(cfg, s, m, t);
    ToggleOrder(cfg, s, m);
    StopRestarts(cfg, s, m, t);
    CountableHere(cfg, s);
    StopUsesUp(cfg, s, t);
    LogUnmoved(cfg, s, m, t, State);
    OnTimeWhenPutOff(cfg, TimesOf(s.sent, State), StateAt(s), Slack(cfg, s), t.q.now, cfg.stateAfterToggle, Slack(cfg, t));
  }

  lemma SlackStays(cfg: Config, s: AgvState, t: AgvState)
    requires t.d == s.d && t.phase == s.phase && Orders(t) == Orders(s)
    ensures Slack(cfg, t) == Slack(cfg, s)
  {
    assert OrdersLeft(cfg, t) == OrdersLeft(cfg, s);
  }

  lemma OnTimeByRest(cfg: Config, s: AgvState, m: Move, t: AgvState)
    requires Grounded(cfg, s) && AllOnTime(cfg, s) && Step(cfg, s, m, t) && !MovesOrders(KindOf(s, m))
    ensures AllOnTime(cfg, t)
  {
    hide RunHandler, SlackFor, MostSlack;
    StateStays(cfg, s, m, t);
    SlackStays(cfg, s, t);
    LogUnmoved(cfg, s, m, t, State);
  }

  lemma OnTimeKept(cfg: Config, s: AgvState, m: Move, t: AgvState)
    requires cfg.Valid() && Grounded(cfg, s) && Grounded(cfg, t) && AllOnTime(cfg, s) && Step(cfg, s, m, t)
    ensures AllOnTime(cfg, t)
  {
    hide SlackFor, MostSlack;
    if KindOf(s, m).SendOrder? { OnTimeByOrder(cfg, s, m, t); }
    else if KindOf(s, m).SendState? { OnTimeByState(cfg, s, m, t); }
    else if KindOf(s, m).StartTeleoperation? { OnTimeByStart(cfg, s, m, t); }
    else if KindOf(s, m).StopTeleoperation? { OnTimeByStop(cfg, s, m, t); }
    else { OnTimeByRest(cfg, s, m, t); }
  }

  lemma GroundedHolds(cfg: Config, r: Run, i: nat)
    requires cfg.Valid() && r.Of(cfg) && i < |r.states|
    ensures Grounded(cfg, r.states[i])
  {
    TrackedHolds(cfg, r, i);
    PairedHolds(cfg, r, i);
    PhasedHolds(cfg, r, i);
    CountedHolds(cfg, r, i);
  }

  lemma OnTimeAt(cfg: Config, r: Run, i: nat)
    requires cfg.Valid() && r.Of(cfg) && 0 < i < |r.states| == |r.moves| + 1 && AllOnTime(cfg, r.states[i - 1])
    requires Grounded(cfg, r.states[i - 1]) && Grounded(cfg, r.states[i])
    ensures AllOnTime(cfg, r.states[i])
  {
    hide *;
    StepAt(cfg, r, i - 1);
    OnTimeKept(cfg, r.states[i - 1], r.moves[i - 1], r.states[i]);
  }

  lemma OnTimeFirst(cfg: Config, r: Run)
    requires cfg.Valid() && r.Of(cfg)
    ensures AllOnTime(cfg, r.states[0])
  {
    hide SlackFor, MostSlack;
    GroundedHolds(cfg, r, 0);
    StartsBlank(cfg, r);
  }

  lemma {:induction false} OnTimeHolds(cfg: Config, r: Run, i: nat)
    requires cfg.Valid() && r.Of(cfg) && i < |r.states|
    ensures AllOnTime(cfg, r.states[i])
  {
    hide SlackFor, MostSlack;
    if i == 0 {
      OnTimeFirst(cfg, r);
    } else {
      OnTimeHolds(cfg, r, i - 1);
      GroundedHolds(cfg, r, i - 1);
      GroundedHolds(cfg, r, i);
      OnTimeAt(cfg, r, i);
    }
  }

  lemma NowBeforeState(s: AgvState)
    requires StateTracked(s)
    ensures s.q.now <= StateAt(s)
  {
    assert s.nextState.value in Live(s.q, SendState);
  }

  lemma NowOnTime(cfg: Config, times: seq<nat>, stateAt: nat, slack: int, now: nat)
    requires OnTime(cfg, times, stateAt, slack) && 0 <= slack && now <= stateAt
    ensures times != [] ==> now <= times[|times| - 1] + AnySilenceBound(cfg)
  {
    hide MostSlack;
  }

  /** In every run of either scenario, through start and stop and overlapping order chains, consecutive state messages
      are no further apart than the bound, and neither are the latest and now. */
  lemma NeverSilentInAnyRun(cfg: Config, r: Run, i: nat)
    requires cfg.Valid() && r.Of(cfg) && i < |r.states|
    ensures Spaced(TimesOf(r.states[i].sent, State), AnySilenceBound(cfg))
    ensures var times := TimesOf(r.states[i].sent, State);
            times != [] ==> r.states[i].q.now <= times[|times| - 1] + AnySilenceBound(cfg)
  {
    hide SlackFor, MostSlack;
    OnTimeHolds(cfg, r, i);
    GroundedHolds(cfg, r, i);
    CountableHere(cfg, r.states[i]);
    SlackBounded(cfg, r.states[i]);
    NowBeforeState(r.states[i]);
    NowOnTime(cfg, TimesOf(r.states[i].sent, State), StateAt(r.states[i]), Slack(cfg, r.states[i]), r.states[i].q.now);
  }

  /** With the shipped delays a TELEOP run, too, keeps the 30 seconds of section 6.10 of VDA 5050 throughout. */
  lemma DefaultKeepsStateIntervalInTeleop(r: Run, i: nat, k: nat)
    requires r.Of(DEFAULT.(scenario := TELEOP)) && i < |r.states| && 0 < k < |TimesOf(r.states[i].sent, State)|
    ensures TimesOf(r.states[i].sent, State)[k] <= TimesOf(r.states[i].sent, State)[k - 1] + 11_300
    ensures 11_300 < 30 * 1000
  {
    NeverSilentInAnyRun(DEFAULT.(scenario := TELEOP), r, i);
    assert AnySilenceBound(DEFAULT.(scenario := TELEOP)) == 11_300;
  }
}
