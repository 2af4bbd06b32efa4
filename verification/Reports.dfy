/** What the AGV reports about teleoperation, and with it when the camera of the UE is on. Both reports come a fixed
    delay after the toggle they are about, and report the flag as it is by then. */
module Reports {
  import opened Basics
  import opened EventQueue
  import opened Commands
  import opened AgvModel
  import opened AgvInvariants
  import opened SentLog
  import opened OrderChain
  import opened Teleoperation
  import opened AgvRuns
  import opened AgvPromises
  import opened MixedOrders
  import opened Composition
  import L = MainLoop

  datatype Report = Report(time: nat, on: bool)

  function ReportsOf(sent: seq<Sent>): seq<Report> {
    if sent == [] then [] else
    var x := sent[|sent| - 1];
    ReportsOf(sent[..|sent| - 1])
    + (if x.topic.TeleopState? && x.payload.Teleoperating? then [Report(x.time, x.payload.on)] else [])
  }

  function StartReported(cfg: Config): nat { 1000 * cfg.startS + cfg.teleopStateDelay }

  function StopReported(cfg: Config): nat { 1000 * cfg.stopS + cfg.teleopStateDelay }

  /** The first report says that teleoperation is on, unless stop has come first; the second says that it is off. */
  function Session(cfg: Config): seq<Report> {
    [Report(StartReported(cfg), StartReported(cfg) < 1000 * cfg.stopS), Report(StopReported(cfg), false)]
  }

  // ---------------------------------------------------------------- the invariant

  ghost predicate OnePending(q: Queue, time: nat) {
    exists u: nat :: Live(q, SendTeleoperationState) == {u} && u > STOP_UID && TimeOf(q, u) == time
  }

  ghost predicate TwoPending(q: Queue, first: nat, second: nat) {
    exists u: nat, v: nat :: Live(q, SendTeleoperationState) == {u, v} && STOP_UID < u < v && TimeOf(q, u) == first && TimeOf(q, v) == second
  }

  /** What has been reported and what is pending make up the session. */
  ghost predicate ReportsPending(cfg: Config, phase: Phase, reports: seq<Report>, q: Queue) {
    match phase
    case BeforeStart => reports == [] && Live(q, SendTeleoperationState) == {}
    case Teleop =>
      || (reports == [] && OnePending(q, StartReported(cfg)))
      || (reports == Session(cfg)[..1] && reports[0].on && Live(q, SendTeleoperationState) == {})
    case AfterStop =>
      || (reports == [] && !Session(cfg)[0].on && TwoPending(q, StartReported(cfg), StopReported(cfg)))
      || (reports == Session(cfg)[..1] && OnePending(q, StopReported(cfg)))
      || (reports == Session(cfg) && Live(q, SendTeleoperationState) == {})
  }

  predicate LastReport(sent: seq<Sent>) {
    var reports := ReportsOf(sent);
    LastOf(sent, TeleopState) == if reports == [] then None else Some(Teleoperating(reports[|reports| - 1].on))
  }

  ghost predicate ReportsOk(cfg: Config, s: AgvState) {
    ReportsPending(cfg, s.phase, ReportsOf(s.sent), s.q) && LastReport(s.sent)
  }

  // ---------------------------------------------------------------- the log

  lemma ReportsAppend(sent: seq<Sent>, x: Sent)
    ensures ReportsOf(sent + [x]) == ReportsOf(sent)
      + (if x.topic.TeleopState? && x.payload.Teleoperating? then [Report(x.time, x.payload.on)] else [])
  {
    assert (sent + [x])[..|sent|] == sent;
  }

  lemma NothingReported(sent: seq<Sent>, x: Sent)
    requires LastReport(sent) && !x.topic.TeleopState?
    ensures ReportsOf(sent + [x]) == ReportsOf(sent) && LastReport(sent + [x])
  {
    ReportsAppend(sent, x);
    LogAppend(sent, x, TeleopState);
  }

  lemma Reported(sent: seq<Sent>, now: nat, on: bool)
    requires LastReport(sent)
    ensures var log := sent + [Sent(now, Ue, PUBLISH_TELEOP, TeleopState, Teleoperating(on))];
            ReportsOf(log) == ReportsOf(sent) + [Report(now, on)] && LastReport(log)
  {
    var x := Sent(now, Ue, PUBLISH_TELEOP, TeleopState, Teleoperating(on));
    ReportsAppend(sent, x);
    LogAppend(sent, x, TeleopState);
  }

  lemma ReportsUnmoved(cfg: Config, s: AgvState, m: Move, t: AgvState)
    requires Step(cfg, s, m, t) && !KindOf(s, m).SendTeleoperationState? && LastReport(s.sent)
    ensures ReportsOf(t.sent) == ReportsOf(s.sent) && LastReport(t.sent)
  {
    hide RunHandler;
    SendsPublication(cfg, s, m, t);
    NothingReported(s.sent, t.sent[|s.sent|]);
  }

  lemma ReportMade(cfg: Config, s: AgvState, m: Move, t: AgvState)
    requires Step(cfg, s, m, t) && KindOf(s, m).SendTeleoperationState? && LastReport(s.sent)
    ensures ReportsOf(t.sent) == ReportsOf(s.sent) + [Report(t.q.now, s.teleoperating)] && LastReport(t.sent)
  {
    hide RunHandler;
    SendsReport(cfg, s, m, t);
    var log := s.sent + [Sent(t.q.now, Ue, PUBLISH_TELEOP, TeleopState, Teleoperating(s.teleoperating))];
    Reported(s.sent, t.q.now, s.teleoperating);
    NothingReported(log, Sent(t.q.now, Ue, if s.teleoperating then START_VIDEO else STOP_VIDEO, NoTopic, Constant));
  }

  // ---------------------------------------------------------------- one step

  lemma PendingKept(q: Queue, r: Queue, time: nat, second: nat)
    requires Live(r, SendTeleoperationState) == Live(q, SendTeleoperationState)
    requires forall v <- r.pending | v in q.pending :: r.pending[v] == q.pending[v]
    ensures OnePending(q, time) ==> OnePending(r, time)
    ensures TwoPending(q, time, second) ==> TwoPending(r, time, second)
  {
    assert forall u <- Live(q, SendTeleoperationState) :: u in Live(r, SendTeleoperationState) && TimeOf(r, u) == TimeOf(q, u);
    if OnePending(q, time) {
      var u :| Live(q, SendTeleoperationState) == {u} && u > STOP_UID && TimeOf(q, u) == time;
      assert u in Live(q, SendTeleoperationState) && Live(r, SendTeleoperationState) == {u};
    }
    if TwoPending(q, time, second) {
      var u, v :| Live(q, SendTeleoperationState) == {u, v} && STOP_UID < u < v && TimeOf(q, u) == time && TimeOf(q, v) == second;
      assert u in Live(q, SendTeleoperationState) && v in Live(q, SendTeleoperationState) && Live(r, SendTeleoperationState) == {u, v};
    }
  }

  lemma ReportsByRest(cfg: Config, s: AgvState, m: Move, t: AgvState)
    requires Tidy(s) && ReportsOk(cfg, s) && Step(cfg, s, m, t) && !Touches(KindOf(s, m), SendTeleoperationState)
    requires !KindOf(s, m).SendTeleoperationState?
    ensures ReportsOk(cfg, t)
  {
    hide RunHandler;
    PhaseAfter(cfg, s, m, t);
    ReportsUnmoved(cfg, s, m, t);
    Untouched(cfg, s, m, t, SendTeleoperationState);
    PendingUntouched(cfg, s, m, t);
    PendingKept(s.q, t.q, StartReported(cfg), StopReported(cfg));
    PendingKept(s.q, t.q, StopReported(cfg), StopReported(cfg));
  }

  lemma StartQueue(cfg: Config, s: AgvState, m: Move, t: AgvState)
    requires Step(cfg, s, m, t) && KindOf(s, m).StartTeleoperation?
    ensures t.q == QueueAfterStart(cfg, Started(s, m).q, s.nextOrder, s.nextState)
  {
    hide QueueAfterStart;
  }

  lemma StopQueue(cfg: Config, s: AgvState, m: Move, t: AgvState)
    requires Step(cfg, s, m, t) && KindOf(s, m).StopTeleoperation?
    ensures t.q == QueueAfterStop(cfg, Started(s, m).q, s.nextState, s.nextControl)
  {
    hide QueueAfterStop;
  }

  /** Start and stop add one pending report, `teleopStateDelay` from now. */
  lemma StartAnnounces(cfg: Config, q: Queue, h: Handle, h': Handle)
    requires WellFormed(q) && Names(q, h, SendOrder) && Names(q, h', SendState)
    ensures var r := QueueAfterStart(cfg, q, h, h');
            && Live(r, SendTeleoperationState) == Live(q, SendTeleoperationState) + {q.nextUid}
            && TimeOf(r, q.nextUid) == q.now + cfg.teleopStateDelay
  {
    var reports := Live(q, SendTeleoperationState);
    assert Changed(reports, Named(h) + Named(h'), {q.nextUid}) == reports + {q.nextUid};
  }

  lemma StopAnnounces(cfg: Config, q: Queue, h: Handle, h': Handle)
    requires WellFormed(q) && Names(q, h, SendState) && Names(q, h', SendControl)
    ensures var r := QueueAfterStop(cfg, q, h, h');
            && Live(r, SendTeleoperationState) == Live(q, SendTeleoperationState) + {q.nextUid}
            && TimeOf(r, q.nextUid) == q.now + cfg.teleopStateDelay
  {
    var reports := Live(q, SendTeleoperationState);
    assert Changed(reports, Named(h) + Named(h'), {q.nextUid}) == reports + {q.nextUid};
  }

  lemma ReportsByStart(cfg: Config, s: AgvState, m: Move, t: AgvState)
    requires cfg.Valid() && Tidy(s) && Phased(cfg, s) && ReportsOk(cfg, s)
    requires Step(cfg, s, m, t) && KindOf(s, m).StartTeleoperation?
    ensures ReportsOk(cfg, t)
  {
    hide RunHandler, QueueAfterStart;
    ToggleOrder(cfg, s, m);
    PhaseAfter(cfg, s, m, t);
    TidyStarted(s, m);
    ReportsUnmoved(cfg, s, m, t);
    StartQueue(cfg, s, m, t);
    StartAnnounces(cfg, Started(s, m).q, s.nextOrder, s.nextState);
    assert Live(t.q, SendTeleoperationState) == {s.q.nextUid};
  }

  /** At stop a pending first report is one that will find the flag off. */
  lemma StopOvertakes(cfg: Config, s: AgvState, m: Move)
    requires cfg.Valid() && Phased(cfg, s) && IsNext(s.q, m.u) && KindOf(s, m).StopTeleoperation?
    requires OnePending(s.q, StartReported(cfg))
    ensures !Session(cfg)[0].on
  {
    ToggleOrder(cfg, s, m);
    var u :| Live(s.q, SendTeleoperationState) == {u} && u > STOP_UID && TimeOf(s.q, u) == StartReported(cfg);
    assert u in Live(s.q, SendTeleoperationState);
    assert Earlier(s.q, m.u, u);
  }

  lemma StopAdds(cfg: Config, q: Queue, r: Queue, at: nat)
    requires WellFormed(q) && q.nextUid > STOP_UID
    requires Live(r, SendTeleoperationState) == Live(q, SendTeleoperationState) + {q.nextUid} && TimeOf(r, q.nextUid) == at
    requires forall v <- r.pending | v in q.pending :: r.pending[v] == q.pending[v]
    ensures Live(q, SendTeleoperationState) == {} ==> OnePending(r, at)
    ensures OnePending(q, StartReported(cfg)) ==> TwoPending(r, StartReported(cfg), at)
  {
    if OnePending(q, StartReported(cfg)) {
      var u :| Live(q, SendTeleoperationState) == {u} && u > STOP_UID && TimeOf(q, u) == StartReported(cfg);
      assert u in Live(q, SendTeleoperationState) && u in Live(r, SendTeleoperationState);
      assert Live(r, SendTeleoperationState) == {u, q.nextUid};
    }
  }

  lemma ReportsByStop(cfg: Config, s: AgvState, m: Move, t: AgvState)
    requires cfg.Valid() && Tidy(s) && Phased(cfg, s) && ReportsOk(cfg, s)
    requires Step(cfg, s, m, t) && KindOf(s, m).StopTeleoperation?
    ensures ReportsOk(cfg, t)
  {
    hide RunHandler, QueueAfterStop, OnePending, TwoPending;
    ToggleOrder(cfg, s, m);
    PhaseAfter(cfg, s, m, t);
    TidyStarted(s, m);
    ReportsUnmoved(cfg, s, m, t);
    StopQueue(cfg, s, m, t);
    StopAnnounces(cfg, Started(s, m).q, s.nextState, s.nextControl);
    PendingUntouched(cfg, s, m, t);
    StopAdds(cfg, s.q, t.q, StopReported(cfg));
    if ReportsOf(s.sent) == [] { StopOvertakes(cfg, s, m); }
  }

  /** A report runs when it is due, the first before the second. */
  lemma FirstIsDue(s: AgvState, m: Move, time: nat)
    requires IsNext(s.q, m.u) && KindOf(s, m).SendTeleoperationState? && OnePending(s.q, time)
    ensures Live(s.q, SendTeleoperationState) - {m.u} == {} && s.q.pending[m.u].time == time && m.u > STOP_UID
  {
    assert m.u in Live(s.q, SendTeleoperationState);
  }

  lemma FirstOfTwoIsDue(s: AgvState, m: Move, t: AgvState, first: nat, second: nat)
    requires IsNext(s.q, m.u) && KindOf(s, m).SendTeleoperationState? && TwoPending(s.q, first, second) && first <= second
    requires Live(t.q, SendTeleoperationState) == Live(s.q, SendTeleoperationState) - {m.u}
    requires forall v <- t.q.pending | v in s.q.pending :: t.q.pending[v] == s.q.pending[v]
    ensures s.q.pending[m.u].time == first && OnePending(t.q, second)
  {
    var u, v :| Live(s.q, SendTeleoperationState) == {u, v} && STOP_UID < u < v && TimeOf(s.q, u) == first && TimeOf(s.q, v) == second;
    assert u in Live(s.q, SendTeleoperationState) && v in Live(s.q, SendTeleoperationState) && m.u in Live(s.q, SendTeleoperationState);
    assert Earlier(s.q, m.u, u);
    assert v in Live(t.q, SendTeleoperationState) && Live(t.q, SendTeleoperationState) == {v};
  }

  lemma TeleopStateQueue(cfg: Config, s: AgvState, m: Move, t: AgvState)
    requires Tidy(s) && Step(cfg, s, m, t) && KindOf(s, m).SendTeleoperationState?
    ensures Live(t.q, SendTeleoperationState) == Live(s.q, SendTeleoperationState) - {m.u}
    ensures t.q.now == s.q.pending[m.u].time
  {
    hide RunHandler;
    Untouched(cfg, s, m, t, SendTeleoperationState);
    EventsKeepTheirTime(cfg, s, m, t);
  }

  /** A first report made while teleoperation is on is made before stop. */
  lemma ReportBeforeStop(cfg: Config, s: AgvState, m: Move)
    requires Phased(cfg, s) && s.phase.Teleop? && IsNext(s.q, m.u) && m.u > STOP_UID
    ensures s.q.pending[m.u].time < 1000 * cfg.stopS
  {
    assert STOP_UID in Live(s.q, StopTeleoperation);
    assert Earlier(s.q, m.u, STOP_UID);
  }

  lemma ReportInSession(cfg: Config, s: AgvState, m: Move, t: AgvState)
    requires Phased(cfg, s) && s.phase.Teleop? && ReportsPending(cfg, s.phase, ReportsOf(s.sent), s.q)
    requires IsNext(s.q, m.u) && KindOf(s, m).SendTeleoperationState?
    requires Live(t.q, SendTeleoperationState) == Live(s.q, SendTeleoperationState) - {m.u}
    ensures ReportsPending(cfg, Teleop, ReportsOf(s.sent) + [Report(s.q.pending[m.u].time, true)], t.q)
  {
    assert m.u in Live(s.q, SendTeleoperationState);
    FirstIsDue(s, m, StartReported(cfg));
    ReportBeforeStop(cfg, s, m);
  }

  lemma ReportAfterSession(cfg: Config, s: AgvState, m: Move, t: AgvState)
    requires cfg.Valid() && s.phase.AfterStop? && ReportsPending(cfg, s.phase, ReportsOf(s.sent), s.q)
    requires IsNext(s.q, m.u) && KindOf(s, m).SendTeleoperationState?
    requires Live(t.q, SendTeleoperationState) == Live(s.q, SendTeleoperationState) - {m.u}
    requires forall v <- t.q.pending | v in s.q.pending :: t.q.pending[v] == s.q.pending[v]
    ensures ReportsPending(cfg, AfterStop, ReportsOf(s.sent) + [Report(s.q.pending[m.u].time, false)], t.q)
  {
    assert m.u in Live(s.q, SendTeleoperationState);
    if ReportsOf(s.sent) == [] {
      FirstOfTwoIsDue(s, m, t, StartReported(cfg), StopReported(cfg));
    } else {
      FirstIsDue(s, m, StopReported(cfg));
    }
  }

  lemma ReportsByReport(cfg: Config, s: AgvState, m: Move, t: AgvState)
    requires cfg.Valid() && Tidy(s) && Phased(cfg, s) && ReportsOk(cfg, s)
    requires Step(cfg, s, m, t) && KindOf(s, m).SendTeleoperationState?
    ensures ReportsOk(cfg, t)
  {
    hide RunHandler, OnePending, TwoPending;
    PhaseAfter(cfg, s, m, t);
    ReportMade(cfg, s, m, t);
    TeleopStateQueue(cfg, s, m, t);
    PendingUntouched(cfg, s, m, t);
    assert m.u in Live(s.q, SendTeleoperationState);
    match s.phase
    case BeforeStart =>
    case Teleop => ReportInSession(cfg, s, m, t);
    case AfterStop => ReportAfterSession(cfg, s, m, t);
  }

  lemma ReportsKept(cfg: Config, s: AgvState, m: Move, t: AgvState)
    requires cfg.Valid() && Tidy(s) && Phased(cfg, s) && ReportsOk(cfg, s) && Step(cfg, s, m, t)
    ensures ReportsOk(cfg, t)
  {
    hide RunHandler, ReportsOk;
    match KindOf(s, m)
    case StartTeleoperation => ReportsByStart(cfg, s, m, t);
    case StopTeleoperation => ReportsByStop(cfg, s, m, t);
    case SendTeleoperationState => ReportsByReport(cfg, s, m, t);
    case _ => ReportsByRest(cfg, s, m, t);
  }

  // ---------------------------------------------------------------- runs

  lemma ReportsFirst(cfg: Config, r: Run)
    requires cfg.Valid() && r.Of(cfg)
    ensures ReportsOk(cfg, r.states[0])
  {
    hide RunHandler, InitQueue;
    StartsBlank(cfg, r);
    ControlHolds(cfg, r, 0);
  }

  lemma ReportsAt(cfg: Config, r: Run, k: nat)
    requires cfg.Valid() && r.Of(cfg) && k < |r.moves| && |r.states| == |r.moves| + 1 && ReportsOk(cfg, r.states[k])
    ensures ReportsOk(cfg, r.states[k + 1])
  {
    hide RunHandler, ReportsOk;
    StepAt(cfg, r, k);
    TrackedHolds(cfg, r, k);
    PhasedHolds(cfg, r, k);
    ReportsKept(cfg, r.states[k], r.moves[k], r.states[k + 1]);
  }

  lemma {:induction false} ReportsHold(cfg: Config, r: Run, i: nat)
    requires cfg.Valid() && r.Of(cfg) && i < |r.states|
    ensures ReportsOk(cfg, r.states[i])
  {
    hide RunHandler, ReportsOk;
    if i == 0 {
      ReportsFirst(cfg, r);
    } else {
      Lengths(cfg, r);
      ReportsHold(cfg, r, i - 1);
      ReportsAt(cfg, r, i - 1);
    }
  }

  /** Exactly what is reported, and when: first at start + d whether stop is still ahead, then at stop + d that
      teleoperation is off. None is early, none is late, and nothing else is ever reported. */
  lemma ReportsOnTime(cfg: Config, r: Run, i: nat)
    requires cfg.Valid() && r.Of(cfg) && i < |r.states|
    ensures ReportsOf(r.states[i].sent) <= Session(cfg)
    ensures r.states[i].phase.BeforeStart? ==> ReportsOf(r.states[i].sent) == []
    ensures r.states[i].phase.Teleop? ==> |ReportsOf(r.states[i].sent)| <= 1
    ensures !r.states[i].phase.BeforeStart? && StartReported(cfg) < r.states[i].q.now ==> ReportsOf(r.states[i].sent) != []
    ensures r.states[i].phase.AfterStop? && StopReported(cfg) < r.states[i].q.now ==> ReportsOf(r.states[i].sent) == Session(cfg)
  {
    ReportsHold(cfg, r, i);
    TrackedHolds(cfg, r, i);
    NothingLate(r.states[i].q, StartReported(cfg), StopReported(cfg));
    NothingLate(r.states[i].q, StopReported(cfg), StopReported(cfg));
  }

  lemma NothingLate(q: Queue, first: nat, second: nat)
    requires WellFormed(q)
    ensures OnePending(q, first) ==> q.now <= first
    ensures TwoPending(q, first, second) ==> q.now <= first
  {
    assert forall u <- Live(q, SendTeleoperationState) :: q.now <= TimeOf(q, u);
    if OnePending(q, first) {
      var u :| Live(q, SendTeleoperationState) == {u} && u > STOP_UID && TimeOf(q, u) == first;
      assert u in Live(q, SendTeleoperationState);
    }
    if TwoPending(q, first, second) {
      var u, v :| Live(q, SendTeleoperationState) == {u, v} && STOP_UID < u < v && TimeOf(q, u) == first && TimeOf(q, v) == second;
      assert u in Live(q, SendTeleoperationState);
    }
  }

  // ---------------------------------------------------------------- the camera

  lemma CameraIsLastReport(cfg: Config, s: AgvState)
    requires ReportsOk(cfg, s)
    ensures LastReportedOn(s.sent) <==> ReportsOf(s.sent) == Session(cfg)[..1] && StartReported(cfg) < 1000 * cfg.stopS
  {}

  /** The camera of the UE is on exactly from the report at start + d, if stop is later than that, to the one at stop + d. */
  lemma CameraFollowsSession(cfg: Config, r: Run, i: nat, render: Payload -> string, clock: nat -> nat, exclude: bool)
    requires cfg.Valid() && r.Of(cfg) && i < |r.states|
    ensures L.ServeAll(CommandsTo(r.states[i].sent, Ue, render), clock, true, exclude).camera
       <==> ReportsOf(r.states[i].sent) == Session(cfg)[..1] && StartReported(cfg) < 1000 * cfg.stopS
  {
    ReportsHold(cfg, r, i);
    CameraFollowsReports(cfg, r, i, render, clock, exclude);
    CameraIsLastReport(cfg, r.states[i]);
  }

  lemma OnAtStop(cfg: Config, r: Run, j: nat)
    requires cfg.Valid() && r.Of(cfg) && StopsAt(cfg, r, j) && StartReported(cfg) < 1000 * cfg.stopS
    ensures LastReportedOn(r.states[j].sent)
  {
    ReportsHold(cfg, r, j);
    PhasedHolds(cfg, r, j);
    ToggleOrder(cfg, r.states[j], r.moves[j]);
    if OnePending(r.states[j].q, StartReported(cfg)) { StopOvertakes(cfg, r.states[j], r.moves[j]); }
    CameraIsLastReport(cfg, r.states[j]);
  }

  /** In a run that reaches stop the camera is ever on if and only if start + d is earlier than stop: otherwise the
      report of the start finds the flag already off. */
  lemma CameraEverOn(cfg: Config, r: Run, n: nat)
    requires cfg.Valid() && r.Of(cfg) && n < |r.states| && r.states[n].phase.AfterStop?
    ensures (exists k: nat :: k < n && LastReportedOn(r.states[k].sent)) <==> StartReported(cfg) < 1000 * cfg.stopS
  {
    hide RunHandler;
    if StartReported(cfg) < 1000 * cfg.stopS {
      var _, j := TogglesBehind(cfg, r, n);
      OnAtStop(cfg, r, j);
    } else {
      forall k: nat | k < n ensures !LastReportedOn(r.states[k].sent) {
        ReportsHold(cfg, r, k);
        CameraIsLastReport(cfg, r.states[k]);
      }
    }
  }
}
