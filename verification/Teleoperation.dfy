/** The control stream and the order simulation across the start and stop of teleoperation. */
module Teleoperation {
  import opened Basics
  import opened EventQueue
  import opened Commands
  import opened AgvModel
  import opened AgvInvariants
  import opened SentLog

  // ---------------------------------------------------------------- the control stream

  /** Time of the first control command, if teleoperation lasts that long. */
  function FirstControl(cfg: Config): nat {
    1000 * cfg.startS + cfg.teleopStateDelay + cfg.controlStart
  }

  /** The commands sent so far are the first of an arithmetic progression, all before stop. */
  predicate Regular(cfg: Config, times: seq<nat>) {
    forall k :: 0 <= k < |times| ==> times[k] == FirstControl(cfg) + k * cfg.controlPeriod && times[k] < 1000 * cfg.stopS
  }

  /** Either the teleoperation state announcing the start is still pending and nothing streams yet,
      or exactly one control event is pending, it is the one `next_control_` names, and it is the next in the progression. */
  predicate Streams(cfg: Config, q: Queue, nextControl: Handle, sent: nat) {
    if Live(q, SendTeleoperationState) != {} then
      && |Live(q, SendTeleoperationState)| == 1 && Live(q, SendControl) == {} && sent == 0
      && forall u <- Live(q, SendTeleoperationState) ::
           u > STOP_UID && q.pending[u].time == 1000 * cfg.startS + cfg.teleopStateDelay
    else
      && nextControl.Some? && Live(q, SendControl) == {nextControl.value}
      && nextControl.value > STOP_UID
      && q.pending[nextControl.value].time == FirstControl(cfg) + sent * cfg.controlPeriod
  }

  predicate ControlOk(cfg: Config, s: AgvState) {
    var times := TimesOf(s.sent, Control);
    && Regular(cfg, times)
    && match s.phase
       case BeforeStart => Live(s.q, SendTeleoperationState) == {} && Live(s.q, SendControl) == {} && times == []
       case Teleop => Streams(cfg, s.q, s.nextControl, |times|)
       case AfterStop => Live(s.q, SendControl) == {} && 1000 * cfg.stopS <= FirstControl(cfg) + |times| * cfg.controlPeriod
  }

  lemma StartBegins(cfg: Config, q: Queue, h: Handle, h': Handle)
    requires WellFormed(q) && Names(q, h, SendOrder) && Names(q, h', SendState)
    requires Live(q, SendTeleoperationState) == {} && Live(q, SendControl) == {} && q.nextUid > STOP_UID
    requires q.now == 1000 * cfg.startS
    ensures Streams(cfg, QueueAfterStart(cfg, q, h, h'), None, 0)
  {
    var r := QueueAfterStart(cfg, q, h, h');
    assert Live(r, SendTeleoperationState) == Changed({}, Named(h) + Named(h'), {q.nextUid});
    assert Live(r, SendControl) == {} by { UntouchedByStart(cfg, q, h, h', SendControl); }
  }

  lemma ControlOkByStart(cfg: Config, s: AgvState, m: Move, t: AgvState)
    requires cfg.Valid() && Tidy(s) && Phased(cfg, s) && ControlOk(cfg, s)
    requires Step(cfg, s, m, t) && KindOf(s, m).StartTeleoperation?
    ensures ControlOk(cfg, t)
  {
    var s1 := Started(s, m);
    ToggleOrder(cfg, s, m);
    LogUnmoved(cfg, s, m, t, Control);
    StartBegins(cfg, s1.q, s1.nextOrder, s1.nextState);
  }

  /** When stop runs, everything due strictly before it has been sent. */
  lemma StopIsDue(cfg: Config, s: AgvState, m: Move)
    requires cfg.Valid() && Phased(cfg, s) && ControlOk(cfg, s)
    requires IsNext(s.q, m.u) && KindOf(s, m).StopTeleoperation?
    ensures s.phase.Teleop?
    ensures 1000 * cfg.stopS <= FirstControl(cfg) + |TimesOf(s.sent, Control)| * cfg.controlPeriod
    ensures Live(s.q, SendControl) <= Named(s.nextControl)
  {
    ToggleOrder(cfg, s, m);
    if Live(s.q, SendTeleoperationState) != {} {
      var u :| u in Live(s.q, SendTeleoperationState);
      assert Earlier(s.q, m.u, u);
    } else {
      assert s.nextControl.value in Live(s.q, SendControl);
      assert Earlier(s.q, m.u, s.nextControl.value);
    }
  }

  lemma ControlOkByStop(cfg: Config, s: AgvState, m: Move, t: AgvState)
    requires cfg.Valid() && Tidy(s) && Phased(cfg, s) && ControlOk(cfg, s)
    requires Step(cfg, s, m, t) && KindOf(s, m).StopTeleoperation?
    ensures ControlOk(cfg, t)
  {
    var s1 := Started(s, m);
    StopIsDue(cfg, s, m);
    LogUnmoved(cfg, s, m, t, Control);
    NothingStreamsAfterStop(cfg, s1.q, s1.nextState, s1.nextControl, Live(s.q, SendControl));
  }

  lemma NothingStreamsAfterStop(cfg: Config, q: Queue, h: Handle, h': Handle, streaming: set<nat>)
    requires WellFormed(q) && Names(q, h, SendState)
    requires Live(q, SendControl) == streaming && streaming <= Named(h')
    ensures Live(QueueAfterStop(cfg, q, h, h'), SendControl) == {}
  {
    assert Changed(streaming, Named(h) + Named(h'), {}) == {};
  }

  /** The state announcing the start opens the stream; one announcing the stop finds the flag already off. */
  lemma TeleopStateIsDue(cfg: Config, s: AgvState, m: Move)
    requires cfg.Valid() && WellFormed(s.q) && Phased(cfg, s) && ControlOk(cfg, s)
    requires IsNext(s.q, m.u) && KindOf(s, m).SendTeleoperationState?
    ensures !s.phase.BeforeStart?
    ensures s.phase.Teleop? ==>
              && Live(Started(s, m).q, SendTeleoperationState) == {} && Live(s.q, SendControl) == {}
              && TimesOf(s.sent, Control) == [] && s.q.nextUid > STOP_UID
              && s.q.pending[m.u].time == 1000 * cfg.startS + cfg.teleopStateDelay
  {
    assert m.u in Live(s.q, SendTeleoperationState);
    SizeAfterRemove(Live(s.q, SendTeleoperationState), m.u);
  }

  lemma StreamStarts(cfg: Config, q: Queue)
    requires WellFormed(q) && Live(q, SendTeleoperationState) == {} && Live(q, SendControl) == {} && q.nextUid > STOP_UID
    requires q.now == 1000 * cfg.startS + cfg.teleopStateDelay
    ensures Streams(cfg, Schedule(q, cfg.controlStart, SendControl), Some(q.nextUid), 0)
  {}

  lemma ControlOkByTeleopState(cfg: Config, s: AgvState, m: Move, t: AgvState)
    requires cfg.Valid() && WellFormed(s.q) && Phased(cfg, s) && ControlOk(cfg, s)
    requires Step(cfg, s, m, t) && KindOf(s, m).SendTeleoperationState?
    ensures ControlOk(cfg, t)
  {
    var s1 := Started(s, m);
    TeleopStateIsDue(cfg, s, m);
    LogUnmoved(cfg, s, m, t, Control);
    if s.phase.Teleop? { StreamStarts(cfg, s1.q); }
  }

  /** A control event runs only during teleoperation, at the next time of the progression, before stop. */
  lemma ControlIsDue(cfg: Config, s: AgvState, m: Move)
    requires cfg.Valid() && Phased(cfg, s) && ControlOk(cfg, s)
    requires IsNext(s.q, m.u) && KindOf(s, m).SendControl?
    ensures s.phase.Teleop? && Live(s.q, SendTeleoperationState) == {} && Live(s.q, SendControl) == {m.u}
    ensures s.q.nextUid > STOP_UID
    ensures s.q.pending[m.u].time == FirstControl(cfg) + |TimesOf(s.sent, Control)| * cfg.controlPeriod
    ensures s.q.pending[m.u].time < 1000 * cfg.stopS
  {
    assert m.u in Live(s.q, SendControl);
    assert STOP_UID in Live(s.q, StopTeleoperation);
    assert Earlier(s.q, m.u, STOP_UID);
  }

  lemma ControlContinues(cfg: Config, q: Queue, n: nat)
    requires WellFormed(q) && Live(q, SendTeleoperationState) == {} && Live(q, SendControl) == {} && q.nextUid > STOP_UID
    requires q.now == FirstControl(cfg) + n * cfg.controlPeriod
    ensures Streams(cfg, Schedule(q, cfg.controlPeriod, SendControl), Some(q.nextUid), n + 1)
  {
    assert n * cfg.controlPeriod + cfg.controlPeriod == (n + 1) * cfg.controlPeriod;
  }

  lemma RegularAppend(cfg: Config, times: seq<nat>, next: nat)
    requires Regular(cfg, times) && next == FirstControl(cfg) + |times| * cfg.controlPeriod && next < 1000 * cfg.stopS
    ensures Regular(cfg, times + [next])
  {}

  /** What `sendControl` leaves, as far as the stream is concerned. */
  lemma ControlStepped(cfg: Config, s: AgvState, m: Move, t: AgvState)
    requires Step(cfg, s, m, t) && KindOf(s, m).SendControl?
    ensures t.q == Schedule(Started(s, m).q, cfg.controlPeriod, SendControl)
    ensures t.nextControl == Some(s.q.nextUid) && t.phase == s.phase
    ensures TimesOf(t.sent, Control) == TimesOf(s.sent, Control) + [s.q.pending[m.u].time]
  {
    LogAppend(s.sent, Sent(s.q.pending[m.u].time, Base, PUBLISH_TELEOP, Control, Speeds(m.draw.speed, m.draw.steering)), Control);
  }

  lemma ControlOkByControl(cfg: Config, s: AgvState, m: Move, t: AgvState)
    requires cfg.Valid() && WellFormed(s.q) && Phased(cfg, s) && ControlOk(cfg, s)
    requires Step(cfg, s, m, t) && KindOf(s, m).SendControl?
    ensures ControlOk(cfg, t)
  {
    hide RunHandler, AfterControl;
    var q, times := Started(s, m).q, TimesOf(s.sent, Control);
    ControlIsDue(cfg, s, m);
    ControlStepped(cfg, s, m, t);
    RegularAppend(cfg, times, s.q.pending[m.u].time);
    ControlContinues(cfg, q, |times|);
  }

  lemma StreamsUnmoved(cfg: Config, q: Queue, r: Queue, h: Handle, n: nat)
    requires Streams(cfg, q, h, n)
    requires Live(r, SendTeleoperationState) == Live(q, SendTeleoperationState) && Live(r, SendControl) == Live(q, SendControl)
    requires forall v <- r.pending | v in q.pending :: r.pending[v] == q.pending[v]
    ensures Streams(cfg, r, h, n)
  {
    assert forall u <- Live(q, SendTeleoperationState) :: u in Live(r, SendTeleoperationState);
    assert forall u <- Live(q, SendControl) :: u in Live(r, SendControl);
  }

  /** Nothing the stream depends on differs between `s` and `t`. */
  ghost predicate StreamUntouched(s: AgvState, t: AgvState) {
    && t.phase == s.phase && t.nextControl == s.nextControl && TimesOf(t.sent, Control) == TimesOf(s.sent, Control)
    && Live(t.q, SendTeleoperationState) == Live(s.q, SendTeleoperationState)
    && Live(t.q, SendControl) == Live(s.q, SendControl)
    && forall v <- t.q.pending | v in s.q.pending :: t.q.pending[v] == s.q.pending[v]
  }

  lemma ControlOkIfUntouched(cfg: Config, s: AgvState, t: AgvState)
    requires ControlOk(cfg, s) && StreamUntouched(s, t)
    ensures ControlOk(cfg, t)
  {
    if s.phase.Teleop? { StreamsUnmoved(cfg, s.q, t.q, s.nextControl, |TimesOf(s.sent, Control)|); }
  }

  lemma PendingUntouched(cfg: Config, s: AgvState, m: Move, t: AgvState)
    requires Tidy(s) && Step(cfg, s, m, t)
    ensures forall v <- t.q.pending | v in s.q.pending :: t.q.pending[v] == s.q.pending[v]
  {
    EventsKeepTheirTime(cfg, s, m, t);
  }

  lemma ControlOkByRest(cfg: Config, s: AgvState, m: Move, t: AgvState)
    requires Tidy(s) && ControlOk(cfg, s) && Step(cfg, s, m, t)
    requires KindOf(s, m).SendOrder? || KindOf(s, m).SendState? || OneShot(KindOf(s, m))
    ensures ControlOk(cfg, t)
  {
    hide RunHandler, ControlOk;
    PhaseAfter(cfg, s, m, t);
    LogUnmoved(cfg, s, m, t, Control);
    Untouched(cfg, s, m, t, SendTeleoperationState);
    Untouched(cfg, s, m, t, SendControl);
    PendingUntouched(cfg, s, m, t);
    ControlHandleUnmoved(cfg, s, m, t);
    ControlOkIfUntouched(cfg, s, t);
  }

  lemma ControlHandleUnmoved(cfg: Config, s: AgvState, m: Move, t: AgvState)
    requires Step(cfg, s, m, t)
    requires KindOf(s, m).SendOrder? || KindOf(s, m).SendState? || OneShot(KindOf(s, m))
    ensures t.nextControl == s.nextControl
  {}

  lemma ControlOkKept(cfg: Config, s: AgvState, m: Move, t: AgvState)
    requires cfg.Valid() && Tidy(s) && Phased(cfg, s) && ControlOk(cfg, s) && Step(cfg, s, m, t)
    ensures ControlOk(cfg, t)
  {
    match KindOf(s, m)
    case StartTeleoperation => ControlOkByStart(cfg, s, m, t);
    case StopTeleoperation => ControlOkByStop(cfg, s, m, t);
    case SendTeleoperationState => ControlOkByTeleopState(cfg, s, m, t);
    case SendControl => ControlOkByControl(cfg, s, m, t);
    case _ => ControlOkByRest(cfg, s, m, t);
  }

  /** How many control commands fit strictly before stop. */
  function ControlCount(cfg: Config): nat
    requires cfg.controlPeriod > 0
  {
    var room := 1000 * cfg.stopS - FirstControl(cfg);
    if room <= 0 then 0 else (room + cfg.controlPeriod - 1) / cfg.controlPeriod
  }

  lemma CountFromProgression(cfg: Config, n: nat)
    requires cfg.controlPeriod > 0
    requires n > 0 ==> FirstControl(cfg) + (n - 1) * cfg.controlPeriod < 1000 * cfg.stopS
    requires 1000 * cfg.stopS <= FirstControl(cfg) + n * cfg.controlPeriod
    ensures n == ControlCount(cfg)
  {
    var p := cfg.controlPeriod;
    var room := 1000 * cfg.stopS - FirstControl(cfg);
    if room > 0 {
      assert n * p == (n - 1) * p + p;
      DivisionIs(room + p - 1, p, n);
    }
  }

  lemma DivisionIs(a: nat, p: nat, n: nat)
    requires p > 0 && n * p <= a < n * p + p
    ensures a / p == n
  {
    var k := a / p;
    assert a == k * p + a % p;
    assert (k - n) * p == k * p - n * p;
    MultipleIsLarge(k - n, p);
  }

  /** A multiple of `p` other than 0 is at least `p` away from 0. */
  lemma MultipleIsLarge(d: int, p: nat)
    ensures d >= 1 ==> d * p >= p
    ensures d <= -1 ==> d * p + p <= 0
  {
    if d >= 1 {
      MulMonotone(1, d, p);
    } else if d <= -1 {
      MulMonotone(1, -d, p);
      assert (-d) * p == -(d * p);
    }
  }

  // ---------------------------------------------------------------- quiet teleoperation

  /** Nothing in any deque and no `sendOrder` pending. */
  predicate Quiet(s: AgvState) {
    s.d.AllEmpty() && Orders(s) == {}
  }

  /** The log entries from `from` on hold no order and only empty state messages. */
  predicate QuietLog(sent: seq<Sent>, from: nat) {
    forall i :: from <= i < |sent| ==>
      !sent[i].topic.Order? && (sent[i].topic.State? ==> sent[i].payload == StateMessage([], []))
  }

  lemma QuietKept(cfg: Config, s: AgvState, m: Move, t: AgvState)
    requires Tidy(s) && Quiet(s) && Step(cfg, s, m, t)
    requires !KindOf(s, m).StartTeleoperation? && !KindOf(s, m).StopTeleoperation?
    ensures Quiet(t)
  {
    assert m.u in Live(s.q, KindOf(s, m));
    if KindOf(s, m).SendState? {
      OrdersAfterState(cfg, Started(s, m));
    } else {
      OrderStateUnmoved(cfg, s, m, t);
      Untouched(cfg, s, m, t, SendOrder);
    }
  }

  lemma SentGrows(cfg: Config, s: AgvState, m: Move, t: AgvState)
    requires Step(cfg, s, m, t)
    ensures |s.sent| < |t.sent| && t.sent[..|s.sent|] == s.sent
  {
    var s1 := s.(q := Take(s.q, m.u));
    if KindOf(s, m).SendTeleoperationState? { SendsPair(cfg, s1); } else { SendsOne(cfg, s1, KindOf(s, m), m.draw); }
  }

  lemma QuietEntry(cfg: Config, s: AgvState, m: Move, t: AgvState)
    requires Quiet(s) && Step(cfg, s, m, t) && KindOf(s, m).SendState?
    ensures t.sent == s.sent + [Sent(t.q.now, Ue, PUBLISH_VDA, Topic.State, StateMessage([], []))]
  {}

  lemma QuietLogAppend(sent: seq<Sent>, log: seq<Sent>, from: nat)
    requires QuietLog(sent, from) && |sent| <= |log| && log[..|sent|] == sent && QuietLog(log, |sent|)
    ensures QuietLog(log, from)
  {
    assert forall i :: 0 <= i < |sent| ==> log[i] == log[..|sent|][i];
  }

  lemma QuietLogKept(cfg: Config, s: AgvState, m: Move, t: AgvState, from: nat)
    requires Quiet(s) && Step(cfg, s, m, t) && from <= |s.sent| && QuietLog(s.sent, from)
    ensures QuietLog(t.sent, from)
  {
    hide RunHandler;
    var s1 := s.(q := Take(s.q, m.u));
    assert KindOf(s, m).SendOrder? ==> m.u in Orders(s);
    SentGrows(cfg, s, m, t);
    if KindOf(s, m).SendState? {
      QuietEntry(cfg, s, m, t);
    } else if KindOf(s, m).SendTeleoperationState? {
      PairSent(cfg, s, m, t);
    } else {
      SendsOne(cfg, s1, KindOf(s, m), m.draw);
    }
    QuietLogAppend(s.sent, t.sent, from);
  }

  lemma PairSent(cfg: Config, s: AgvState, m: Move, t: AgvState)
    requires Step(cfg, s, m, t) && KindOf(s, m).SendTeleoperationState?
    ensures |t.sent| == |s.sent| + 2 && t.sent[|s.sent|].topic.TeleopState? && t.sent[|s.sent| + 1].topic.NoTopic?
  {
    SendsPair(cfg, s.(q := Take(s.q, m.u)));
  }
}
