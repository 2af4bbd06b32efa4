/** The messages that do not depend on orders or teleoperation: the connection and the replies to the two requests come
    once each, the visualization comes at a fixed rate for ever, all at times that the configuration alone decides. */
module FixedMessages {
  import opened Basics
  import opened EventQueue
  import opened AgvModel
  import opened AgvInvariants
  import opened SentLog
  import opened OrderChain
  import opened AgvRuns
  import opened Timetable

  /** The event this kind of sender schedules, with its delay. */
  function Follows(cfg: Config, kind: Kind): Option<(Kind, nat)> {
    match kind
    case SendFactsheetRequest => Some((SendFactsheet, cfg.factsheetResponse))
    case RequestCapabilities => Some((SendCapabilities, cfg.capabilityResponse))
    case SendVisualization => Some((SendVisualization, cfg.visualizationPeriod))
    case _ => None
  }

  lemma OneShotLive(cfg: Config, s: AgvState, m: Move, t: AgvState, k: Kind)
    requires WellFormed(s.q) && Step(cfg, s, m, t) && OneShot(KindOf(s, m))
    ensures var f := Follows(cfg, KindOf(s, m));
            && Live(t.q, k) == (Live(s.q, k) - {m.u}) + (if f.Some? && f.value.0 == k then {s.q.nextUid} else {})
            && (f.Some? ==> s.q.nextUid in t.q.pending && t.q.pending[s.q.nextUid] == Event(t.q.now + f.value.1, f.value.0))
  {
    hide Schedule;
    assert Live(Started(s, m).q, k) == Live(s.q, k) - {m.u};
    OneShotQueue(cfg, s, m, t);
    if Follows(cfg, KindOf(s, m)).Some? { ScheduledLive(Started(s, m).q, Follows(cfg, KindOf(s, m)).value, k); }
  }

  lemma OneShotQueue(cfg: Config, s: AgvState, m: Move, t: AgvState)
    requires Step(cfg, s, m, t) && OneShot(KindOf(s, m))
    ensures var q, f := Started(s, m).q, Follows(cfg, KindOf(s, m));
            t.q == if f.Some? then Schedule(q, f.value.1, f.value.0) else q
  {
    hide Schedule;
  }

  lemma ScheduledLive(q: Queue, f: (Kind, nat), k: Kind)
    requires WellFormed(q)
    ensures var r := Schedule(q, f.1, f.0);
            && Live(r, k) == Live(q, k) + (if f.0 == k then {q.nextUid} else {})
            && q.nextUid in r.pending && r.pending[q.nextUid] == Event(r.now + f.1, f.0)
  {}

  /** No event of this kind is pending. */
  predicate NoneDue(q: Queue, k: Kind) { Live(q, k) == {} }

  /** Exactly one is, due at `at`. */
  predicate OneDue(q: Queue, k: Kind, at: nat) {
    |Live(q, k)| == 1 && forall u <- Live(q, k) :: TimeOf(q, u) == at
  }

  lemma LiveKept(cfg: Config, s: AgvState, m: Move, t: AgvState, k: Kind)
    requires Tidy(s) && Step(cfg, s, m, t) && OneShot(k) && KindOf(s, m) != k
    requires Follows(cfg, KindOf(s, m)).None? || Follows(cfg, KindOf(s, m)).value.0 != k
    ensures Live(t.q, k) == Live(s.q, k)
  {
    hide RunHandler;
    assert m.u !in Live(s.q, k);
    if OneShot(KindOf(s, m)) { OneShotLive(cfg, s, m, t, k); } else { Untouched(cfg, s, m, t, k); }
  }

  lemma DueKept(cfg: Config, s: AgvState, m: Move, t: AgvState, k: Kind)
    requires Tidy(s) && Step(cfg, s, m, t) && OneShot(k) && KindOf(s, m) != k
    requires Follows(cfg, KindOf(s, m)).None? || Follows(cfg, KindOf(s, m)).value.0 != k
    ensures NoneDue(s.q, k) ==> NoneDue(t.q, k)
    ensures forall at :: OneDue(s.q, k, at) ==> OneDue(t.q, k, at)
  {
    hide RunHandler, Follows;
    LiveKept(cfg, s, m, t, k);
    EventsKeepTheirTime(cfg, s, m, t);
    hide Live;
    assert forall u <- Live(t.q, k) :: u in t.q.pending && u in s.q.pending by { LiveIsPending(s.q, k); LiveIsPending(t.q, k); }
    assert forall u <- Live(t.q, k) :: u < s.q.nextUid && TimeOf(t.q, u) == TimeOf(s.q, u);
  }

  lemma LiveIsPending(q: Queue, k: Kind)
    ensures forall u <- Live(q, k) :: u in q.pending
  {}

  lemma DueTaken(cfg: Config, s: AgvState, m: Move, t: AgvState, at: nat)
    requires WellFormed(s.q) && Step(cfg, s, m, t) && OneShot(KindOf(s, m)) && OneDue(s.q, KindOf(s, m), at)
    ensures t.q.now == at
    ensures Follows(cfg, KindOf(s, m)).None? || Follows(cfg, KindOf(s, m)).value.0 != KindOf(s, m) ==> NoneDue(t.q, KindOf(s, m))
  {
    hide RunHandler;
    var k := KindOf(s, m);
    assert m.u in Live(s.q, k);
    SizeAfterRemove(Live(s.q, k), m.u);
    OneShotLive(cfg, s, m, t, k);
    OneShotClock(cfg, s, m, t);
  }

  lemma OneShotClock(cfg: Config, s: AgvState, m: Move, t: AgvState)
    requires Step(cfg, s, m, t) && OneShot(KindOf(s, m))
    ensures t.q.now == TimeOf(s.q, m.u)
  {}

  /** A follow-up is the only pending event of its kind if there was none before, apart from the one that has just run. */
  lemma DueScheduled(cfg: Config, s: AgvState, m: Move, t: AgvState, k: Kind)
    requires WellFormed(s.q) && Step(cfg, s, m, t) && OneShot(KindOf(s, m)) && Live(s.q, k) <= {m.u}
    requires Follows(cfg, KindOf(s, m)).Some? && Follows(cfg, KindOf(s, m)).value.0 == k
    ensures OneDue(t.q, k, t.q.now + Follows(cfg, KindOf(s, m)).value.1)
  {
    hide RunHandler;
    OneShotLive(cfg, s, m, t, k);
    assert Live(t.q, k) == {s.q.nextUid};
  }

  lemma Logged(cfg: Config, r: Run, i: nat, topic: Topic)
    requires cfg.Valid() && r.Of(cfg) && i < |r.moves| && |r.states| == |r.moves| + 1
    requires IsNext(r.states[i].q, r.moves[i].u) && |Says(r.states[i], r.moves[i], r.states[i + 1])| == 1
    ensures var s, t, x := r.states[i], r.states[i + 1], Says(r.states[i], r.moves[i], r.states[i + 1])[0];
            TimesOf(t.sent, topic) == TimesOf(s.sent, topic) + (if x.topic == topic then [x.time] else [])
  {
    hide RunHandler, Scheduled;
    EveryStep(cfg, r, i);
    LogAppend(r.states[i].sent, Says(r.states[i], r.moves[i], r.states[i + 1])[0], topic);
  }

  lemma FirstDue(cfg: Config, r: Run, k: Kind, u: nat)
    requires r.Of(cfg) && u in r.states[0].q.pending && InitUids(cfg, k) == {u}
    ensures r.states[0].sent == [] && OneDue(r.states[0].q, k, TimeOf(r.states[0].q, u))
  {
    hide InitUids, InitQueue, InitTimes;
    assert r.Reached(cfg, 0);
    InitQueueLive(cfg, k);
  }

  lemma FirstNone(cfg: Config, r: Run, k: Kind)
    requires r.Of(cfg) && InitUids(cfg, k) == {}
    ensures NoneDue(r.states[0].q, k)
  {
    hide InitUids, InitQueue, InitTimes;
    assert r.Reached(cfg, 0);
    InitQueueLive(cfg, k);
  }

  // ---------------------------------------------------------------- the visualization

  /** Sent every period so far, and due for the next time. */
  predicate Streaming(cfg: Config, s: AgvState) {
    var times := TimesOf(s.sent, Visualization);
    && (forall k :: 0 <= k < |times| ==> times[k] == cfg.visualizationAfter + k * cfg.visualizationPeriod)
    && OneDue(s.q, SendVisualization, cfg.visualizationAfter + |times| * cfg.visualizationPeriod)
  }

  lemma StreamingStep(cfg: Config, r: Run, i: nat)
    requires cfg.Valid() && r.Of(cfg) && i < |r.moves| && |r.states| == |r.moves| + 1 && Streaming(cfg, r.states[i])
    ensures Streaming(cfg, r.states[i + 1])
  {
    hide RunHandler, OneDue;
    var s, m, t := r.states[i], r.moves[i], r.states[i + 1];
    var n, p := |TimesOf(s.sent, Visualization)|, cfg.visualizationPeriod;
    StepAt(cfg, r, i);
    TrackedHolds(cfg, r, i);
    if KindOf(s, m) == SendVisualization {
      Logged(cfg, r, i, Visualization);
      OnlyThis(s, m, cfg.visualizationAfter + n * p);
      DueTaken(cfg, s, m, t, cfg.visualizationAfter + n * p);
      DueScheduled(cfg, s, m, t, SendVisualization);
      assert n * p + p == (n + 1) * p;
    } else {
      OtherTopics(cfg, r, i, Visualization);
      DueKept(cfg, s, m, t, SendVisualization);
    }
  }

  lemma OnlyThis(s: AgvState, m: Move, at: nat)
    requires IsNext(s.q, m.u) && OneDue(s.q, KindOf(s, m), at)
    ensures Live(s.q, KindOf(s, m)) == {m.u}
  {
    assert m.u in Live(s.q, KindOf(s, m));
    SizeAfterRemove(Live(s.q, KindOf(s, m)), m.u);
  }

  /** The kind of sender of each topic of this module. */
  predicate SentOnlyBy(kind: Kind, topic: Topic) {
    (kind == SendVisualization && topic == Visualization) || (kind == SendConnection && topic == Connection)
    || (kind == SendFactsheet && topic == Factsheet) || (kind == SendCapabilities && topic == Capabilities)
  }

  lemma OtherTopics(cfg: Config, r: Run, i: nat, topic: Topic)
    requires cfg.Valid() && r.Of(cfg) && i < |r.moves| && |r.states| == |r.moves| + 1
    requires IsNext(r.states[i].q, r.moves[i].u) && topic in {Visualization, Connection, Factsheet, Capabilities}
    requires !SentOnlyBy(KindOf(r.states[i], r.moves[i]), topic)
    ensures TimesOf(r.states[i + 1].sent, topic) == TimesOf(r.states[i].sent, topic)
  {
    hide RunHandler;
    StepAt(cfg, r, i);
    if SendsOn(KindOf(r.states[i], r.moves[i]), topic) {
      Logged(cfg, r, i, topic);
    } else {
      LogUnmoved(cfg, r.states[i], r.moves[i], r.states[i + 1], topic);
    }
  }

  /** In every run, whatever orders and teleoperation do: visualizations go out at a fixed rate, without end, and the
      clock never passes the time of the next one. */
  lemma {:induction false} VisualizationStream(cfg: Config, r: Run, i: nat)
    requires cfg.Valid() && r.Of(cfg) && i < |r.states|
    ensures Streaming(cfg, r.states[i])
  {
    hide RunHandler;
    Lengths(cfg, r);
    if i == 0 {
      FirstState(cfg, r);
      FirstDue(cfg, r, SendVisualization, 4);
    } else {
      VisualizationStream(cfg, r, i - 1);
      StreamingStep(cfg, r, i - 1);
    }
  }

  // ---------------------------------------------------------------- requests and replies

  /** A request due at `at`, its reply due `delay` later, or the reply sent at that time, once. */
  predicate Relay(s: AgvState, request: Kind, reply: Kind, topic: Topic, at: nat, delay: nat) {
    || (OneDue(s.q, request, at) && NoneDue(s.q, reply) && TimesOf(s.sent, topic) == [])
    || (NoneDue(s.q, request) && OneDue(s.q, reply, at + delay) && TimesOf(s.sent, topic) == [])
    || (NoneDue(s.q, request) && NoneDue(s.q, reply) && TimesOf(s.sent, topic) == [at + delay])
  }

  lemma NotDueThenNotNext(s: AgvState, m: Move)
    requires IsNext(s.q, m.u)
    ensures !NoneDue(s.q, KindOf(s, m))
  {
    assert m.u in Live(s.q, KindOf(s, m));
  }

  lemma RelayRequested(cfg: Config, r: Run, i: nat, reply: Kind, topic: Topic, at: nat, delay: nat)
    requires cfg.Valid() && r.Of(cfg) && i < |r.moves| && |r.states| == |r.moves| + 1 && IsNext(r.states[i].q, r.moves[i].u)
    requires var k := KindOf(r.states[i], r.moves[i]); OneShot(k) && Follows(cfg, k) == Some((reply, delay)) && k != reply
    requires SentOnlyBy(reply, topic) && Relay(r.states[i], KindOf(r.states[i], r.moves[i]), reply, topic, at, delay)
    ensures Relay(r.states[i + 1], KindOf(r.states[i], r.moves[i]), reply, topic, at, delay)
  {
    hide RunHandler, OneDue, NoneDue, Follows;
    var s, m, t := r.states[i], r.moves[i], r.states[i + 1];
    StepAt(cfg, r, i);
    TrackedHolds(cfg, r, i);
    NotDueThenNotNext(s, m);
    OtherTopics(cfg, r, i, topic);
    DueTaken(cfg, s, m, t, at);
    NothingLive(s, reply);
    DueScheduled(cfg, s, m, t, reply);
  }

  lemma RelayAnswered(cfg: Config, r: Run, i: nat, request: Kind, topic: Topic, at: nat, delay: nat)
    requires cfg.Valid() && r.Of(cfg) && i < |r.moves| && |r.states| == |r.moves| + 1 && IsNext(r.states[i].q, r.moves[i].u)
    requires var k := KindOf(r.states[i], r.moves[i]);
             && OneShot(k) && OneShot(request) && request != k && SentOnlyBy(k, topic) && Follows(cfg, k).None?
             && Relay(r.states[i], request, k, topic, at, delay)
    ensures Relay(r.states[i + 1], request, KindOf(r.states[i], r.moves[i]), topic, at, delay)
  {
    hide RunHandler, OneDue, NoneDue;
    var s, m, t := r.states[i], r.moves[i], r.states[i + 1];
    StepAt(cfg, r, i);
    TrackedHolds(cfg, r, i);
    NotDueThenNotNext(s, m);
    Logged(cfg, r, i, topic);
    DueTaken(cfg, s, m, t, at + delay);
    DueKept(cfg, s, m, t, request);
  }

  lemma RelayStep(cfg: Config, r: Run, i: nat, request: Kind, reply: Kind, topic: Topic, at: nat, delay: nat)
    requires cfg.Valid() && r.Of(cfg) && i < |r.moves| && |r.states| == |r.moves| + 1
    requires OneShot(request) && Follows(cfg, request) == Some((reply, delay)) && SentOnlyBy(reply, topic) && request != reply
    requires Relay(r.states[i], request, reply, topic, at, delay)
    ensures Relay(r.states[i + 1], request, reply, topic, at, delay)
  {
    hide RunHandler, OneDue, NoneDue;
    var s, m, t := r.states[i], r.moves[i], r.states[i + 1];
    StepAt(cfg, r, i);
    TrackedHolds(cfg, r, i);
    if KindOf(s, m) == request {
      RelayRequested(cfg, r, i, reply, topic, at, delay);
    } else if KindOf(s, m) == reply {
      RelayAnswered(cfg, r, i, request, topic, at, delay);
    } else {
      OtherTopics(cfg, r, i, topic);
      DueKept(cfg, s, m, t, request);
      DueKept(cfg, s, m, t, reply);
    }
  }

  lemma NothingLive(s: AgvState, k: Kind)
    requires NoneDue(s.q, k)
    ensures Live(s.q, k) == {}
  {}

  /** In every run the factsheet is sent once, at the configured time after its request. */
  lemma {:induction false} FactsheetOnce(cfg: Config, r: Run, i: nat)
    requires cfg.Valid() && r.Of(cfg) && i < |r.states|
    ensures Relay(r.states[i], SendFactsheetRequest, SendFactsheet, Factsheet, cfg.factsheetRequestAfter, cfg.factsheetResponse)
  {
    hide RunHandler;
    Lengths(cfg, r);
    if i == 0 {
      FirstState(cfg, r);
      FirstDue(cfg, r, SendFactsheetRequest, 2);
      FirstNone(cfg, r, SendFactsheet);
    } else {
      FactsheetOnce(cfg, r, i - 1);
      RelayStep(cfg, r, i - 1, SendFactsheetRequest, SendFactsheet, Factsheet, cfg.factsheetRequestAfter, cfg.factsheetResponse);
    }
  }

  /** In every TELEOP run so are the capabilities, and they are never due again. */
  lemma {:induction false} CapabilitiesOnce(cfg: Config, r: Run, i: nat)
    requires cfg.Valid() && cfg.scenario.TELEOP? && r.Of(cfg) && i < |r.states|
    ensures Relay(r.states[i], RequestCapabilities, SendCapabilities, Capabilities, cfg.capabilityRequestAfter, cfg.capabilityResponse)
  {
    hide RunHandler;
    Lengths(cfg, r);
    if i == 0 {
      FirstState(cfg, r);
      FirstDue(cfg, r, RequestCapabilities, 5);
      FirstNone(cfg, r, SendCapabilities);
    } else {
      CapabilitiesOnce(cfg, r, i - 1);
      RelayStep(cfg, r, i - 1, RequestCapabilities, SendCapabilities, Capabilities, cfg.capabilityRequestAfter, cfg.capabilityResponse);
    }
  }

  /** Without teleoperation the vehicle never mentions its capabilities. */
  lemma {:induction false} NoCapabilities(cfg: Config, r: Run, i: nat)
    requires cfg.Valid() && cfg.scenario.VDA5050? && r.Of(cfg) && i < |r.states|
    ensures NoneDue(r.states[i].q, RequestCapabilities) && NoneDue(r.states[i].q, SendCapabilities)
    ensures TimesOf(r.states[i].sent, Capabilities) == []
  {
    hide RunHandler;
    Lengths(cfg, r);
    if i == 0 {
      StartsBlank(cfg, r);
      FirstNone(cfg, r, RequestCapabilities);
      FirstNone(cfg, r, SendCapabilities);
    } else {
      NoCapabilities(cfg, r, i - 1);
      SilentStep(cfg, r, i - 1);
    }
  }

  lemma SilentStep(cfg: Config, r: Run, i: nat)
    requires cfg.Valid() && r.Of(cfg) && i < |r.moves| && |r.states| == |r.moves| + 1
    requires NoneDue(r.states[i].q, RequestCapabilities) && NoneDue(r.states[i].q, SendCapabilities)
    ensures NoneDue(r.states[i + 1].q, RequestCapabilities) && NoneDue(r.states[i + 1].q, SendCapabilities)
    ensures TimesOf(r.states[i + 1].sent, Capabilities) == TimesOf(r.states[i].sent, Capabilities)
  {
    hide RunHandler, NoneDue, OneDue;
    var s, m, t := r.states[i], r.moves[i], r.states[i + 1];
    StepAt(cfg, r, i);
    TrackedHolds(cfg, r, i);
    NotDueThenNotNext(s, m);
    OtherTopics(cfg, r, i, Capabilities);
    DueKept(cfg, s, m, t, RequestCapabilities);
    DueKept(cfg, s, m, t, SendCapabilities);
  }

  /** The connection message is still due at its configured time, or it was sent then, once. */
  predicate Connects(cfg: Config, s: AgvState) {
    || (OneDue(s.q, SendConnection, cfg.connectionAfter) && TimesOf(s.sent, Connection) == [])
    || (NoneDue(s.q, SendConnection) && TimesOf(s.sent, Connection) == [cfg.connectionAfter])
  }

  lemma ConnectsStep(cfg: Config, r: Run, i: nat)
    requires cfg.Valid() && r.Of(cfg) && i < |r.moves| && |r.states| == |r.moves| + 1 && Connects(cfg, r.states[i])
    ensures Connects(cfg, r.states[i + 1])
  {
    hide RunHandler, NoneDue, OneDue;
    var s, m, t := r.states[i], r.moves[i], r.states[i + 1];
    StepAt(cfg, r, i);
    TrackedHolds(cfg, r, i);
    NotDueThenNotNext(s, m);
    if KindOf(s, m) == SendConnection {
      Logged(cfg, r, i, Connection);
      DueTaken(cfg, s, m, t, cfg.connectionAfter);
    } else {
      OtherTopics(cfg, r, i, Connection);
      DueKept(cfg, s, m, t, SendConnection);
    }
  }

  /** In every run the connection is announced once, at its configured time. */
  lemma {:induction false} ConnectsOnce(cfg: Config, r: Run, i: nat)
    requires cfg.Valid() && r.Of(cfg) && i < |r.states|
    ensures Connects(cfg, r.states[i])
  {
    hide RunHandler;
    Lengths(cfg, r);
    if i == 0 {
      FirstState(cfg, r);
      FirstDue(cfg, r, SendConnection, 0);
    } else {
      ConnectsOnce(cfg, r, i - 1);
      ConnectsStep(cfg, r, i - 1);
    }
  }
}
