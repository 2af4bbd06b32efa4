/** Reading the log of commands handed to the controller interface. */
module SentLog {
  import opened Basics
  import opened EventQueue
  import opened Commands
  import opened AgvModel

  /** Times at which commands on one topic were sent. */
  function TimesOf(sent: seq<Sent>, topic: Topic): (r: seq<nat>) {
    if sent == [] then [] else
    TimesOf(sent[..|sent| - 1], topic)
    + (if sent[|sent| - 1].topic == topic then [sent[|sent| - 1].time] else [])
  }

  /** The latest command on one topic. */
  function LastOf(sent: seq<Sent>, topic: Topic): Option<Payload> {
    if sent == [] then None
    else if sent[|sent| - 1].topic == topic then Some(sent[|sent| - 1].payload)
    else LastOf(sent[..|sent| - 1], topic)
  }

  lemma LogAppend(sent: seq<Sent>, x: Sent, topic: Topic)
    ensures TimesOf(sent + [x], topic) == TimesOf(sent, topic) + (if x.topic == topic then [x.time] else [])
    ensures LastOf(sent + [x], topic) == if x.topic == topic then Some(x.payload) else LastOf(sent, topic)
  {
    assert (sent + [x])[..|sent|] == sent;
  }

  predicate OnTopic(x: Sent, topic: Topic) { x.topic == topic }

  lemma TimesStep(sent: seq<Sent>, topic: Topic)
    requires sent != []
    ensures var x, before := sent[|sent| - 1], TimesOf(sent[..|sent| - 1], topic);
            TimesOf(sent, topic) == if OnTopic(x, topic) then before + [x.time] else before
  {}

  /** The times are those of exactly the entries on the topic, in order. */
  lemma {:induction false} TimesAre(sent: seq<Sent>, topic: Topic) returns (ks: seq<nat>)
    ensures Increasing(ks) && forall i: nat :: i in ks <==> i < |sent| && OnTopic(sent[i], topic)
    ensures |TimesOf(sent, topic)| == |ks|
    ensures forall k :: 0 <= k < |ks| ==> ks[k] < |sent| && TimesOf(sent, topic)[k] == sent[ks[k]].time
  {
    if sent == [] { return []; }
    var front := sent[..|sent| - 1];
    ks := TimesAre(front, topic);
    TimesStep(sent, topic);
    hide TimesOf, OnTopic;
    forall k | 0 <= k < |ks| ensures sent[ks[k]] == front[ks[k]] && TimesOf(sent, topic)[k] == sent[ks[k]].time {
      assert TimesOf(front, topic)[k] == TimesOf(sent, topic)[k];
    }
    if OnTopic(sent[|sent| - 1], topic) { ks := ks + [|sent| - 1]; }
  }

  /** The topics a handler of this kind may send on. */
  predicate SendsOn(kind: Kind, topic: Topic) {
    match kind
    case SendOrder => topic.Order?
    case SendState => topic.State?
    case SendTeleoperationState => topic.TeleopState? || topic.NoTopic?
    case SendControl => topic.Control?
    case _ => !(topic.Order? || topic.State? || topic.TeleopState? || topic.NoTopic? || topic.Control?)
  }

  /** Every handler sends exactly one command, except that the teleoperation state is followed by a video command. */
  lemma SendsOne(cfg: Config, s: AgvState, kind: Kind, draw: Draw)
    requires Safe(s.d, kind, draw) && !kind.SendTeleoperationState?
    ensures var log := RunHandler(cfg, s, kind, draw).sent;
            |log| == |s.sent| + 1 && log[..|s.sent|] == s.sent && SendsOn(kind, log[|s.sent|].topic)
    ensures var log := RunHandler(cfg, s, kind, draw).sent; log[|s.sent|].typ in {PUBLISH_VDA, PUBLISH_TELEOP}
  {
    hide QueueAfterOrder, QueueAfterState, QueueAfterStart, QueueAfterStop, Schedule, WellFormed, Live, Extends, Released, Replenished, ChainAfterOrder;
  }

  lemma SendsPair(cfg: Config, s: AgvState)
    ensures AfterTeleopState(cfg, s).sent == s.sent
      + [Sent(s.q.now, Ue, PUBLISH_TELEOP, TeleopState, Teleoperating(s.teleoperating))]
      + [Sent(s.q.now, Ue, if s.teleoperating then START_VIDEO else STOP_VIDEO, NoTopic, Constant)]
  {}

  lemma LogAfterHandler(cfg: Config, s: AgvState, kind: Kind, draw: Draw, topic: Topic)
    requires Safe(s.d, kind, draw) && !SendsOn(kind, topic)
    ensures TimesOf(RunHandler(cfg, s, kind, draw).sent, topic) == TimesOf(s.sent, topic)
    ensures LastOf(RunHandler(cfg, s, kind, draw).sent, topic) == LastOf(s.sent, topic)
  {
    if kind.SendTeleoperationState? {
      var x := Sent(s.q.now, Ue, PUBLISH_TELEOP, TeleopState, Teleoperating(s.teleoperating));
      var y := Sent(s.q.now, Ue, if s.teleoperating then START_VIDEO else STOP_VIDEO, NoTopic, Constant);
      SendsPair(cfg, s);
      LogAppend(s.sent, x, topic);
      LogAppend(s.sent + [x], y, topic);
    } else {
      SendsOne(cfg, s, kind, draw);
      OneAppended(s.sent, RunHandler(cfg, s, kind, draw).sent, topic);
    }
  }

  lemma OneAppended(sent: seq<Sent>, log: seq<Sent>, topic: Topic)
    requires |log| == |sent| + 1 && log[..|sent|] == sent && log[|sent|].topic != topic
    ensures TimesOf(log, topic) == TimesOf(sent, topic) && LastOf(log, topic) == LastOf(sent, topic)
  {
    LogAppend(sent, log[|sent|], topic);
    assert log == sent + [log[|sent|]];
  }

  lemma LogUnmoved(cfg: Config, s: AgvState, m: Move, t: AgvState, topic: Topic)
    requires Step(cfg, s, m, t) && !SendsOn(KindOf(s, m), topic)
    ensures TimesOf(t.sent, topic) == TimesOf(s.sent, topic)
    ensures LastOf(t.sent, topic) == LastOf(s.sent, topic)
  {
    LogAfterHandler(cfg, s.(q := Take(s.q, m.u)), KindOf(s, m), m.draw, topic);
  }
}
