/** Controller, Base and UE together: the commands of any run, delivered in order, processed by the main loops. */
module Composition {
  import opened Basics
  import opened EventQueue
  import opened Commands
  import opened AgvModel
  import opened SentLog
  import opened AgvRuns
  import L = MainLoop
  import Timestamp

  // ---------------------------------------------------------------- the two command streams

  function TopicText(t: Topic): string {
    match t
    case NoTopic => ""
    case Connection => "uagv/v2/manufacturer/SN/connection"
    case InstantActions => "uagv/v2/manufacturer/SN/instantActions"
    case Factsheet => "uagv/v2/manufacturer/SN/factsheet"
    case Order => "uagv/v2/manufacturer/SN/order"
    case State => "uagv/v2/manufacturer/SN/state"
    case Visualization => "uagv/v2/manufacturer/SN/visualization"
    case TeleopState => TELEOP_STATE_TOPIC
    case Control => "uagv/v2/manufacturer/SN/control"
    case Capabilities => "uagv/v2/manufacturer/SN/teleoperationCapabilities"
  }

  /** What travels over the socket; `render` is the text of a payload. */
  function ToCommand(x: Sent, render: Payload -> string): Command {
    Command(x.typ, TopicText(x.topic), render(x.payload))
  }

  /** The commands for one destination, in the order in which they were sent. */
  function CommandsTo(sent: seq<Sent>, to: Destination, render: Payload -> string): seq<Command> {
    if sent == [] then [] else
    CommandsTo(sent[..|sent| - 1], to, render)
    + (if sent[|sent| - 1].to == to then [ToCommand(sent[|sent| - 1], render)] else [])
  }

  lemma CommandsAppend(sent: seq<Sent>, x: Sent, to: Destination, render: Payload -> string)
    ensures CommandsTo(sent + [x], to, render)
         == CommandsTo(sent, to, render) + (if x.to == to then [ToCommand(x, render)] else [])
  {
    assert (sent + [x])[..|sent|] == sent;
  }

  // ---------------------------------------------------------------- what each handler sends

  /** A handler other than `sendTeleoperationState` sends one publication, which does not report the flag. */
  lemma SendsPublication(cfg: Config, s: AgvState, m: Move, t: AgvState)
    requires Step(cfg, s, m, t) && !KindOf(s, m).SendTeleoperationState?
    ensures |t.sent| == |s.sent| + 1 && t.sent == s.sent + [t.sent[|s.sent|]]
    ensures t.sent[|s.sent|].typ.PUBLISH_VDA? || t.sent[|s.sent|].typ.PUBLISH_TELEOP?
    ensures !t.sent[|s.sent|].topic.TeleopState?
  {
    SendsOne(cfg, s.(q := Take(s.q, m.u)), KindOf(s, m), m.draw);
    assert t.sent == t.sent[..|s.sent|] + [t.sent[|s.sent|]];
  }

  /** `sendTeleoperationState` reports the flag and then sends the matching video command. */
  lemma SendsReport(cfg: Config, s: AgvState, m: Move, t: AgvState)
    requires Step(cfg, s, m, t) && KindOf(s, m).SendTeleoperationState?
    ensures t.sent == s.sent
      + [Sent(t.q.now, Ue, PUBLISH_TELEOP, TeleopState, Teleoperating(s.teleoperating))]
      + [Sent(t.q.now, Ue, if s.teleoperating then START_VIDEO else STOP_VIDEO, NoTopic, Constant)]
  {
    SendsPair(cfg, s.(q := Take(s.q, m.u)));
  }

  // ---------------------------------------------------------------- Base

  predicate AllPublish(cmds: seq<Command>) {
    forall i :: 0 <= i < |cmds| ==> L.Publishes(cmds[i])
  }

  lemma BaseStep(cfg: Config, s: AgvState, m: Move, t: AgvState, render: Payload -> string)
    requires Step(cfg, s, m, t) && AllPublish(CommandsTo(s.sent, Base, render))
    ensures AllPublish(CommandsTo(t.sent, Base, render))
  {
    if KindOf(s, m).SendTeleoperationState? {
      SendsReport(cfg, s, m, t);
      var x := Sent(t.q.now, Ue, PUBLISH_TELEOP, TeleopState, Teleoperating(s.teleoperating));
      CommandsAppend(s.sent, x, Base, render);
      CommandsAppend(s.sent + [x], t.sent[|s.sent| + 1], Base, render);
    } else {
      SendsPublication(cfg, s, m, t);
      CommandsAppend(s.sent, t.sent[|s.sent|], Base, render);
    }
  }

  lemma {:induction false} BaseOnlyPublishes(cfg: Config, r: Run, i: nat, render: Payload -> string)
    requires r.Of(cfg) && i < |r.states|
    ensures AllPublish(CommandsTo(r.states[i].sent, Base, render))
  {
    if i == 0 {
      StartsBlank(cfg, r);
    } else {
      BaseOnlyPublishes(cfg, r, i - 1, render);
      StepAt(cfg, r, i - 1);
      BaseStep(cfg, r.states[i - 1], r.moves[i - 1], r.states[i], render);
    }
  }

  /** The Base loop never sees an invalid command, whether or not it was built with a camera: it forwards every
      publication of the run in order and leaves at the EXIT sent when the simulation ends. */
  lemma BaseForwardsEverything(cfg: Config, r: Run, i: nat, render: Payload -> string, exit: Command, rest: seq<Command>,
                               clock: nat -> nat, useCamera: bool, exclude: bool)
    requires r.Of(cfg) && i < |r.states| && exit.typ.EXIT?
    ensures var cmds := CommandsTo(r.states[i].sent, Base, render);
            && L.ServeAll(cmds + [exit] + rest, clock, useCamera, exclude)
               == L.Loop(L.Publications(cmds, clock, exclude), false, L.Exited)
            && |L.Publications(cmds, clock, exclude)| == |cmds|
  {
    var cmds := CommandsTo(r.states[i].sent, Base, render);
    BaseOnlyPublishes(cfg, r, i, render);
    var all := cmds + [exit] + rest;
    assert all[..|cmds|] == cmds && all[|cmds|] == exit;
    assert forall k :: 0 <= k < |cmds| ==> all[k] == cmds[k];
    L.LoopEnds(all, |cmds|, clock, useCamera, exclude);
    PublicationsAll(cmds, clock, exclude);
  }

  lemma {:induction false} PublicationsAll(cmds: seq<Command>, clock: nat -> nat, exclude: bool)
    requires AllPublish(cmds)
    ensures |L.Publications(cmds, clock, exclude)| == |cmds| && !L.VideoOn(cmds)
  {
    if cmds != [] { PublicationsAll(cmds[..|cmds| - 1], clock, exclude); }
  }

  // ---------------------------------------------------------------- UE

  /** The last reported value of the flag; off before the first report. */
  predicate LastReportedOn(sent: seq<Sent>) {
    LastOf(sent, TeleopState) == Some(Teleoperating(true))
  }

  predicate UeOk(sent: seq<Sent>, render: Payload -> string) {
    var cmds := CommandsTo(sent, Ue, render);
    && (forall i :: 0 <= i < |cmds| ==> L.Accepted(cmds[i], true))
    && L.VideoOn(cmds) == LastReportedOn(sent)
    && L.AnyVideo(cmds) == LastOf(sent, TeleopState).Some?
  }

  lemma VideoAppend(cmds: seq<Command>, c: Command)
    ensures L.VideoOn(cmds + [c]) == if L.Video(c) then c.typ.START_VIDEO? else L.VideoOn(cmds)
    ensures L.AnyVideo(cmds + [c]) == (L.Video(c) || L.AnyVideo(cmds))
  {
    assert (cmds + [c])[..|cmds|] == cmds;
  }

  lemma UePublication(sent: seq<Sent>, x: Sent, render: Payload -> string)
    requires UeOk(sent, render) && !x.topic.TeleopState? && (x.typ.PUBLISH_VDA? || x.typ.PUBLISH_TELEOP?)
    ensures UeOk(sent + [x], render)
  {
    var cmds := CommandsTo(sent, Ue, render);
    CommandsAppend(sent, x, Ue, render);
    LogAppend(sent, x, TeleopState);
    if x.to == Ue {
      VideoAppend(cmds, ToCommand(x, render));
    } else {
      assert CommandsTo(sent + [x], Ue, render) == cmds;
    }
  }

  lemma UeReport(sent: seq<Sent>, now: nat, on: bool, render: Payload -> string)
    requires UeOk(sent, render)
    ensures UeOk(sent + [Sent(now, Ue, PUBLISH_TELEOP, TeleopState, Teleoperating(on))]
                      + [Sent(now, Ue, if on then START_VIDEO else STOP_VIDEO, NoTopic, Constant)], render)
  {
    var x := Sent(now, Ue, PUBLISH_TELEOP, TeleopState, Teleoperating(on));
    var y := Sent(now, Ue, if on then START_VIDEO else STOP_VIDEO, NoTopic, Constant);
    var cmds := CommandsTo(sent, Ue, render);
    CommandsAppend(sent, x, Ue, render);
    CommandsAppend(sent + [x], y, Ue, render);
    LogAppend(sent, x, TeleopState);
    LogAppend(sent + [x], y, TeleopState);
    VideoAppend(cmds + [ToCommand(x, render)], ToCommand(y, render));
  }

  lemma {:induction false} UeAccepts(cfg: Config, r: Run, i: nat, render: Payload -> string)
    requires r.Of(cfg) && i < |r.states|
    ensures UeOk(r.states[i].sent, render)
  {
    if i == 0 {
      StartsBlank(cfg, r);
    } else {
      UeAccepts(cfg, r, i - 1, render);
      StepAt(cfg, r, i - 1);
      var s, m, t := r.states[i - 1], r.moves[i - 1], r.states[i];
      if KindOf(s, m).SendTeleoperationState? {
        SendsReport(cfg, s, m, t);
        UeReport(s.sent, t.q.now, s.teleoperating, render);
      } else {
        SendsPublication(cfg, s, m, t);
        UePublication(s.sent, t.sent[|s.sent|], render);
      }
    }
  }

  /** The UE loop accepts every command of every run, forwards the publications in order, and after every event
      its camera is alive exactly when the last reported teleoperation state was on. */
  lemma CameraFollowsReports(cfg: Config, r: Run, i: nat, render: Payload -> string, clock: nat -> nat, exclude: bool)
    requires r.Of(cfg) && i < |r.states|
    ensures var cmds := CommandsTo(r.states[i].sent, Ue, render);
            L.ServeAll(cmds, clock, true, exclude)
            == L.Loop(L.Publications(cmds, clock, exclude), LastReportedOn(r.states[i].sent), L.Waiting)
  {
    UeAccepts(cfg, r, i, render);
    L.AcceptedAreServed(CommandsTo(r.states[i].sent, Ue, render), clock, true, exclude);
  }

  /** A UE loop run without a camera is aborted by an exception if and only if a teleoperation state has been sent. */
  lemma CameraIsNeeded(cfg: Config, r: Run, i: nat, render: Payload -> string, clock: nat -> nat, exclude: bool)
    requires r.Of(cfg) && i < |r.states|
    ensures L.ServeAll(CommandsTo(r.states[i].sent, Ue, render), clock, false, exclude).outcome.Invalid?
       <==> LastOf(r.states[i].sent, TeleopState).Some?
  {
    UeAccepts(cfg, r, i, render);
    L.VideoWithoutCamera(CommandsTo(r.states[i].sent, Ue, render), clock, exclude);
  }

  /** The UE loop, which has a camera, forwards every publication of the run in order and leaves at the EXIT sent when
      the simulation ends. */
  lemma UeForwardsEverything(cfg: Config, r: Run, i: nat, render: Payload -> string, exit: Command, rest: seq<Command>,
                             clock: nat -> nat, exclude: bool)
    requires r.Of(cfg) && i < |r.states| && exit.typ.EXIT?
    ensures var cmds := CommandsTo(r.states[i].sent, Ue, render);
            L.ServeAll(cmds + [exit] + rest, clock, true, exclude)
            == L.Loop(L.Publications(cmds, clock, exclude), LastReportedOn(r.states[i].sent), L.Exited)
  {
    var cmds := CommandsTo(r.states[i].sent, Ue, render);
    UeAccepts(cfg, r, i, render);
    var all := cmds + [exit] + rest;
    assert all[..|cmds|] == cmds && all[|cmds|] == exit;
    assert forall k :: 0 <= k < |cmds| ==> all[k] == cmds[k];
    L.LoopEnds(all, |cmds|, clock, true, exclude);
  }

  // ---------------------------------------------------------------- the receivers

  lemma ForwardsEverything(cfg: Config, r: Run, i: nat, to: Destination, render: Payload -> string, exit: Command,
                           rest: seq<Command>, clock: nat -> nat, exclude: bool)
    requires r.Of(cfg) && i < |r.states| && exit.typ.EXIT?
    ensures var cmds := CommandsTo(r.states[i].sent, to, render);
            var l := L.ServeAll(cmds + [exit] + rest, clock, to.Ue?, exclude);
            l.outcome.Exited? && l.forwarded == L.Publications(cmds, clock, exclude)
  {
    match to
    case Base => BaseForwardsEverything(cfg, r, i, render, exit, rest, clock, false, exclude);
    case Ue => UeForwardsEverything(cfg, r, i, render, exit, rest, clock, exclude);
  }

  /** End to end, for every run and both programs: what a subscriber records of the messages a program forwards is, for
      each of the controller's publications on its topics, the stamp the program wrote. */
  lemma StampsReachReceivers(cfg: Config, r: Run, i: nat, to: Destination, render: Payload -> string, exit: Command,
                             rest: seq<Command>, clock: nat -> nat, topics: set<string>, arrival: nat -> nat, exclude: bool)
    requires r.Of(cfg) && i < |r.states| && exit.typ.EXIT?
    requires forall k: nat | k < |CommandsTo(r.states[i].sent, to, render)| :: clock(k) < Timestamp.END_OF_9999
    ensures var cmds := CommandsTo(r.states[i].sent, to, render);
            L.Entries(L.ServeAll(cmds + [exit] + rest, clock, to.Ue?, exclude).forwarded, topics, arrival, exclude)
            == L.ExpectedEntries(cmds, clock, topics, arrival, exclude)
  {
    var cmds := CommandsTo(r.states[i].sent, to, render);
    ForwardsEverything(cfg, r, i, to, render, exit, rest, clock, exclude);
    L.StampsRecovered(cmds, clock, topics, arrival, exclude);
    L.StampsExpected(cmds, clock, topics, arrival, exclude);
  }
}
