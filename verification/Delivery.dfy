/** From the log of a run to what the clients of a program are handed: which message, under which topic text, through
    which of the two callbacks, at which clock reading. */
module Delivery {
  import opened Basics
  import opened Commands
  import opened AgvModel
  import opened Timetable
  import opened Composition
  import opened L = MainLoop
  import Timestamp

  /** The commands for one program are the log entries meant for it, in order, each with its type, its topic and the
      rendering of its payload. */
  lemma {:induction false} CommandsAre(sent: seq<Sent>, to: Destination, render: Payload -> string) returns (ks: seq<nat>)
    ensures Increasing(ks) && forall i: nat :: i in ks <==> i < |sent| && sent[i].to == to
    ensures |CommandsTo(sent, to, render)| == |ks|
    ensures forall k :: 0 <= k < |ks| ==> ks[k] < |sent| && CommandsTo(sent, to, render)[k] == ToCommand(sent[ks[k]], render)
  {
    if sent == [] { return []; }
    var front := sent[..|sent| - 1];
    ks := CommandsAre(front, to, render);
    CommandsStep(sent, to, render);
    hide CommandsTo, ToCommand;
    var cmds := CommandsTo(sent, to, render);
    forall k | 0 <= k < |ks| ensures sent[ks[k]] == front[ks[k]] && cmds[k] == ToCommand(sent[ks[k]], render) {
      assert CommandsTo(front, to, render)[k] == cmds[k];
    }
    if sent[|sent| - 1].to == to { ks := ks + [|sent| - 1]; }
  }

  lemma CommandsStep(sent: seq<Sent>, to: Destination, render: Payload -> string)
    requires sent != []
    ensures var cmds, before := CommandsTo(sent, to, render), CommandsTo(sent[..|sent| - 1], to, render);
            if sent[|sent| - 1].to == to then
              |cmds| == |before| + 1 && cmds[..|before|] == before && cmds[|before|] == ToCommand(sent[|sent| - 1], render)
            else cmds == before
  {}

  /** The text of the topic and the callback that go with each topic; `NoTopic` is never published. */
  predicate Leaves(topic: Topic, text: string, teleop: bool) {
    match topic
    case NoTopic => false
    case Connection => text == "uagv/v2/manufacturer/SN/connection" && !teleop
    case InstantActions => text == "uagv/v2/manufacturer/SN/instantActions" && !teleop
    case Factsheet => text == "uagv/v2/manufacturer/SN/factsheet" && !teleop
    case Order => text == "uagv/v2/manufacturer/SN/order" && !teleop
    case State => text == "uagv/v2/manufacturer/SN/state" && !teleop
    case Visualization => text == "uagv/v2/manufacturer/SN/visualization" && !teleop
    case TeleopState => text == "uagv/v2/manufacturer/SN/teleop_state" && teleop
    case Control => text == "uagv/v2/manufacturer/SN/control" && teleop
    case Capabilities => text == "uagv/v2/manufacturer/SN/teleoperationCapabilities" && teleop
  }

  /** Under the stamp of its clock reading the message is the rendering of the payload. */
  ghost predicate Carries(msg: string, text: string, now: nat, unstamped: bool) {
    if unstamped then msg == text
    else |msg| == Max(26, |text|) && msg[..26] == Timestamp.GetTimestamp(now) && msg[26..] == text[Min(26, |text|)..]
  }

  /** This publication is what the controller sent, through the right callback and stamped at `now`. */
  ghost predicate Delivers(f: Forward, x: Sent, now: nat, render: Payload -> string, exclude: bool) {
    && Leaves(x.topic, f.topic, f.teleop) && f.at == now
    && Carries(f.msg, render(x.payload), now, exclude && x.topic == TeleopState)
  }

  lemma HandedOnDelivers(f: Forward, x: Sent, now: nat, render: Payload -> string, exclude: bool)
    requires Listed(x) && x.topic != NoTopic && HandedOn(f, ToCommand(x, render), now, exclude)
    ensures Delivers(f, x, now, render, exclude)
  {
    hide Timestamp.GetTimestamp;
    TopicTexts(x.topic);
    assert x.topic == TeleopState <==> x.typ == PUBLISH_TELEOP && TopicText(x.topic) == "uagv/v2/manufacturer/SN/teleop_state";
  }

  lemma TopicTexts(topic: Topic)
    ensures topic == TeleopState <==> TopicText(topic) == "uagv/v2/manufacturer/SN/teleop_state"
  {
    var text := TopicText(topic);
    match topic
    case NoTopic => assert |text| == 0;
    case Capabilities => assert text[30] == 'e';
    case TeleopState =>
    case _ => assert text[24] != 't';
  }

  lemma ListedHandles(x: Sent, render: Payload -> string, useCamera: bool)
    requires Listed(x) && (x.to.Ue? ==> useCamera)
    ensures Handles(ToCommand(x, render), useCamera)
    ensures x.topic != NoTopic <==> ToCommand(x, render).typ in {PUBLISH_VDA, PUBLISH_TELEOP}
  {}

  lemma AllHandled(cfg: Config, r: Run, i: nat, to: Destination, render: Payload -> string, useCamera: bool, cs: seq<nat>)
    requires cfg.Valid() && r.Of(cfg) && i < |r.states| && (to.Ue? ==> useCamera)
    requires forall k :: 0 <= k < |cs| ==> cs[k] < |r.states[i].sent| && r.states[i].sent[cs[k]].to == to
    ensures forall k :: 0 <= k < |cs| ==>
              var x := r.states[i].sent[cs[k]];
              && Listed(x) && Handles(ToCommand(x, render), useCamera)
              && (x.topic != NoTopic <==> ToCommand(x, render).typ in {PUBLISH_VDA, PUBLISH_TELEOP})
  {
    hide Listed, Handles, ToCommand;
    forall k | 0 <= k < |cs|
      ensures var x := r.states[i].sent[cs[k]];
              && Listed(x) && Handles(ToCommand(x, render), useCamera)
              && (x.topic != NoTopic <==> ToCommand(x, render).typ in {PUBLISH_VDA, PUBLISH_TELEOP})
    {
      EveryCommand(cfg, r, i, cs[k]);
      ListedHandles(r.states[i].sent[cs[k]], render, useCamera);
    }
  }

  /** For every run and both programs, through to EXIT: `cs` are the log entries for this program, `js` those of its
      commands that are publications, and exactly these are handed to the clients, in order, each with its topic text,
      through the callback of its topic, stamped at the clock reading of its own turn of the loop. */
  lemma Delivered(cfg: Config, r: Run, i: nat, to: Destination, render: Payload -> string, exit: Command, rest: seq<Command>,
                  clock: nat -> nat, useCamera: bool, exclude: bool) returns (cs: seq<nat>, js: seq<nat>)
    requires cfg.Valid() && r.Of(cfg) && i < |r.states| && exit.typ == EXIT && (to.Ue? ==> useCamera)
    requires forall k: nat | k < |CommandsTo(r.states[i].sent, to, render)| :: clock(k) < Timestamp.END_OF_9999
    ensures Increasing(cs) && forall k: nat :: k in cs <==> k < |r.states[i].sent| && r.states[i].sent[k].to == to
    ensures forall k :: 0 <= k < |cs| ==> cs[k] < |r.states[i].sent|
    ensures Increasing(js) && forall j: nat :: j in js <==> j < |cs| && r.states[i].sent[cs[j]].topic != NoTopic
    ensures var fs := ServeAll(CommandsTo(r.states[i].sent, to, render) + [exit] + rest, clock, useCamera, exclude).forwarded;
            && |fs| == |js|
            && forall k :: 0 <= k < |fs| ==>
                 js[k] < |cs| && Delivers(fs[k], r.states[i].sent[cs[js[k]]], clock(js[k]), render, exclude)
  {
    hide Timestamp.GetTimestamp, ToCommand, Handles, Listed, HandedOn, Delivers, CommandsTo, ServeAll;
    var sent, cmds := r.states[i].sent, CommandsTo(r.states[i].sent, to, render);
    var all := cmds + [exit] + rest;
    cs := CommandsAre(sent, to, render);
    assert forall k :: 0 <= k < |cs| ==> cs[k] in cs;
    AllHandled(cfg, r, i, to, render, useCamera, cs);
    assert forall k :: 0 <= k < |cmds| ==> all[k] == cmds[k];
    assert all[|cmds|] == exit;
    ExitIsNotHandled(exit, useCamera);
    js := WhatTheLoopDoes(all, |cmds|, clock, useCamera, exclude);
    var fs := ServeAll(all, clock, useCamera, exclude).forwarded;
    forall k | 0 <= k < |fs| ensures js[k] < |cs| && Delivers(fs[k], sent[cs[js[k]]], clock(js[k]), render, exclude) {
      assert js[k] in js;
      HandedOnDelivers(fs[k], sent[cs[js[k]]], clock(js[k]), render, exclude);
    }
  }

  lemma ExitIsNotHandled(exit: Command, useCamera: bool)
    requires exit.typ == EXIT
    ensures !Handles(exit, useCamera)
  {}
}
