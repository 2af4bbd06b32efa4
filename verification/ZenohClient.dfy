/** The Zenoh client: publications go through publishers declared beforehand, if any were. What the UE program declares
    is not quite what the controller has it publish. */
module ZenohClient {
  import opened Commands
  import opened EventQueue
  import opened AgvModel
  import opened SentLog
  import opened AgvRuns
  import opened AgvPromises
  import opened Timetable
  import opened FixedMessages
  import opened Composition
  import opened MainLoop
  import opened Delivery
  import Timestamp

  /** With no publisher declared every topic can be published on, else only those declared. */
  predicate Ready(publishers: set<string>, topic: string) { publishers == {} || topic in publishers }

  class Zenoh {
    var publishers: set<string>
    var sendEntries: seq<SendEntry>

    constructor ()
      ensures publishers == {} && sendEntries == []
    {
      publishers, sendEntries := {}, [];
    }

    method AddPublisher(topic: string)
      modifies this`publishers
      ensures publishers == old(publishers) + {topic}
    {
      publishers := publishers + {topic};
    }

    /** The entry is logged first; looking up a publisher that was never declared throws. */
    method Publish(topic: string, payload: string, now: nat) returns (ok: bool)
      modifies this`sendEntries
      ensures sendEntries == old(sendEntries) + [SendEntry(|topic| + |payload|, now)]
      ensures ok <==> Ready(publishers, topic)
    {
      sendEntries := sendEntries + [SendEntry(|topic| + |payload|, now)];
      ok := if publishers != {} then topic in publishers else true;
    }
  }

  /** The publishers of the UE program: one client per callback. */
  method DeclareForUe(vda: Zenoh, teleop: Zenoh)
    requires vda != teleop && vda.publishers == {} && teleop.publishers == {}
    modifies vda`publishers, teleop`publishers
    ensures vda.publishers == UE_VDA && teleop.publishers == UE_TELEOP
  {
    vda.AddPublisher("uagv/v2/manufacturer/SN/connection");
    vda.AddPublisher("uagv/v2/manufacturer/SN/state");
    vda.AddPublisher("uagv/v2/manufacturer/SN/factsheet");
    vda.AddPublisher("uagv/v2/manufacturer/SN/visualization");
    teleop.AddPublisher("uagv/v2/manufacturer/SN/teleop_capabilities");
    teleop.AddPublisher("uagv/v2/manufacturer/SN/teleop_state");
  }

  const UE_VDA := {"uagv/v2/manufacturer/SN/connection", "uagv/v2/manufacturer/SN/state",
                   "uagv/v2/manufacturer/SN/factsheet", "uagv/v2/manufacturer/SN/visualization"}
  const UE_TELEOP := {"uagv/v2/manufacturer/SN/teleop_capabilities", "uagv/v2/manufacturer/SN/teleop_state"}

  /** The publishers of the Base program, whose one client serves both callbacks. */
  method DeclareForBase(z: Zenoh)
    requires z.publishers == {}
    modifies z`publishers
    ensures z.publishers == BASE
  {
    z.AddPublisher("uagv/v2/manufacturer/SN/instantActions");
    z.AddPublisher("uagv/v2/manufacturer/SN/order");
    z.AddPublisher("uagv/v2/manufacturer/SN/control");
  }

  const BASE := {"uagv/v2/manufacturer/SN/instantActions", "uagv/v2/manufacturer/SN/order", "uagv/v2/manufacturer/SN/control"}

  /** This publication finds its publisher at the client it is handed to. */
  predicate Finds(f: Forward, vda: set<string>, teleop: set<string>) {
    Ready(if f.teleop then teleop else vda, f.topic)
  }

  /** Those of the publications that are handed to this client. */
  function Share(fs: seq<Forward>, teleop: bool): seq<Forward> {
    if fs == [] then [] else
    Share(fs[..|fs| - 1], teleop) + (if fs[|fs| - 1].teleop == teleop then [fs[|fs| - 1]] else [])
  }

  lemma ShareAppend(fs: seq<Forward>, n: nat, teleop: bool)
    requires n < |fs|
    ensures Sizes(Share(fs[..n + 1], teleop)) == Sizes(Share(fs[..n], teleop))
      + (if fs[n].teleop == teleop then [SendEntry(|fs[n].topic| + |fs[n].msg|, fs[n].at)] else [])
  {
    hide Sizes;
    assert fs[..n + 1][..n] == fs[..n] && fs[..n + 1][n] == fs[n];
    ShareStep(fs[..n + 1], teleop);
    hide Share;
    if fs[n].teleop == teleop { SizesAppend(Share(fs[..n], teleop), fs[n]); }
  }

  lemma ShareStep(fs: seq<Forward>, teleop: bool)
    requires fs != []
    ensures Share(fs, teleop)
         == if fs[|fs| - 1].teleop == teleop then Share(fs[..|fs| - 1], teleop) + [fs[|fs| - 1]] else Share(fs[..|fs| - 1], teleop)
  {}

  lemma ShareNone(fs: seq<Forward>, teleop: bool)
    ensures Sizes(Share(fs[..0], teleop)) == []
  {}

  /** The two callbacks of the UE program on what its loop forwards. The first publication without a publisher ends the
      program; its size has been logged by then, and nothing after it is published. */
  method PublishForUe(vda: Zenoh, teleop: Zenoh, fs: seq<Forward>) returns (done: nat)
    requires vda != teleop
    modifies vda`sendEntries, teleop`sendEntries
    ensures done <= |fs| && forall k :: 0 <= k < done ==> Finds(fs[k], vda.publishers, teleop.publishers)
    ensures done < |fs| ==> !Finds(fs[done], vda.publishers, teleop.publishers)
    ensures var tried := fs[..if done < |fs| then done + 1 else done];
            && vda.sendEntries == old(vda.sendEntries) + Sizes(Share(tried, false))
            && teleop.sendEntries == old(teleop.sendEntries) + Sizes(Share(tried, true))
  {
    hide Share, Sizes;
    done := 0;
    ShareNone(fs, false);
    ShareNone(fs, true);
    while done < |fs|
      invariant done <= |fs| && forall k :: 0 <= k < done ==> Finds(fs[k], vda.publishers, teleop.publishers)
      invariant vda.sendEntries == old(vda.sendEntries) + Sizes(Share(fs[..done], false))
      invariant teleop.sendEntries == old(teleop.sendEntries) + Sizes(Share(fs[..done], true))
    {
      ShareAppend(fs, done, false);
      ShareAppend(fs, done, true);
      var ok := false;
      if fs[done].teleop {
        ok := teleop.Publish(fs[done].topic, fs[done].msg, fs[done].at);
      } else {
        ok := vda.Publish(fs[done].topic, fs[done].msg, fs[done].at);
      }
      if !ok { return; }
      done := done + 1;
    }
  }

  // ---------------------------------------------------------------- runs

  /** What the clients of a program are handed in a run, up to EXIT. */
  function HandedIn(sent: seq<Sent>, to: Destination, render: Payload -> string, clock: nat -> nat, exclude: bool): seq<Forward> {
    ServeAll(CommandsTo(sent, to, render) + [Command(EXIT, "", "")], clock, true, exclude).forwarded
  }

  predicate AllFind(fs: seq<Forward>, vda: set<string>, teleop: set<string>) {
    forall k :: 0 <= k < |fs| ==> Finds(fs[k], vda, teleop)
  }

  lemma UeFinds(topic: Topic, text: string, teleop: bool)
    requires Leaves(topic, text, teleop) && topic in {Connection, State, Factsheet, Visualization, TeleopState, Capabilities}
    ensures Ready(if teleop then UE_TELEOP else UE_VDA, text) <==> topic != Capabilities
  {
    assert |"uagv/v2/manufacturer/SN/teleoperationCapabilities"| == 49;
  }

  lemma BaseFinds(topic: Topic, text: string, teleop: bool)
    requires Leaves(topic, text, teleop) && topic in {InstantActions, Order, Control}
    ensures Ready(BASE, text)
  {}

  lemma {:induction false} NeverSent(sent: seq<Sent>, topic: Topic)
    ensures TimesOf(sent, topic) == [] <==> forall k :: 0 <= k < |sent| ==> sent[k].topic != topic
  {
    if sent != [] {
      NeverSent(sent[..|sent| - 1], topic);
      assert forall k :: 0 <= k < |sent| - 1 ==> sent[k] == sent[..|sent| - 1][k];
    }
  }

  lemma ListedFor(x: Sent)
    requires Listed(x) && x.topic != NoTopic
    ensures x.to == Ue <==> x.topic in {Connection, State, Factsheet, Visualization, TeleopState, Capabilities}
    ensures x.to == Base <==> x.topic in {InstantActions, Order, Control}
  {}

  /** At Base every publication of every run finds its publisher. */
  lemma BasePublishes(cfg: Config, r: Run, i: nat, render: Payload -> string, clock: nat -> nat, exclude: bool)
    requires cfg.Valid() && r.Of(cfg) && i < |r.states| && forall k: nat :: clock(k) < Timestamp.END_OF_9999
    ensures AllFind(HandedIn(r.states[i].sent, Base, render, clock, exclude), BASE, BASE)
  {
    hide Listed, Leaves, Carries, ServeAll, CommandsTo, Ready;
    var sent, exit := r.states[i].sent, Command(EXIT, "", "");
    var cmds := CommandsTo(sent, Base, render);
    assert cmds + [exit] + [] == cmds + [exit];
    var cs, js := Delivered(cfg, r, i, Base, render, exit, [], clock, true, exclude);
    var fs := HandedIn(sent, Base, render, clock, exclude);
    forall k | 0 <= k < |fs| ensures Finds(fs[k], BASE, BASE) {
      assert js[k] in js && cs[js[k]] in cs;
      EveryCommand(cfg, r, i, cs[js[k]]);
      ListedFor(sent[cs[js[k]]]);
      BaseFinds(sent[cs[js[k]]].topic, fs[k].topic, fs[k].teleop);
    }
  }

  /** At the UE, with the publishers it declares, every publication does if and only if no capabilities are among them:
      the topic declared for them is not the one they are sent on. */
  lemma UePublishes(cfg: Config, r: Run, i: nat, render: Payload -> string, clock: nat -> nat, exclude: bool)
    requires cfg.Valid() && r.Of(cfg) && i < |r.states| && forall k: nat :: clock(k) < Timestamp.END_OF_9999
    ensures AllFind(HandedIn(r.states[i].sent, Ue, render, clock, exclude), UE_VDA, UE_TELEOP)
       <==> TimesOf(r.states[i].sent, Capabilities) == []
  {
    hide Listed, Leaves, Carries, ServeAll, CommandsTo, Ready;
    var sent, exit := r.states[i].sent, Command(EXIT, "", "");
    var cmds := CommandsTo(sent, Ue, render);
    assert cmds + [exit] + [] == cmds + [exit];
    var cs, js := Delivered(cfg, r, i, Ue, render, exit, [], clock, true, exclude);
    var fs := HandedIn(sent, Ue, render, clock, exclude);
    forall k | 0 <= k < |fs| ensures Finds(fs[k], UE_VDA, UE_TELEOP) <==> sent[cs[js[k]]].topic != Capabilities {
      assert js[k] in js && cs[js[k]] in cs;
      EveryCommand(cfg, r, i, cs[js[k]]);
      ListedFor(sent[cs[js[k]]]);
      UeFinds(sent[cs[js[k]]].topic, fs[k].topic, fs[k].teleop);
    }
    NeverSent(sent, Capabilities);
    if n :| 0 <= n < |sent| && sent[n].topic == Capabilities {
      EveryCommand(cfg, r, i, n);
      ListedFor(sent[n]);
      var j :| 0 <= j < |cs| && cs[j] == n;
      assert j in js;
      var k :| 0 <= k < |js| && js[k] == j;
      assert !Finds(fs[k], UE_VDA, UE_TELEOP);
    }
  }

  lemma CapabilitiesAreSent(cfg: Config, r: Run, i: nat)
    requires cfg.Valid() && cfg.scenario.TELEOP? && r.Of(cfg) && i < |r.states|
    requires r.states[i].q.now > cfg.capabilityRequestAfter + cfg.capabilityResponse
    ensures TimesOf(r.states[i].sent, Capabilities) == [cfg.capabilityRequestAfter + cfg.capabilityResponse]
  {
    var s := r.states[i];
    CapabilitiesOnce(cfg, r, i);
    TrackedHolds(cfg, r, i);
    var at := cfg.capabilityRequestAfter;
    if OneDue(s.q, RequestCapabilities, at) { NotPast(s.q, RequestCapabilities, at); }
    if OneDue(s.q, SendCapabilities, at + cfg.capabilityResponse) { NotPast(s.q, SendCapabilities, at + cfg.capabilityResponse); }
  }

  lemma NotPast(q: Queue, k: Kind, at: nat)
    requires WellFormed(q) && OneDue(q, k, at)
    ensures q.now <= at
  {
    var u :| u in Live(q, k);
  }

  /** So it never fails in the VDA5050 scenario, and in every TELEOP run it does once the reply is due. */
  lemma UeFailsInTeleop(cfg: Config, r: Run, i: nat, render: Payload -> string, clock: nat -> nat, exclude: bool)
    requires cfg.Valid() && r.Of(cfg) && i < |r.states| && forall k: nat :: clock(k) < Timestamp.END_OF_9999
    ensures cfg.scenario.VDA5050? ==> AllFind(HandedIn(r.states[i].sent, Ue, render, clock, exclude), UE_VDA, UE_TELEOP)
    ensures cfg.scenario.TELEOP? && r.states[i].q.now > cfg.capabilityRequestAfter + cfg.capabilityResponse ==>
              !AllFind(HandedIn(r.states[i].sent, Ue, render, clock, exclude), UE_VDA, UE_TELEOP)
  {
    hide AllFind, HandedIn;
    UePublishes(cfg, r, i, render, clock, exclude);
    if cfg.scenario.VDA5050? {
      NoCapabilities(cfg, r, i);
    } else if r.states[i].q.now > cfg.capabilityRequestAfter + cfg.capabilityResponse {
      CapabilitiesAreSent(cfg, r, i);
    }
  }

  /** With the shipped delays that is before teleoperation starts. */
  lemma DefaultUeFailsBeforeStart(r: Run, i: nat, render: Payload -> string, clock: nat -> nat, exclude: bool)
    requires r.Of(DEFAULT.(scenario := TELEOP)) && i < |r.states| && !r.states[i].phase.BeforeStart?
    requires forall k: nat :: clock(k) < Timestamp.END_OF_9999
    ensures !AllFind(HandedIn(r.states[i].sent, Ue, render, clock, exclude), UE_VDA, UE_TELEOP)
  {
    hide AllFind, HandedIn;
    var cfg := DEFAULT.(scenario := TELEOP);
    PhasedHolds(cfg, r, i);
    UeFailsInTeleop(cfg, r, i, render, clock, exclude);
  }
}
