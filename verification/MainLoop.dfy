/** The loop that Base and UE run on the commands of the controller, and the client that publishes and records. */
module MainLoop {
  import opened Basics
  import opened Commands
  import opened Timestamp

  /** A publication as handed to a client; `at` is the clock reading of the loop iteration. */
  datatype Forward = Forward(teleop: bool, topic: string, msg: string, at: nat)

  /** `Waiting` for the next command, left through EXIT, or aborted by an exception. */
  datatype Outcome = Waiting | Exited | Invalid

  datatype Loop = Loop(forwarded: seq<Forward>, camera: bool, outcome: Outcome)

  const IDLE := Loop([], false, Waiting)

  predicate Publishes(c: Command) { c.typ.PUBLISH_VDA? || c.typ.PUBLISH_TELEOP? }

  predicate Video(c: Command) { c.typ.START_VIDEO? || c.typ.STOP_VIDEO? }

  /** `msg.replace(0, |stamp|, stamp)`: overwrites at most as much of the message as there is. */
  function Overwrite(msg: string, stamp: string): string {
    stamp + msg[Min(|stamp|, |msg|)..]
  }

  /** Built with EXCLUDE_TIMESTAMP_IN_TELEOP_STATE, the teleoperation state is neither stamped nor recorded. */
  predicate Unstamped(c: Command, exclude: bool) {
    exclude && c.typ.PUBLISH_TELEOP? && c.topic == TELEOP_STATE_TOPIC
  }

  function Forwarded(c: Command, now: nat, exclude: bool): Forward {
    Forward(c.typ.PUBLISH_TELEOP?, c.topic,
            if Unstamped(c, exclude) then c.msg else Overwrite(c.msg, GetTimestamp(now)), now)
  }

  /** One iteration of the loop. */
  function Serve(l: Loop, c: Command, now: nat, useCamera: bool, exclude: bool): Loop {
    if !l.outcome.Waiting? then l
    else if Publishes(c) then l.(forwarded := l.forwarded + [Forwarded(c, now, exclude)])
    else if useCamera && c.typ.START_VIDEO? then l.(camera := true)
    else if useCamera && c.typ.STOP_VIDEO? then l.(camera := false)
    else if c.typ.EXIT? then l.(outcome := Exited)
    else l.(outcome := Invalid)
  }

  /** The loop after a sequence of commands; `clock(i)` is the reading while handling the i-th. */
  function ServeAll(cmds: seq<Command>, clock: nat -> nat, useCamera: bool, exclude: bool): Loop {
    if cmds == [] then IDLE else
    Serve(ServeAll(cmds[..|cmds| - 1], clock, useCamera, exclude), cmds[|cmds| - 1], clock(|cmds| - 1), useCamera, exclude)
  }

  lemma ServeAppend(cmds: seq<Command>, c: Command, clock: nat -> nat, useCamera: bool, exclude: bool)
    ensures ServeAll(cmds + [c], clock, useCamera, exclude)
         == Serve(ServeAll(cmds, clock, useCamera, exclude), c, clock(|cmds|), useCamera, exclude)
  {
    assert (cmds + [c])[..|cmds|] == cmds;
  }

  lemma ServePrefix(cmds: seq<Command>, i: nat, clock: nat -> nat, useCamera: bool, exclude: bool)
    requires i < |cmds|
    ensures ServeAll(cmds[..i + 1], clock, useCamera, exclude)
         == Serve(ServeAll(cmds[..i], clock, useCamera, exclude), cmds[i], clock(i), useCamera, exclude)
  {
    assert cmds[..i] + [cmds[i]] == cmds[..i + 1];
    ServeAppend(cmds[..i], cmds[i], clock, useCamera, exclude);
  }

  lemma StoppedAt(cmds: seq<Command>, i: nat, clock: nat -> nat, useCamera: bool, exclude: bool)
    requires i <= |cmds| && !ServeAll(cmds[..i], clock, useCamera, exclude).outcome.Waiting?
    ensures ServeAll(cmds, clock, useCamera, exclude) == ServeAll(cmds[..i], clock, useCamera, exclude)
  {
    StoppedStays(cmds[..i], cmds[i..], clock, useCamera, exclude);
    assert cmds[..i] + cmds[i..] == cmds;
  }

  lemma {:induction false} StoppedStays(cmds: seq<Command>, more: seq<Command>, clock: nat -> nat, useCamera: bool, exclude: bool)
    requires !ServeAll(cmds, clock, useCamera, exclude).outcome.Waiting?
    ensures ServeAll(cmds + more, clock, useCamera, exclude) == ServeAll(cmds, clock, useCamera, exclude)
    decreases |more|
  {
    if more == [] {
      assert cmds + more == cmds;
    } else {
      var front := more[..|more| - 1];
      StoppedStays(cmds, front, clock, useCamera, exclude);
      assert cmds + more == (cmds + front) + [more[|more| - 1]];
      ServeAppend(cmds + front, more[|more| - 1], clock, useCamera, exclude);
    }
  }

  /** The PUBLISH_VDA branch: the start of the message is overwritten in place with the current time. */
  method ForwardVda(command: Command, now: nat, exclude: bool) returns (f: Forward)
    requires command.typ.PUBLISH_VDA?
    ensures f == Forwarded(command, now, exclude)
  {
    var c := command;
    var timestamp := GetTimestamp(now);
    c := c.(msg := Overwrite(c.msg, timestamp));
    f := Forward(false, c.topic, c.msg, now);
  }

  /** The PUBLISH_TELEOP branch: the same, unless this build leaves the teleoperation state alone. */
  method ForwardTeleop(command: Command, now: nat, exclude: bool) returns (f: Forward)
    requires command.typ.PUBLISH_TELEOP?
    ensures f == Forwarded(command, now, exclude)
  {
    var c := command;
    if !exclude || c.topic != TELEOP_STATE_TOPIC {
      var timestamp := GetTimestamp(now);
      c := c.(msg := Overwrite(c.msg, timestamp));
    }
    f := Forward(true, c.topic, c.msg, now);
  }

  predicate Served(cmds: seq<Command>, i: nat, clock: nat -> nat, useCamera: bool, exclude: bool, l: Loop)
    requires i <= |cmds|
  {
    l == ServeAll(cmds[..i], clock, useCamera, exclude)
  }

  lemma ServedNext(cmds: seq<Command>, i: nat, clock: nat -> nat, useCamera: bool, exclude: bool, l: Loop)
    requires i < |cmds| && Served(cmds, i, clock, useCamera, exclude, l)
    ensures Served(cmds, i + 1, clock, useCamera, exclude, Serve(l, cmds[i], clock(i), useCamera, exclude))
  {
    ServePrefix(cmds, i, clock, useCamera, exclude);
  }

  lemma ServedEnd(cmds: seq<Command>, i: nat, clock: nat -> nat, useCamera: bool, exclude: bool, l: Loop)
    requires i <= |cmds| && Served(cmds, i, clock, useCamera, exclude, l) && (i == |cmds| || !l.outcome.Waiting?)
    ensures ServeAll(cmds, clock, useCamera, exclude) == l
  {
    if i == |cmds| { assert cmds[..i] == cmds; } else { StoppedAt(cmds, i, clock, useCamera, exclude); }
  }

  /** The loop itself: receives until EXIT, an exception, or nothing more arrives. */
  method Run(cmds: seq<Command>, clock: nat -> nat, useCamera: bool, exclude: bool)
    returns (forwarded: seq<Forward>, camera: bool, outcome: Outcome)
    ensures Loop(forwarded, camera, outcome) == ServeAll(cmds, clock, useCamera, exclude)
  {
    hide GetTimestamp;
    forwarded, camera, outcome := [], false, Waiting;
    var i := 0;
    while i < |cmds| && outcome == Waiting
      invariant i <= |cmds| && Served(cmds, i, clock, useCamera, exclude, Loop(forwarded, camera, outcome))
    {
      var c := cmds[i];
      ghost var l := Loop(forwarded, camera, outcome);
      if c.typ == PUBLISH_VDA {
        var f := ForwardVda(c, clock(i), exclude);
        forwarded := forwarded + [f];
      } else if c.typ == PUBLISH_TELEOP {
        var f := ForwardTeleop(c, clock(i), exclude);
        forwarded := forwarded + [f];
      } else if useCamera && c.typ == START_VIDEO {
        camera := true;
      } else if useCamera && c.typ == STOP_VIDEO {
        camera := false;
      } else if c.typ == EXIT {
        outcome := Exited;
      } else {
        outcome := Invalid;
      }
      assert Loop(forwarded, camera, outcome) == Serve(l, c, clock(i), useCamera, exclude);
      ServedNext(cmds, i, clock, useCamera, exclude, l);
      i := i + 1;
    }
    ServedEnd(cmds, i, clock, useCamera, exclude, Loop(forwarded, camera, outcome));
  }

  // ---------------------------------------------------------------- what the loop means

  predicate Accepted(c: Command, useCamera: bool) { Publishes(c) || (useCamera && Video(c)) }

  /** The publications among commands, in order, each stamped with its own clock reading. */
  function Publications(cmds: seq<Command>, clock: nat -> nat, exclude: bool): seq<Forward> {
    if cmds == [] then [] else
    Publications(cmds[..|cmds| - 1], clock, exclude)
    + (if Publishes(cmds[|cmds| - 1]) then [Forwarded(cmds[|cmds| - 1], clock(|cmds| - 1), exclude)] else [])
  }

  /** Whether the last video command, if any, was a start. */
  function VideoOn(cmds: seq<Command>): bool {
    if cmds == [] then false
    else if Video(cmds[|cmds| - 1]) then cmds[|cmds| - 1].typ.START_VIDEO?
    else VideoOn(cmds[..|cmds| - 1])
  }

  predicate AnyVideo(cmds: seq<Command>) {
    cmds != [] && (Video(cmds[|cmds| - 1]) || AnyVideo(cmds[..|cmds| - 1]))
  }

  /** Without a camera a stream without EXIT aborts the loop exactly when it contains a video command. */
  lemma {:induction false} VideoWithoutCamera(cmds: seq<Command>, clock: nat -> nat, exclude: bool)
    requires forall i :: 0 <= i < |cmds| ==> Accepted(cmds[i], true)
    ensures ServeAll(cmds, clock, false, exclude).outcome == if AnyVideo(cmds) then Invalid else Waiting
  {
    if cmds != [] { VideoWithoutCamera(cmds[..|cmds| - 1], clock, exclude); }
  }

  /** As long as every command is accepted the loop forwards every publication in order, and the camera is
      alive exactly when the last video command was a start. */
  lemma {:induction false} AcceptedAreServed(cmds: seq<Command>, clock: nat -> nat, useCamera: bool, exclude: bool)
    requires forall i :: 0 <= i < |cmds| ==> Accepted(cmds[i], useCamera)
    ensures ServeAll(cmds, clock, useCamera, exclude) == Loop(Publications(cmds, clock, exclude), VideoOn(cmds), Waiting)
  {
    if cmds != [] { AcceptedAreServed(cmds[..|cmds| - 1], clock, useCamera, exclude); }
  }

  /** The first command that is not accepted decides how the loop ends, and nothing after it is looked at. */
  lemma LoopEnds(cmds: seq<Command>, n: nat, clock: nat -> nat, useCamera: bool, exclude: bool)
    requires n < |cmds| && !Accepted(cmds[n], useCamera)
    requires forall i :: 0 <= i < n ==> Accepted(cmds[i], useCamera)
    ensures ServeAll(cmds, clock, useCamera, exclude)
         == Loop(Publications(cmds[..n], clock, exclude), VideoOn(cmds[..n]), if cmds[n].typ.EXIT? then Exited else Invalid)
  {
    var front := cmds[..n];
    AcceptedAreServed(front, clock, useCamera, exclude);
    var l := Loop(Publications(front, clock, exclude), VideoOn(front), Waiting);
    var m := l.(outcome := if cmds[n].typ.EXIT? then Exited else Invalid);
    Refuses(l, cmds[n], clock(n), useCamera, exclude);
    ServedNext(cmds, n, clock, useCamera, exclude, l);
    ServedEnd(cmds, n + 1, clock, useCamera, exclude, m);
  }

  lemma Refuses(l: Loop, c: Command, now: nat, useCamera: bool, exclude: bool)
    requires l.outcome.Waiting? && !Accepted(c, useCamera)
    ensures Serve(l, c, now, useCamera, exclude) == l.(outcome := if c.typ.EXIT? then Exited else Invalid)
  {}

  /** What a client is handed for this command: which client, and the message under the stamp of its own clock reading. */
  ghost predicate HandedOn(f: Forward, c: Command, now: nat, exclude: bool) {
    && f.topic == c.topic && f.at == now && (f.teleop <==> c.typ == PUBLISH_TELEOP)
    && (if exclude && c.typ == PUBLISH_TELEOP && c.topic == "uagv/v2/manufacturer/SN/teleop_state" then f.msg == c.msg
        else |f.msg| == Max(26, |c.msg|) && f.msg[..26] == GetTimestamp(now) && f.msg[26..] == c.msg[Min(26, |c.msg|)..])
  }

  lemma ForwardedIsHandedOn(c: Command, now: nat, exclude: bool)
    requires now < END_OF_9999
    ensures HandedOn(Forwarded(c, now, exclude), c, now, exclude)
  {
    hide GetTimestamp;
    if !Unstamped(c, exclude) { StampRecovered(c, now, exclude); }
  }

  lemma PublicationsStep(cmds: seq<Command>, clock: nat -> nat, exclude: bool)
    requires cmds != [] && clock(|cmds| - 1) < END_OF_9999
    ensures var fs, c := Publications(cmds, clock, exclude), cmds[|cmds| - 1];
            var before := Publications(cmds[..|cmds| - 1], clock, exclude);
            if c.typ == PUBLISH_VDA || c.typ == PUBLISH_TELEOP then
              |fs| == |before| + 1 && fs[..|before|] == before && HandedOn(fs[|before|], c, clock(|cmds| - 1), exclude)
            else fs == before
  {
    hide GetTimestamp, HandedOn, Forwarded;
    var c := cmds[|cmds| - 1];
    if Publishes(c) { ForwardedIsHandedOn(c, clock(|cmds| - 1), exclude); }
  }

  lemma {:induction false} PublicationsAre(cmds: seq<Command>, clock: nat -> nat, exclude: bool) returns (ks: seq<nat>)
    requires forall i :: 0 <= i < |cmds| ==> clock(i) < END_OF_9999
    ensures Increasing(ks) && forall i: nat :: i in ks <==> i < |cmds| && cmds[i].typ in {PUBLISH_VDA, PUBLISH_TELEOP}
    ensures |Publications(cmds, clock, exclude)| == |ks|
    ensures forall k :: 0 <= k < |ks| ==>
              ks[k] < |cmds| && HandedOn(Publications(cmds, clock, exclude)[k], cmds[ks[k]], clock(ks[k]), exclude)
  {
    hide GetTimestamp, HandedOn, Forwarded;
    if cmds == [] { return []; }
    var front, c := cmds[..|cmds| - 1], cmds[|cmds| - 1];
    ks := PublicationsAre(front, clock, exclude);
    PublicationsStep(cmds, clock, exclude);
    hide Publications;
    var fs := Publications(cmds, clock, exclude);
    forall k | 0 <= k < |ks| ensures cmds[ks[k]] == front[ks[k]] && HandedOn(fs[k], cmds[ks[k]], clock(ks[k]), exclude) {
      assert Publications(front, clock, exclude)[k] == fs[k];
    }
    if c.typ in {PUBLISH_VDA, PUBLISH_TELEOP} { ks := ks + [|cmds| - 1]; }
  }

  /** The last video command is a start. */
  ghost predicate StartIsLast(cmds: seq<Command>, n: nat)
    requires n <= |cmds|
  {
    exists i :: 0 <= i < n && cmds[i].typ == START_VIDEO && forall k :: i < k < n ==> cmds[k].typ != STOP_VIDEO
  }

  lemma {:induction false} VideoOnIs(cmds: seq<Command>)
    ensures VideoOn(cmds) <==> StartIsLast(cmds, |cmds|)
  {
    if cmds != [] {
      var front := cmds[..|cmds| - 1];
      VideoOnIs(front);
      if StartIsLast(front, |front|) && cmds[|cmds| - 1].typ != STOP_VIDEO {
        var i :| 0 <= i < |front| && front[i].typ == START_VIDEO && forall k :: i < k < |front| ==> front[k].typ != STOP_VIDEO;
        assert cmds[i].typ == START_VIDEO && forall k :: i < k < |front| ==> cmds[k] == front[k];
      }
      if StartIsLast(cmds, |cmds|) && cmds[|cmds| - 1].typ != START_VIDEO {
        var i :| 0 <= i < |cmds| && cmds[i].typ == START_VIDEO && forall k :: i < k < |cmds| ==> cmds[k].typ != STOP_VIDEO;
        assert front[i].typ == START_VIDEO && forall k :: i < k < |front| ==> front[k] == cmds[k];
      }
    }
  }

  /** The loop handles this command and goes on; without a camera it does not know the video commands. */
  predicate Handles(c: Command, useCamera: bool) {
    c.typ != EXIT && (c.typ in {START_VIDEO, STOP_VIDEO} ==> useCamera)
  }

  lemma HandlesAccepted(c: Command, useCamera: bool)
    ensures Handles(c, useCamera) <==> Accepted(c, useCamera)
  {}

  /** What any command sequence does, command by command: with `n` the first command the loop does not handle, the
      publications among the first `n` are handed on in order, each to the client of its type, and the camera, the
      outcome and the end of the loop are decided by the types of these commands alone. */
  lemma WhatTheLoopDoes(cmds: seq<Command>, n: nat, clock: nat -> nat, useCamera: bool, exclude: bool) returns (ks: seq<nat>)
    requires n <= |cmds| && forall i :: 0 <= i < n ==> Handles(cmds[i], useCamera) && clock(i) < END_OF_9999
    requires n < |cmds| ==> !Handles(cmds[n], useCamera)
    ensures Increasing(ks) && forall i: nat :: i in ks <==> i < n && cmds[i].typ in {PUBLISH_VDA, PUBLISH_TELEOP}
    ensures var l := ServeAll(cmds, clock, useCamera, exclude);
            && |l.forwarded| == |ks|
            && (forall k :: 0 <= k < |ks| ==> ks[k] < n && HandedOn(l.forwarded[k], cmds[ks[k]], clock(ks[k]), exclude))
            && (l.camera <==> StartIsLast(cmds, n))
            && l.outcome == (if n == |cmds| then Waiting else if cmds[n].typ == EXIT then Exited else Invalid)
  {
    hide GetTimestamp, HandedOn;
    var front := cmds[..n];
    ks := PublicationsAre(front, clock, exclude);
    VideoOnIs(front);
    assert StartIsLast(front, n) <==> StartIsLast(cmds, n) by { SameStart(cmds, n); }
    forall i | 0 <= i < n ensures Accepted(cmds[i], useCamera) { HandlesAccepted(cmds[i], useCamera); }
    assert forall k :: 0 <= k < |ks| ==> cmds[ks[k]] == front[ks[k]];
    if n < |cmds| {
      HandlesAccepted(cmds[n], useCamera);
      LoopEnds(cmds, n, clock, useCamera, exclude);
    } else {
      assert front == cmds;
      AcceptedAreServed(cmds, clock, useCamera, exclude);
    }
  }

  lemma SameStart(cmds: seq<Command>, n: nat)
    requires n <= |cmds|
    ensures StartIsLast(cmds[..n], n) <==> StartIsLast(cmds, n)
  {
    assert forall i :: 0 <= i < n ==> cmds[..n][i] == cmds[i];
    if StartIsLast(cmds, n) {
      var i :| 0 <= i < n && cmds[i].typ == START_VIDEO && forall k :: i < k < n ==> cmds[k].typ != STOP_VIDEO;
      assert cmds[..n][i].typ == START_VIDEO;
    }
    if StartIsLast(cmds[..n], n) {
      var i :| 0 <= i < n && cmds[..n][i].typ == START_VIDEO && forall k :: i < k < n ==> cmds[..n][k].typ != STOP_VIDEO;
      assert cmds[i].typ == START_VIDEO && forall k :: i < k < n ==> cmds[k] == cmds[..n][k];
    }
  }

  // ---------------------------------------------------------------- the recording client

  datatype Entry = Entry(send: string, receive: nat)

  datatype SendEntry = SendEntry(size: nat, at: nat)

  /** `payload.substr(0, 26)` */
  function StampOf(payload: string): string { payload[..Min(STAMP_LENGTH, |payload|)] }

  predicate Recorded(topic: string, exclude: bool) { !exclude || topic != TELEOP_STATE_TOPIC }

  /** Whether a publication leaves an entry at a client subscribed to `topics`. */
  predicate LeavesEntry(f: Forward, topics: set<string>, exclude: bool) {
    f.topic in topics && Recorded(f.topic, exclude)
  }

  class Client {
    const exclude: bool
    var receivedMsgs: seq<Entry>
    var sendEntries: seq<SendEntry>

    constructor (exclude: bool)
      ensures this.exclude == exclude && receivedMsgs == [] && sendEntries == []
    {
      this.exclude := exclude;
      receivedMsgs, sendEntries := [], [];
    }

    method MessageArrived(topic: string, payload: string, now: nat)
      modifies this`receivedMsgs
      ensures exclude && topic == "uagv/v2/manufacturer/SN/teleop_state" ==> receivedMsgs == old(receivedMsgs)
      ensures !exclude || topic != "uagv/v2/manufacturer/SN/teleop_state" ==>
                receivedMsgs == old(receivedMsgs) + [Entry(payload[..Min(26, |payload|)], now)]
    {
      if !exclude || topic != TELEOP_STATE_TOPIC {
        receivedMsgs := receivedMsgs + [Entry(StampOf(payload), now)];
      }
    }

    method PublishMessage(topic: string, payload: string, now: nat)
      modifies this`sendEntries
      ensures sendEntries == old(sendEntries) + [SendEntry(|topic| + |payload|, now)]
    {
      sendEntries := sendEntries + [SendEntry(|topic| + |payload|, now)];
    }

    /** Publishes what a loop forwarded, in order. */
    method PublishAll(fs: seq<Forward>)
      modifies this`sendEntries
      ensures sendEntries == old(sendEntries) + Sizes(fs)
    {
      var i := 0;
      while i < |fs|
        invariant i <= |fs| && sendEntries == old(sendEntries) + Sizes(fs[..i])
      {
        PublishMessage(fs[i].topic, fs[i].msg, fs[i].at);
        assert fs[..i + 1][..i] == fs[..i];
        i := i + 1;
      }
      assert fs[..i] == fs;
    }

    /** Receives the publications on subscribed topics, in order; `arrival(i)` is the clock reading at the i-th. */
    method ReceiveAll(fs: seq<Forward>, topics: set<string>, arrival: nat -> nat)
      modifies this`receivedMsgs
      ensures receivedMsgs == old(receivedMsgs) + Entries(fs, topics, arrival, exclude)
    {
      var i := 0;
      while i < |fs|
        invariant i <= |fs| && receivedMsgs == old(receivedMsgs) + Entries(fs[..i], topics, arrival, exclude)
      {
        if fs[i].topic in topics { MessageArrived(fs[i].topic, fs[i].msg, arrival(i)); }
        assert fs[..i + 1][..i] == fs[..i];
        i := i + 1;
      }
      assert fs[..i] == fs;
    }
  }

  function Sizes(fs: seq<Forward>): seq<SendEntry> {
    if fs == [] then [] else
    Sizes(fs[..|fs| - 1]) + [SendEntry(|fs[|fs| - 1].topic| + |fs[|fs| - 1].msg|, fs[|fs| - 1].at)]
  }

  function Entries(fs: seq<Forward>, topics: set<string>, arrival: nat -> nat, exclude: bool): seq<Entry> {
    if fs == [] then [] else
    var f := fs[|fs| - 1];
    Entries(fs[..|fs| - 1], topics, arrival, exclude)
    + (if LeavesEntry(f, topics, exclude) then [Entry(StampOf(f.msg), arrival(|fs| - 1))] else [])
  }

  /** Subscribed, and not left out by this build. */
  predicate Listens(topic: string, topics: set<string>, exclude: bool) {
    topic in topics && !(exclude && topic == "uagv/v2/manufacturer/SN/teleop_state")
  }

  lemma EntriesStep(fs: seq<Forward>, topics: set<string>, arrival: nat -> nat, exclude: bool)
    requires fs != []
    ensures var f := fs[|fs| - 1];
            Entries(fs, topics, arrival, exclude) == Entries(fs[..|fs| - 1], topics, arrival, exclude)
              + (if Listens(f.topic, topics, exclude) then [Entry(f.msg[..Min(26, |f.msg|)], arrival(|fs| - 1))] else [])
  {}

  /** Exactly which publications leave an entry, and which: those on subscribed topics, in the default build all of them. */
  lemma {:induction false} EntriesAre(fs: seq<Forward>, topics: set<string>, arrival: nat -> nat, exclude: bool) returns (ks: seq<nat>)
    ensures Increasing(ks) && forall i: nat :: i in ks <==> i < |fs| && Listens(fs[i].topic, topics, exclude)
    ensures |Entries(fs, topics, arrival, exclude)| == |ks|
    ensures forall k :: 0 <= k < |ks| ==>
              && ks[k] < |fs|
              && Entries(fs, topics, arrival, exclude)[k] == Entry(fs[ks[k]].msg[..Min(26, |fs[ks[k]].msg|)], arrival(ks[k]))
  {
    if fs == [] { return []; }
    var front := fs[..|fs| - 1];
    ks := EntriesAre(front, topics, arrival, exclude);
    EntriesStep(fs, topics, arrival, exclude);
    hide Entries, Listens, Min;
    var es := Entries(fs, topics, arrival, exclude);
    forall k | 0 <= k < |ks|
      ensures fs[ks[k]] == front[ks[k]] && es[k] == Entry(fs[ks[k]].msg[..Min(26, |fs[ks[k]].msg|)], arrival(ks[k]))
    {
      assert Entries(front, topics, arrival, exclude)[k] == es[k];
    }
    if Listens(fs[|fs| - 1].topic, topics, exclude) { ks := ks + [|fs| - 1]; }
  }

  // ---------------------------------------------------------------- stamp and recover

  /** What the receiver should have recorded: the sender's own timestamps. */
  function SenderStamps(fs: seq<Forward>, topics: set<string>, arrival: nat -> nat, exclude: bool): seq<Entry> {
    if fs == [] then [] else
    var f := fs[|fs| - 1];
    SenderStamps(fs[..|fs| - 1], topics, arrival, exclude)
    + (if LeavesEntry(f, topics, exclude) then [Entry(GetTimestamp(f.at), arrival(|fs| - 1))] else [])
  }

  lemma EntriesAppend(fs: seq<Forward>, f: Forward, topics: set<string>, arrival: nat -> nat, exclude: bool)
    requires Entries(fs, topics, arrival, exclude) == SenderStamps(fs, topics, arrival, exclude)
    requires LeavesEntry(f, topics, exclude) ==> StampOf(f.msg) == GetTimestamp(f.at)
    ensures Entries(fs + [f], topics, arrival, exclude) == SenderStamps(fs + [f], topics, arrival, exclude)
  {
    assert (fs + [f])[..|fs|] == fs;
  }

  /** A stamped message starts with its stamp, keeps the rest of its payload, and is never shorter than the stamp. */
  lemma StampRecovered(c: Command, now: nat, exclude: bool)
    requires now < END_OF_9999 && !Unstamped(c, exclude)
    ensures var f := Forwarded(c, now, exclude);
            && StampOf(f.msg) == GetTimestamp(now)
            && |f.msg| == Max(STAMP_LENGTH, |c.msg|)
            && f.msg[STAMP_LENGTH..] == c.msg[Min(STAMP_LENGTH, |c.msg|)..]
  {
    StampParses(now);
  }

  /** For every command sequence, in both builds: everything the receiver records is exactly the sender's timestamp. */
  lemma {:induction false} StampsRecovered(cmds: seq<Command>, clock: nat -> nat, topics: set<string>,
                                           arrival: nat -> nat, exclude: bool)
    requires forall i :: 0 <= i < |cmds| ==> clock(i) < END_OF_9999
    ensures var fs := Publications(cmds, clock, exclude);
            Entries(fs, topics, arrival, exclude) == SenderStamps(fs, topics, arrival, exclude)
  {
    if cmds != [] {
      var front, c, now := cmds[..|cmds| - 1], cmds[|cmds| - 1], clock(|cmds| - 1);
      StampsRecovered(front, clock, topics, arrival, exclude);
      if Publishes(c) {
        if !Unstamped(c, exclude) { StampRecovered(c, now, exclude); }
        EntriesAppend(Publications(front, clock, exclude), Forwarded(c, now, exclude), topics, arrival, exclude);
      } else {
        assert Publications(cmds, clock, exclude) == Publications(front, clock, exclude);
      }
    }
  }

  /** What a subscriber should hold for these commands: for each publication on its topics, unless this build leaves it
      out, the sender's stamp at that iteration and the arrival of that publication. */
  function ExpectedEntries(cmds: seq<Command>, clock: nat -> nat, topics: set<string>, arrival: nat -> nat, exclude: bool): seq<Entry> {
    if cmds == [] then [] else
    var front, c := cmds[..|cmds| - 1], cmds[|cmds| - 1];
    ExpectedEntries(front, clock, topics, arrival, exclude)
    + (if Publishes(c) && c.topic in topics && Recorded(c.topic, exclude)
       then [Entry(GetTimestamp(clock(|cmds| - 1)), arrival(|Publications(front, clock, exclude)|))] else [])
  }

  lemma SenderStampsAppend(fs: seq<Forward>, f: Forward, topics: set<string>, arrival: nat -> nat, exclude: bool)
    ensures SenderStamps(fs + [f], topics, arrival, exclude)
         == SenderStamps(fs, topics, arrival, exclude)
            + (if LeavesEntry(f, topics, exclude) then [Entry(GetTimestamp(f.at), arrival(|fs|))] else [])
  {
    hide GetTimestamp;
    assert (fs + [f])[..|fs|] == fs;
  }

  lemma {:induction false} StampsExpected(cmds: seq<Command>, clock: nat -> nat, topics: set<string>,
                                          arrival: nat -> nat, exclude: bool)
    ensures SenderStamps(Publications(cmds, clock, exclude), topics, arrival, exclude)
         == ExpectedEntries(cmds, clock, topics, arrival, exclude)
  {
    hide GetTimestamp;
    if cmds != [] {
      var front, c, now := cmds[..|cmds| - 1], cmds[|cmds| - 1], clock(|cmds| - 1);
      var fs := Publications(front, clock, exclude);
      StampsExpected(front, clock, topics, arrival, exclude);
      if Publishes(c) {
        SenderStampsAppend(fs, Forwarded(c, now, exclude), topics, arrival, exclude);
      } else {
        assert Publications(cmds, clock, exclude) == fs;
      }
    }
  }

  /** The size a client logs for one forwarded command: a stamp is at least 26 characters long. */
  function LoggedSize(c: Command, exclude: bool): nat {
    |c.topic| + (if Unstamped(c, exclude) then |c.msg| else Max(STAMP_LENGTH, |c.msg|))
  }

  /** One entry for each publication, in order, at the clock reading of its own iteration; video commands leave none. */
  function ExpectedSizes(cmds: seq<Command>, clock: nat -> nat, exclude: bool): seq<SendEntry> {
    if cmds == [] then [] else
    ExpectedSizes(cmds[..|cmds| - 1], clock, exclude)
    + (if Publishes(cmds[|cmds| - 1]) then [SendEntry(LoggedSize(cmds[|cmds| - 1], exclude), clock(|cmds| - 1))] else [])
  }

  lemma SizesAppend(fs: seq<Forward>, f: Forward)
    ensures Sizes(fs + [f]) == Sizes(fs) + [SendEntry(|f.topic| + |f.msg|, f.at)]
  {
    assert (fs + [f])[..|fs|] == fs;
  }

  lemma ForwardedSize(c: Command, now: nat, exclude: bool)
    requires now < END_OF_9999
    ensures |Forwarded(c, now, exclude).topic| + |Forwarded(c, now, exclude).msg| == LoggedSize(c, exclude)
  {
    if !Unstamped(c, exclude) { StampRecovered(c, now, exclude); }
  }

  /** For every command sequence, in both builds: each stamped publication is logged with the size of its topic
      plus at least 26, an unstamped one with its own size. */
  lemma {:induction false} SizesLogged(cmds: seq<Command>, clock: nat -> nat, exclude: bool)
    requires forall i :: 0 <= i < |cmds| ==> clock(i) < END_OF_9999
    ensures Sizes(Publications(cmds, clock, exclude)) == ExpectedSizes(cmds, clock, exclude)
  {
    hide GetTimestamp;
    if cmds != [] {
      var front, c, now := cmds[..|cmds| - 1], cmds[|cmds| - 1], clock(|cmds| - 1);
      SizesLogged(front, clock, exclude);
      var fs := Publications(front, clock, exclude);
      if Publishes(c) {
        ForwardedSize(c, now, exclude);
        SizesAppend(fs, Forwarded(c, now, exclude));
      } else {
        assert Publications(cmds, clock, exclude) == fs;
      }
    }
  }
}
