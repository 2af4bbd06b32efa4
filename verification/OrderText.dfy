/** How the handlers build the JSON text of a list: every item followed by a comma, then the last character dropped. */
module OrderText {
  import opened Basics
  import opened EventQueue
  import opened Commands
  import opened AgvModel
  import opened AgvInvariants
  import opened SentLog
  import opened AgvRuns

  /** Items separated by commas. */
  function Join(items: seq<string>): string {
    if items == [] then "" else if |items| == 1 then items[0] else items[0] + "," + Join(items[1..])
  }

  /** Each item followed by a comma. */
  function Terminated(items: seq<string>): string {
    if items == [] then "" else items[0] + "," + Terminated(items[1..])
  }

  lemma {:induction false} TerminatedIsJoin(items: seq<string>)
    requires items != []
    ensures Terminated(items) == Join(items) + ","
  {
    if |items| > 1 {
      TerminatedIsJoin(items[1..]);
    } else {
      assert items[1..] == [];
    }
  }

  lemma {:induction false} TerminatedAppend(items: seq<string>, item: string)
    ensures Terminated(items + [item]) == Terminated(items) + item + ","
  {
    if items == [] {
      assert [item][1..] == [];
    } else {
      TerminatedAppend(items[1..], item);
      assert (items + [item])[1..] == items[1..] + [item];
    }
  }

  /** Joining grows by a comma and the item, and by nothing else. */
  lemma {:induction false} JoinAppend(items: seq<string>, item: string)
    ensures Join(items + [item]) == if items == [] then item else Join(items) + "," + item
  {
    if items != [] {
      JoinAppend(items[1..], item);
      assert (items + [item])[1..] == items[1..] + [item];
    }
  }

  /** A prefix and the terminated items, less the trailing character. */
  function ListText(prefix: string, items: seq<string>): string
    requires prefix != ""
  {
    var json := prefix + Terminated(items);
    json[..|json| - 1]
  }

  /** The loop of `sendOrder` and `sendState` over one list: append and drop the trailing character. */
  method AppendList(prefix: string, items: seq<string>) returns (json: string)
    requires prefix != ""
    ensures json == ListText(prefix, items)
  {
    json := prefix;
    var i := 0;
    while i < |items|
      invariant i <= |items| && json == prefix + Terminated(items[..i])
    {
      TerminatedAppend(items[..i], items[i]);
      assert items[..i] + [items[i]] == items[..i + 1];
      json := json + (items[i] + ",");
      i := i + 1;
    }
    assert items[..i] == items;
    json := json[..|json| - 1];
  }

  /** The trick yields the comma-joined list if and only if the list is not empty;
      an empty list loses the opening bracket at the end of the prefix instead. */
  lemma JoinsExactlyWhenNonEmpty(prefix: string, items: seq<string>)
    requires prefix != ""
    ensures ListText(prefix, items) == prefix + Join(items) <==> items != []
    ensures items == [] ==> ListText(prefix, items) == prefix[..|prefix| - 1]
  {
    if items != [] {
      TerminatedIsJoin(items);
    } else {
      assert prefix + "" == prefix;
    }
  }

  // ---------------------------------------------------------------- messages with two lists

  /** The text of an order or state message as the handlers build it: a node list, then an edge list. */
  function MessageText(head: string, nodes: seq<string>, middle: string, edges: seq<string>, tail: string): string
    requires head != "" && middle != ""
  {
    ListText(ListText(head, nodes) + middle, edges) + tail
  }

  /** The text it stands for. */
  function JoinedText(head: string, nodes: seq<string>, middle: string, edges: seq<string>, tail: string): string {
    head + Join(nodes) + middle + Join(edges) + tail
  }

  lemma ListLength(prefix: string, items: seq<string>)
    requires prefix != ""
    ensures |ListText(prefix, items)| == |prefix| + |Join(items)| - (if items == [] then 1 else 0)
  {
    JoinsExactlyWhenNonEmpty(prefix, items);
  }

  /** The text is right if and only if neither list is empty; each empty list costs one character. */
  lemma TextIsJoined(head: string, nodes: seq<string>, middle: string, edges: seq<string>, tail: string)
    requires head != "" && middle != ""
    ensures MessageText(head, nodes, middle, edges, tail) == JoinedText(head, nodes, middle, edges, tail)
       <==> nodes != [] && edges != []
  {
    var front := ListText(head, nodes) + middle;
    ListLength(head, nodes);
    ListLength(front, edges);
    if nodes != [] && edges != [] {
      JoinsExactlyWhenNonEmpty(head, nodes);
      JoinsExactlyWhenNonEmpty(front, edges);
    } else {
      assert |MessageText(head, nodes, middle, edges, tail)| < |JoinedText(head, nodes, middle, edges, tail)|;
    }
  }

  /** The text of each item, in order. */
  function Texts<T>(items: seq<T>, text: T -> string): (r: seq<string>)
    ensures |r| == |items| && forall i :: 0 <= i < |r| ==> r[i] == text(items[i])
  {
    seq(|items|, i requires 0 <= i < |items| => text(items[i]))
  }

  /** The constant parts of a message and the text of one node and of one edge. */
  datatype Layout = Layout(head: string, middle: string, tail: string, node: NodeState -> string, edge: EdgeState -> string)

  /** The two lists of this message come out joined by commas, with nothing lost. */
  predicate WellJoined(x: Layout, nodes: seq<NodeState>, edges: seq<EdgeState>)
    requires x.head != "" && x.middle != ""
  {
    MessageText(x.head, Texts(nodes, x.node), x.middle, Texts(edges, x.edge), x.tail)
    == JoinedText(x.head, Texts(nodes, x.node), x.middle, Texts(edges, x.edge), x.tail)
  }

  lemma JoinedWhenNonEmpty(x: Layout, nodes: seq<NodeState>, edges: seq<EdgeState>)
    requires x.head != "" && x.middle != ""
    ensures WellJoined(x, nodes, edges) <==> nodes != [] && edges != []
  {
    TextIsJoined(x.head, Texts(nodes, x.node), x.middle, Texts(edges, x.edge), x.tail);
  }

  // ---------------------------------------------------------------- order messages

  predicate OrdersCarrySomething(sent: seq<Sent>) {
    forall i :: 0 <= i < |sent| && sent[i].topic.Order? ==>
      sent[i].payload.OrderMessage? && sent[i].payload.nodes != [] && sent[i].payload.edges != []
  }

  lemma OrderCarriesAppend(sent: seq<Sent>, x: Sent)
    requires OrdersCarrySomething(sent) && OrdersCarrySomething([x])
    ensures OrdersCarrySomething(sent + [x])
  {
    assert x.topic.Order? ==> [x][0].payload.OrderMessage?;
  }

  lemma OrderMessageSent(cfg: Config, s: AgvState, m: Move, t: AgvState)
    requires Step(cfg, s, m, t) && KindOf(s, m).SendOrder?
    ensures t.sent == s.sent + [Sent(t.q.now, Base, PUBLISH_VDA, Topic.Order, OrderMessage(t.d.nodes, t.d.edges))]
    ensures t.d.nodes != [] && t.d.edges != []
  {}

  lemma OrderCarriesKept(cfg: Config, s: AgvState, m: Move, t: AgvState)
    requires Step(cfg, s, m, t) && OrdersCarrySomething(s.sent)
    ensures OrdersCarrySomething(t.sent)
  {
    var s1 := s.(q := Take(s.q, m.u));
    if KindOf(s, m).SendOrder? {
      OrderMessageSent(cfg, s, m, t);
      OrderCarriesAppend(s.sent, t.sent[|s.sent|]);
    } else if KindOf(s, m).SendTeleoperationState? {
      SendsPair(cfg, s1);
    } else {
      SendsOne(cfg, s1, KindOf(s, m), m.draw);
      OrderCarriesAppend(s.sent, t.sent[|s.sent|]);
      assert t.sent == s.sent + [t.sent[|s.sent|]];
    }
  }

  lemma {:induction false} OrdersCarry(cfg: Config, r: Run, i: nat)
    requires cfg.Valid() && r.Of(cfg) && i < |r.states|
    ensures OrdersCarrySomething(r.states[i].sent)
  {
    if i == 0 {
      StartsBlank(cfg, r);
    } else {
      OrdersCarry(cfg, r, i - 1);
      StepAt(cfg, r, i - 1);
      OrderCarriesKept(cfg, r.states[i - 1], r.moves[i - 1], r.states[i]);
    }
  }

  /** In every run of either scenario every order message is joined properly, whatever its items look like. */
  lemma OrderMessagesWellFormed(cfg: Config, r: Run, i: nat, k: nat, x: Layout)
    requires cfg.Valid() && r.Of(cfg) && i < |r.states| && k < |r.states[i].sent| && r.states[i].sent[k].topic.Order?
    requires x.head != "" && x.middle != ""
    ensures var message := r.states[i].sent[k].payload;
            message.OrderMessage? && WellJoined(x, message.nodes, message.edges)
  {
    OrdersCarry(cfg, r, i);
    var message := r.states[i].sent[k].payload;
    JoinedWhenNonEmpty(x, message.nodes, message.edges);
  }

  // ---------------------------------------------------------------- state messages

  /** The state message of a step carries the released deques as the step found them. */
  lemma StateMessageSent(cfg: Config, s: AgvState, m: Move, t: AgvState)
    requires Step(cfg, s, m, t) && KindOf(s, m).SendState?
    ensures LastOf(t.sent, State) == Some(StateMessage(s.d.nodes, s.d.edges))
  {
    LogAppend(s.sent, Sent(s.q.pending[m.u].time, Ue, PUBLISH_VDA, Topic.State, StateMessage(s.d.nodes, s.d.edges)), State);
  }

  /** In every run of either scenario a state message is joined properly if and only if edges are left. */
  lemma StateMessagesWellFormed(cfg: Config, r: Run, i: nat, x: Layout)
    requires cfg.Valid() && r.Of(cfg) && i < |r.moves| && |r.states| == |r.moves| + 1
    requires IsNext(r.states[i].q, r.moves[i].u) && KindOf(r.states[i], r.moves[i]).SendState?
    requires x.head != "" && x.middle != ""
    ensures var s, message := r.states[i], LastOf(r.states[i + 1].sent, State);
            && message == Some(StateMessage(s.d.nodes, s.d.edges))
            && (WellJoined(x, message.value.nodes, message.value.edges) <==> s.d.edges != [])
  {
    PairedHolds(cfg, r, i);
    StepAt(cfg, r, i);
    StateMessageSent(cfg, r.states[i], r.moves[i], r.states[i + 1]);
    JoinedWhenNonEmpty(x, r.states[i].d.nodes, r.states[i].d.edges);
  }

  /** The last state message of an order lists one node and no edge, so it is never joined properly,
      although the AGV is not idle. */
  lemma LastStateOfOrder(cfg: Config, r: Run, i: nat, x: Layout)
    requires cfg.Valid() && r.Of(cfg) && i < |r.moves| && |r.states| == |r.moves| + 1
    requires IsNext(r.states[i].q, r.moves[i].u) && KindOf(r.states[i], r.moves[i]).SendState?
    requires x.head != "" && x.middle != ""
    requires !r.states[i].d.NothingReleased() && r.states[i + 1].d.AllEmpty()
    ensures var message := LastOf(r.states[i + 1].sent, State);
            && message.Some? && message.value.StateMessage? && |message.value.nodes| == 1 && message.value.edges == []
            && !WellJoined(x, message.value.nodes, message.value.edges)
  {
    PairedHolds(cfg, r, i);
    StepAt(cfg, r, i);
    LastTraversal(cfg, r.states[i], r.moves[i], r.states[i + 1]);
    StateMessagesWellFormed(cfg, r, i, x);
  }

  lemma LastTraversal(cfg: Config, s: AgvState, m: Move, t: AgvState)
    requires Paired(s.d) && Step(cfg, s, m, t) && KindOf(s, m).SendState?
    requires !s.d.NothingReleased() && t.d.AllEmpty()
    ensures |s.d.nodes| == 1 && s.d.edges == []
  {
    TraversedByState(cfg, s, m, t);
    LastItem(s.d);
  }

  lemma TraversedByState(cfg: Config, s: AgvState, m: Move, t: AgvState)
    requires Paired(s.d) && Step(cfg, s, m, t) && KindOf(s, m).SendState? && !s.d.NothingReleased()
    ensures t.d == Traversed(s.d)
  {}

  lemma LastItem(d: Deques)
    requires Paired(d) && !d.NothingReleased() && Traversed(d).AllEmpty()
    ensures |d.nodes| == 1 && d.edges == []
  {}
}
