/** The history of an order, read off the log of sent commands. */
module OrderLog {
  import opened EventQueue
  import opened Commands
  import opened AgvModel
  import opened AgvInvariants
  import opened SentLog
  import opened AgvRuns

  function OrderMessages(log: seq<Sent>): nat { |TimesOf(log, Order)| }

  /** A state message that lists something: the AGV traverses one item right after sending it. */
  predicate Traversing(x: Sent) { x.topic.State? && x.payload != StateMessage([], []) }

  function Traversals(log: seq<Sent>): nat {
    if log == [] then 0 else Traversals(log[..|log| - 1]) + (if Traversing(log[|log| - 1]) then 1 else 0)
  }

  lemma CountsAppend(log: seq<Sent>, x: Sent)
    ensures OrderMessages(log + [x]) == OrderMessages(log) + (if x.topic.Order? then 1 else 0)
    ensures Traversals(log + [x]) == Traversals(log) + (if Traversing(x) then 1 else 0)
  {
    LogAppend(log, x, Order);
    assert (log + [x])[..|log|] == log;
  }

  lemma SuffixAppend(log: seq<Sent>, k: nat, x: Sent)
    requires k <= |log|
    ensures (log + [x])[k..] == log[k..] + [x]
  {}

  /** The history counters of the latest order are the numbers of its messages in the log. */
  predicate Counts(sent: seq<Sent>, opening: nat, d: Deques, c: Chain) {
    && (c.blocks == [] ==> d.plannedNodes == [])
    && (c.blocks != [] ==>
          && opening < |sent| && sent[opening].topic.Order? && sent[opening].time == c.startedAt
          && OrderMessages(sent[opening..]) == |c.blocks|
          && Traversals(sent[opening..]) == c.steps)
  }

  lemma CountsOpened(sent: seq<Sent>, x: Sent, d: Deques, c: Chain)
    requires x.topic.Order? && x.time == c.startedAt && |c.blocks| == 1 && c.steps == 0
    ensures Counts(sent + [x], |sent|, d, c)
  {
    SuffixAppend(sent, |sent|, x);
    assert sent[|sent|..] == [];
    CountsAppend([], x);
  }

  /** One more entry, and the counters move with it. */
  lemma CountsMoved(sent: seq<Sent>, opening: nat, d: Deques, c: Chain, x: Sent, d': Deques, c': Chain)
    requires Counts(sent, opening, d, c)
    requires c.blocks == [] ==> c'.blocks == [] && d'.plannedNodes == []
    requires c.blocks != [] ==> c'.startedAt == c.startedAt && |c'.blocks| == |c.blocks| + (if x.topic.Order? then 1 else 0)
    requires c'.steps == c.steps + (if Traversing(x) then 1 else 0)
    ensures Counts(sent + [x], opening, d', c')
  {
    if c.blocks != [] {
      SuffixAppend(sent, opening, x);
      CountsAppend(sent[opening..], x);
    }
  }

  lemma OrderLogged(cfg: Config, s: AgvState, m: Move, t: AgvState)
    requires Paired(s.d) && Step(cfg, s, m, t) && KindOf(s, m).SendOrder?
    ensures t.sent == s.sent + [Sent(t.q.now, Base, PUBLISH_VDA, Topic.Order, OrderMessage(t.d.nodes, t.d.edges))]
    ensures s.d.NothingPlanned() == (s.d.plannedNodes == [])
    ensures t.opening == if s.d.NothingPlanned() then |s.sent| else s.opening
    ensures t.chain.blocks != []
    ensures s.d.NothingPlanned() ==> |t.chain.blocks| == 1 && t.chain.steps == 0 && t.chain.startedAt == t.q.now
    ensures !s.d.NothingPlanned() ==>
              |t.chain.blocks| == |s.chain.blocks| + 1 && t.chain.steps == s.chain.steps && t.chain.startedAt == s.chain.startedAt
  {}

  lemma CountsAfterOrder(cfg: Config, s: AgvState, m: Move, t: AgvState)
    requires Paired(s.d) && Step(cfg, s, m, t) && KindOf(s, m).SendOrder? && Counts(s.sent, s.opening, s.d, s.chain)
    ensures Counts(t.sent, t.opening, t.d, t.chain)
  {
    OrderLogged(cfg, s, m, t);
    var x := t.sent[|s.sent|];
    if s.d.NothingPlanned() {
      CountsOpened(s.sent, x, t.d, t.chain);
    } else {
      CountsMoved(s.sent, s.opening, s.d, s.chain, x, t.d, t.chain);
    }
  }

  lemma StateLogged(cfg: Config, s: AgvState, m: Move, t: AgvState)
    requires Paired(s.d) && Step(cfg, s, m, t) && KindOf(s, m).SendState?
    ensures t.sent == s.sent + [Sent(t.q.now, Ue, PUBLISH_VDA, Topic.State, StateMessage(s.d.nodes, s.d.edges))]
    ensures t.opening == s.opening && t.d.plannedNodes == s.d.plannedNodes
    ensures t.chain.blocks == s.chain.blocks && t.chain.startedAt == s.chain.startedAt
    ensures t.chain.steps == s.chain.steps + (if s.d.NothingReleased() then 0 else 1)
  {}

  lemma CountsAfterState(cfg: Config, s: AgvState, m: Move, t: AgvState)
    requires Paired(s.d) && Step(cfg, s, m, t) && KindOf(s, m).SendState? && Counts(s.sent, s.opening, s.d, s.chain)
    ensures Counts(t.sent, t.opening, t.d, t.chain)
  {
    StateLogged(cfg, s, m, t);
    CountsMoved(s.sent, s.opening, s.d, s.chain, t.sent[|s.sent|], t.d, t.chain);
  }

  lemma RestUncounted(cfg: Config, s: AgvState, m: Move, t: AgvState)
    requires Step(cfg, s, m, t) && !KindOf(s, m).SendOrder? && !KindOf(s, m).SendState?
    ensures t.opening == s.opening && (t.d.plannedNodes == [] || t.d == s.d)
    ensures t.chain == s.chain || (t.chain == NO_CHAIN && t.d.plannedNodes == [])
  {
    hide QueueAfterOrder, QueueAfterState, QueueAfterStart, QueueAfterStop, Schedule, WellFormed, Live, Extends;
  }

  lemma CountsAfterRest(cfg: Config, s: AgvState, m: Move, t: AgvState)
    requires Step(cfg, s, m, t) && !KindOf(s, m).SendOrder? && !KindOf(s, m).SendState?
    requires Counts(s.sent, s.opening, s.d, s.chain)
    ensures Counts(t.sent, t.opening, t.d, t.chain)
  {
    RestUncounted(cfg, s, m, t);
    LogOfRest(cfg, s, m, t);
    if t.chain == s.chain {
      CountsMoved(s.sent, s.opening, s.d, s.chain, t.sent[|s.sent|], t.d, s.chain);
      var log := s.sent + [t.sent[|s.sent|]];
      if t.sent != log { CountsMoved(log, s.opening, t.d, s.chain, t.sent[|s.sent| + 1], t.d, s.chain); }
    }
  }

  lemma LogOfRest(cfg: Config, s: AgvState, m: Move, t: AgvState)
    requires Step(cfg, s, m, t) && !KindOf(s, m).SendOrder? && !KindOf(s, m).SendState?
    ensures |s.sent| < |t.sent| && !t.sent[|s.sent|].topic.Order? && !t.sent[|s.sent|].topic.State?
    ensures || t.sent == s.sent + [t.sent[|s.sent|]]
            || (&& |t.sent| == |s.sent| + 2 && t.sent == s.sent + [t.sent[|s.sent|]] + [t.sent[|s.sent| + 1]]
                && t.sent[|s.sent| + 1].topic.NoTopic?)
  {
    var s1 := s.(q := Take(s.q, m.u));
    if KindOf(s, m).SendTeleoperationState? {
      SendsPair(cfg, s1);
    } else {
      SendsOne(cfg, s1, KindOf(s, m), m.draw);
      assert t.sent == t.sent[..|s.sent|] + [t.sent[|s.sent|]];
    }
  }

  lemma CountsKept(cfg: Config, s: AgvState, m: Move, t: AgvState)
    requires Paired(s.d) && Step(cfg, s, m, t) && Counts(s.sent, s.opening, s.d, s.chain)
    ensures Counts(t.sent, t.opening, t.d, t.chain)
  {
    if KindOf(s, m).SendOrder? { CountsAfterOrder(cfg, s, m, t); }
    else if KindOf(s, m).SendState? { CountsAfterState(cfg, s, m, t); }
    else { CountsAfterRest(cfg, s, m, t); }
  }

  lemma BlankCounts(q: Queue)
    ensures Counts(Blank(q).sent, Blank(q).opening, Blank(q).d, Blank(q).chain)
  {}

  lemma {:induction false} CountsHold(cfg: Config, r: Run, i: nat)
    requires cfg.Valid() && r.Of(cfg) && i < |r.states|
    ensures Counts(r.states[i].sent, r.states[i].opening, r.states[i].d, r.states[i].chain)
  {
    if i == 0 {
      assert r.Reached(cfg, 0);
      BlankCounts(r.states[0].q);
    } else {
      CountsHold(cfg, r, i - 1);
      StepAt(cfg, r, i - 1);
      PairedHolds(cfg, r, i - 1);
      CountsKept(cfg, r.states[i - 1], r.moves[i - 1], r.states[i]);
    }
  }
}
