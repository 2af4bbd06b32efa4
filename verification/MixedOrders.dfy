/** When a new order is generated while the previous one is still under way: `sendOrder` only looks at what is planned,
    so two overlapping order chains can put the nodes of two orders into one message. */
module MixedOrders {
  import opened EventQueue
  import opened AgvModel
  import opened AgvInvariants
  import opened AgvRuns
  import opened AgvPromises

  /** Step `n` of the run generates a new order. */
  predicate Generates(r: Run, n: nat) {
    && n < |r.moves| < |r.states| && IsNext(r.states[n].q, r.moves[n].u)
    && KindOf(r.states[n], r.moves[n]).SendOrder? && r.states[n].d.NothingPlanned()
  }

  /** It does so although released nodes or edges of an earlier order are left. */
  predicate Mixes(r: Run, n: nat) { Generates(r, n) && !r.states[n].d.AllEmpty() }

  /** It does so and is the only pending `sendOrder`. */
  predicate Alone(r: Run, n: nat) { Generates(r, n) && |Orders(r.states[n])| == 1 }

  ghost predicate AloneBetween(r: Run, j: nat, n: nat) { exists k: nat :: j < k < n && Alone(r, k) }

  lemma NothingDue(d: Deques)
    requires Paired(d)
    ensures Due(d) == 0 <==> d.NothingPlanned() && !d.AllEmpty()
    ensures d.NothingPlanned() <==> d.plannedNodes == []
  {}

  lemma GeneratesDue(cfg: Config, r: Run, n: nat)
    requires cfg.Valid() && r.Of(cfg) && Generates(r, n)
    ensures |Orders(r.states[n])| >= 1 && Due(r.states[n].d) == (if r.states[n].d.AllEmpty() then 1 else 0)
  {
    PairedHolds(cfg, r, n);
    NothingDue(r.states[n].d);
    assert r.moves[n].u in Orders(r.states[n]);
  }

  /** Before teleoperation and during it, a new order is generated only when all four deques are empty. */
  lemma FreshFindsEmpty(cfg: Config, r: Run, n: nat)
    requires cfg.Valid() && r.Of(cfg) && Generates(r, n) && !r.states[n].phase.AfterStop?
    ensures r.states[n].d.AllEmpty()
  {
    GeneratesDue(cfg, r, n);
    PendingOrders(cfg, r, n);
  }

  lemma IntrudesMixes(cfg: Config, r: Run, n: nat)
    requires cfg.Valid() && r.Of(cfg) && n < |r.moves| < |r.states| && IsNext(r.states[n].q, r.moves[n].u)
    ensures Intrudes(KindOf(r.states[n], r.moves[n]), r.states[n].d) <==> Mixes(r, n)
  {
    PairedHolds(cfg, r, n);
    NothingDue(r.states[n].d);
  }

  /** With two chains, the only pending `sendOrder` that generates an order is one that mixes. */
  lemma AloneMixes(cfg: Config, r: Run, n: nat)
    requires cfg.Valid() && r.Of(cfg) && n < |r.moves| && n < |r.states| && Excess(r.states[n]) == 1
    ensures Alone(r, n) <==> Mixes(r, n)
  {
    if Generates(r, n) { GeneratesDue(cfg, r, n); }
  }

  lemma AloneLater(r: Run, j: nat, n: nat)
    requires j < n
    ensures AloneBetween(r, j, n + 1) <==> AloneBetween(r, j, n) || Alone(r, n)
  {
    if Alone(r, n) { assert j < n < n + 1; }
  }

  lemma AloneNever(r: Run, j: nat)
    ensures !AloneBetween(r, j, j + 1)
  {}

  lemma ExcessAfter(cfg: Config, r: Run, n: nat)
    requires cfg.Valid() && r.Of(cfg) && n < |r.moves| && |r.states| == |r.moves| + 1 && r.states[n].phase.AfterStop?
    ensures r.states[n + 1].phase.AfterStop? && Excess(r.states[n]) in {0, 1}
    ensures Excess(r.states[n + 1]) == if Excess(r.states[n]) == 1 && !Alone(r, n) then 1 else 0
  {
    StepAt(cfg, r, n);
    ChainsMerge(cfg, r, n);
    IntrudesMixes(cfg, r, n);
    if Excess(r.states[n]) == 1 { AloneMixes(cfg, r, n); }
  }

  /** After stop there are two order chains as long as something was planned at start and no `sendOrder` has
      generated an order on its own since. */
  lemma {:induction false} ChainsAfterStop(cfg: Config, r: Run, i: nat, j: nat, n: nat)
    requires cfg.Valid() && r.Of(cfg) && StartsAt(cfg, r, i) && i < j && StopsAt(cfg, r, j) && j < n < |r.states|
    ensures r.states[n].phase.AfterStop?
    ensures Excess(r.states[n]) == if r.states[i].d.plannedNodes != [] && !AloneBetween(r, j, n) then 1 else 0
    decreases n
  {
    hide Alone, AloneBetween, Excess, Orders, Due, RunHandler;
    Lengths(cfg, r);
    StopIsFinal(cfg, r, j, n);
    if n == j + 1 {
      AloneNever(r, j);
      ExcessAtStop(cfg, r, i, j);
    } else {
      ChainsAfterStop(cfg, r, i, j, n - 1);
      AloneLater(r, j, n - 1);
      ExcessAfter(cfg, r, n - 1);
    }
  }

  lemma ExcessAtStop(cfg: Config, r: Run, i: nat, j: nat)
    requires cfg.Valid() && r.Of(cfg) && StartsAt(cfg, r, i) && i < j && StopsAt(cfg, r, j) && j + 1 < |r.states|
    ensures Excess(r.states[j + 1]) == if r.states[i].d.plannedNodes != [] then 1 else 0
  {
    StopLeavesOneChain(cfg, r, i, j);
  }

  /** Exactly when a new order is mixed with the one under way: something was planned when teleoperation started, no
      other `sendOrder` is pending, and this is the first time since stop that an order is generated that way. */
  lemma MixesExactly(cfg: Config, r: Run, i: nat, j: nat, n: nat)
    requires cfg.Valid() && r.Of(cfg) && StartsAt(cfg, r, i) && i < j && StopsAt(cfg, r, j) && j < n && Generates(r, n)
    ensures !r.states[n].d.AllEmpty()
       <==> r.states[i].d.plannedNodes != [] && |Orders(r.states[n])| == 1 && !AloneBetween(r, j, n)
  {
    hide AloneBetween;
    Lengths(cfg, r);
    ChainsAfterStop(cfg, r, i, j, n);
    GeneratesDue(cfg, r, n);
  }

  /** The phase changes only at start and at stop. */
  lemma PhaseChanges(cfg: Config, r: Run, k: nat)
    requires cfg.Valid() && r.Of(cfg) && k < |r.moves| && |r.states| == |r.moves| + 1
    ensures r.states[k].phase.BeforeStart? && !r.states[k + 1].phase.BeforeStart? ==> StartsAt(cfg, r, k)
    ensures !r.states[k].phase.AfterStop? && r.states[k + 1].phase.AfterStop? ==> StopsAt(cfg, r, k) && r.states[k].phase.Teleop?
  {
    StepAt(cfg, r, k);
    PhaseAfter(cfg, r.states[k], r.moves[k], r.states[k + 1]);
    PhasedHolds(cfg, r, k);
    ToggleOrder(cfg, r.states[k], r.moves[k]);
  }

  lemma {:induction false} StartBehind(cfg: Config, r: Run, n: nat) returns (i: nat)
    requires cfg.Valid() && r.Of(cfg) && n < |r.states| && !r.states[n].phase.BeforeStart?
    ensures i < n && StartsAt(cfg, r, i)
    decreases n
  {
    hide RunHandler;
    Lengths(cfg, r);
    StartsBlank(cfg, r);
    PhaseChanges(cfg, r, n - 1);
    if r.states[n - 1].phase.BeforeStart? {
      i := n - 1;
    } else {
      i := StartBehind(cfg, r, n - 1);
    }
  }

  /** So `MixesExactly` speaks about every state after stop: start and stop have both run before it. */
  lemma {:induction false} TogglesBehind(cfg: Config, r: Run, n: nat) returns (i: nat, j: nat)
    requires cfg.Valid() && r.Of(cfg) && n < |r.states| && r.states[n].phase.AfterStop?
    ensures i < j < n && StartsAt(cfg, r, i) && StopsAt(cfg, r, j)
    decreases n
  {
    hide RunHandler;
    Lengths(cfg, r);
    StartsBlank(cfg, r);
    PhaseChanges(cfg, r, n - 1);
    if r.states[n - 1].phase.AfterStop? {
      i, j := TogglesBehind(cfg, r, n - 1);
    } else {
      j := n - 1;
      i := StartBehind(cfg, r, j);
    }
  }

  lemma MixedChainsMerge(cfg: Config, r: Run, n: nat)
    requires cfg.Valid() && r.Of(cfg) && Mixes(r, n)
    ensures r.states[n].phase.AfterStop? && Excess(r.states[n]) == 1
    ensures n + 1 < |r.states| && r.states[n + 1].phase.AfterStop? && Excess(r.states[n + 1]) == 0
  {
    Lengths(cfg, r);
    if !r.states[n].phase.AfterStop? { FreshFindsEmpty(cfg, r, n); }
    ChainsMerge(cfg, r, n);
    IntrudesMixes(cfg, r, n);
  }

  /** It happens at most once in a run. */
  lemma MixesOnce(cfg: Config, r: Run, m: nat, n: nat)
    requires cfg.Valid() && r.Of(cfg) && m < n && Mixes(r, m)
    ensures !Mixes(r, n)
  {
    MixedChainsMerge(cfg, r, m);
    if n < |r.states| {
      MergedStaysMerged(cfg, r, m + 1, n);
      if Mixes(r, n) { MixedChainsMerge(cfg, r, n); }
    }
  }
}
