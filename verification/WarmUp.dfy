/** The latency evaluation drops the first samples of every run: run detection and the index-based mask loop,
    and the simple form they stand for. Send times are in microseconds. */
module WarmUp {
  import opened Basics

  /** A longer pause than this between consecutive send times starts a new run (700 ms). */
  const GAP := 700_000

  /** Samples dropped at the start of each run. */
  const SKIP: nat := 50

  // ---------------------------------------------------------------- runs

  predicate NewRun(sent: seq<int>, i: nat)
    requires i < |sent|
  {
    i > 0 && sent[i] - sent[i - 1] > GAP
  }

  /** Start of the run sample `i` belongs to. */
  function RunStart(sent: seq<int>, i: nat): (r: nat)
    requires i < |sent|
    ensures r <= i
  {
    if i == 0 || NewRun(sent, i) then i else RunStart(sent, i - 1)
  }

  /** `[0]` followed by the indices below `n` at which a new run starts. */
  function Starts(sent: seq<int>, n: nat): (r: seq<nat>)
    requires n <= |sent|
    ensures |r| >= 1
  {
    if n == 0 then [0]
    else Starts(sent, n - 1) + (if NewRun(sent, n - 1) then [n - 1] else [])
  }

  /** Where the k-th run ends: at the start of the next one, or with the data. */
  function RunEnd(sent: seq<int>, n: nat, k: nat): nat
    requires n <= |sent| && k < |Starts(sent, n)|
  {
    if k < |Starts(sent, n)| - 1 then Starts(sent, n)[k + 1] else n
  }

  /** The detected starts cut the samples into consecutive runs. */
  lemma {:induction false} StartsAreRuns(sent: seq<int>, n: nat, k: nat)
    requires n <= |sent| && k < |Starts(sent, n)|
    ensures Starts(sent, n)[0] == 0 && Starts(sent, n)[k] <= RunEnd(sent, n, k) <= n
    ensures n > 0 ==> Starts(sent, n)[k] < RunEnd(sent, n, k)
    ensures forall i :: Starts(sent, n)[k] <= i < RunEnd(sent, n, k) ==> RunStart(sent, i) == Starts(sent, n)[k]
  {
    if n > 0 {
      var before := Starts(sent, n - 1);
      StartsAreRuns(sent, n - 1, |before| - 1);
      if k < |before| { StartsAreRuns(sent, n - 1, k); }
    }
  }

  /** Sample `k` comes more than 700 ms after its predecessor. */
  predicate LongPause(sent: seq<int>, k: int) {
    0 < k < |sent| && sent[k] - sent[k - 1] > 700_000
  }

  /** Exactly the samples after a long pause are starts, besides the first. */
  lemma {:induction false} StartsAfterPauses(sent: seq<int>, n: nat, i: nat)
    requires n <= |sent|
    ensures i in Starts(sent, n) <==> i == 0 || (i < n && LongPause(sent, i))
  {
    if n > 0 { StartsAfterPauses(sent, n - 1, i); }
  }

  /** A run begins at the first sample or after a long pause, and holds no other. */
  lemma {:induction false} RunStartIs(sent: seq<int>, i: nat)
    requires i < |sent|
    ensures var s := RunStart(sent, i);
            (s == 0 || LongPause(sent, s)) && forall k :: s < k <= i ==> !LongPause(sent, k)
  {
    if i > 0 && !LongPause(sent, i) { RunStartIs(sent, i - 1); }
  }

  /** The indices whose difference to the previous send time exceeds the gap. */
  method DetectRuns(sent: seq<int>) returns (runStarts: seq<nat>)
    ensures runStarts == Starts(sent, |sent|)
  {
    runStarts := [0];
    var i := 0;
    while i < |sent|
      invariant i <= |sent| && runStarts == Starts(sent, i)
    {
      if i > 0 && sent[i] - sent[i - 1] > GAP { runStarts := runStarts + [i]; }
      i := i + 1;
    }
  }

  // ---------------------------------------------------------------- the mask

  /** A sample is kept when it lies at least `SKIP` positions after the start of its run. */
  predicate Keep(sent: seq<int>, i: nat)
    requires i < |sent|
  {
    i - RunStart(sent, i) >= SKIP
  }

  /** In terms of the send times alone: at least 50 samples precede it, none of the last 50 steps a long pause. */
  lemma KeepIs(sent: seq<int>, i: nat)
    requires i < |sent|
    ensures Keep(sent, i) <==> i >= 50 && forall k :: i - 50 < k <= i ==> !LongPause(sent, k)
  {
    RunStartIs(sent, i);
  }

  method KeepMask(sent: seq<int>) returns (keep: array<bool>)
    ensures fresh(keep) && keep.Length == |sent|
    ensures forall i :: 0 <= i < |sent| ==> (keep[i] <==> Keep(sent, i))
  {
    var runStarts := DetectRuns(sent);
    var numRuns := |runStarts|;
    keep := new bool[|sent|](_ => true);
    StartsAreRuns(sent, |sent|, 0);
    var runIdx := 0;
    while runIdx < numRuns
      invariant runIdx <= numRuns && Done(sent, runIdx) <= |sent|
      invariant forall i :: 0 <= i < Done(sent, runIdx) ==> (keep[i] <==> Keep(sent, i))
      invariant forall i :: Done(sent, runIdx) <= i < |sent| ==> keep[i]
    {
      var start := runStarts[runIdx];
      StartsAreRuns(sent, |sent|, runIdx);
      var skipEnd := start + SKIP;
      if runIdx < numRuns - 1 {
        var nextStart := runStarts[runIdx + 1];
        if nextStart < skipEnd { skipEnd := nextStart; }
      } else if |sent| < skipEnd {
        skipEnd := |sent|;
      }
      ClearSlice(keep, start, skipEnd);
      assert Done(sent, runIdx + 1) == RunEnd(sent, |sent|, runIdx);
      runIdx := runIdx + 1;
    }
  }

  /** Samples before this index are settled once `k` runs have been treated. */
  function Done(sent: seq<int>, k: nat): nat {
    var starts := Starts(sent, |sent|);
    if k < |starts| then starts[k] else |sent|
  }

  /** `keep_mask[start:end] = False` */
  method ClearSlice(keep: array<bool>, start: nat, end: nat)
    requires start <= end <= keep.Length
    modifies keep
    ensures forall i :: 0 <= i < keep.Length ==> keep[i] == (old(keep[i]) && !(start <= i < end))
  {
    var i := start;
    while i < end
      invariant start <= i <= end
      invariant forall j :: 0 <= j < keep.Length ==> keep[j] == (old(keep[j]) && !(start <= j < i))
    {
      keep[i] := false;
      i := i + 1;
    }
  }

  // ---------------------------------------------------------------- the simple form

  /** The samples selected by the mask, in order. */
  function Kept<T>(sent: seq<int>, rows: seq<T>, n: nat): seq<T>
    requires n <= |sent| == |rows|
  {
    if n == 0 then [] else
    Kept(sent, rows, n - 1) + (if Keep(sent, n - 1) then [rows[n - 1]] else [])
  }

  /** The first `n` samples cut into runs. */
  function Runs<T>(sent: seq<int>, rows: seq<T>, n: nat): (r: seq<seq<T>>)
    requires n <= |sent| == |rows|
    ensures n > 0 ==> r != []
  {
    if n == 0 then []
    else if n == 1 || NewRun(sent, n - 1) then Runs(sent, rows, n - 1) + [[rows[n - 1]]]
    else
      var before := Runs(sent, rows, n - 1);
      before[..|before| - 1] + [before[|before| - 1] + [rows[n - 1]]]
  }

  function Trim<T>(run: seq<T>): seq<T> { run[Min(SKIP, |run|)..] }

  function TrimAll<T>(runs: seq<seq<T>>): seq<seq<T>> {
    if runs == [] then [] else TrimAll(runs[..|runs| - 1]) + [Trim(runs[|runs| - 1])]
  }

  /** How many samples are dropped from the start of all runs. */
  function Dropped<T>(runs: seq<seq<T>>): nat {
    if runs == [] then 0 else Dropped(runs[..|runs| - 1]) + Min(SKIP, |runs[|runs| - 1]|)
  }

  lemma LastRun<T>(front: seq<seq<T>>, run: seq<T>)
    ensures Flatten(TrimAll(front + [run])) == Flatten(TrimAll(front)) + Trim(run)
    ensures Dropped(front + [run]) == Dropped(front) + Min(SKIP, |run|)
    ensures Flatten(front + [run]) == Flatten(front) + run
  {
    assert (front + [run])[..|front|] == front;
    FlattenAppend(TrimAll(front), Trim(run));
    FlattenAppend(front, run);
  }

  lemma TrimGrows<T>(last: seq<T>, x: T)
    ensures Trim(last + [x]) == Trim(last) + (if |last| >= SKIP then [x] else [])
  {
    if |last| >= SKIP {
      assert (last + [x])[SKIP..] == last[SKIP..] + [x];
    }
  }

  /** One more sample in the last run: it survives once the run has `SKIP` samples before it. */
  lemma RunGrows<T>(front: seq<seq<T>>, last: seq<T>, x: T)
    ensures Flatten(front + [last + [x]]) == Flatten(front + [last]) + [x]
    ensures Flatten(TrimAll(front + [last + [x]])) == Flatten(TrimAll(front + [last])) + (if |last| >= SKIP then [x] else [])
    ensures Dropped(front + [last + [x]]) == Dropped(front + [last]) + (if |last| >= SKIP then 0 else 1)
  {
    LastRun(front, last);
    LastRun(front, last + [x]);
    TrimGrows(last, x);
    hide Flatten, TrimAll, Trim, Dropped;
    Associates(Flatten(front), last, [x]);
    Associates(Flatten(TrimAll(front)), Trim(last), if |last| >= SKIP then [x] else []);
  }

  lemma Associates<T>(a: seq<T>, b: seq<T>, c: seq<T>)
    ensures a + (b + c) == a + b + c
  {}

  /** A new run: its first sample is dropped. */
  lemma RunBegins<T>(before: seq<seq<T>>, x: T)
    ensures Flatten(before + [[x]]) == Flatten(before) + [x]
    ensures Flatten(TrimAll(before + [[x]])) == Flatten(TrimAll(before))
    ensures Dropped(before + [[x]]) == Dropped(before) + 1
  {
    LastRun(before, [x]);
    assert Trim([x]) == [];
  }

  /** The runs are the samples in order, and the last one reaches back to the start of the latest run. */
  lemma {:induction false} RunsPartition<T>(sent: seq<int>, rows: seq<T>, n: nat)
    requires 0 < n <= |sent| == |rows|
    ensures Flatten(Runs(sent, rows, n)) == rows[..n]
    ensures |Runs(sent, rows, n)[|Runs(sent, rows, n)| - 1]| == n - RunStart(sent, n - 1)
  {
    hide TrimAll, Trim, Dropped;
    var before, x := Runs(sent, rows, n - 1), rows[n - 1];
    assert rows[..n] == rows[..n - 1] + [x];
    if n > 1 { RunsPartition(sent, rows, n - 1); }
    if n == 1 || NewRun(sent, n - 1) {
      RunBegins(before, x);
    } else {
      var front, last := before[..|before| - 1], before[|before| - 1];
      assert before == front + [last];
      RunGrows(front, last, x);
    }
  }

  /** How the last sample changes the runs. */
  lemma LastSample<T>(sent: seq<int>, rows: seq<T>, n: nat)
    requires 0 < n <= |sent| == |rows|
    ensures Flatten(TrimAll(Runs(sent, rows, n)))
         == Flatten(TrimAll(Runs(sent, rows, n - 1))) + (if Keep(sent, n - 1) then [rows[n - 1]] else [])
    ensures Dropped(Runs(sent, rows, n)) == Dropped(Runs(sent, rows, n - 1)) + (if Keep(sent, n - 1) then 0 else 1)
  {
    hide Flatten, TrimAll, Trim, Dropped;
    var before, x := Runs(sent, rows, n - 1), rows[n - 1];
    if n == 1 || NewRun(sent, n - 1) {
      RunBegins(before, x);
    } else {
      var front, last := before[..|before| - 1], before[|before| - 1];
      RunsPartition(sent, rows, n - 1);
      assert before == front + [last];
      RunGrows(front, last, x);
    }
  }

  /** The mask loop keeps exactly what remains when the first `SKIP` samples of each run are dropped. */
  lemma {:induction false} MaskIsTrim<T>(sent: seq<int>, rows: seq<T>, n: nat)
    requires n <= |sent| == |rows|
    ensures Kept(sent, rows, n) == Flatten(TrimAll(Runs(sent, rows, n)))
    ensures |Kept(sent, rows, n)| + Dropped(Runs(sent, rows, n)) == n
  {
    if n > 0 {
      MaskIsTrim(sent, rows, n - 1);
      LastSample(sent, rows, n);
    }
  }

  /** `df[keep_mask]`: the evaluation goes on with every run but its first `SKIP` samples. */
  method DropWarmUp<T>(sent: seq<int>, rows: seq<T>) returns (kept: seq<T>)
    requires |sent| == |rows|
    ensures kept == Flatten(TrimAll(Runs(sent, rows, |rows|)))
    ensures |kept| + Dropped(Runs(sent, rows, |rows|)) == |rows|
  {
    var keep := KeepMask(sent);
    kept := [];
    var i := 0;
    while i < |rows|
      invariant i <= |rows| && kept == Kept(sent, rows, i)
    {
      if keep[i] { kept := kept + [rows[i]]; }
      i := i + 1;
    }
    MaskIsTrim(sent, rows, |rows|);
  }
}
