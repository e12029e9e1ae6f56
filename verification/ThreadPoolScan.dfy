/** The scan of the lines by a runner, among whatever other threads do. */
module ThreadPoolScan {
  import opened Turns
  import opened ThreadPool
  import opened ThreadPoolProof

  ghost predicate Scans(s: State, r: int) { Shape(s) && Runner(s, r) && s.run[r] == RScan }

  /** What the next step of a run does to a scan, whoever takes it. */
  lemma StepOfScan(s: State, a: Action, r: int)
    requires Shape(s) && Enabled(s, a) && Runner(s, r) && (s.run[r] == RCheck || s.run[r] == RScan)
    requires s.run[r] == RScan ==> Line(s, s.at[r])
    ensures var s' := Next(s, a);
            && Shape(s') && Runner(s', r) && |s'.lines| == |s.lines|
            && (Scans(s', r) ==>
                  if s.run[r] == RCheck then s'.scan[r] == 0 && Line(s, s'.at[r])
                  else || (s'.scan[r] == s.scan[r] && s'.at[r] == s.at[r])
                       || (s'.scan[r] == s.scan[r] + 1 <= 2 * |s.lines| && s'.at[r] == Successor(s.at[r], |s.lines|)))
            && (s.run[r] == RScan && s'.run[r] == RLoop ==> s.scan[r] >= 2 * |s.lines|)
  {
    if a.RunnerStep? { RunnerStepOfScan(s, a.r, a.c, r); } else { OtherStepOfScan(s, a, r); }
  }

  lemma OtherStepOfScan(s: State, a: Action, r: int)
    requires Shape(s) && Enabled(s, a) && !a.RunnerStep? && Runner(s, r)
    ensures var s' := Next(s, a);
            Shape(s') && |s'.lines| == |s.lines| && s'.run == s.run && s'.scan == s.scan && s'.at == s.at
  {
  }

  lemma RunnerStepOfScan(s: State, q: nat, c: Choice, r: int)
    requires Shape(s) && q < |s.run| && RunnerEnabled(s, q, c)
    requires Runner(s, r) && (s.run[r] == RCheck || s.run[r] == RScan)
    requires s.run[r] == RScan ==> Line(s, s.at[r])
    ensures var s' := RunnerNext(s, q, c);
            && |s'.lines| == |s.lines|
            && (Scans(s', r) ==>
                  if s.run[r] == RCheck then s'.scan[r] == 0 && Line(s, s'.at[r])
                  else || (s'.scan[r] == s.scan[r] && s'.at[r] == s.at[r])
                       || (s'.scan[r] == s.scan[r] + 1 <= 2 * |s.lines| && s'.at[r] == Successor(s.at[r], |s.lines|)))
            && (s.run[r] == RScan && s'.run[r] == RLoop ==> s.scan[r] >= 2 * |s.lines|)
  {
  }

  /** The lines that a scan tries are those of the source: the `e`-th is `e` lines after the one it started with,
      wrapping around, whatever others do in between; and it gives up only after going round twice. */
  lemma {:induction false} ScanFollowsTurns(tr: seq<State>, i: nat, j: nat, r: int)
    requires IsRun(tr) && i < j < |tr| && Shape(tr[i]) && Runner(tr[i], r) && tr[i].run[r] == RCheck
    requires forall m :: i < m <= j ==> Scans(tr[m], r)
    ensures Scans(tr[i + 1], r) && Scans(tr[j], r) && |tr[j].lines| == |tr[i].lines| > 0
    ensures tr[j].scan[r] <= 2 * |tr[j].lines| && tr[j].at[r] == Turn(tr[i + 1].at[r], tr[j].scan[r], |tr[j].lines|)
    ensures j + 1 < |tr| && Shape(tr[j + 1]) && Runner(tr[j + 1], r) && tr[j + 1].run[r] == RLoop ==>
              tr[j].scan[r] == 2 * |tr[j].lines|
    decreases j
  {
    hide Init, Enabled, Next;
    assert Scans(tr[j], r) && Scans(tr[i + 1], r);
    var s := tr[j - 1];
    if j > i + 1 {
      ScanFollowsTurns(tr, i, j - 1, r);
      NextTurn(tr[i + 1].at[r], s.scan[r], |s.lines|);
    }
    assert Step(tr[j - 1], tr[j - 1 + 1]);
    var a: Action :| Enabled(s, a) && tr[j] == Next(s, a);
    StepOfScan(s, a, r);
    if j == i + 1 { RemainderIs(tr[j].at[r], 0, tr[j].at[r], |tr[j].lines|); }
    if j + 1 < |tr| {
      assert Step(tr[j], tr[j + 1]);
      var b: Action :| Enabled(tr[j], b) && tr[j + 1] == Next(tr[j], b);
      StepOfScan(tr[j], b, r);
    }
  }
}
