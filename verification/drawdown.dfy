/** The analyser's maximum drawdown.  Each day it looks only at the global peak so far and the
    lowest value after it, and keeps the largest result; that this is the largest drawdown over
    all pairs of days is proved here. */
module Drawdown {
  import opened PercentLoss

  predicate Positive(vs: seq<real>)
  {
    forall i :: 0 <= i < |vs| ==> vs[i] > 0.0
  }

  /** The largest loss from any day to the same or a later day; zero without days. */
  predicate IsMaximum(vs: seq<real>, d: real)
    requires Positive(vs)
  {
    && (forall i, j :: 0 <= i <= j < |vs| ==> Loss(vs[i], vs[j]) <= d)
    && (if vs == [] then d == 0.0 else exists i, j :: 0 <= i <= j < |vs| && Loss(vs[i], vs[j]) == d)
  }

  /** std::max_element: the first position of the largest value. */
  predicate IsFirstPeak(vs: seq<real>, p: nat)
  {
    && p < |vs|
    && (forall i :: 0 <= i < |vs| ==> vs[i] <= vs[p])
    && (forall i :: 0 <= i < p ==> vs[i] < vs[p])
  }

  /** std::min_element from position `p` on. */
  predicate IsFirstTrough(vs: seq<real>, p: nat, m: nat)
  {
    && p <= m < |vs|
    && (forall i :: p <= i < |vs| ==> vs[m] <= vs[i])
    && (forall i :: p <= i < m ==> vs[m] < vs[i])
  }

  /** Looking at the global peak and the trough after it is enough to see the worst loss that
      ends today. */
  lemma TodaysWorst(vs: seq<real>, p: nat, m: nat, i: nat)
    requires Positive(vs) && IsFirstPeak(vs, p) && IsFirstTrough(vs, p, m) && i < |vs|
    ensures Loss(vs[i], vs[|vs| - 1]) <= Loss(vs[p], vs[m])
  {
    DeeperLoss(vs[i], vs[|vs| - 1], vs[p], vs[m]);
  }

  /** Today's figure: the loss from the first global peak to the first lowest value after it. */
  ghost predicate FigureOf(vs: seq<real>, d: real)
    requires Positive(vs)
  {
    exists p: nat, m: nat :: IsFirstPeak(vs, p) && IsFirstTrough(vs, p, m) && d == Loss(vs[p], vs[m])
  }

  /** One more day: the maximum so far and today's figure give the maximum over all pairs. */
  lemma OneMoreDay(vs: seq<real>, v: real, before: real, today: real)
    requires Positive(vs + [v]) && Positive(vs) && IsMaximum(vs, before)
    requires FigureOf(vs + [v], today)
    ensures IsMaximum(vs + [v], if before < today then today else before)
  {
    hide Loss;
    var all := vs + [v];
    var p: nat, m: nat :| IsFirstPeak(all, p) && IsFirstTrough(all, p, m) && today == Loss(all[p], all[m]);
    var d := if before < today then today else before;
    forall i, j | 0 <= i <= j < |all| ensures Loss(all[i], all[j]) <= d {
      if j < |vs| {
        assert Loss(vs[i], vs[j]) <= before;
      } else {
        TodaysWorst(all, p, m, i);
      }
    }
    if vs == [] {
      LossIs(all[0], all[0]);
      assert p == m == 0;
      assert Loss(all[p], all[m]) == d;
    } else if before < today {
      assert Loss(all[p], all[m]) == d;
    } else {
      var i, j :| 0 <= i <= j < |vs| && Loss(vs[i], vs[j]) == before;
      assert Loss(all[i], all[j]) == d;
    }
  }

  class MyAnalyzer {
    var netValues: seq<real>
    var maximumDrawdown: real
    var tradingDays: nat

    ghost predicate Valid()
      reads this
    {
      Positive(netValues) && IsMaximum(netValues, maximumDrawdown) && tradingDays == |netValues|
    }

    constructor ()
      ensures Valid() && netValues == []
    {
      netValues, maximumDrawdown, tradingDays := [], 0.0, 0;
    }

    method MaxElement() returns (p: nat)
      requires netValues != []
      ensures IsFirstPeak(netValues, p)
    {
      p := 0;
      for i := 1 to |netValues|
        invariant p < i
        invariant forall k :: 0 <= k < i ==> netValues[k] <= netValues[p]
        invariant forall k :: 0 <= k < p ==> netValues[k] < netValues[p]
      {
        if netValues[p] < netValues[i] {
          p := i;
        }
      }
    }

    method MinElement(from: nat) returns (m: nat)
      requires from < |netValues|
      ensures IsFirstTrough(netValues, from, m)
    {
      m := from;
      for i := from + 1 to |netValues|
        invariant from <= m < i
        invariant forall k :: from <= k < i ==> netValues[m] <= netValues[k]
        invariant forall k :: from <= k < m ==> netValues[m] < netValues[k]
      {
        if netValues[i] < netValues[m] {
          m := i;
        }
      }
    }

    /** The drawdown from the first global peak to the first lowest value after it. */
    method CurrentDrawdown() returns (d: real)
      requires Positive(netValues)
      ensures netValues == [] ==> d == 0.0
      ensures netValues != [] ==> FigureOf(netValues, d)
    {
      if netValues == [] {
        return 0.0;
      }
      var p := MaxElement();
      var m := MinElement(p);
      d := 100.0 * (netValues[p] - netValues[m]) / netValues[p];
    }

    /** on_settle: after every day the figure is the maximum drawdown over all pairs of days. */
    method OnSettle(unitValue: real)
      requires Valid() && unitValue > 0.0
      modifies this
      ensures Valid() && netValues == old(netValues) + [unitValue]
    {
      ghost var vs := netValues;
      netValues := netValues + [unitValue];
      tradingDays := tradingDays + 1;
      var today := CurrentDrawdown();
      OneMoreDay(vs, unitValue, maximumDrawdown, today);
      if maximumDrawdown < today {
        maximumDrawdown := today;
      }
    }
  }

  /** The daily figures of a history. */
  ghost predicate DailyFigures(vs: seq<real>, figures: seq<real>)
    requires Positive(vs)
    decreases |vs|
  {
    && |figures| == |vs|
    && (vs == [] || (FigureOf(vs, figures[|vs| - 1]) && DailyFigures(vs[..|vs| - 1], figures[..|vs| - 1])))
  }

  function RunningMaximum(figures: seq<real>): (d: real)
    decreases |figures|
  {
    if figures == [] then 0.0
    else
      var n := |figures| - 1;
      var before := RunningMaximum(figures[..n]);
      if before < figures[n] then figures[n] else before
  }

  /** The running maximum of the cheap daily figures is the all-pairs maximum drawdown, for every
      history of positive unit values. */
  lemma {:induction false} RunningIsAllPairs(vs: seq<real>, figures: seq<real>)
    requires Positive(vs) && DailyFigures(vs, figures)
    ensures IsMaximum(vs, RunningMaximum(figures))
    decreases |vs|
  {
    hide FigureOf, IsMaximum, Loss;
    if vs == [] {
      NoDays();
    } else {
      var n := |vs| - 1;
      RunningIsAllPairs(vs[..n], figures[..n]);
      assert vs == vs[..n] + [vs[n]];
      OneMoreDay(vs[..n], vs[n], RunningMaximum(figures[..n]), figures[n]);
    }
  }

  lemma NoDays()
    ensures IsMaximum([], 0.0)
  {
  }
}
