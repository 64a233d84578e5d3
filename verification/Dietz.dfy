/** Modified Dietz return: injections are weighted by the share of the period they work. */
module Dietz {

  datatype CashFlow = CashFlow(day: int, amount: real)

  function Weight(f: CashFlow, totalDays: int): real {
    if totalDays > 0 then (totalDays - f.day) as real / totalDays as real else 1.0
  }

  function SumFlows(flows: seq<CashFlow>): real {
    if |flows| == 0 then 0.0 else SumFlows(flows[..|flows| - 1]) + flows[|flows| - 1].amount
  }

  function WeightedFlow(f: CashFlow, totalDays: int): real {
    f.amount * Weight(f, totalDays)
  }

  function WeightedFlows(flows: seq<CashFlow>, totalDays: int): real {
    if |flows| == 0 then 0.0
    else WeightedFlows(flows[..|flows| - 1], totalDays) + WeightedFlow(flows[|flows| - 1], totalDays)
  }

  function Denominator(vStart: real, flows: seq<CashFlow>, totalDays: int): real {
    vStart + WeightedFlows(flows, totalDays)
  }

  function Roi(vStart: real, flows: seq<CashFlow>, totalDays: int, final: real): real {
    var d := Denominator(vStart, flows, totalDays);
    if d > 0.0 then (final - vStart - SumFlows(flows)) / d else 0.0
  }

  method ComputeRoi(vStart: real, flows: seq<CashFlow>, totalDays: int, final: real)
    returns (sumF: real, roi: real)
    ensures sumF == SumFlows(flows)
    ensures roi == Roi(vStart, flows, totalDays, final)
  {
    var weightedF := 0.0;
    sumF := 0.0;
    for i := 0 to |flows|
      invariant sumF == SumFlows(flows[..i])
      invariant weightedF == WeightedFlows(flows[..i], totalDays)
    {
      assert flows[..i + 1][..i] == flows[..i];
      var f := flows[i];
      sumF := sumF + f.amount;
      var w := 1.0;
      if totalDays > 0 {
        w := (totalDays - f.day) as real / totalDays as real;
      }
      weightedF := weightedF + f.amount * w;
    }
    assert flows[..|flows|] == flows;
    var denom := vStart + weightedF;
    roi := 0.0;
    if denom > 0.0 {
      roi := (final - vStart - sumF) / denom;
    }
  }

  /** Positive flows inside the period never lower the capital base. */
  lemma {:induction false} DenominatorPositive(vStart: real, flows: seq<CashFlow>, totalDays: int)
    requires forall i :: 0 <= i < |flows| ==> 0 <= flows[i].day <= totalDays && flows[i].amount >= 0.0
    ensures WeightedFlows(flows, totalDays) >= 0.0
    ensures vStart > 0.0 ==> Denominator(vStart, flows, totalDays) > 0.0
  {
    if |flows| == 0 {
    } else {
      var n := |flows| - 1;
      DenominatorPositive(vStart, flows[..n], totalDays);
      var f := flows[n];
      assert Weight(f, totalDays) >= 0.0;
      assert WeightedFlow(f, totalDays) >= 0.0;
    }
  }

  /** What has been paid in by a day. */
  function PaidIn(flows: seq<CashFlow>, day: int): real {
    if |flows| == 0 then 0.0
    else
      var f := flows[|flows| - 1];
      PaidIn(flows[..|flows| - 1], day) + if f.day <= day then f.amount else 0.0
  }

  /** The capital at work, summed over the first n days. */
  function CapitalDays(vStart: real, flows: seq<CashFlow>, n: nat): real {
    if n == 0 then 0.0 else CapitalDays(vStart, flows, n - 1) + vStart + PaidIn(flows, n - 1)
  }

  /** An amount over a number of days. */
  function OverDays(amount: real, days: int): real {
    amount * days as real
  }

  lemma DayMore(amount: real, days: int)
    ensures OverDays(amount, days + 1) == OverDays(amount, days) + amount
    ensures OverDays(amount, 0) == 0.0
  {}

  lemma {:induction false} OneFlowMore(vStart: real, flows: seq<CashFlow>, n: nat)
    requires |flows| > 0 && flows[|flows| - 1].day >= 0
    ensures var f := flows[|flows| - 1];
      CapitalDays(vStart, flows, n)
      == CapitalDays(vStart, flows[..|flows| - 1], n) + if n <= f.day then 0.0 else OverDays(f.amount, n - f.day)
  {
    if n == 0 {
    } else {
      var f := flows[|flows| - 1];
      OneFlowMore(vStart, flows, n - 1);
      DayMore(f.amount, n - 1 - f.day);
      assert PaidIn(flows, n - 1)
          == PaidIn(flows[..|flows| - 1], n - 1) + if f.day <= n - 1 then f.amount else 0.0;
      hide PaidIn, OverDays;
    }
  }

  lemma {:induction false} NoFlows(vStart: real, n: nat)
    ensures CapitalDays(vStart, [], n) == OverDays(vStart, n)
  {
    if n == 0 {
    } else {
      NoFlows(vStart, n - 1);
      DayMore(vStart, n - 1);
      hide OverDays;
    }
  }

  lemma WeightInDays(f: CashFlow, totalDays: int)
    requires totalDays > 0
    ensures WeightedFlow(f, totalDays) * totalDays as real == OverDays(f.amount, totalDays - f.day)
  {
    var w, d := Weight(f, totalDays), totalDays as real;
    assert w * d == (totalDays - f.day) as real;
    assert (f.amount * w) * d == f.amount * (w * d);
  }

  lemma FullWeight(f: CashFlow, totalDays: int)
    requires totalDays <= 0
    ensures WeightedFlow(f, totalDays) == f.amount
  {}

  lemma Spread(a: real, b: real, c: real)
    ensures (a + b) * c == a * c + b * c
  {}

  /** The capital base is the time average of the capital at work: the start value, and each
      flow from its day on.  In a period of no days it is all the capital. */
  lemma {:induction false} TimeAverage(vStart: real, flows: seq<CashFlow>, totalDays: int)
    requires forall i :: 0 <= i < |flows| ==> 0 <= flows[i].day <= totalDays
    ensures totalDays > 0 ==>
              Denominator(vStart, flows, totalDays) * totalDays as real == CapitalDays(vStart, flows, totalDays)
    ensures totalDays <= 0 ==> Denominator(vStart, flows, totalDays) == vStart + SumFlows(flows)
  {
    if |flows| == 0 {
      if totalDays > 0 {
        NoFlows(vStart, totalDays);
        assert flows == [];
        assert Denominator(vStart, flows, totalDays) == vStart;
      }
    } else {
      var n := |flows| - 1;
      TimeAverage(vStart, flows[..n], totalDays);
      var w := WeightedFlow(flows[n], totalDays);
      assert Denominator(vStart, flows, totalDays) == Denominator(vStart, flows[..n], totalDays) + w;
      if totalDays > 0 {
        OneFlowMore(vStart, flows, totalDays);
        WeightInDays(flows[n], totalDays);
        DayMore(flows[n].amount, 0);
        Spread(Denominator(vStart, flows[..n], totalDays), w, totalDays as real);
      } else {
        FullWeight(flows[n], totalDays);
      }
      hide Denominator, WeightedFlow, CapitalDays, OverDays;
    }
  }
}
