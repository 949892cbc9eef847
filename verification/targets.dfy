/**
  The target map a rebalance reads (scripts/mosaic_murmurs_paper_engine.py:1197-1228): what its entries and
  their sum are bounded by.
 */
module TargetBounds {
  import opened Wrappers
  import opened Money
  import opened Market
  import opened Selection
  import opened Engine
  import opened BookOrders

  function TargetSum(targets: map<nat, int>, refs: seq<nat>): int {
    if refs == [] then 0 else (if refs[0] in targets then targets[refs[0]] else 0) + TargetSum(targets, refs[1..])
  }

  function AllocationSum(selected: seq<Instrument>, shares: seq<int>, refs: seq<nat>): int
    requires |selected| == |shares|
  {
    if refs == [] then 0 else AllocationFor(selected, shares, refs[0]) + AllocationSum(selected, shares, refs[1..])
  }

  lemma {:induction false} AllocationOf(selected: seq<Instrument>, shares: seq<int>, ref: nat)
    requires |selected| == |shares|
    ensures (exists k :: 0 <= k < |selected| && selected[k].ref == ref && AllocationFor(selected, shares, ref) == shares[k])
            || (AllocationFor(selected, shares, ref) == 0 && forall k :: 0 <= k < |selected| ==> selected[k].ref != ref)
  {
    if selected != [] {
      if selected[0].ref == ref {
        assert AllocationFor(selected, shares, ref) == shares[0];
      } else {
        AllocationOf(selected[1..], shares[1..], ref);
        var rest := AllocationFor(selected[1..], shares[1..], ref);
        if k :| 0 <= k < |selected| - 1 && selected[1..][k].ref == ref && rest == shares[1..][k] {
          assert selected[k + 1].ref == ref && rest == shares[k + 1];
        } else {
          assert forall k :: 0 <= k < |selected| - 1 ==> selected[1..][k].ref != ref;
          assert forall k :: 0 < k < |selected| ==> selected[k] == selected[1..][k - 1];
        }
      }
    }
  }

  /** One instrument contributes its share once, if its reference is listed. */
  lemma {:induction false} AllocationSumStep(selected: seq<Instrument>, shares: seq<int>, refs: seq<nat>)
    requires |selected| == |shares| && selected != [] && DistinctRefs(selected) && Increasing(refs)
    ensures AllocationSum(selected, shares, refs)
         == (if selected[0].ref in refs then shares[0] else 0) + AllocationSum(selected[1..], shares[1..], refs)
    decreases |refs|
  {
    if refs != [] {
      AllocationSumStep(selected, shares, refs[1..]);
      AllocationOf(selected[1..], shares[1..], selected[0].ref);
      assert refs == [refs[0]] + refs[1..];
      assert refs[0] !in refs[1..];
    }
  }

  lemma {:induction false} AllocationsSumUp(selected: seq<Instrument>, shares: seq<int>, refs: seq<nat>)
    requires |selected| == |shares| && DistinctRefs(selected) && Increasing(refs)
    requires forall i :: i in selected ==> i.ref in refs
    ensures AllocationSum(selected, shares, refs) == Sum(shares)
  {
    if selected == [] {
      NothingAllocated(shares, refs);
    } else {
      AllocationSumStep(selected, shares, refs);
      assert selected[0] in selected;
      AllocationsSumUp(selected[1..], shares[1..], refs);
    }
  }

  lemma {:induction false} NothingAllocated(shares: seq<int>, refs: seq<nat>)
    requires shares == []
    ensures AllocationSum([], shares, refs) == 0
  {
    if refs != [] { NothingAllocated(shares, refs[1..]); }
  }

  lemma {:induction false} TargetSumIs(targets: map<nat, int>, selected: seq<Instrument>, shares: seq<int>, refs: seq<nat>)
    requires |selected| == |shares|
    requires forall r :: r in refs ==> r in targets && targets[r] == AllocationFor(selected, shares, r)
    ensures TargetSum(targets, refs) == AllocationSum(selected, shares, refs)
  {
    if refs != [] { TargetSumIs(targets, selected, shares, refs[1..]); }
  }

  lemma {:induction false} WithRefsHas(items: seq<Instrument>, refs: seq<nat>)
    requires Increasing(refs)
    ensures forall i :: i in items ==> i.ref in WithRefs(items, refs)
  {
    if items != [] {
      WithRefsHas(items[1..], refs);
      WithRefsIncreases(items[1..], refs);
      InsertRefIncreases(items[0].ref, WithRefs(items[1..], refs));
    }
  }

  lemma SelectedAreTraded(b: Book, m: Snapshot)
    ensures DistinctRefs(Selected(b, m)) && Increasing(TradedRefs(b, m))
    ensures forall i :: i in Selected(b, m) ==> i in Eligible(b.strategy, m) && i.ref in TradedRefs(b, m)
  {
    EligibleWithin(b.strategy, m);
    TargetsAreEligible(ModeOf(b.strategy), ProfileOf(b.line).targetCount, Eligible(b.strategy, m));
    HeldRefsIncrease(b.positions);
    WithRefsIncreases(Eligible(b.strategy, m), HeldRefs(b.positions));
    WithRefsHas(Eligible(b.strategy, m), HeldRefs(b.positions));
  }

  lemma LimitsNonNegative(b: Book)
    requires EquityOf(b) >= 0
    ensures GrossTarget(b) >= 0 && PositionCap(b) >= 0.0 && Round(PositionCap(b)) >= 0
  {
    RoundMonotone(0.0, PositionCap(b));
    RoundMonotone(0.0, EquityOf(b) as real * ProfileOf(b.line).targetGross);
  }

  /** The targets of a rebalance are non-negative and at most the rounded cap, only selected eligible instruments
      have one, and they sum to at most the gross target - exactly when the cap never binds. */
  lemma TargetsFit(b: Book, m: Snapshot)
    requires EquityOf(b) >= 0
    ensures var refs := TradedRefs(b, m);
            var targets := Targets(b, m, refs);
            && (forall r :: r in refs ==> 0 <= targets[r] <= Round(PositionCap(b)))
            && (forall r :: r in refs && targets[r] > 0 ==> exists i :: i in Selected(b, m) && i in Eligible(b.strategy, m) && i.ref == r)
            && TargetSum(targets, refs) <= GrossTarget(b)
            && (Selected(b, m) != [] && CapNeverBinds(GrossTarget(b), PositionCap(b), |Selected(b, m)|) ==>
                  TargetSum(targets, refs) == GrossTarget(b))
  {
    var refs, selected := TradedRefs(b, m), Selected(b, m);
    LimitsNonNegative(b);
    SelectedAreTraded(b, m);
    var shares := Allocate(GrossTarget(b), PositionCap(b), |selected|);
    AllocationsFit(GrossTarget(b), PositionCap(b), |selected|);
    AllocationsSumUp(selected, shares, refs);
    TargetSumIs(Targets(b, m, refs), selected, shares, refs);
    forall r | r in refs
      ensures AllocationFor(selected, shares, r) == 0
              || exists k :: 0 <= k < |selected| && selected[k].ref == r && AllocationFor(selected, shares, r) == shares[k]
    {
      AllocationOf(selected, shares, r);
    }
  }
}
