/** `DisperseClient::calculate_amounts`: turns a total and a list of
    basis-point percentages into per-recipient amounts. */
module Splitter {
  import opened Base
  import opened Errors

  /** 100.00% in basis points. */
  const BasisPoints: nat := 10000

  /** Each percentage's share of the total, rounded down. */
  function Shares(total: nat, percentages: seq<nat>): (r: seq<nat>)
    ensures |r| == |percentages|
    ensures forall i :: 0 <= i < |r| ==> r[i] == total * percentages[i] / BasisPoints
  {
    if percentages == [] then []
    else [total * percentages[0] / BasisPoints] + Shares(total, percentages[1..])
  }

  /** The split is refused unless the percentages sum to exactly 100.00%
      (so an empty list is refused); otherwise every share is rounded down
      and the remainder is left undistributed. */
  function CalculateAmounts(total: nat, percentages: seq<nat>): (r: Result<seq<nat>, ClientError>)
    ensures r.Err? <==> Sum(percentages) != BasisPoints
    ensures r.Err? ==> r.error == InvalidSplit
    ensures r.Ok? ==> |r.value| == |percentages| > 0
    ensures r.Ok? ==> forall i :: 0 <= i < |r.value| ==> r.value[i] == total * percentages[i] / BasisPoints
    ensures r.Ok? ==> Sum(r.value) <= total && total - Sum(r.value) < |percentages|
  {
    if Sum(percentages) != BasisPoints then Err(InvalidSplit)
    else
      SplitShortfall(total, percentages);
      Ok(Shares(total, percentages))
  }

  /** Rounding each share down loses less than one unit per share:
      total * Sum(p) lies between BasisPoints * Sum(shares) and that plus
      (BasisPoints - 1) per percentage. */
  lemma {:induction false} SharesBound(total: nat, percentages: seq<nat>)
    ensures BasisPoints * Sum(Shares(total, percentages)) <= total * Sum(percentages)
    ensures total * Sum(percentages)
            <= BasisPoints * Sum(Shares(total, percentages)) + (BasisPoints - 1) * |percentages|
    decreases |percentages|
  {
    if percentages != [] {
      var p, rest := percentages[0], percentages[1..];
      SharesBound(total, rest);
      var q, r := total * p / BasisPoints, total * p % BasisPoints;
      var s, ps := Sum(Shares(total, rest)), Sum(rest);
      assert total * p == BasisPoints * q + r && r <= BasisPoints - 1;
      assert Shares(total, percentages) == [q] + Shares(total, rest);
      assert Sum(Shares(total, percentages)) == q + s;
      assert Sum(percentages) == p + ps;
      assert BasisPoints * (q + s) == BasisPoints * q + BasisPoints * s;
      assert total * (p + ps) == total * p + total * ps;
      assert (BasisPoints - 1) * |percentages| == (BasisPoints - 1) * |rest| + (BasisPoints - 1);
    }
  }

  /** With percentages summing to 100.00%, the shares never exceed the total
      and fall short of it by less than the number of recipients. */
  lemma SplitShortfall(total: nat, percentages: seq<nat>)
    requires Sum(percentages) == BasisPoints
    ensures Sum(Shares(total, percentages)) <= total
    ensures total - Sum(Shares(total, percentages)) < |percentages|
  {
    SharesBound(total, percentages);
    var s, n := Sum(Shares(total, percentages)), |percentages|;
    assert BasisPoints * s <= BasisPoints * total;
    assert s <= total;
    assert n > 0;
    assert BasisPoints * (total - s) <= (BasisPoints - 1) * n < BasisPoints * n;
  }

  /** 1000 split 50% / 30% / 20% is exact. */
  lemma ExactSplitExample()
    ensures CalculateAmounts(1000, [5000, 3000, 2000]) == Ok([500, 300, 200])
  {
    assert Sum([5000, 3000, 2000]) == BasisPoints;
    var r := CalculateAmounts(1000, [5000, 3000, 2000]).value;
    assert r[0] == 500 && r[1] == 300 && r[2] == 200;
    assert r == [500, 300, 200];
  }

  /** 1001 split 33.34% / 33.33% / 33.33% gives 333 each: two units are lost. */
  lemma TruncatingSplitExample()
    ensures CalculateAmounts(1001, [3334, 3333, 3333]) == Ok([333, 333, 333])
    ensures Sum([333, 333, 333]) == 999
  {
    assert Sum([3334, 3333, 3333]) == BasisPoints;
    var r := CalculateAmounts(1001, [3334, 3333, 3333]).value;
    assert r[0] == 333 && r[1] == 333 && r[2] == 333;
    assert r == [333, 333, 333];
  }

  /** Sums of 99.99% and 100.01% are refused. */
  lemma NearMissExamples()
    ensures CalculateAmounts(1000, [5000, 4999]) == Err(InvalidSplit)
    ensures CalculateAmounts(1000, [5000, 5001]) == Err(InvalidSplit)
  {
    assert Sum([5000, 4999]) == 9999;
    assert Sum([5000, 5001]) == 10001;
  }
}
