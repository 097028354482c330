/** Depths of a summary frontier read as digits: carrying, order and the logarithmic bound. */
module Numerals {
  import opened Wrappers

  function Pow(b: nat, e: nat): nat {
    if e == 0 then 1 else b * Pow(b, e - 1)
  }

  lemma {:induction false} PowPositive(b: nat, e: nat)
    requires b >= 1
    ensures Pow(b, e) >= 1
  {
    if e > 0 {
      PowPositive(b, e - 1);
    }
  }

  /** The number of leaves a frontier with these depths stands for. */
  function Weight(b: nat, depths: seq<nat>): nat {
    if depths == [] then 0 else Pow(b, depths[0]) + Weight(b, depths[1..])
  }

  lemma {:induction false} WeightConcat(b: nat, x: seq<nat>, y: seq<nat>)
    ensures Weight(b, x + y) == Weight(b, x) + Weight(b, y)
  {
    if x == [] {
      assert x + y == y;
    } else {
      assert (x + y)[1..] == x[1..] + y;
      WeightConcat(b, x[1..], y);
    }
  }

  lemma {:induction false} UniformWeight(b: nat, x: seq<nat>, d: nat)
    requires forall i :: 0 <= i < |x| ==> x[i] == d
    ensures Weight(b, x) == |x| * Pow(b, d)
  {
    if x != [] {
      UniformWeight(b, x[1..], d);
      assert |x| * Pow(b, d) == Pow(b, d) + (|x| - 1) * Pow(b, d);
    }
  }

  ghost predicate IsRun(depths: seq<nat>, start: nat, len: nat) {
    start + len <= |depths| && forall k :: start <= k < start + len ==> depths[k] == depths[start]
  }

  ghost predicate NonIncreasing(depths: seq<nat>) {
    forall i, j :: 0 <= i < j < |depths| ==> depths[i] >= depths[j]
  }

  /** The frontier after b equal digits at `start` are carried into one digit of the next place. */
  function Carry(b: nat, depths: seq<nat>, start: nat): seq<nat>
    requires 1 <= b && start + b <= |depths|
  {
    depths[..start] + [depths[start] + 1] + depths[start + b..]
  }

  lemma {:induction false} CarryKeepsWeight(b: nat, depths: seq<nat>, start: nat)
    requires 1 <= b && IsRun(depths, start, b)
    ensures Weight(b, Carry(b, depths, start)) == Weight(b, depths)
  {
    var d := depths[start];
    var left, run, right := depths[..start], depths[start..start + b], depths[start + b..];
    assert depths == left + (run + right);
    WeightConcat(b, left, run + right);
    WeightConcat(b, run, right);
    UniformWeight(b, run, d);
    assert Carry(b, depths, start) == left + ([d + 1] + right);
    WeightConcat(b, left, [d + 1] + right);
    WeightConcat(b, [d + 1], right);
    assert Weight(b, [d + 1]) == Pow(b, d + 1) + Weight(b, []);
  }

  /** Carrying the first run of length `need` keeps depths sorted from oldest to newest. */
  lemma {:induction false} CarryKeepsOrder(b: nat, need: nat, depths: seq<nat>, start: nat)
    requires 1 <= b <= need && NonIncreasing(depths) && IsRun(depths, start, need)
    requires forall s :: 0 <= s < start ==> !IsRun(depths, s, need)
    ensures NonIncreasing(Carry(b, depths, start))
  {
    if start > 0 {
      assert !IsRun(depths, start - 1, need);
      assert depths[start - 1] > depths[start];
    }
    var carried := Carry(b, depths, start);
    forall i, j | 0 <= i < j < |carried|
      ensures carried[i] >= carried[j]
    {
      if j < start {
      } else if i < start {
        assert depths[i] >= depths[start - 1];
      }
    }
  }

  ghost predicate NoRun(depths: seq<nat>, len: nat) {
    forall s: nat :: s < |depths| ==> !IsRun(depths, s, len)
  }

  lemma {:induction false} RunInTail(depths: seq<nat>, from: nat, start: nat, len: nat)
    requires from <= |depths|
    ensures IsRun(depths[from..], start, len) ==> IsRun(depths, from + start, len)
  {
    if start + len <= |depths[from..]| {
      assert forall k :: start <= k < start + len ==> depths[from..][k] == depths[from + k];
      assert forall k :: from + start <= k < from + start + len ==> depths[k] == depths[from..][k - from];
    }
  }

  lemma {:induction false} NoRunTail(depths: seq<nat>, len: nat, from: nat)
    requires NoRun(depths, len) && NonIncreasing(depths) && from <= |depths| && len >= 1
    ensures NoRun(depths[from..], len) && NonIncreasing(depths[from..])
  {
    forall s: nat | s < |depths[from..]|
      ensures !IsRun(depths[from..], s, len)
    {
      RunInTail(depths, from, s, len);
    }
  }

  function Occurrences(depths: seq<nat>, d: nat): nat {
    if depths == [] then 0 else (if depths[0] == d then 1 else 0) + Occurrences(depths[1..], d)
  }

  lemma {:induction false} OccurrencesBelow(depths: seq<nat>, d: nat)
    requires forall i :: 0 <= i < |depths| ==> depths[i] < d
    ensures Occurrences(depths, d) == 0
  {
    if depths != [] {
      OccurrencesBelow(depths[1..], d);
    }
  }

  lemma {:induction false} OccurrencesSplit(depths: seq<nat>, k: nat, d: nat)
    requires k <= |depths|
    ensures Occurrences(depths, d) <= k + Occurrences(depths[k..], d)
  {
    if k > 0 {
      OccurrencesSplit(depths[1..], k - 1, d);
      assert depths[1..][k - 1..] == depths[k..];
    } else {
      assert depths[0..] == depths;
    }
  }

  /** Without a run of b + 1 equal digits, no digit of a sorted frontier occurs more than b times. */
  lemma {:induction false} EachDepthAtMost(b: nat, depths: seq<nat>, d: nat)
    requires b >= 1 && NonIncreasing(depths) && NoRun(depths, b + 1)
    ensures Occurrences(depths, d) <= b
  {
    if depths != [] {
      if depths[0] == d {
        var k := Min(b, |depths|);
        OccurrencesSplit(depths, k, d);
        if |depths| > b {
          assert !IsRun(depths, 0, b + 1);
          assert depths[b] < d;
        }
        OccurrencesBelow(depths[k..], d);
      } else {
        NoRunTail(depths, b + 1, 1);
        EachDepthAtMost(b, depths[1..], d);
      }
    }
  }

  lemma {:induction false} Scale(b: nat, x: nat, y: nat)
    requires x <= y
    ensures b * x <= b * y
  {
  }

  lemma {:induction false} LengthByTopDepth(b: nat, depths: seq<nat>)
    requires b >= 1 && NonIncreasing(depths) && NoRun(depths, b + 1) && depths != []
    ensures |depths| <= b * (depths[0] + 1)
  {
    var top := depths[0];
    assert b * (top + 1) == b * top + b;
    if |depths| > b {
      assert !IsRun(depths, 0, b + 1);
      var rest := depths[b..];
      NoRunTail(depths, b + 1, b);
      LengthByTopDepth(b, rest);
      Scale(b, rest[0] + 1, top);
    }
  }

  function LogUpTo(b: nat, n: nat, k: nat): nat {
    if k == 0 || Pow(b, k) <= n then k else LogUpTo(b, n, k - 1)
  }

  /** floor(log_b n): the largest exponent whose power does not exceed n. */
  function Log(b: nat, n: nat): nat {
    LogUpTo(b, n, n)
  }

  lemma {:induction false} PowExceedsExponent(b: nat, e: nat)
    requires b >= 2
    ensures Pow(b, e) > e
  {
    if e > 0 {
      PowExceedsExponent(b, e - 1);
      var p := Pow(b, e - 1);
      assert b * p >= 2 * p;
    }
  }

  lemma {:induction false} LogUpToIsLargest(b: nat, n: nat, k: nat, e: nat)
    requires n >= 1 && e <= k
    ensures Pow(b, LogUpTo(b, n, k)) <= n
    ensures Pow(b, e) <= n ==> e <= LogUpTo(b, n, k)
  {
    if k > 0 && Pow(b, k) > n {
      LogUpToIsLargest(b, n, k - 1, if e == k then 0 else e);
    }
  }

  lemma {:induction false} LogIsLargestExponent(b: nat, n: nat, e: nat)
    requires b >= 2 && n >= 1
    ensures Pow(b, Log(b, n)) <= n
    ensures Pow(b, e) <= n ==> e <= Log(b, n)
  {
    PowExceedsExponent(b, e);
    LogUpToIsLargest(b, n, n, if e <= n then e else 0);
  }

  /** A settled frontier over n leaves has at most b (1 + log_b n) segments. */
  lemma {:induction false} SettledFrontierIsLogarithmic(b: nat, depths: seq<nat>)
    requires b >= 2 && NonIncreasing(depths) && NoRun(depths, b + 1)
    ensures |depths| <= b * (1 + Log(b, Weight(b, depths)))
  {
    if depths != [] {
      LengthByTopDepth(b, depths);
      PowPositive(b, depths[0]);
      LogIsLargestExponent(b, Weight(b, depths), depths[0]);
      Scale(b, depths[0] + 1, 1 + Log(b, Weight(b, depths)));
    }
  }
}
