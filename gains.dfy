/** The arithmetic of one learning step: undiscounted, one-step-shifted
    reward-to-go, advantages (deltas) against the value baseline, and the two
    advantage-weighted loss sums. Each loop is a method proved against a
    specification function, and the properties of those functions are lemmas. */
module Gains {

  /** Sum of a sequence of rewards. */
  function Sum(s: seq<real>): real
  {
    if s == [] then 0.0 else s[0] + Sum(s[1..])
  }

  /** Adding one reward at the end adds it to the sum. */
  lemma {:induction false} SumAppend(a: seq<real>, x: real)
    ensures Sum(a + [x]) == Sum(a) + x
  {
    if a == [] {
      assert a + [x] == [x];
    } else {
      assert (a + [x])[1..] == a[1..] + [x];
      SumAppend(a[1..], x);
    }
  }

  /** Reward-to-go of step `j` in an episode of `n` steps: the rewards stored
      at indices j+1 through n, undiscounted. The reward stored at `j` itself
      is not part of it. */
  function RewardToGo(rewards: seq<real>, n: nat, j: nat): real
    requires n < |rewards| && j <= n
  {
    Sum(rewards[j + 1..n + 1])
  }

  /** The `n` returns of an episode, one per step. */
  function Returns(rewards: seq<real>, n: nat): seq<real>
    requires n < |rewards|
  {
    seq(n, j requires 0 <= j < n => RewardToGo(rewards, n, j))
  }

  /** The advantages: each return minus the value estimate of its step. */
  function Deltas(g: seq<real>, values: seq<real>, n: nat): seq<real>
    requires n <= |g| && n <= |values|
  {
    seq(n, j requires 0 <= j < n => g[j] - values[j])
  }

  /** Sum of -d * x over the pairs of zip(ds, xs), which stops at the end of
      the shorter list. */
  function ZipLoss(ds: seq<real>, xs: seq<real>): real
    decreases |ds|
  {
    if ds == [] || xs == [] then 0.0 else -ds[0] * xs[0] + ZipLoss(ds[1..], xs[1..])
  }

  function Min(a: nat, b: nat): nat
  {
    if a <= b then a else b
  }

  /** Builds the returns with the source's two nested loops: for each step j,
      a running total over k = j .. n-1 of rewards[k+1]. */
  method ComputeReturns(rewards: seq<real>, n: nat) returns (g: seq<real>)
    requires n < |rewards|
    ensures |g| == n
    ensures forall j :: 0 <= j < n ==> g[j] == Sum(rewards[j + 1..n + 1])
  {
    g := [];
    for j := 0 to n
      invariant |g| == j
      invariant forall i :: 0 <= i < j ==> g[i] == Sum(rewards[i + 1..n + 1])
    {
      var r := 0.0;
      for k := j to n
        invariant r == Sum(rewards[j + 1..k + 1])
      {
        assert rewards[j + 1..k + 2] == rewards[j + 1..k + 1] + [rewards[k + 1]];
        SumAppend(rewards[j + 1..k + 1], rewards[k + 1]);
        r := r + rewards[k + 1];
      }
      g := g + [r];
    }
  }

  /** One delta per step: the return minus the value estimate. */
  method ComputeDeltas(g: seq<real>, values: seq<real>, n: nat) returns (d: seq<real>)
    requires n <= |g| && n <= |values|
    ensures |d| == n
    ensures forall j :: 0 <= j < n ==> d[j] == g[j] - values[j]
  {
    d := [];
    for j := 0 to n
      invariant |d| == j
      invariant forall i :: 0 <= i < j ==> d[i] == g[i] - values[i]
    {
      d := d + [g[j] - values[j]];
    }
  }

  /** Appending one pair to two lists of equal length adds its term to the loss. */
  lemma {:induction false} ZipLossAppend(ds: seq<real>, xs: seq<real>, d: real, x: real)
    requires |ds| == |xs|
    ensures ZipLoss(ds + [d], xs + [x]) == ZipLoss(ds, xs) + -d * x
    decreases |ds|
  {
    if ds == [] {
      assert ds + [d] == [d] && xs + [x] == [x];
    } else {
      assert (ds + [d])[1..] == ds[1..] + [d];
      assert (xs + [x])[1..] == xs[1..] + [x];
      ZipLossAppend(ds[1..], xs[1..], d, x);
    }
  }

  /** The loss only sees the first min(|ds|, |xs|) pairs: zip truncates. */
  lemma {:induction false} ZipLossTruncates(ds: seq<real>, xs: seq<real>)
    ensures ZipLoss(ds, xs) == ZipLoss(ds[..Min(|ds|, |xs|)], xs[..Min(|ds|, |xs|)])
    decreases |ds|
  {
    if ds != [] && xs != [] {
      var m := Min(|ds|, |xs|);
      assert ds[..m][1..] == ds[1..][..m - 1];
      assert xs[..m][1..] == xs[1..][..m - 1];
      ZipLossTruncates(ds[1..], xs[1..]);
    }
  }

  /** Accumulates the loss term by term over zip(ds, xs). */
  method AccumulateLoss(ds: seq<real>, xs: seq<real>) returns (loss: real)
    ensures loss == ZipLoss(ds, xs)
  {
    var m := Min(|ds|, |xs|);
    loss := 0.0;
    for j := 0 to m
      invariant loss == ZipLoss(ds[..j], xs[..j])
    {
      assert ds[..j + 1] == ds[..j] + [ds[j]];
      assert xs[..j + 1] == xs[..j] + [xs[j]];
      ZipLossAppend(ds[..j], xs[..j], ds[j], xs[j]);
      loss := loss + -ds[j] * xs[j];
    }
    ZipLossTruncates(ds, xs);
  }

  /** The returns satisfy the backward recurrence G[j] = rewards[j+1] + G[j+1],
      and the last one is the terminal reward rewards[n]. */
  lemma ReturnsRecurrence(rewards: seq<real>, n: nat, j: nat)
    requires n < |rewards| && j < n
    ensures |Returns(rewards, n)| == n
    ensures j < n - 1 ==> Returns(rewards, n)[j] == rewards[j + 1] + Returns(rewards, n)[j + 1]
    ensures j == n - 1 ==> Returns(rewards, n)[j] == rewards[n]
  {
    assert rewards[j + 1..n + 1][1..] == rewards[j + 2..n + 1];
    if j == n - 1 {
      assert rewards[j + 1..n + 1] == [rewards[n]];
      assert Sum([rewards[n]]) == rewards[n] + Sum([]);
    }
  }

  /** The first return (the episode's score) is the total reward of the
      episode minus the reward stored at step 0. */
  lemma {:induction false} FirstReturnSkipsFirstReward(rewards: seq<real>, n: nat)
    requires 0 < n && |rewards| == n + 1
    ensures Returns(rewards, n)[0] == Sum(rewards) - rewards[0]
  {
    assert rewards[1..n + 1] == rewards[1..];
  }

  /** When every reward strictly between step i and the terminal index n is
      zero, every return from step i on equals the terminal reward. */
  lemma {:induction false} ReturnsAfterZeroRewards(rewards: seq<real>, n: nat, i: nat, j: nat)
    requires n < |rewards| && i <= j < n
    requires forall k :: i < k < n ==> rewards[k] == 0.0
    ensures Returns(rewards, n)[j] == rewards[n]
    decreases n - j
  {
    ReturnsRecurrence(rewards, n, j);
    if j < n - 1 {
      ReturnsAfterZeroRewards(rewards, n, i, j + 1);
    }
  }

  /** Worked example: rewards [1, 2, 3, 4] over three steps give the
      returns [9, 7, 4]. */
  lemma ReturnsExample()
    ensures Returns([1.0, 2.0, 3.0, 4.0], 3) == [9.0, 7.0, 4.0]
  {
    var r := [1.0, 2.0, 3.0, 4.0];
    assert r[3..4] == [4.0] && r[3..4][1..] == [];
    assert r[2..4][1..] == r[3..4];
    assert r[1..4][1..] == r[2..4];
  }
}
