/** One episode's rollout through the market: the clamp at zero wealth, the
    early stop on ruin with the padding of the episode to full length, and the
    terminal utility reward. */
module Training {
  import opened Environment
  import opened Gains
  import opened Agents

  /** Wealth after step i from wealth x: the sampled action is invested, the
      market moves with the draw z, and a negative result is clamped to 0. */
  function NextWealth(nets: Networks, sqrtDt: real, x: real, i: int, e: real, z: real): (r: real)
    ensures var w := Wealth(x, SampledAction(nets.policy(x, TimeToGo(i)), e), z, sqrtDt);
            r >= 0.0 && (w >= 0.0 ==> r == w) && (w < 0.0 ==> r == 0.0)
  {
    ClampWealth(Wealth(x, SampledAction(nets.policy(x, TimeToGo(i)), e), z, sqrtDt))
  }

  /** `wealths` is the start of an episode's path from x0 with the draws eps
      and noise: each wealth is the clamped successor of the one before, and
      none after the first is 0 (a 0 would have ended the episode). */
  ghost predicate PathPrefix(nets: Networks, sqrtDt: real, x0: real, eps: seq<real>, noise: seq<real>,
                             wealths: seq<real>)
  {
    |wealths| <= |eps| && |wealths| <= |noise| &&
    (|wealths| > 0 ==> wealths[0] == x0) &&
    (forall k :: 0 <= k < |wealths| - 1 ==>
       wealths[k + 1] == NextWealth(nets, sqrtDt, wealths[k], k, eps[k], noise[k])) &&
    (forall k :: 1 <= k < |wealths| ==> wealths[k] > 0.0)
  }

  /** Visiting the next wealth of the path extends the prefix. */
  lemma PathPrefixExtend(nets: Networks, sqrtDt: real, x0: real, eps: seq<real>, noise: seq<real>,
                         wealths: seq<real>, x: real)
    requires PathPrefix(nets, sqrtDt, x0, eps, noise, wealths)
    requires |wealths| < |eps| && |wealths| < |noise|
    requires |wealths| == 0 ==> x == x0
    requires |wealths| > 0 ==>
               x > 0.0 &&
               x == NextWealth(nets, sqrtDt, wealths[|wealths| - 1], |wealths| - 1,
                               eps[|wealths| - 1], noise[|wealths| - 1])
    ensures PathPrefix(nets, sqrtDt, x0, eps, noise, wealths + [x])
  {
  }

  /** `wealths` (one per step taken) and `finalWealth` are the whole path of
      an episode from x0: the last step leads to `finalWealth`, and the
      episode is cut short only by reaching 0. */
  ghost predicate IsTrajectory(nets: Networks, sqrtDt: real, x0: real, eps: seq<real>, noise: seq<real>,
                               wealths: seq<real>, finalWealth: real)
  {
    1 <= |wealths| <= N && PathPrefix(nets, sqrtDt, x0, eps, noise, wealths) &&
    finalWealth == NextWealth(nets, sqrtDt, wealths[|wealths| - 1], |wealths| - 1,
                              eps[|wealths| - 1], noise[|wealths| - 1]) &&
    (|wealths| < N ==> finalWealth == 0.0)
  }

  /** The draws determine the episode: two trajectories from the same start
      with the same draws and networks are the same. */
  lemma {:induction false} TrajectoryUnique(nets: Networks, sqrtDt: real, x0: real, eps: seq<real>, noise: seq<real>,
                                            w1: seq<real>, f1: real, w2: seq<real>, f2: real)
    requires IsTrajectory(nets, sqrtDt, x0, eps, noise, w1, f1)
    requires IsTrajectory(nets, sqrtDt, x0, eps, noise, w2, f2)
    ensures w1 == w2 && f1 == f2
  {
    var m := Min(|w1|, |w2|);
    var k := 1;
    while k < m
      invariant 1 <= k <= m
      invariant w1[..k] == w2[..k]
    {
      assert w1[k - 1] == w2[k - 1];
      assert w1[..k + 1] == w1[..k] + [w1[k]] && w2[..k + 1] == w2[..k] + [w2[k]];
      k := k + 1;
    }
    assert w1[m - 1] == w2[m - 1];
    if |w1| != |w2| {
      // the shorter path was cut short at 0, yet the longer one goes on from the same wealth
      assert false;
    }
    assert w1 == w1[..m] && w2 == w2[..m];
  }

  /** Value estimates of the visited states, one per step taken. */
  function ValuesOf(nets: Networks, wealths: seq<real>): (r: seq<real>)
    ensures |r| == |wealths|
  {
    seq(|wealths|, k requires 0 <= k < |wealths| => nets.value(wealths[k], TimeToGo(k)))
  }

  /** Entropy rewards of the visited states, one per step taken. */
  function EntropyRewardsOf(nets: Networks, dist: Distribution, wealths: seq<real>): (r: seq<real>)
    ensures |r| == |wealths|
  {
    seq(|wealths|, k requires 0 <= k < |wealths| => Lam * dist.entropy(nets.policy(wealths[k], TimeToGo(k)).sd))
  }

  /** Log-probabilities of the actions taken, one per step taken. */
  function LogProbsOf(nets: Networks, dist: Distribution, wealths: seq<real>, eps: seq<real>): (r: seq<real>)
    requires |wealths| <= |eps|
    ensures |r| == |wealths|
  {
    seq(|wealths|, k requires 0 <= k < |wealths| =>
      var out := nets.policy(wealths[k], TimeToGo(k));
      dist.logProb(out.mean, out.sd, SampledAction(out, eps[k])))
  }

  function Zeros(n: nat): (r: seq<real>)
    ensures |r| == n
  {
    seq(n, _ => 0.0)
  }

  /** Visiting one more state appends one entry to each record. */
  lemma TrajectoryExtend(nets: Networks, dist: Distribution, wealths: seq<real>, x: real, eps: seq<real>)
    requires |wealths| < |eps|
    ensures var w := wealths + [x];
            var out := nets.policy(x, TimeToGo(|wealths|));
            ValuesOf(nets, w) == ValuesOf(nets, wealths) + [nets.value(x, TimeToGo(|wealths|))] &&
            EntropyRewardsOf(nets, dist, w) == EntropyRewardsOf(nets, dist, wealths) + [Lam * dist.entropy(out.sd)] &&
            LogProbsOf(nets, dist, w, eps) ==
              LogProbsOf(nets, dist, wealths, eps) + [dist.logProb(out.mean, out.sd, SampledAction(out, eps[|wealths|]))]
  {
  }

  /** Pads a ruined episode: `count` zero rewards and `count` zero values. */
  method PadRuinedEpisode(agent: Agent, count: nat)
    modifies agent`rewardMemory, agent`valueMemory
    ensures agent.rewardMemory == old(agent.rewardMemory) + Zeros(count)
    ensures agent.valueMemory == old(agent.valueMemory) + Zeros(count)
  {
    var k := 0;
    while k < count
      invariant 0 <= k <= count
      invariant agent.rewardMemory == old(agent.rewardMemory) + Zeros(k)
      invariant agent.valueMemory == old(agent.valueMemory) + Zeros(k)
    {
      assert Zeros(k + 1) == Zeros(k) + [0.0];
      agent.StoreRewards(0.0);
      agent.StoreValue(0.0);
      k := k + 1;
    }
  }

  /** The bookkeeping of step i at wealth x: the value estimate, the
      sampled action's log-probability and the entropy reward are stored, and
      the unclamped next wealth is returned. */
  method TakeStep(agent: Agent, nets: Networks, dist: Distribution, sqrtDt: real,
                  wealths: seq<real>, x: real, eps: seq<real>, z: real)
    returns (value: real, newWealth: real)
    requires |wealths| < |eps|
    requires agent.rewardMemory == EntropyRewardsOf(nets, dist, wealths)
    requires agent.valueMemory == ValuesOf(nets, wealths)
    requires agent.actionMemory == LogProbsOf(nets, dist, wealths, eps)
    modifies agent`valueMemory, agent`rewardMemory, agent`actionMemory, agent`mean, agent`sd, agent`reward
    ensures var w := wealths + [x];
            agent.rewardMemory == EntropyRewardsOf(nets, dist, w) &&
            agent.valueMemory == ValuesOf(nets, w) &&
            agent.actionMemory == LogProbsOf(nets, dist, w, eps)
    ensures var out := nets.policy(x, TimeToGo(|wealths|));
            value == nets.value(x, TimeToGo(|wealths|)) &&
            agent.mean == out.mean && agent.sd == out.sd as real &&
            newWealth == Wealth(x, SampledAction(out, eps[|wealths|]), z, sqrtDt)
  {
    var t := |wealths| as real * Dt;
    TrajectoryExtend(nets, dist, wealths, x, eps);
    value := nets.value(x, Horizon - t);
    agent.StoreValue(value);
    var action := agent.ChooseAction(nets, dist, x, t, eps[|wealths|]);
    agent.StoreRewards(agent.reward);
    newWealth := Wealth(x, action, z, sqrtDt);
  }

  /** The steps of one episode from the initial wealth x0. At each step the
      state's value estimate and the entropy reward are stored, an action is
      drawn with `eps[i]`, and wealth moves with `noise[i]`; a negative wealth
      becomes 0, and wealth 0 ends the episode early with the remaining
      rewards and values padded with 0. The policy mean and standard deviation
      and the value estimate at the initial state are recorded once. */
  method RunSteps(agent: Agent, nets: Networks, dist: Distribution,
                  sqrtDt: real, x0: real, eps: seq<real>, noise: seq<real>)
    returns (wealths: seq<real>, newWealth: real, ruined: bool, initialValue: real)
    requires 0.0 <= x0
    requires N <= |eps| && N <= |noise|
    requires agent.rewardMemory == [] && agent.actionMemory == [] && agent.valueMemory == []
    modifies agent`rewardMemory, agent`actionMemory, agent`valueMemory, agent`meanMemory, agent`sdMemory
    modifies agent`mean, agent`sd, agent`reward
    ensures 1 <= |wealths| <= N && PathPrefix(nets, sqrtDt, x0, eps, noise, wealths)
    ensures newWealth == NextWealth(nets, sqrtDt, wealths[|wealths| - 1], |wealths| - 1,
                                    eps[|wealths| - 1], noise[|wealths| - 1])
    ensures ruined <==> newWealth == 0.0
    ensures !ruined ==> |wealths| == N
    ensures agent.rewardMemory == EntropyRewardsOf(nets, dist, wealths) + Zeros(N - |wealths|)
    ensures agent.valueMemory == ValuesOf(nets, wealths) + Zeros(N - |wealths|)
    ensures agent.actionMemory == LogProbsOf(nets, dist, wealths, eps)
    ensures initialValue == nets.value(x0, Horizon)
    ensures agent.meanMemory == old(agent.meanMemory) + [nets.policy(x0, Horizon).mean]
    ensures agent.sdMemory == old(agent.sdMemory) + [nets.policy(x0, Horizon).sd as real]
  {
    StepCount();
    wealths := [];
    var currWealth := x0;
    newWealth := x0;
    ruined := false;
    initialValue := 0.0;
    var i := 0;
    while i < N
      invariant 0 <= i <= N && |wealths| == i && !ruined
      invariant PathPrefix(nets, sqrtDt, x0, eps, noise, wealths)
      invariant i == 0 ==> currWealth == x0
      invariant currWealth >= 0.0 && (i > 0 ==> currWealth > 0.0 && newWealth == currWealth)
      invariant i > 0 ==> currWealth == NextWealth(nets, sqrtDt, wealths[i - 1], i - 1, eps[i - 1], noise[i - 1])
      invariant agent.rewardMemory == EntropyRewardsOf(nets, dist, wealths)
      invariant agent.valueMemory == ValuesOf(nets, wealths)
      invariant agent.actionMemory == LogProbsOf(nets, dist, wealths, eps)
      invariant i > 0 ==> initialValue == nets.value(x0, Horizon)
      invariant i == 0 ==> agent.meanMemory == old(agent.meanMemory) && agent.sdMemory == old(agent.sdMemory)
      invariant i > 0 ==>
                  agent.meanMemory == old(agent.meanMemory) + [nets.policy(x0, Horizon).mean] &&
                  agent.sdMemory == old(agent.sdMemory) + [nets.policy(x0, Horizon).sd as real]
      decreases N - i
    {
      var value;
      value, newWealth := TakeStep(agent, nets, dist, sqrtDt, wealths, currWealth, eps, noise[i]);
      PathPrefixExtend(nets, sqrtDt, x0, eps, noise, wealths, currWealth);
      wealths := wealths + [currWealth];
      if i == 0 {
        initialValue := value;
        agent.StoreSds(agent.sd);
        agent.StoreMeans(agent.mean);
      }
      if newWealth < 0.0 {
        newWealth := 0.0;
      }
      currWealth := newWealth;
      if currWealth == 0.0 {
        PadRuinedEpisode(agent, N - 1 - i);
        ruined := true;
        break;
      }
      i := i + 1;
    }
  }

  /** One episode, from the initial wealth x0 to the terminal reward: the
      steps, then one last reward, the utility of the final wealth. */
  method Rollout(agent: Agent, nets: Networks, dist: Distribution, util: real -> real,
                 sqrtDt: real, x0: real, eps: seq<real>, noise: seq<real>)
    returns (wealths: seq<real>, finalWealth: real, ruined: bool, initialValue: real)
    requires 0.0 <= x0
    requires N <= |eps| && N <= |noise|
    requires agent.rewardMemory == [] && agent.actionMemory == [] && agent.valueMemory == []
    modifies agent`rewardMemory, agent`actionMemory, agent`valueMemory, agent`meanMemory, agent`sdMemory
    modifies agent`mean, agent`sd, agent`reward
    // the trajectory: one wealth per step taken, each the clamped successor of the previous
    ensures 1 <= |wealths| <= N && wealths[0] == x0
    ensures forall k :: 0 <= k < |wealths| - 1 ==>
              wealths[k + 1] == NextWealth(nets, sqrtDt, wealths[k], k, eps[k], noise[k])
    ensures finalWealth == NextWealth(nets, sqrtDt, wealths[|wealths| - 1], |wealths| - 1,
                                      eps[|wealths| - 1], noise[|wealths| - 1])
    // wealth is never negative, and only the last step can reach 0
    ensures forall k :: 0 <= k < |wealths| ==> wealths[k] >= 0.0
    ensures forall k :: 1 <= k < |wealths| ==> wealths[k] > 0.0
    ensures finalWealth >= 0.0
    ensures ruined <==> finalWealth == 0.0
    ensures !ruined ==> |wealths| == N
    // the buffers: N + 1 rewards, N values, one log-probability per step taken
    ensures agent.rewardMemory ==
              EntropyRewardsOf(nets, dist, wealths) + Zeros(N - |wealths|) + [util(finalWealth)]
    ensures agent.valueMemory == ValuesOf(nets, wealths) + Zeros(N - |wealths|)
    ensures agent.actionMemory == LogProbsOf(nets, dist, wealths, eps)
    // the diagnostics of the initial state
    ensures initialValue == nets.value(x0, Horizon)
    ensures agent.meanMemory == old(agent.meanMemory) + [nets.policy(x0, Horizon).mean]
    ensures agent.sdMemory == old(agent.sdMemory) + [nets.policy(x0, Horizon).sd as real]
  {
    var newWealth;
    wealths, newWealth, ruined, initialValue := RunSteps(agent, nets, dist, sqrtDt, x0, eps, noise);
    finalWealth := newWealth;
    agent.StoreRewards(util(newWealth));
  }
}
