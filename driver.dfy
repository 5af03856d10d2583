/** The outer training loop: each episode is rolled out, learned from, and
    its diagnostics are appended to the run-long histories. */
module Driver {
  import opened Environment
  import opened Gains
  import opened Agents
  import opened Training

  /** After ruin the rollout leaves rewards E + [0, ..., 0] + [u] and values
      V + [0, ..., 0], with one entry of E and V per step taken (s of them).
      Then every return from the ruin step s - 1 on equals the terminal reward u,
      and every padded step's advantage is u as well. */
  lemma {:induction false} PaddedEpisodeAdvantages(entropyRewards: seq<real>, values: seq<real>, u: real, j: nat)
    requires 1 <= |entropyRewards| <= N && |values| == |entropyRewards|
    requires |entropyRewards| - 1 <= j < N
    ensures var s := |entropyRewards|;
            var g := Returns(entropyRewards + Zeros(N - s) + [u], N);
            g[j] == u &&
            (s <= j ==> Deltas(g, values + Zeros(N - s), N)[j] == u)
  {
    var s := |entropyRewards|;
    var rewards := entropyRewards + Zeros(N - s) + [u];
    assert rewards[N] == u;
    assert forall k :: s - 1 < k < N ==> rewards[k] == Zeros(N - s)[k - s];
    ReturnsAfterZeroRewards(rewards, N, s - 1, j);
    if s <= j {
      assert (values + Zeros(N - s))[j] == Zeros(N - s)[j - s];
    }
  }

  /** What one episode contributes to the run: its random draws and initial
      wealth, and the networks as they stand when it starts. */
  datatype EpisodeDraws = EpisodeDraws(x0: real, eps: seq<real>, noise: seq<real>, nets: Networks)

  /** The score of an episode with this trajectory: the first return of its
      rewards, padded with zeros to N and closed by the utility of the final
      wealth. */
  ghost function EpisodeScore(nets: Networks, dist: Distribution, util: real -> real,
                              wealths: seq<real>, finalWealth: real): real
    requires 1 <= |wealths| <= N
  {
    Returns(EntropyRewardsOf(nets, dist, wealths) + Zeros(N - |wealths|) + [util(finalWealth)], N)[0]
  }

  /** Episode `ep` followed the path `wealths` to `finalWealth` and scored `score`. */
  ghost predicate EpisodeScored(ep: EpisodeDraws, dist: Distribution, util: real -> real, sqrtDt: real,
                                wealths: seq<real>, finalWealth: real, score: real)
  {
    IsTrajectory(ep.nets, sqrtDt, ep.x0, ep.eps, ep.noise, wealths, finalWealth) &&
    score == EpisodeScore(ep.nets, dist, util, wealths, finalWealth)
  }

  /** One pass of the training loop: the rollout and the learning step,
      which sets the agent's score. */
  method Episode(agent: Agent, nets: Networks, dist: Distribution, util: real -> real,
                 sqrtDt: real, x0: real, eps: seq<real>, noise: seq<real>)
    returns (wealths: seq<real>, finalWealth: real, ruined: bool, initialValue: real,
             valLoss: real, policyLoss: real)
    requires 0.0 <= x0
    requires N <= |eps| && N <= |noise|
    requires agent.rewardMemory == [] && agent.actionMemory == [] && agent.valueMemory == []
    modifies agent
    ensures 1 <= |wealths| <= N && wealths[0] == x0 && finalWealth >= 0.0
    ensures IsTrajectory(nets, sqrtDt, x0, eps, noise, wealths, finalWealth)
    ensures agent.score == EpisodeScore(nets, dist, util, wealths, finalWealth)
    ensures ruined <==> finalWealth == 0.0
    ensures !ruined ==> |wealths| == N
    ensures var rewards := EntropyRewardsOf(nets, dist, wealths) + Zeros(N - |wealths|) + [util(finalWealth)];
            var values := ValuesOf(nets, wealths) + Zeros(N - |wealths|);
            var g := Returns(rewards, N);
            var d := Deltas(g, values, N);
            agent.score == g[0] &&
            valLoss == ZipLoss(d, values) &&
            policyLoss == ZipLoss(d[..|wealths|], LogProbsOf(nets, dist, wealths, eps))
    // a ruin on the first step leaves only the utility of zero wealth as score
    ensures ruined && |wealths| == 1 ==> agent.score == util(0.0)
    ensures initialValue == nets.value(x0, Horizon)
    ensures agent.meanMemory == old(agent.meanMemory) + [nets.policy(x0, Horizon).mean]
    ensures agent.sdMemory == old(agent.sdMemory) + [nets.policy(x0, Horizon).sd as real]
    ensures agent.rewardMemory == [] && agent.actionMemory == [] && agent.valueMemory == []
  {
    wealths, finalWealth, ruined, initialValue := Rollout(agent, nets, dist, util, sqrtDt, x0, eps, noise);
    ghost var rewards := agent.rewardMemory;
    ghost var values := agent.valueMemory;
    ghost var logProbs := agent.actionMemory;
    StepCount();
    var totalLoss;
    valLoss, policyLoss, totalLoss := agent.Learn();
    ghost var d := Deltas(Returns(rewards, N), values, N);
    ZipLossTruncates(d, logProbs);
    assert Min(|d|, |logProbs|) == |wealths| && logProbs[..|wealths|] == logProbs;
    if ruined && |wealths| == 1 {
      PaddedEpisodeAdvantages(EntropyRewardsOf(nets, dist, wealths), ValuesOf(nets, wealths), util(finalWealth), 0);
    }
  }

  /** Policy means at the initial state of each episode. */
  function InitialMeans(episodes: seq<EpisodeDraws>): (r: seq<real>)
    ensures |r| == |episodes|
  {
    seq(|episodes|, e requires 0 <= e < |episodes| => episodes[e].nets.policy(episodes[e].x0, Horizon).mean)
  }

  /** Policy standard deviations at the initial state of each episode. */
  function InitialSds(episodes: seq<EpisodeDraws>): (r: seq<real>)
    ensures |r| == |episodes|
  {
    seq(|episodes|, e requires 0 <= e < |episodes| => episodes[e].nets.policy(episodes[e].x0, Horizon).sd as real)
  }

  /** Value estimates at the initial state of each episode. */
  function InitialValues(episodes: seq<EpisodeDraws>): (r: seq<real>)
    ensures |r| == |episodes|
  {
    seq(|episodes|, e requires 0 <= e < |episodes| => episodes[e].nets.value(episodes[e].x0, Horizon))
  }

  /** Running one more episode adds one entry to each initial-state history. */
  lemma InitialsExtend(episodes: seq<EpisodeDraws>, k: nat)
    requires k < |episodes|
    ensures var ep := episodes[k];
            InitialValues(episodes[..k + 1]) == InitialValues(episodes[..k]) + [ep.nets.value(ep.x0, Horizon)] &&
            InitialMeans(episodes[..k + 1]) == InitialMeans(episodes[..k]) + [ep.nets.policy(ep.x0, Horizon).mean] &&
            InitialSds(episodes[..k + 1]) == InitialSds(episodes[..k]) + [ep.nets.policy(ep.x0, Horizon).sd as real]
  {
  }

  /** The training run: Epochs episodes, each from an initial wealth drawn
      in [0, 1.5). Every episode appends exactly one entry to the score
      history, the initial-value history and the agent's mean and
      standard-deviation histories, and leaves the episode buffers empty. */
  method Train(agent: Agent, dist: Distribution, util: real -> real, sqrtDt: real,
               episodes: seq<EpisodeDraws>)
    returns (episodeScores: seq<real>, episodeValues: seq<real>,
             ghost trajectories: seq<seq<real>>, ghost finalWealths: seq<real>)
    requires |episodes| == Epochs
    requires forall e :: 0 <= e < |episodes| ==>
               0.0 <= episodes[e].x0 < 1.5 && N <= |episodes[e].eps| && N <= |episodes[e].noise|
    requires agent.rewardMemory == [] && agent.actionMemory == [] && agent.valueMemory == []
    modifies agent
    // entry e of the score history is the first return of episode e, whose
    // path the draws of episode e determine
    ensures |episodeScores| == Epochs && |trajectories| == Epochs && |finalWealths| == Epochs
    ensures forall e :: 0 <= e < Epochs ==>
              EpisodeScored(episodes[e], dist, util, sqrtDt, trajectories[e], finalWealths[e], episodeScores[e])
    ensures episodeValues == InitialValues(episodes)
    ensures agent.meanMemory == old(agent.meanMemory) + InitialMeans(episodes)
    ensures agent.sdMemory == old(agent.sdMemory) + InitialSds(episodes)
    ensures agent.rewardMemory == [] && agent.actionMemory == [] && agent.valueMemory == []
  {
    episodeScores, episodeValues := [], [];
    trajectories, finalWealths := [], [];
    for epoch := 0 to Epochs
      invariant |episodeScores| == epoch && |trajectories| == epoch && |finalWealths| == epoch
      invariant forall e :: 0 <= e < epoch ==>
                  EpisodeScored(episodes[e], dist, util, sqrtDt, trajectories[e], finalWealths[e], episodeScores[e])
      invariant episodeValues == InitialValues(episodes[..epoch])
      invariant agent.meanMemory == old(agent.meanMemory) + InitialMeans(episodes[..epoch])
      invariant agent.sdMemory == old(agent.sdMemory) + InitialSds(episodes[..epoch])
      invariant agent.rewardMemory == [] && agent.actionMemory == [] && agent.valueMemory == []
    {
      var ep := episodes[epoch];
      InitialsExtend(episodes, epoch);
      var wealths, finalWealth, ruined, initialValue, valLoss, policyLoss :=
        Episode(agent, ep.nets, dist, util, sqrtDt, ep.x0, ep.eps, ep.noise);
      episodeValues := episodeValues + [initialValue];
      episodeScores := episodeScores + [agent.score];
      trajectories := trajectories + [wealths];
      finalWealths := finalWealths + [finalWealth];
    }
    assert episodes[..Epochs] == episodes;
  }
}
