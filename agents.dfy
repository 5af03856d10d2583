/** The investment agent: its per-episode buffers (rewards, log-probabilities
    of the chosen actions, value estimates), its run-long diagnostics (policy
    mean and standard deviation at each episode's initial state), and the
    learning step that turns a finished episode into a score and two losses. */
module Agents {
  import opened Environment
  import opened Gains

  /** A strictly positive standard deviation, as the policy's soft-plus
      output layer guarantees. */
  type Scale = s: real | s > 0.0 witness 1.0

  /** What the policy network yields for one state: the mean of the normal
      action distribution, left unconstrained, and its standard deviation. */
  datatype PolicyOutput = PolicyOutput(mean: real, sd: Scale)

  /** The two networks as they stand during one episode, each a function of
      the state (wealth, time to go). Their parameters change only between
      episodes, when the optimiser steps. */
  datatype Networks = Networks(value: (real, real) -> real, policy: (real, real) -> PolicyOutput)

  /** The normal distribution's log-density of an action and its
      differential entropy, both taken as given. */
  datatype Distribution = Distribution(logProb: (real, Scale, real) -> real, entropy: Scale -> real)

  /** Time to go at step i. */
  function TimeToGo(i: int): real
  {
    Horizon - i as real * Dt
  }

  /** The action drawn from Normal(mean, sd) with the standard-normal draw `e`. */
  function SampledAction(out: PolicyOutput, e: real): real
  {
    out.mean + out.sd * e
  }

  class Agent {
    /** Rewards of the current episode. */
    var rewardMemory: seq<real>
    /** Log-probabilities of the actions taken in the current episode. */
    var actionMemory: seq<real>
    /** Value estimates of the states of the current episode. */
    var valueMemory: seq<real>
    /** Policy mean at each episode's initial state, kept for the whole run. */
    var meanMemory: seq<real>
    /** Policy standard deviation at each episode's initial state, kept for the whole run. */
    var sdMemory: seq<real>
    /** Policy mean and standard deviation of the last chosen action. */
    var mean: real
    var sd: real
    /** Entropy reward of the last chosen action. */
    var reward: real
    /** Score of the last learned episode. */
    var score: real

    constructor ()
      ensures rewardMemory == [] && actionMemory == [] && valueMemory == []
      ensures meanMemory == [] && sdMemory == []
    {
      rewardMemory, actionMemory, valueMemory := [], [], [];
      meanMemory, sdMemory := [], [];
    }

    /** Samples an action for the state (wealth, time to go at time t): records
        the policy's mean and standard deviation, stores the action's
        log-probability, and sets the reward to the temperature times the
        distribution's entropy. */
    method ChooseAction(nets: Networks, dist: Distribution, wealth: real, t: real, e: real)
      returns (action: real)
      modifies this`mean, this`sd, this`actionMemory, this`reward
      ensures var out := nets.policy(wealth, Horizon - t);
              mean == out.mean && sd == out.sd && sd > 0.0 &&
              action == SampledAction(out, e) &&
              actionMemory == old(actionMemory) + [dist.logProb(out.mean, out.sd, action)] &&
              reward == Lam * dist.entropy(out.sd)
    {
      var out := nets.policy(wealth, Horizon - t);
      mean, sd := out.mean, out.sd;
      action := SampledAction(out, e);
      actionMemory := actionMemory + [dist.logProb(out.mean, out.sd, action)];
      reward := Lam * dist.entropy(out.sd);
    }

    method StoreValue(value: real)
      modifies this`valueMemory
      ensures valueMemory == old(valueMemory) + [value]
    {
      valueMemory := valueMemory + [value];
    }

    method StoreRewards(reward: real)
      modifies this`rewardMemory
      ensures rewardMemory == old(rewardMemory) + [reward]
    {
      rewardMemory := rewardMemory + [reward];
    }

    method StoreMeans(mean: real)
      modifies this`meanMemory
      ensures meanMemory == old(meanMemory) + [mean]
    {
      meanMemory := meanMemory + [mean];
    }

    method StoreSds(sd: real)
      modifies this`sdMemory
      ensures sdMemory == old(sdMemory) + [sd]
    {
      sdMemory := sdMemory + [sd];
    }

    /** The learning step after an episode: computes the N returns and
        deltas, sets the score to the first return, sums the value and policy
        losses over zip(deltas, ...), and empties the three episode buffers.
        The gradient step on the losses is not modelled. */
    method Learn() returns (valLoss: real, policyLoss: real, totalLoss: real)
      requires N < |rewardMemory| && N <= |valueMemory|
      modifies this`rewardMemory, this`actionMemory, this`valueMemory, this`score
      ensures var g := Returns(old(rewardMemory), N);
              var d := Deltas(g, old(valueMemory), N);
              score == g[0] &&
              valLoss == ZipLoss(d, old(valueMemory)) &&
              policyLoss == ZipLoss(d, old(actionMemory)) &&
              totalLoss == valLoss + policyLoss
      ensures rewardMemory == [] && actionMemory == [] && valueMemory == []
    {
      StepCount();
      var g := ComputeReturns(rewardMemory, N);
      assert g == Returns(rewardMemory, N);
      var deltas := ComputeDeltas(g, valueMemory, N);
      assert deltas == Deltas(g, valueMemory, N);
      score := g[0];
      valLoss := AccumulateLoss(deltas, valueMemory);
      policyLoss := AccumulateLoss(deltas, actionMemory);
      totalLoss := valLoss + policyLoss;
      rewardMemory := [];
      actionMemory := [];
      valueMemory := [];
    }
  }
}
