# REINFORCE-with-baseline investment agent: the bookkeeping, in Dafny

The program trains a Gaussian investment policy and a value baseline by
REINFORCE with baseline. An agent holds wealth, chooses an allocation to a
risky asset each week for a two-week horizon, and is rewarded by an entropy
bonus at every step plus the utility of its terminal wealth.

This project models the deterministic bookkeeping around that training.
Every neural-network output and every random draw is an input to the model.

- `environment.dfy` (`Environment`): the model constants, the one-step wealth
  transition `Wealth`, the clamp of negative wealth to zero, and the
  closed-form optimal mean `TrueMean`.
- `gains.dfy` (`Gains`): the learning arithmetic. It covers the undiscounted,
  one-step-shifted reward-to-go `G[j]` (the sum of the rewards at indices
  j+1..N), the deltas `G[j] - value[j]`, and the two advantage-weighted loss
  sums over `zip`, which stops at the shorter list. Each loop of the source is
  a method proved against a specification function (`Sum`, `Returns`,
  `Deltas`, `ZipLoss`), and the properties of those functions are lemmas.
- `agents.dfy` (`Agents`): the `Agent` class. It has three episode buffers
  (rewards, log-probabilities, value estimates), two run-long diagnostic
  lists (initial-state mean and standard deviation), the `Store*` methods,
  `ChooseAction` and `Learn`.
- `training.dfy` (`Training`): one episode's rollout. It includes the clamp,
  the early stop on ruin with zero padding, and the terminal utility reward.
- `driver.dfy` (`Driver`): one training episode (rollout, learn, score) and
  the outer loop over all episodes.

The networks change only between episodes, when the optimiser steps. So each
episode receives the networks it runs with as a `Networks` value: a value
function and a policy function of (wealth, time to go). The standard
deviation the policy yields has the type `Scale` (a real > 0), which is what
the soft-plus output layer guarantees. The normal log-density and entropy
come in as a `Distribution` value, and the utility as a function parameter
`util`. The action drawn from Normal(mean, sd) is `mean + sd * e` for a
standard-normal draw `e`.

Three consequences of the code are worth stating outright:
- `learn` computes N returns from N + 1 rewards. So rewards [1, 2, 3, 4]
  over three steps give [9, 7, 4] (`Gains.ReturnsExample`).
- No discount is applied. The agent's `gamma` attribute
  (REINFORCE_BASELINE_PolicyNet5_proof.py:99) is never read.
- Ruin is checked only on the wealth after a step. So an episode that starts
  at wealth 0 takes its first step; the initial draw lies in [0, 1.5).

## Model

| member | source | states |
|---|---|---|
| `Environment.StepCount` | REINFORCE_BASELINE_PolicyNet5_proof.py:23-26 | N = floor(T / dt) is 2, and the time to go at the last step is one dt |
| `Environment.Wealth` | REINFORCE_BASELINE_PolicyNet5_proof.py:192-195 | the new wealth `x + sigma*a*(rho*dt + sqrt(dt)*z)`; allocating 0 leaves wealth unchanged, whatever the noise draw |
| `Environment.WealthDirection` | REINFORCE_BASELINE_PolicyNet5_proof.py:192-195 | wealth rises exactly when the allocation and the step's excess return `rho*dt + sqrt(dt)*z` have the same sign, and falls exactly when their signs differ |
| `Environment.WealthLinearInAction` | REINFORCE_BASELINE_PolicyNet5_proof.py:192-195 | the wealth change is linear in the allocation: additive in two allocations, and equal to the action times the change for a unit allocation |
| `Environment.ClampWealth` | REINFORCE_BASELINE_PolicyNet5_proof.py:259-262 | the result is never negative, a negative wealth becomes exactly 0, and a non-negative one is kept |
| `Environment.ClampWealthIdempotent` | REINFORCE_BASELINE_PolicyNet5_proof.py:259-263 | clamping twice is clamping once, and the clamped wealth is 0 exactly when the new wealth was not positive, which is when the ruin branch is taken |
| `Environment.TrueMean` | REINFORCE_BASELINE_PolicyNet5_proof.py:207-210 | the optimal control `(rho*x)/(sigma*(1-gamma))` is 16 times the wealth with these parameters |
| `Environment.TrueMeanLinear` | REINFORCE_BASELINE_PolicyNet5_proof.py:207-210 | the optimal control is linear in wealth, 0 at wealth 0, 16 times the wealth for these parameters, and agrees with the module-level `true_mean` at wealth 1 |
| `Gains.ComputeReturns` | REINFORCE_BASELINE_PolicyNet5_proof.py:150-155 | the nested loops yield exactly N returns, and `G[j]` is the undiscounted sum of `reward_memory[j+1..N]`, without the reward at j itself |
| `Gains.ReturnsRecurrence` | REINFORCE_BASELINE_PolicyNet5_proof.py:151-155 | the returns satisfy `G[j] = reward[j+1] + G[j+1]` for j < N-1, and `G[N-1] = reward[N]` |
| `Gains.FirstReturnSkipsFirstReward` | REINFORCE_BASELINE_PolicyNet5_proof.py:151-161 | the score `G[0]` is the episode's total reward minus the entropy reward stored at step 0 |
| `Gains.ReturnsAfterZeroRewards` | REINFORCE_BASELINE_PolicyNet5_proof.py:151-155 | when the rewards strictly between step i and N are all 0, every return from step i on equals the terminal reward |
| `Gains.ReturnsExample` | REINFORCE_BASELINE_PolicyNet5_proof.py:151-155 | rewards [1, 2, 3, 4] over three steps give the returns [9, 7, 4] |
| `Gains.ComputeDeltas` | REINFORCE_BASELINE_PolicyNet5_proof.py:157-159 | exactly N deltas, with `deltas[j] = G[j] - value_memory[j]` |
| `Gains.AccumulateLoss` | REINFORCE_BASELINE_PolicyNet5_proof.py:171-177 | the running sum of `-d * x` over `zip(deltas, xs)` equals the specified zip loss |
| `Gains.ZipLossTruncates` | REINFORCE_BASELINE_PolicyNet5_proof.py:176-177 | the loss depends only on the first min(len(deltas), len(xs)) pairs, as `zip` truncates |
| `Agents.Agent.constructor` | REINFORCE_BASELINE_PolicyNet5_proof.py:98-104 | a new agent has all five lists empty |
| `Agents.Agent.ChooseAction` | REINFORCE_BASELINE_PolicyNet5_proof.py:108-118 | records the policy's mean and positive standard deviation for the state, returns the sampled action, appends exactly its log-probability to `action_memory`, and sets the reward to `lam` times the entropy; no other field changes |
| `Agents.Agent.StoreValue` | REINFORCE_BASELINE_PolicyNet5_proof.py:126-128 | appends exactly one value to `value_memory` and changes nothing else |
| `Agents.Agent.StoreRewards` | REINFORCE_BASELINE_PolicyNet5_proof.py:130-132 | appends exactly one reward to `reward_memory` and changes nothing else |
| `Agents.Agent.StoreMeans` | REINFORCE_BASELINE_PolicyNet5_proof.py:134-136 | appends exactly one mean to `mean_memory` and changes nothing else |
| `Agents.Agent.StoreSds` | REINFORCE_BASELINE_PolicyNet5_proof.py:138-140 | appends exactly one standard deviation to `sd_memory` and changes nothing else |
| `Agents.Agent.Learn` | REINFORCE_BASELINE_PolicyNet5_proof.py:142-189 | the score is the first return; the value and policy losses are the zip losses of the deltas against the values and the log-probabilities, and the total is their sum; afterwards the three episode lists are empty, and the mean and sd histories are unchanged |
| `Training.NextWealth` | REINFORCE_BASELINE_PolicyNet5_proof.py:253-262 | the next wealth is the clamped result of `wealth` at the sampled action: never negative, equal to the unclamped wealth when that is non-negative, and 0 when it is negative |
| `Training.TrajectoryUnique` | REINFORCE_BASELINE_PolicyNet5_proof.py:246-267 | the draws determine the episode: two paths from the same initial wealth with the same draws and networks are the same path with the same final wealth |
| `Training.PadRuinedEpisode` | REINFORCE_BASELINE_PolicyNet5_proof.py:263-267 | appends exactly `N-1-i` zero rewards and `N-1-i` zero values |
| `Training.TakeStep` | REINFORCE_BASELINE_PolicyNet5_proof.py:247-253 | one step stores the state's value estimate, the action's log-probability and the entropy reward, and returns the unclamped new wealth |
| `Training.RunSteps` | REINFORCE_BASELINE_PolicyNet5_proof.py:246-267 | the step loop: the path so far is the clamped successor chain from x0, ruin holds exactly when the last new wealth is 0, and without ruin all N steps are taken; the rewards and values are the step entries padded with zeros to N; one log-probability per step; the initial mean and sd are appended once |
| `Training.Rollout` | REINFORCE_BASELINE_PolicyNet5_proof.py:243-268 | wealth is never negative, and only the final step can reach 0; ruin holds exactly when the final wealth is 0; without ruin all N steps are taken; the rewards are the step rewards, then zeros up to N entries, then `util(final wealth)`, so N + 1 in all; the values are the step values padded with zeros to N; one log-probability per step taken; the initial mean and sd are appended once |
| `Driver.PaddedEpisodeAdvantages` | REINFORCE_BASELINE_PolicyNet5_proof.py:263-268 | after ruin at step i, every return from step i on and every padded step's delta equals the terminal reward, that is `util(0)` |
| `Driver.Episode` | REINFORCE_BASELINE_PolicyNet5_proof.py:243-270 | the episode follows the trajectory its draws determine; the score is the first return of the padded rewards; the value loss sums all N pairs; the policy loss sums only the steps taken; ruin on the first step gives the score `util(0)`; the episode buffers end empty |
| `Driver.Train` | REINFORCE_BASELINE_PolicyNet5_proof.py:240-271 | over EPOCHS episodes, entry e of the score history is the first return of episode e, along the trajectory its draws determine; entry e of the initial-value history and of the mean and sd histories is taken at episode e's initial state |

## Left out

- The policy and value networks (layers, leaky ReLU, soft-plus) and the Adam
  optimiser are outside the model. Each episode's network functions are
  inputs. Only the sign of the policy's standard deviation is kept, through
  the type `Scale`.
- Sampling, `log_prob` and `entropy` of the normal distribution are inputs.
  The sample is `mean + sd * e` for a given standard-normal draw.
- Back-propagation and the optimiser steps are left out: the losses are
  modelled as values only.
- Random draws are parameters: each episode's initial wealth, action draws
  and market noise. The single seeded generator and the order in which the
  program consumes its draws are not modelled.
- `util` (a fractional power) is a function parameter. `true_value` (an
  exponential) and `sqrt(dt)` are also not computed: `sqrt(dt)` is a
  parameter of the transition.
- Floating-point rounding is not modelled: all quantities are exact reals.
- `get_value` is modelled inline, as the value network applied to (wealth,
  time to go). The `episode_wealths` list is the `wealths` result of
  `Rollout`.
- Agents.Agent.Learn: requires at least N + 1 rewards and N values. With
  fewer, the program raises an index error, which is not modelled. The driver
  always supplies exactly that many.
- Training.Rollout and Training.RunSteps: require the three episode buffers
  to be empty at the start. The training loop always guarantees this, because `learn` clears
  them.
- Plotting, the surface plot and the commented-out testing code are left
  out.
