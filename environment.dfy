/** The simulated investment market: the fixed model constants, the one-step
    wealth transition, the clamp that keeps wealth non-negative, and the
    closed-form optimal control used only for validation. */
module Environment {

  /** Time increment: one week of a year. */
  const Dt: real := 1.0 / 52.0
  /** Investment horizon: two time increments. */
  const Horizon: real := 2.0 * Dt
  /** Number of time steps per episode, floor(Horizon / Dt). */
  const N: nat := (Horizon / Dt).Floor
  /** Number of training episodes. */
  const Epochs: nat := 5000

  /** Drift of the stock. */
  const Mu: real := 0.1
  /** Volatility of the stock. */
  const Sigma: real := 0.1
  /** Risk-free rate. */
  const RiskFree: real := 0.02
  /** Sharpe ratio (Mu - RiskFree) / Sigma. */
  const Rho: real := (Mu - RiskFree) / Sigma
  /** Temperature of the entropy reward. */
  const Lam: real := 0.001
  /** Exponent of the power utility. */
  const Gamma: real := 0.5

  /** The optimal control at unit wealth, the module-level constant of the program. */
  const OptimalMean: real := Rho / (Sigma * (1.0 - Gamma))

  /** The horizon is exactly two steps long. */
  lemma StepCount()
    ensures N == 2 && Horizon - (N - 1) as real * Dt == Dt
  {
  }

  /** New wealth after investing `action` for one step, where `noise` is the
      standard-normal draw and `sqrtDt` stands for the square root of Dt. */
  function Wealth(x: real, action: real, noise: real, sqrtDt: real): (r: real)
    // investing nothing leaves wealth unchanged, whatever the draw
    ensures action == 0.0 ==> r == x
  {
    x + Sigma * action * (Rho * Dt + sqrtDt * noise)
  }

  /** Wealth rises exactly when the allocation and the step's excess return
      share a sign, and falls exactly when their signs differ. */
  lemma WealthDirection(x: real, action: real, noise: real, sqrtDt: real)
    ensures Wealth(x, action, noise, sqrtDt) > x <==> action * (Rho * Dt + sqrtDt * noise) > 0.0
    ensures Wealth(x, action, noise, sqrtDt) < x <==> action * (Rho * Dt + sqrtDt * noise) < 0.0
  {
  }

  /** The change in wealth is linear in the allocation: it scales with the
      action, and two allocations add up. */
  lemma WealthLinearInAction(x: real, a: real, b: real, noise: real, sqrtDt: real)
    ensures Wealth(x, a + b, noise, sqrtDt) - x
            == (Wealth(x, a, noise, sqrtDt) - x) + (Wealth(x, b, noise, sqrtDt) - x)
    ensures Wealth(x, a, noise, sqrtDt) - x == a * (Wealth(x, 1.0, noise, sqrtDt) - x)
  {
  }

  /** A negative new wealth is replaced by exactly zero; any other value is kept. */
  function ClampWealth(x: real): (r: real)
    ensures r >= 0.0
    ensures x >= 0.0 ==> r == x
    ensures x < 0.0 ==> r == 0.0
  {
    if x < 0.0 then 0.0 else x
  }

  /** Clamping is idempotent, and a clamped wealth is zero exactly when the
      unclamped one was not positive. */
  lemma ClampWealthIdempotent(x: real)
    ensures ClampWealth(ClampWealth(x)) == ClampWealth(x)
    ensures ClampWealth(x) == 0.0 <==> x <= 0.0
  {
  }

  /** Optimal allocation for power utility and no entropy reward. */
  function TrueMean(x: real): (r: real)
    ensures r == 16.0 * x
  {
    (Rho * x) / (Sigma * (1.0 - Gamma))
  }

  /** The optimal allocation is linear in wealth, vanishes at zero wealth,
      and equals sixteen times the wealth with these parameters. */
  lemma TrueMeanLinear(a: real, x: real, y: real)
    ensures TrueMean(a * x + y) == a * TrueMean(x) + TrueMean(y)
    ensures TrueMean(0.0) == 0.0
    ensures TrueMean(x) == 16.0 * x
    ensures TrueMean(1.0) == OptimalMean == 16.0
  {
  }
}
