/**
 * Model-predictive control over an ensemble of learned dynamics models
 * (`MPCPolicy`, hw4/cs285/policies/MPC_policy.py).
 *
 * The learned dynamics models, the environment's reward and the random
 * number generator are outside the model: the first two are total functions
 * handed in by the caller, the third is a batch of draws in [0, 1).
 * `S` is the type of the normalisation statistics, which the planner only
 * passes through to the dynamics models.
 */
module MpcPlanning {
  import opened Wrappers
  import opened Reductions

  type Obs = seq<real>
  type Action = seq<real>

  /** One dynamics model's prediction of the next observation, row by row. */
  type Dynamics<!S> = (Obs, Action, Option<S>) -> Obs

  /** The environment's reward for one row: the reward and a done flag. */
  type Reward = (Obs, Action) -> (real, bool)

  // ---------------------------------------------------------------------
  // Trajectory sampler
  // ---------------------------------------------------------------------

  /** `b` has the shape (n, h, d) of a numpy array of actions or draws. */
  predicate HasShape(b: seq<seq<seq<real>>>, n: nat, h: nat, d: nat)
  {
    |b| == n &&
    forall i :: 0 <= i < n ==>
      |b[i]| == h && forall t :: 0 <= t < h ==> |b[i][t]| == d
  }

  /** A batch of draws as `np.random.random((n, h, d))` returns it: every entry in [0, 1). */
  predicate IsDrawBatch(draws: seq<seq<seq<real>>>, n: nat, h: nat, d: nat)
  {
    HasShape(draws, n, h, d) &&
    forall i, t, k :: 0 <= i < n && 0 <= t < h && 0 <= k < d ==>
      0.0 <= draws[i][t][k] < 1.0
  }

  /**
   * Where `lo + u * (hi - lo)` lands for `u` in [0, 1): in [lo, hi) for an
   * ordinary bound, exactly `lo` for a degenerate one, and in (hi, lo] when
   * the bounds are reversed.
   */
  predicate InDrawRange(lo: real, hi: real, x: real)
  {
    if lo < hi then lo <= x < hi
    else if lo == hi then x == lo
    else hi < x <= lo
  }

  /** `high - low`, the width of the action box in every dimension. */
  function Span(low: Action, high: Action): (span: seq<real>)
    requires |low| == |high|
    ensures |span| == |low|
  {
    seq(|low|, k requires 0 <= k < |low| => high[k] - low[k])
  }

  /**
   * `sample_action_sequences`: `low + random((n, h, acDim)) * (high - low)`,
   * with the random array given as `draws`.
   */
  function SampleActionSequences(low: Action, high: Action, acDim: nat,
                                 numSequences: nat, horizon: nat,
                                 draws: seq<seq<seq<real>>>): (r: seq<seq<Action>>)
    requires |low| == acDim && |high| == acDim
    requires IsDrawBatch(draws, numSequences, horizon, acDim)
    ensures HasShape(r, numSequences, horizon, acDim)
  {
    var span := Span(low, high);
    seq(numSequences, i requires 0 <= i < numSequences =>
      seq(horizon, t requires 0 <= t < horizon =>
        seq(acDim, k requires 0 <= k < acDim =>
          low[k] + draws[i][t][k] * span[k])))
  }

  /** A draw in [0, 1) scales a positive width `w` to a value in [0, w). */
  lemma ScaledWidth(u: real, w: real)
    requires 0.0 <= u < 1.0 && w > 0.0
    ensures 0.0 <= u * w < w
  {
    assert (1.0 - u) * w > 0.0;
  }

  /** `lo + u * (hi - lo)`, with the width `hi - lo` computed first as numpy does, is in range. */
  lemma ScaledDrawInRange(lo: real, hi: real, width: real, u: real)
    requires width == hi - lo && 0.0 <= u < 1.0
    ensures InDrawRange(lo, hi, lo + u * width)
  {
    if width > 0.0 {
      ScaledWidth(u, width);
    } else if width < 0.0 {
      ScaledWidth(u, -width);
      assert u * -width == -(u * width);
    }
  }

  /** Every sampled entry lies in its dimension's range, as `InDrawRange` describes it. */
  lemma SampleWithinBounds(low: Action, high: Action, acDim: nat,
                           numSequences: nat, horizon: nat,
                           draws: seq<seq<seq<real>>>)
    requires |low| == acDim && |high| == acDim
    requires IsDrawBatch(draws, numSequences, horizon, acDim)
    ensures var r := SampleActionSequences(low, high, acDim, numSequences, horizon, draws);
      forall i, t, k :: 0 <= i < numSequences && 0 <= t < horizon && 0 <= k < acDim ==>
        InDrawRange(low[k], high[k], r[i][t][k])
  {
    var r, span := SampleActionSequences(low, high, acDim, numSequences, horizon, draws), Span(low, high);
    forall i, t, k | 0 <= i < numSequences && 0 <= t < horizon && 0 <= k < acDim
      ensures InDrawRange(low[k], high[k], r[i][t][k])
    {
      ScaledDrawInRange(low[k], high[k], span[k], draws[i][t][k]);
    }
  }

  /**
   * Where the bounds differ, each sampled entry determines its draw:
   * `(x - low) / (high - low)` gives back the random number used.
   */
  lemma SampleDeterminesDraws(low: Action, high: Action, acDim: nat,
                              numSequences: nat, horizon: nat,
                              draws: seq<seq<seq<real>>>)
    requires |low| == acDim && |high| == acDim
    requires IsDrawBatch(draws, numSequences, horizon, acDim)
    ensures var r := SampleActionSequences(low, high, acDim, numSequences, horizon, draws);
      forall i, t, k ::
        0 <= i < numSequences && 0 <= t < horizon && 0 <= k < acDim && low[k] != high[k] ==>
          (r[i][t][k] - low[k]) / (high[k] - low[k]) == draws[i][t][k]
  {
  }

  // ---------------------------------------------------------------------
  // Rollout evaluator: specification
  // ---------------------------------------------------------------------

  /**
   * The observation predicted for step `t` of the action sequence `acts`:
   * the real observation at step 0, then the model applied to the previous
   * prediction and the previous action.
   */
  function PredictedObs<S>(model: Dynamics<S>, stats: Option<S>, obs: Obs,
                           acts: seq<Action>, t: nat): Obs
    requires t < |acts|
  {
    if t == 0 then obs
    else model(PredictedObs(model, stats, obs, acts, t - 1), acts[t - 1], stats)
  }

  /** The predicted trajectory of one candidate: one observation per step of the horizon. */
  function Rollout<S>(model: Dynamics<S>, stats: Option<S>, obs: Obs,
                      acts: seq<Action>): (traj: seq<Obs>)
    ensures |traj| == |acts|
    ensures |acts| > 0 ==> traj[0] == obs
    ensures forall t :: 0 <= t < |acts| - 1 ==> traj[t + 1] == model(traj[t], acts[t], stats)
  {
    seq(|acts|, t requires 0 <= t < |acts| => PredictedObs(model, stats, obs, acts, t))
  }

  /**
   * The first-step and recurrence equations determine the trajectory: any
   * sequence of observations that satisfies them is `Rollout`.
   */
  lemma {:induction false} RolloutUnique<S>(model: Dynamics<S>, stats: Option<S>, obs: Obs,
                                            acts: seq<Action>, traj: seq<Obs>)
    requires |traj| == |acts|
    requires |acts| > 0 ==> traj[0] == obs
    requires forall t :: 0 <= t < |acts| - 1 ==> traj[t + 1] == model(traj[t], acts[t], stats)
    ensures traj == Rollout(model, stats, obs, acts)
  {
    var r := Rollout(model, stats, obs, acts);
    forall t | 0 <= t < |acts|
      ensures traj[t] == r[t]
    {
      TrajectoryAgrees(model, stats, obs, acts, traj, t);
    }
  }

  lemma {:induction false} TrajectoryAgrees<S>(model: Dynamics<S>, stats: Option<S>, obs: Obs,
                                               acts: seq<Action>, traj: seq<Obs>, t: nat)
    requires |traj| == |acts| && t < |acts|
    requires traj[0] == obs
    requires forall s :: 0 <= s < |acts| - 1 ==> traj[s + 1] == model(traj[s], acts[s], stats)
    ensures traj[t] == PredictedObs(model, stats, obs, acts, t)
  {
    if t > 0 {
      TrajectoryAgrees(model, stats, obs, acts, traj, t - 1);
      assert traj[t] == model(traj[t - 1], acts[t - 1], stats);
    }
  }

  /**
   * The prediction for step `t` depends only on the actions before `t`:
   * two action sequences that agree on their first `t` actions predict the
   * same observation at step `t`, whatever action `t` and the later ones are.
   */
  lemma {:induction false} PredictionIgnoresLaterActions<S>(model: Dynamics<S>, stats: Option<S>,
                                                            obs: Obs, a1: seq<Action>,
                                                            a2: seq<Action>, t: nat)
    requires t < |a1| && t < |a2| && a1[..t] == a2[..t]
    ensures PredictedObs(model, stats, obs, a1, t) == PredictedObs(model, stats, obs, a2, t)
  {
    if t > 0 {
      assert a1[..t - 1] == a1[..t][..t - 1] && a2[..t - 1] == a2[..t][..t - 1];
      PredictionIgnoresLaterActions(model, stats, obs, a1, a2, t - 1);
      assert a1[t - 1] == a1[..t][t - 1] == a2[..t][t - 1] == a2[t - 1];
    }
  }

  /**
   * Cutting the action sequence after `k` actions cuts the trajectory after
   * `k` steps: the predictions for steps below `k` depend only on the first
   * `k` actions.
   */
  lemma {:induction false} RolloutPrefix<S>(model: Dynamics<S>, stats: Option<S>, obs: Obs,
                                            acts: seq<Action>, k: nat)
    requires k <= |acts|
    ensures Rollout(model, stats, obs, acts[..k]) == Rollout(model, stats, obs, acts)[..k]
  {
    forall t | 0 <= t < k
      ensures PredictedObs(model, stats, obs, acts[..k], t) == PredictedObs(model, stats, obs, acts, t)
    {
      PredictedObsPrefix(model, stats, obs, acts, k, t);
    }
  }

  lemma {:induction false} PredictedObsPrefix<S>(model: Dynamics<S>, stats: Option<S>, obs: Obs,
                                                 acts: seq<Action>, k: nat, t: nat)
    requires t < k <= |acts|
    ensures PredictedObs(model, stats, obs, acts[..k], t) == PredictedObs(model, stats, obs, acts, t)
  {
    if t > 0 {
      PredictedObsPrefix(model, stats, obs, acts, k, t - 1);
    }
  }

  /** The per-step rewards of one candidate along its predicted trajectory; the done flag is dropped. */
  function StepRewards<S>(reward: Reward, model: Dynamics<S>, stats: Option<S>, obs: Obs,
                          acts: seq<Action>): (rs: seq<real>)
    ensures |rs| == |acts|
  {
    var traj := Rollout(model, stats, obs, acts);
    seq(|acts|, t requires 0 <= t < |acts| => reward(traj[t], acts[t]).0)
  }

  /** The predicted return of one candidate: the sum of its step rewards over the whole horizon. */
  function PredictedReturn<S>(reward: Reward, model: Dynamics<S>, stats: Option<S>, obs: Obs,
                              acts: seq<Action>): real
  {
    Sum(StepRewards(reward, model, stats, obs, acts))
  }

  /**
   * No early stop: the last step of the horizon always adds its reward to
   * the return of the shorter horizon, whatever the done flag says.
   */
  lemma ReturnCountsLastStep<S>(reward: Reward, model: Dynamics<S>, stats: Option<S>, obs: Obs,
                                acts: seq<Action>)
    requires |acts| > 0
    ensures var h := |acts| - 1;
      PredictedReturn(reward, model, stats, obs, acts) ==
        PredictedReturn(reward, model, stats, obs, acts[..h]) +
        reward(Rollout(model, stats, obs, acts)[h], acts[h]).0
  {
    var h := |acts| - 1;
    RolloutPrefix(model, stats, obs, acts, h);
    var rs := StepRewards(reward, model, stats, obs, acts);
    assert rs[..h] == StepRewards(reward, model, stats, obs, acts[..h]);
  }

  /** Two reward functions that agree on the reward, whatever their done flags, give the same return. */
  lemma DoneFlagIgnored<S>(reward1: Reward, reward2: Reward, model: Dynamics<S>, stats: Option<S>,
                           obs: Obs, acts: seq<Action>)
    requires forall o, a :: reward1(o, a).0 == reward2(o, a).0
    ensures PredictedReturn(reward1, model, stats, obs, acts) ==
            PredictedReturn(reward2, model, stats, obs, acts)
  {
    assert StepRewards(reward1, model, stats, obs, acts) == StepRewards(reward2, model, stats, obs, acts);
  }

  /** `calculate_sum_of_rewards` for every candidate of a batch under one model. */
  function Returns<S>(reward: Reward, model: Dynamics<S>, stats: Option<S>, obs: Obs,
                      cands: seq<seq<Action>>): (rs: seq<real>)
    ensures |rs| == |cands|
  {
    seq(|cands|, i requires 0 <= i < |cands| => PredictedReturn(reward, model, stats, obs, cands[i]))
  }

  // ---------------------------------------------------------------------
  // Ensemble aggregation and selection: specification
  // ---------------------------------------------------------------------

  /** Column `i` of a list of equally long return vectors: one entry per ensemble member. */
  function Column(perModel: seq<seq<real>>, i: nat): (col: seq<real>)
    requires forall m :: 0 <= m < |perModel| ==> i < |perModel[m]|
    ensures |col| == |perModel|
    ensures forall m :: 0 <= m < |perModel| ==> col[m] == perModel[m][i]
  {
    seq(|perModel|, m requires 0 <= m < |perModel| => perModel[m][i])
  }

  /** `np.mean(perModel, axis=0)` for a non-empty list of length-`n` vectors. */
  function EnsembleMean(perModel: seq<seq<real>>, n: nat): (mean: seq<real>)
    requires |perModel| > 0
    requires forall m :: 0 <= m < |perModel| ==> |perModel[m]| == n
    ensures |mean| == n
  {
    seq(n, i requires 0 <= i < n => Sum(Column(perModel, i)) / (|perModel| as real))
  }

  /** Dividing a total by a positive count keeps it within the per-entry bounds. */
  lemma QuotientBounds(total: real, count: real, lo: real, hi: real)
    requires count > 0.0 && count * lo <= total <= count * hi
    ensures lo <= total / count <= hi
  {
    assert (total / count) * count == total;
  }

  /** When every ensemble member predicts the same returns, the mean is those returns. */
  lemma MeanOfUnanimousEnsemble(perModel: seq<seq<real>>, n: nat, v: seq<real>)
    requires |perModel| > 0 && |v| == n
    requires forall m :: 0 <= m < |perModel| ==> perModel[m] == v
    ensures EnsembleMean(perModel, n) == v
  {
    var mean := EnsembleMean(perModel, n);
    forall i | 0 <= i < n
      ensures mean[i] == v[i]
    {
      SumOfConstantRow(Column(perModel, i), v[i]);
      QuotientBounds(Sum(Column(perModel, i)), |perModel| as real, v[i], v[i]);
    }
  }

  /** Each averaged return lies between the smallest and largest member's return for that candidate. */
  lemma MeanWithinEnsembleRange(perModel: seq<seq<real>>, n: nat, i: nat, lo: real, hi: real)
    requires |perModel| > 0
    requires forall m :: 0 <= m < |perModel| ==> |perModel[m]| == n
    requires i < n
    requires forall m :: 0 <= m < |perModel| ==> lo <= perModel[m][i] <= hi
    ensures lo <= EnsembleMean(perModel, n)[i] <= hi
  {
    var col := Column(perModel, i);
    SumBounds(col, lo, hi);
    QuotientBounds(Sum(col), |perModel| as real, lo, hi);
  }

  /** One return vector per ensemble member, in the order of the ensemble list. */
  function ReturnsPerModel<S>(reward: Reward, models: seq<Dynamics<S>>, stats: Option<S>,
                              obs: Obs, cands: seq<seq<Action>>): (perModel: seq<seq<real>>)
    ensures |perModel| == |models|
    ensures forall m :: 0 <= m < |models| ==> |perModel[m]| == |cands|
  {
    seq(|models|, m requires 0 <= m < |models| => Returns(reward, models[m], stats, obs, cands))
  }

  /** `predicted_rewards`: the ensemble-mean predicted return of every candidate. */
  function PredictedRewards<S>(reward: Reward, models: seq<Dynamics<S>>, stats: Option<S>,
                               obs: Obs, cands: seq<seq<Action>>): (mean: seq<real>)
    requires |models| > 0
    ensures |mean| == |cands|
  {
    EnsembleMean(ReturnsPerModel(reward, models, stats, obs, cands), |cands|)
  }

  /**
   * The index of the candidate the planner commits to: the first one whose
   * ensemble-mean predicted return is largest.
   */
  function PlannedIndex<S>(reward: Reward, models: seq<Dynamics<S>>, stats: Option<S>,
                           obs: Obs, cands: seq<seq<Action>>): (k: nat)
    requires |models| > 0 && |cands| > 0
    ensures IsFirstMax(PredictedRewards(reward, models, stats, obs, cands), k)
  {
    ArgMax(PredictedRewards(reward, models, stats, obs, cands))
  }

  // ---------------------------------------------------------------------
  // The policy object
  // ---------------------------------------------------------------------

  /** Row `i` of a two-dimensional array of rewards. */
  function Row(a: array2<real>, i: nat): (row: seq<real>)
    requires i < a.Length0
    reads a
    ensures |row| == a.Length1
    ensures forall t :: 0 <= t < a.Length1 ==> row[t] == a[i, t]
  {
    seq(a.Length1, t requires 0 <= t < a.Length1 reads a => a[i, t])
  }

  /** `rewards.sum(axis=1)`: one total per row. */
  function RowSums(a: array2<real>): (sums: seq<real>)
    reads a
    ensures |sums| == a.Length0
    ensures forall i :: 0 <= i < a.Length0 ==> sums[i] == Sum(Row(a, i))
  {
    seq(a.Length0, i requires 0 <= i < a.Length0 reads a => Sum(Row(a, i)))
  }

  class MpcPolicy<S> {
    /** `env.get_reward`. */
    const reward: Reward
    /** The ensemble of dynamics models. */
    const dynModels: seq<Dynamics<S>>
    const horizon: nat
    const numCandidates: nat
    const obDim: nat
    const acDim: nat
    /** The action space's lower and upper bounds, one per action dimension. */
    const low: Action
    const high: Action
    /** Normalisation statistics; `None` until assigned from outside. */
    var dataStatistics: Option<S>

    /** The bounds have one entry per action dimension. */
    predicate Valid()
    {
      |low| == acDim && |high| == acDim
    }

    constructor(reward: Reward, acDim: nat, dynModels: seq<Dynamics<S>>, horizon: nat,
                numCandidates: nat, obDim: nat, low: Action, high: Action)
      requires |low| == acDim && |high| == acDim
      ensures Valid()
      ensures this.reward == reward && this.acDim == acDim && this.dynModels == dynModels
      ensures this.horizon == horizon && this.numCandidates == numCandidates
      ensures this.obDim == obDim && this.low == low && this.high == high
      ensures dataStatistics == None
    {
      this.reward := reward;
      this.dynModels := dynModels;
      this.horizon := horizon;
      this.numCandidates := numCandidates;
      this.dataStatistics := None;
      this.obDim := obDim;
      this.acDim := acDim;
      this.low := low;
      this.high := high;
    }

    /**
     * One batched reward call: fills column `t` of `rewards` from column `t`
     * of `predObs`, which already holds the predicted observations. The
     * columns after `t` keep their values.
     */
    method RewardStep(predObs: array2<Obs>, rewards: array2<real>, ghost model: Dynamics<S>,
                      ghost stats: Option<S>, ghost obs: Obs, cands: seq<seq<Action>>, t: nat)
      requires predObs.Length0 == rewards.Length0 == |cands|
      requires t < rewards.Length1 == predObs.Length1
      requires forall i :: 0 <= i < |cands| ==> |cands[i]| == rewards.Length1
      requires forall i :: 0 <= i < |cands| ==>
        predObs[i, t] == PredictedObs(model, stats, obs, cands[i], t)
      requires forall i, s :: 0 <= i < |cands| && 0 <= s < t ==>
        rewards[i, s] == reward(PredictedObs(model, stats, obs, cands[i], s), cands[i][s]).0
      modifies rewards
      ensures forall i, s :: 0 <= i < |cands| && 0 <= s <= t ==>
        rewards[i, s] == reward(PredictedObs(model, stats, obs, cands[i], s), cands[i][s]).0
      ensures forall i, s :: 0 <= i < rewards.Length0 && t < s < rewards.Length1 ==>
        rewards[i, s] == old(rewards[i, s])
    {
      forall i | 0 <= i < rewards.Length0 {
        rewards[i, t] := reward(predObs[i, t], cands[i][t]).0;
      }
    }

    /**
     * One batched model call: fills column `t + 1` of `predObs` from
     * column `t` and the actions at step `t`. The columns after `t + 1` keep
     * their values.
     */
    method PredictStep(predObs: array2<Obs>, model: Dynamics<S>, stats: Option<S>, ghost obs: Obs,
                       cands: seq<seq<Action>>, t: nat)
      requires predObs.Length0 == |cands|
      requires t + 1 < predObs.Length1
      requires forall i :: 0 <= i < |cands| ==> |cands[i]| == predObs.Length1
      requires forall i, s :: 0 <= i < |cands| && 0 <= s <= t ==>
        predObs[i, s] == PredictedObs(model, stats, obs, cands[i], s)
      modifies predObs
      ensures forall i, s :: 0 <= i < |cands| && 0 <= s <= t + 1 ==>
        predObs[i, s] == PredictedObs(model, stats, obs, cands[i], s)
      ensures forall i, s :: 0 <= i < predObs.Length0 && t + 1 < s < predObs.Length1 ==>
        predObs[i, s] == old(predObs[i, s])
    {
      forall i | 0 <= i < predObs.Length0 {
        predObs[i, t + 1] := model(predObs[i, t], cands[i][t], stats);
      }
    }

    /**
     * `calculate_sum_of_rewards`: rolls every candidate forward through
     * `model` and sums the rewards over the horizon. `h` is the horizon axis
     * of the candidate array's shape, which numpy keeps even when there are
     * no candidates; a zero horizon makes the source fail at `pred_obs[:, 0]`.
     * `modelCalls` counts the batched calls to the dynamics model.
     */
    method CalculateSumOfRewards(obs: Obs, cands: seq<seq<Action>>, h: nat, model: Dynamics<S>)
      returns (sums: seq<real>, ghost modelCalls: nat)
      requires h >= 1
      requires forall i :: 0 <= i < |cands| ==> |cands[i]| == h
      ensures |sums| == |cands|
      ensures forall i :: 0 <= i < |cands| ==>
        sums[i] == PredictedReturn(reward, model, dataStatistics, obs, cands[i])
      ensures modelCalls == h - 1
    {
      var n, stats := |cands|, dataStatistics;
      var predObs := new Obs[n, h]((i, t) => seq(obDim, k => 0.0));
      forall i | 0 <= i < n {
        predObs[i, 0] := obs;
      }
      var rewards := new real[n, h];
      modelCalls := 0;
      for t := 0 to h
        invariant forall i, s :: 0 <= i < n && 0 <= s <= t && s < h ==>
          predObs[i, s] == PredictedObs(model, stats, obs, cands[i], s)
        invariant forall i, s :: 0 <= i < n && 0 <= s < t ==>
          rewards[i, s] == reward(PredictedObs(model, stats, obs, cands[i], s), cands[i][s]).0
        invariant modelCalls == if t < h then t else h - 1
      {
        RewardStep(predObs, rewards, model, stats, obs, cands, t);
        if t < h - 1 {
          PredictStep(predObs, model, stats, obs, cands, t);
          modelCalls := modelCalls + 1;
        }
      }
      sums := RowSums(rewards);
      forall i | 0 <= i < n
        ensures sums[i] == PredictedReturn(reward, model, stats, obs, cands[i])
      {
        assert Row(rewards, i) == StepRewards(reward, model, stats, obs, cands[i]);
      }
    }

    /**
     * `get_action`: a random one-step action while no statistics are set,
     * otherwise the first action of the candidate with the best
     * ensemble-mean predicted return, wrapped as a batch of one action.
     * `draws` stands for the random numbers the sampler consumes;
     * `modelCalls[m]` counts the batched calls to dynamics model `m`.
     */
    method GetAction(obs: Obs, draws: seq<seq<seq<real>>>)
      returns (action: seq<Action>, ghost modelCalls: seq<nat>)
      requires Valid()
      requires dataStatistics.None? ==> IsDrawBatch(draws, 1, 1, acDim)
      requires dataStatistics.Some? ==>
        IsDrawBatch(draws, numCandidates, horizon, acDim) &&
        numCandidates >= 1 && horizon >= 1 && |dynModels| >= 1
      ensures |action| == 1 && |action[0]| == acDim
      ensures forall k :: 0 <= k < acDim ==> InDrawRange(low[k], high[k], action[0][k])
      ensures |modelCalls| == |dynModels|
      ensures dataStatistics.None? ==>
        (forall m :: 0 <= m < |dynModels| ==> modelCalls[m] == 0) &&
        action == SampleActionSequences(low, high, acDim, 1, 1, draws)[0]
      ensures dataStatistics.Some? ==>
        var cands := SampleActionSequences(low, high, acDim, numCandidates, horizon, draws);
        (forall m :: 0 <= m < |dynModels| ==> modelCalls[m] == horizon - 1) &&
        action == [cands[PlannedIndex(reward, dynModels, dataStatistics, obs, cands)][0]]
    {
      if dataStatistics.None? {
        SampleWithinBounds(low, high, acDim, 1, 1, draws);
        action := SampleActionSequences(low, high, acDim, 1, 1, draws)[0];
        modelCalls := seq(|dynModels|, m => 0);
        return;
      }

      var cands := SampleActionSequences(low, high, acDim, numCandidates, horizon, draws);
      SampleWithinBounds(low, high, acDim, numCandidates, horizon, draws);

      var perModel: seq<seq<real>> := [];
      modelCalls := [];
      for m := 0 to |dynModels|
        invariant |perModel| == m
        invariant forall j :: 0 <= j < m ==>
          perModel[j] == Returns(reward, dynModels[j], dataStatistics, obs, cands)
        invariant |modelCalls| == m && forall j :: 0 <= j < m ==> modelCalls[j] == horizon - 1
      {
        var sums, calls := CalculateSumOfRewards(obs, cands, horizon, dynModels[m]);
        perModel := perModel + [sums];
        modelCalls := modelCalls + [calls];
      }
      assert perModel == ReturnsPerModel(reward, dynModels, dataStatistics, obs, cands);

      var predicted := EnsembleMean(perModel, numCandidates);
      var best := ArgMax(predicted);
      action := [cands[best][0]];
    }
  }
}
