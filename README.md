# MPC planner and greedy value policy, modelled in Dafny

This project models two decision rules that sit on top of learned models in a
reinforcement-learning code base:

- `MPCPolicy` (hw4/cs285/policies/MPC_policy.py), a model-predictive
  controller. It samples N random candidate action sequences of length H
  inside the action box. It rolls each candidate forward through every
  dynamics model of an ensemble and sums the predicted rewards over the
  horizon. It averages those returns over the ensemble and returns the first
  action of the best candidate. Before any normalisation statistics have been
  assigned, it returns a single random action instead.
- `ArgMaxPolicy` (hw5/cs285/policies/argmax_policy.py), a greedy policy. It
  adds a batch axis to small observations, asks the critic for action values
  and takes the first maximising action of every row.

The learned parts are black boxes: a dynamics model is a total function
`(Obs, Action, Option<S>) -> Obs`, the environment reward is
`(Obs, Action) -> (real, bool)` (reward and done flag), and the critic's
`qa_values` is `Tensor -> seq<seq<real>>`. The random numbers the sampler
consumes are an input: a nested sequence of reals in [0, 1).

Files:

- `reductions.dfy`: module `Wrappers` (`Option`) and module `Reductions`, with the two numpy
  reductions: the row sum the planner uses and the first-index `argmax` both
  policies use.
- `mpc_policy.dfy`: module `MpcPlanning`. It holds the sampler, the rollout
  definitions (`PredictedObs`, `Rollout`, `StepRewards`, `PredictedReturn`),
  the ensemble mean and selection, and the class `MpcPolicy` with the
  imperative `CalculateSumOfRewards` (arrays filled in place, one batched step
  at a time) and `GetAction`.
- `argmax_policy.dfy`: module `GreedyValue`, with the class `ArgMaxPolicy`,
  whose critic field `SetCritic` replaces.

## Model

| member | source | states |
|---|---|---|
| `MpcPlanning.SampleActionSequences` | hw4/cs285/policies/MPC_policy.py:34-40 | the sample has shape (num_sequences, horizon, ac_dim), so exactly num_sequences × horizon × ac_dim entries |
| `MpcPlanning.SampleWithinBounds` | hw4/cs285/policies/MPC_policy.py:38-40 | every sampled entry `low_d + r*(high_d-low_d)` lies in [low_d, high_d) when low_d < high_d, equals low_d when they are equal, and lies in (high_d, low_d] when the bounds are reversed |
| `MpcPlanning.SampleDeterminesDraws` | hw4/cs285/policies/MPC_policy.py:38-39 | where low_d ≠ high_d, `(x - low_d)/(high_d - low_d)` recovers the random number that produced entry x |
| `MpcPlanning.Rollout` | hw4/cs285/policies/MPC_policy.py:104-115 | the predicted trajectory has one observation per step of the horizon; step 0 is the real observation; step t+1 is `model(step t, action t, data_statistics)` for t < H-1 |
| `MpcPlanning.RolloutUnique` | hw4/cs285/policies/MPC_policy.py:104-115 | any observation sequence with the first-step and recurrence equations above is the rollout, so those equations define it |
| `MpcPlanning.PredictionIgnoresLaterActions` | hw4/cs285/policies/MPC_policy.py:107-115 | the rollout is causal: two action sequences that agree on their first t actions predict the same observation at step t, whatever action t and the later actions are |
| `MpcPlanning.RolloutPrefix` | hw4/cs285/policies/MPC_policy.py:107-115 | cutting the action sequence after k actions cuts the trajectory after k steps: the predictions for steps below k depend only on the first k actions |
| `MpcPlanning.ReturnCountsLastStep` | hw4/cs285/policies/MPC_policy.py:106-119 | no early stop: the return over H steps is the return over the first H-1 steps plus the reward of the last step |
| `MpcPlanning.DoneFlagIgnored` | hw4/cs285/policies/MPC_policy.py:108-109 | the done flag returned by the reward function has no effect on the predicted return |
| `MpcPlanning.MpcPolicy.RewardStep` | hw4/cs285/policies/MPC_policy.py:108-109 | one batched reward call fills column t of `rewards` with the reward at predicted step t of every candidate; the columns after t keep their values |
| `MpcPlanning.MpcPolicy.PredictStep` | hw4/cs285/policies/MPC_policy.py:110-115 | one batched model call fills column t+1 of `pred_obs` with the next predicted observation of every candidate; the columns after t+1 keep their values |
| `MpcPlanning.MpcPolicy.CalculateSumOfRewards` | hw4/cs285/policies/MPC_policy.py:72-119 | returns a length-N vector whose entry n is the sum over t in [0, H) of the reward at the predicted observation and action t of candidate n; the model is called exactly H-1 times |
| `MpcPlanning.MeanOfUnanimousEnsemble` | hw4/cs285/policies/MPC_policy.py:62-64 | when every ensemble member predicts the same return vector, the ensemble mean is that vector |
| `MpcPlanning.MeanWithinEnsembleRange` | hw4/cs285/policies/MPC_policy.py:62-64 | each averaged return lies within any bounds that hold for every member's return for that candidate |
| `MpcPlanning.PlannedIndex` | hw4/cs285/policies/MPC_policy.py:55-68 | the chosen candidate index is in [0, N), its ensemble-mean return is maximal, and no earlier index reaches that maximum |
| `Reductions.ArgMax` | hw4/cs285/policies/MPC_policy.py:67-68 | `argmax` returns an index of the row whose value is maximal, and every earlier index holds a strictly smaller value |
| `Reductions.FirstMaxIsArgMax` | hw5/cs285/policies/argmax_policy.py:20 | an index is the first maximum of a row exactly when it is what `argmax` returns |
| `MpcPlanning.MpcPolicy.constructor` | hw4/cs285/policies/MPC_policy.py:9-32 | the policy stores the reward, ensemble, horizon, N, dimensions and bounds, and starts without statistics |
| `MpcPlanning.MpcPolicy.GetAction` | hw4/cs285/policies/MPC_policy.py:42-70 | returns one action of ac_dim entries inside the action box. Without statistics it is the 1×1 sample's single sequence and no model is called. Otherwise it is `[candidates[k][0]]` for the planned index k, and each model of the ensemble is called exactly H-1 times (the returned count per model) |
| `GreedyValue.AddBatchAxis` | hw5/cs285/policies/argmax_policy.py:14-15 | an observation with at most 3 dimensions gets a leading axis of size 1 in front of its shape; larger ones pass through unchanged; entries and element count are kept |
| `GreedyValue.Squeeze` | hw5/cs285/policies/argmax_policy.py:22 | a batch of one action collapses to a scalar and any other batch stays a vector; the indices are kept unchanged |
| `GreedyValue.RowArgMax` | hw5/cs285/policies/argmax_policy.py:19-20 | fails exactly when some row of the Q-matrix is empty; otherwise it gives one index per row that is in range, attains the row maximum and is the first such index |
| `GreedyValue.ArgMaxPolicy.constructor` | hw5/cs285/policies/argmax_policy.py:7-8 | the policy stores the given critic |
| `GreedyValue.ArgMaxPolicy.SetCritic` | hw5/cs285/policies/argmax_policy.py:10-11 | the stored critic is replaced by the new one |
| `GreedyValue.ArgMaxPolicy.GetAction` | hw5/cs285/policies/argmax_policy.py:13-22 | queries the stored critic on the batched observation. It fails exactly when a row of values is empty. Otherwise it returns one first-maximising action per row, a scalar exactly when there is one row. It changes nothing, including the critic |

## Left out

- Random number generation (`np.random.random`) is not modelled: the draws are an input, and seeding is outside the model.
- Floating point is not modelled: rewards, observations and actions are exact reals. With IEEE rounding, `low + r*(high-low)` could reach `high`. The bounds therefore hold only for exact arithmetic.
- The dynamics model (`FFModel.get_prediction`), `env.get_reward` and `critic.qa_values` are foreign code that is not part of this model. They are total, deterministic function parameters.
- Batched calls to the model and the reward are applied row by row. This assumes the learned model treats each row of a batch independently.
- The contents of `data_statistics` are not modelled. They are an opaque `Option<S>` passed to the dynamics model. Code outside the class assigns the field directly; the source has no setter for it.
- numpy shape errors are not modelled: predictions or observations whose width differs from `ob_dim`, and bounds that broadcast rather than match `ac_dim`. `obDim` is used only for the zero initial contents of `pred_obs`.
- MpcPlanning.MpcPolicy.GetAction: requires `low` and `high` to have `ac_dim` entries. In the source, numpy broadcasting or an error decides this case.
- MpcPlanning.MpcPolicy.GetAction: requires a non-empty ensemble when statistics are set. numpy would average an empty list to NaN.
- MpcPlanning.MpcPolicy.GetAction: requires N ≥ 1 when statistics are set, because numpy's `argmax` raises on an empty vector.
- MpcPlanning.MpcPolicy.GetAction: requires H ≥ 1 when statistics are set, because with H = 0 the source raises an IndexError at `pred_obs[:, 0]` inside `calculate_sum_of_rewards`.
- MpcPlanning.MpcPolicy.CalculateSumOfRewards: requires H ≥ 1, because with H = 0 the source raises an IndexError at `pred_obs[:, 0]`. The horizon comes in as a parameter that matches the candidate array's shape, since a sequence of zero candidates cannot carry it.
- GreedyValue.RowArgMax: a Q-matrix with no rows gives an empty batch. numpy raises on a (0, 0) matrix, but a sequence of zero rows cannot say how many columns it has.
- GreedyValue.ArgMaxPolicy.GetAction: for the same reason, a critic that returns no rows yields an empty batch rather than the error numpy raises on a (0, 0) matrix; "fails exactly when a row is empty" holds for matrices with at least one row.
- `Tensor` does not require its entry count to match its shape. Squeezing is modelled only on the one-dimensional array of chosen actions.
- `BasePolicy`, the environment and action-space objects (only the reward, the bounds and `ob_dim` are kept), the commented-out prints and the unused `pdb` import are not part of this model.
- The sampler raises no error for zero sizes and returns empty arrays. The greedy policy fails only on an empty action axis and never compares the number of columns with the action-space size.
- MpcPlanning.SampleActionSequences: the sizes `numSequences`, `horizon` and `acDim` are `nat`, so the ValueError `np.random.random` raises on a negative size is not modelled.
- MpcPlanning.MpcPolicy.constructor: `horizon`, `numCandidates`, `obDim` and `acDim` are `nat`; a negative planning size, which makes `get_action` raise a ValueError in the sampler once statistics are set, cannot be constructed.
- MpcPlanning.MpcPolicy.GetAction: with `nat` sizes the negative-size ValueError of the sampler is out of scope.
