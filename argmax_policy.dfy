/**
 * The greedy value policy (`ArgMaxPolicy`, hw5/cs285/policies/argmax_policy.py):
 * ask the critic for the action values of a batch of observations and take,
 * in every row, the first action with the largest value.
 *
 * The critic's `qa_values` is outside the model: it is a total function from
 * an observation array to a matrix of action values, one row per batch entry.
 */
module GreedyValue {
  import opened Wrappers
  import opened Reductions

  /** A numpy observation array: its shape and its entries in row-major order. */
  datatype Tensor = Tensor(shape: seq<nat>, data: seq<real>)

  /** The number of entries an array of this shape holds. */
  function Size(shape: seq<nat>): nat
  {
    if shape == [] then 1 else shape[0] * Size(shape[1..])
  }

  /** `critic.qa_values`: one row of action values per batch entry. */
  type Critic = Tensor -> seq<seq<real>>

  /** What `acs.squeeze()` returns: a 0-d action index, or a 1-d array of them. */
  datatype Actions = Scalar(index: nat) | Batch(indices: seq<nat>)

  /** The action indices an `Actions` value holds, in batch order. */
  function Indices(a: Actions): seq<nat>
  {
    match a
    case Scalar(i) => [i]
    case Batch(indices) => indices
  }

  /**
   * `obs[None]` when `obs` has at most 3 dimensions: a leading batch axis of
   * size 1 in front of the same entries. Larger arrays pass through.
   */
  function AddBatchAxis(obs: Tensor): (r: Tensor)
    ensures r.data == obs.data && Size(r.shape) == Size(obs.shape)
    ensures |obs.shape| <= 3 ==> |r.shape| == |obs.shape| + 1 && r.shape[0] == 1 && r.shape[1..] == obs.shape
    ensures |obs.shape| > 3 ==> r == obs
  {
    if |obs.shape| <= 3 then Tensor([1] + obs.shape, obs.data) else obs
  }

  /**
   * `acs.squeeze()` on the 1-d array of chosen actions: a batch of one
   * collapses to a scalar, every other batch is kept. Nothing is lost:
   * the indices come back unchanged.
   */
  function Squeeze(acs: seq<nat>): (r: Actions)
    ensures Indices(r) == acs
    ensures r.Scalar? <==> |acs| == 1
  {
    if |acs| == 1 then Scalar(acs[0]) else Batch(acs)
  }

  /**
   * `q.argmax(1)`: the first maximising column of every row. numpy raises
   * when the action axis is empty, which `None` stands for.
   */
  function RowArgMax(q: seq<seq<real>>): (r: Option<seq<nat>>)
    ensures r.None? <==> exists i :: 0 <= i < |q| && q[i] == []
    ensures r.Some? ==>
      |r.value| == |q| && forall i :: 0 <= i < |q| ==> IsFirstMax(q[i], r.value[i])
  {
    if exists i :: 0 <= i < |q| && q[i] == [] then None
    else Some(seq(|q|, i requires 0 <= i < |q| => ArgMax(q[i])))
  }

  class ArgMaxPolicy {
    var critic: Critic

    constructor(critic: Critic)
      ensures this.critic == critic
    {
      this.critic := critic;
    }

    /** `set_critic`: later decisions consult `critic` and no other. */
    method SetCritic(critic: Critic)
      modifies this
      ensures this.critic == critic
    {
      this.critic := critic;
    }

    /**
     * `get_action`: one greedy action per batch row, chosen from the values
     * the stored critic gives for the (batched) observation. The method has
     * no `modifies` clause: the stored critic stays as it is.
     */
    method GetAction(obs: Tensor) returns (r: Option<Actions>)
      ensures var q := critic(AddBatchAxis(obs));
        (r.None? <==> exists i :: 0 <= i < |q| && q[i] == []) &&
        (r.Some? ==>
          |Indices(r.value)| == |q| &&
          (forall i :: 0 <= i < |q| ==> IsFirstMax(q[i], Indices(r.value)[i])) &&
          (r.value.Scalar? <==> |q| == 1))
    {
      var batched := AddBatchAxis(obs);
      var q := critic(batched);
      var acs := RowArgMax(q);
      if acs.None? {
        r := None;
      } else {
        r := Some(Squeeze(acs.value));
      }
    }
  }
}
