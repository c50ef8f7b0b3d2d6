/** The parameters of the network and how they are laid out: `structure`
    lists the neuron count of every layer (input layer first), `weights[l]`
    maps layer l to layer l + 1 and `biases[l]` belongs to layer l + 1.
    Also the initial values that `fillSystemRandomly` draws. */
module Layout {
  import opened Linear

  /** Number of weight matrices (and bias vectors) a structure calls for. */
  function NumLayers(structure: seq<nat>): nat {
    if |structure| == 0 then 0 else |structure| - 1
  }

  /** The state of a classifier as a value: its structure, weights and biases,
      and the activation function and its derivative. The source's sigmoid
      and its derivative are computed with `exp` and `pow` on doubles; here
      they are left uninterpreted, as functions every network carries. */
  datatype Network = Network(
    structure: seq<nat>,
    weights: seq<Matrix>,
    biases: seq<Vector>,
    sigmoid: real -> real,
    sigmoidPrime: real -> real)
  {
    /** The layout invariant: weights[l][n][p] is the weight from neuron p of
        layer l to neuron n of layer l + 1, so weights[l] has structure[l + 1]
        rows of structure[l] entries, and biases[l] has structure[l + 1]. */
    predicate Shaped() {
      |weights| == NumLayers(structure) && |biases| == NumLayers(structure) &&
      (forall l {:trigger weights[l]} :: 0 <= l < NumLayers(structure) ==>
         Rectangular(weights[l], structure[l + 1], structure[l])) &&
      (forall l {:trigger biases[l]} :: 0 <= l < NumLayers(structure) ==>
         |biases[l]| == structure[l + 1])
    }
  }

  // ------------------------------------------------------- random initial state

  /** How many random draws the weight matrices before matrix m consume;
      matrix m has structure[m + 1] * structure[m] entries. */
  function DrawsBefore(structure: seq<nat>, m: nat): nat
    requires m <= NumLayers(structure)
  {
    if m == 0 then 0 else DrawsBefore(structure, m - 1) + structure[m] * structure[m - 1]
  }

  /** Index in the draw stream of the draw for weights[m][n][p]: the source
      draws matrix by matrix, row by row, entry by entry. */
  function DrawIndex(structure: seq<nat>, m: nat, n: nat, p: nat): nat
    requires m < NumLayers(structure)
  {
    DrawsBefore(structure, m) + n * structure[m] + p
  }

  lemma {:induction false} DrawsBeforeMonotone(structure: seq<nat>, m: nat, m': nat)
    requires m <= m' <= NumLayers(structure)
    ensures DrawsBefore(structure, m) <= DrawsBefore(structure, m')
    decreases m' - m
  {
    if m < m' {
      DrawsBeforeMonotone(structure, m, m' - 1);
    }
  }

  /** Every weight has its own draw, and all draws lie before the total. */
  lemma DrawIndexInRange(structure: seq<nat>, m: nat, n: nat, p: nat)
    requires m < NumLayers(structure) && n < structure[m + 1] && p < structure[m]
    ensures DrawsBefore(structure, m) <= DrawIndex(structure, m, n, p) < DrawsBefore(structure, m + 1)
    ensures DrawIndex(structure, m, n, p) < DrawsBefore(structure, NumLayers(structure))
    ensures forall n', p' ::
              n' < structure[m + 1] && p' < structure[m] &&
              DrawIndex(structure, m, n', p') == DrawIndex(structure, m, n, p)
              ==> n' == n && p' == p
  {
    forall n': nat, p': nat | n' < structure[m + 1] && p' < structure[m] &&
        DrawIndex(structure, m, n', p') == DrawIndex(structure, m, n, p)
      ensures n' == n && p' == p
    {
      RowMajorInjective(structure[m], n, p, n', p');
    }
    var cols := structure[m];
    assert n * cols + p < (n + 1) * cols;
    assert (n + 1) * cols <= structure[m + 1] * cols by {
      assert n + 1 <= structure[m + 1];
    }
    assert structure[m + 1] * cols == structure[m + 1] * structure[m];
    DrawsBeforeMonotone(structure, m + 1, NumLayers(structure));
  }

  /** Row-major positions are distinct: entry p of row n and entry p' of
      row n' of a table c wide share a position only when they coincide. */
  lemma RowMajorInjective(c: nat, n: nat, p: nat, n': nat, p': nat)
    requires p < c && p' < c && n * c + p == n' * c + p'
    ensures n == n' && p == p'
  {
    if n < n' {
      RowsApart(n, n', c);
    } else if n' < n {
      RowsApart(n', n, c);
    }
  }

  /** A later row of a table c wide starts at least c positions later. */
  lemma {:induction false} RowsApart(a: nat, b: nat, c: nat)
    requires a < b
    ensures a * c + c <= b * c
  {
    if c > 0 {
      RowsApart(a, b, c - 1);
      assert a * c == a * (c - 1) + a;
      assert b * c == b * (c - 1) + b;
    }
  }

  /** Draws are consumed without gaps: a matrix starts where the ones
      before it end, the draw after the last entry of a row is the first of
      the next row, and the draw after the last row starts the next matrix. */
  lemma DrawIndexStep(structure: seq<nat>, m: nat, n: nat)
    requires m < NumLayers(structure)
    ensures DrawIndex(structure, m, 0, 0) == DrawsBefore(structure, m)
    ensures DrawIndex(structure, m, n, structure[m]) == DrawIndex(structure, m, n + 1, 0)
    ensures DrawIndex(structure, m, structure[m + 1], 0) == DrawsBefore(structure, m + 1)
  {
    assert (n + 1) * structure[m] == n * structure[m] + structure[m];
  }

  /** The weight range r = 4*sqrt(6/(in + out)), with `in` the first and
      `out` the last layer size, which the source computes for every weight
      it draws. The model receives r and pins it down by r >= 0 and
      r*r == 96/(in + out); when no weight is drawn r is never computed and
      is unconstrained. */
  predicate IsRadius(structure: seq<nat>, r: real) {
    DrawsBefore(structure, NumLayers(structure)) == 0 ||
    (structure[0] + structure[|structure| - 1] > 0 && r >= 0.0 &&
     r * r == 96.0 / ((structure[0] + structure[|structure| - 1]) as real))
  }

  /** One weight from a draw u = rand()/RAND_MAX in [0, 1]. */
  function InitialWeight(r: real, u: real): real {
    r * (u * 2.0 - 1.0)
  }

  /** Row n of initial weight matrix m: one weight per neuron of layer m,
      each from its own draw. */
  function InitialRow(structure: seq<nat>, r: real, draws: seq<real>, m: nat, n: nat): Vector
    requires DrawsBefore(structure, NumLayers(structure)) <= |draws|
    requires m < NumLayers(structure) && n < structure[m + 1]
  {
    seq(structure[m], p requires 0 <= p < structure[m] =>
      DrawIndexInRange(structure, m, n, p);
      InitialWeight(r, draws[DrawIndex(structure, m, n, p)]))
  }

  /** The weight matrices `fillSystemRandomly` appends, the k-th weight drawn
      (in layer, row, entry order) from the k-th draw of the stream. */
  function InitialWeights(structure: seq<nat>, r: real, draws: seq<real>): seq<Matrix>
    requires DrawsBefore(structure, NumLayers(structure)) <= |draws|
  {
    seq(NumLayers(structure), m requires 0 <= m < NumLayers(structure) =>
      seq(structure[m + 1], n requires 0 <= n < structure[m + 1] => InitialRow(structure, r, draws, m, n)))
  }

  /** The bias vectors `fillSystemRandomly` appends: all zero. */
  function InitialBiases(structure: seq<nat>): seq<Vector> {
    seq(NumLayers(structure), m requires 0 <= m < NumLayers(structure) =>
      seq(structure[m + 1], _ => 0.0))
  }

  /** The initial parameters have the layout the structure calls for, and
      every bias is zero. */
  lemma InitialLayout(structure: seq<nat>, r: real, draws: seq<real>, sigmoid: real -> real, sigmoidPrime: real -> real)
    requires DrawsBefore(structure, NumLayers(structure)) <= |draws|
    ensures Network(structure, InitialWeights(structure, r, draws), InitialBiases(structure), sigmoid, sigmoidPrime).Shaped()
    ensures forall m, n :: 0 <= m < NumLayers(structure) && 0 <= n < structure[m + 1] ==>
              InitialBiases(structure)[m][n] == 0.0
  {
    var w := InitialWeights(structure, r, draws);
    var b := InitialBiases(structure);
    forall l | 0 <= l < NumLayers(structure)
      ensures Rectangular(w[l], structure[l + 1], structure[l]) && |b[l]| == structure[l + 1]
    {
      assert |w[l]| == structure[l + 1];
      forall n | 0 <= n < structure[l + 1]
        ensures |w[l][n]| == structure[l]
      {
      }
    }
  }

  /** A draw in [0, 1] gives a weight in [-r, r]. */
  lemma InitialWeightInRange(r: real, u: real)
    requires r >= 0.0 && 0.0 <= u <= 1.0
    ensures -r <= InitialWeight(r, u) <= r
  {
    var v := u * 2.0 - 1.0;
    assert -1.0 <= v <= 1.0;
    if v >= 0.0 {
      assert 0.0 <= r * v <= r * 1.0;
    } else {
      assert 0.0 <= r * (-v) <= r * 1.0;
    }
    assert InitialWeight(r, u) == r * v;
  }

  /** With draws in [0, 1], every initial weight lies in [-r, r]. */
  lemma InitialWeightsBounded(structure: seq<nat>, r: real, draws: seq<real>)
    requires DrawsBefore(structure, NumLayers(structure)) <= |draws|
    requires r >= 0.0
    requires forall k :: 0 <= k < |draws| ==> 0.0 <= draws[k] <= 1.0
    ensures forall m, n, p :: 0 <= m < NumLayers(structure) && 0 <= n < structure[m + 1] && 0 <= p < structure[m] ==>
              -r <= InitialWeights(structure, r, draws)[m][n][p] <= r
  {
    forall m, n, p | 0 <= m < NumLayers(structure) && 0 <= n < structure[m + 1] && 0 <= p < structure[m]
      ensures -r <= InitialWeights(structure, r, draws)[m][n][p] <= r
    {
      DrawIndexInRange(structure, m, n, p);
      assert InitialWeights(structure, r, draws)[m][n][p] == InitialWeight(r, draws[DrawIndex(structure, m, n, p)]);
      InitialWeightInRange(r, draws[DrawIndex(structure, m, n, p)]);
    }
  }
}
