/**
 * The numeric meaning of FeedForwardNet, as functions of values: the
 * affine-plus-sigmoid layer map, the forward pass, squared error and its
 * delta, the one-hot / scalar targets, the mean-error fitness, and the
 * update vectors of mini-batch backpropagation.  The classes in
 * feed_forward_net.dfy compute these with loops over their fields and are
 * proved equal to them; the lemmas here are what FeedForwardNet.java promises
 * about them.
 *
 * Doubles are reals.  `Math.exp` is not modelled: it is a parameter `exp`
 * of which only non-negativity is assumed.
 */
module NetworkMath {
  import opened Basics
  import opened WeightVectors

  // ---------------------------------------------------------------- samples

  /** A class label as FeedForwardNet.java decodes it: an integer literal also parses as a double, a decimal literal only as a double. */
  datatype Label = IntLabel(n: int) | RealLabel(x: real)

  /** A data point: normalized features and its label (the class DataC in Java). */
  datatype Sample = Sample(features: seq<real>, classLabel: Label)

  // ---------------------------------------------------------------- activation

  /** What the model assumes of `Math.exp`: it never returns a negative number (it may underflow to 0). */
  ghost predicate ExpLike(exp: real -> real)
  {
    forall z :: exp(z) >= 0.0
  }

  /** `1 / (1 + Math.exp(-1 * z))` (FeedForwardNet.java:140-142). */
  function Sigmoid(exp: real -> real, z: real): (s: real)
    requires exp(-1.0 * z) >= 0.0
    ensures 0.0 < s <= 1.0
  {
    var d := 1.0 + exp(-1.0 * z);
    assert d >= 1.0;
    1.0 / d
  }

  // ---------------------------------------------------------------- forward pass

  /** A layer's weight matrix: rows = next layer's width, last column = bias weight. */
  predicate IsLayerMatrix(m: Matrix)
  {
    IsMatrix(m) && Cols(m) >= 1
  }

  /** `sum_{k < n} w[k] * x[k]`, accumulated left to right. */
  function Dot(w: Row, x: seq<real>, n: nat): real
    requires n <= |w| && n <= |x|
  {
    if n == 0 then 0.0 else Dot(w, x, n - 1) + w[n - 1] * x[n - 1]
  }

  /** Row `i` of `W * [x; bias]`: the non-bias columns against the input, the last column against the bias. */
  function Affine(m: Matrix, bias: real, x: seq<real>, i: nat): real
    requires IsLayerMatrix(m) && |x| + 1 >= Cols(m) && i < Rows(m)
  {
    Dot(m[i], x, Cols(m) - 1) + m[i][Cols(m) - 1] * bias
  }

  /**
   * Layer.feedForward (FeedForwardNet.java:60-83): one entry per row; the
   * sigmoid is applied exactly when the layer has more than one output.
   */
  function LayerOutput(m: Matrix, bias: real, x: seq<real>, exp: real -> real): (out: seq<real>)
    requires IsLayerMatrix(m) && |x| + 1 >= Cols(m) && ExpLike(exp)
    ensures |out| == Rows(m)
    ensures Rows(m) > 1 ==> forall i :: 0 <= i < |out| ==> 0.0 < out[i] <= 1.0
    ensures Rows(m) == 1 ==> out == [Affine(m, bias, x, 0)]
  {
    seq(|m|, i requires 0 <= i < |m| =>
      if |m| > 1 then Sigmoid(exp, Affine(m, bias, x, i)) else Affine(m, bias, x, i))
  }

  /** Consecutive layers fit: layer k+1 has one column per output of layer k, plus the bias column. */
  predicate Chained(ws: WeightVector)
  {
    && (forall k :: 0 <= k < |ws| ==> IsLayerMatrix(ws[k]))
    && (forall j, k :: 0 <= j && k == j + 1 < |ws| ==> Cols(ws[k]) == Rows(ws[j]) + 1)
  }

  /** The input `x` is long enough for the first layer (extra features are ignored, as in FeedForwardNet.java). */
  predicate Accepts(ws: WeightVector, x: seq<real>)
  {
    |ws| > 0 ==> IsMatrix(ws[0]) && |x| + 1 >= Cols(ws[0])
  }

  /** A weight vector of the same shape as a chained one is chained too, and accepts the same inputs. */
  lemma ChainedSameShape(a: WeightVector, b: WeightVector)
    requires SameShape(a, b) && Chained(b)
    ensures Chained(a)
    ensures forall x :: Accepts(b, x) ==> Accepts(a, x)
  {
  }

  /** The output of the first `n` layers for input `x`, every bias 1.0 (`x` itself when n = 0). */
  function Activation(ws: WeightVector, x: seq<real>, exp: real -> real, n: nat): (out: seq<real>)
    requires Chained(ws) && Accepts(ws, x) && ExpLike(exp) && n <= |ws|
    ensures |out| == if n == 0 then |x| else Rows(ws[n - 1])
    ensures n < |ws| ==> |out| + 1 >= Cols(ws[n])
  {
    if n == 0 then x
    else LayerOutput(ws[n - 1], 1.0, Activation(ws, x, exp, n - 1), exp)
  }

  /** FeedForwardNet.feedForward (lines 206-218): the weighted layers applied in order. */
  function Forward(ws: WeightVector, x: seq<real>, exp: real -> real): (out: seq<real>)
    requires Chained(ws) && Accepts(ws, x) && ExpLike(exp)
    ensures |out| == if |ws| == 0 then |x| else Rows(ws[|ws| - 1])
  {
    Activation(ws, x, exp, |ws|)
  }

  /** The input buffer (`nodes`) of every weighted layer after a forward pass of `x`. */
  function Inputs(ws: WeightVector, x: seq<real>, exp: real -> real): (ins: seq<seq<real>>)
    requires Chained(ws) && Accepts(ws, x) && ExpLike(exp)
    ensures NodesFit(ws, ins)
  {
    seq(|ws|, k requires 0 <= k < |ws| => Activation(ws, x, exp, k))
  }

  /** The output buffer of every weighted layer after a forward pass of `x`. */
  function Outputs(ws: WeightVector, x: seq<real>, exp: real -> real): (outs: seq<seq<real>>)
    requires Chained(ws) && Accepts(ws, x) && ExpLike(exp)
    ensures |outs| == |ws| && forall k :: 0 <= k < |ws| ==> |outs[k]| == Rows(ws[k])
  {
    seq(|ws|, k requires 0 <= k < |ws| => Activation(ws, x, exp, k + 1))
  }

  /** Layer k of a pass reads the k-th activation and writes the next one. */
  lemma PassAt(ws: WeightVector, x: seq<real>, exp: real -> real, k: nat)
    requires Chained(ws) && Accepts(ws, x) && ExpLike(exp) && k < |ws|
    ensures Inputs(ws, x, exp)[k] == Activation(ws, x, exp, k)
    ensures Outputs(ws, x, exp)[k] == Activation(ws, x, exp, k + 1)
            == LayerOutput(ws[k], 1.0, Activation(ws, x, exp, k), exp)
  {
  }

  /** One more layer: the earlier node and output buffers stay, the new layer reads the old result. */
  lemma PassExtend(ws: WeightVector, w: Matrix, x: seq<real>, exp: real -> real)
    requires Chained(ws + [w]) && Accepts(ws + [w], x) && ExpLike(exp)
    ensures Chained(ws) && Accepts(ws, x)
    ensures Activation(ws + [w], x, exp, |ws|) == Activation(ws, x, exp, |ws|)
    ensures Inputs(ws + [w], x, exp) == Inputs(ws, x, exp) + [Activation(ws, x, exp, |ws|)]
    ensures Outputs(ws + [w], x, exp) == Outputs(ws, x, exp) + [LayerOutput(w, 1.0, Activation(ws + [w], x, exp, |ws|), exp)]
  {
    ActivationAppend(ws, w, x, exp);
    InputsAppend(ws, w, x, exp);
    OutputsAppend(ws, w, x, exp);
  }

  lemma InputsAppend(ws: WeightVector, w: Matrix, x: seq<real>, exp: real -> real)
    requires Chained(ws + [w]) && Accepts(ws + [w], x) && ExpLike(exp)
    requires Chained(ws) && Accepts(ws, x)
    requires forall k :: 0 <= k <= |ws| ==> Activation(ws + [w], x, exp, k) == Activation(ws, x, exp, k)
    ensures Inputs(ws + [w], x, exp) == Inputs(ws, x, exp) + [Activation(ws, x, exp, |ws|)]
  {
    var ins, ins' := Inputs(ws, x, exp), Inputs(ws + [w], x, exp);
    forall k | 0 <= k < |ws|
      ensures ins'[k] == ins[k]
    {
      assert ins'[k] == Activation(ws + [w], x, exp, k);
    }
    assert ins'[|ws|] == Activation(ws, x, exp, |ws|);
  }

  lemma OutputsAppend(ws: WeightVector, w: Matrix, x: seq<real>, exp: real -> real)
    requires Chained(ws + [w]) && Accepts(ws + [w], x) && ExpLike(exp)
    requires Chained(ws) && Accepts(ws, x)
    requires forall k :: 0 <= k <= |ws| ==> Activation(ws + [w], x, exp, k) == Activation(ws, x, exp, k)
    ensures Outputs(ws + [w], x, exp) == Outputs(ws, x, exp) + [LayerOutput(w, 1.0, Activation(ws + [w], x, exp, |ws|), exp)]
  {
    var outs, outs' := Outputs(ws, x, exp), Outputs(ws + [w], x, exp);
    forall k | 0 <= k < |ws|
      ensures outs'[k] == outs[k]
    {
      assert outs'[k] == Activation(ws + [w], x, exp, k + 1);
    }
    assert outs'[|ws|] == LayerOutput(w, 1.0, Activation(ws + [w], x, exp, |ws|), exp);
  }

  lemma ActivationAppend(ws: WeightVector, w: Matrix, x: seq<real>, exp: real -> real)
    requires Chained(ws + [w]) && Accepts(ws + [w], x) && ExpLike(exp)
    ensures Chained(ws) && Accepts(ws, x)
    ensures forall k :: 0 <= k <= |ws| ==> Activation(ws + [w], x, exp, k) == Activation(ws, x, exp, k)
  {
    var ws' := ws + [w];
    assert forall k :: 0 <= k < |ws| ==> ws[k] == ws'[k];
    forall k | 0 <= k <= |ws|
      ensures Activation(ws', x, exp, k) == Activation(ws, x, exp, k)
    {
      assert ws'[..k] == ws[..k];
      ActivationPrefix(ws, ws', x, exp, k);
    }
  }

  /** Appending layers does not change what the earlier layers compute. */
  lemma {:induction false} ActivationPrefix(ws: WeightVector, ws': WeightVector, x: seq<real>, exp: real -> real, n: nat)
    requires Chained(ws) && Accepts(ws, x) && ExpLike(exp) && n <= |ws|
    requires Chained(ws') && Accepts(ws', x) && n <= |ws'| && ws'[..n] == ws[..n]
    ensures Activation(ws', x, exp, n) == Activation(ws, x, exp, n)
  {
    if n > 0 {
      assert ws'[..n - 1] == ws[..n - 1];
      assert ws'[n - 1] == ws[n - 1];
      ActivationPrefix(ws, ws', x, exp, n - 1);
    }
  }

  // ---------------------------------------------------------------- error

  /** `sum_{i < n} (t[i] - o[i])^2`, accumulated left to right. */
  function SumSquares(o: seq<real>, t: seq<real>, n: nat): (s: real)
    requires n <= |o| && n <= |t|
    ensures s >= 0.0
  {
    if n == 0 then 0.0
    else SumSquares(o, t, n - 1) + Square(t[n - 1] - o[n - 1])
  }

  function Square(d: real): (s: real)
    ensures s >= 0.0
  {
    d * d
  }

  lemma ProductOfPositives(a: real, b: real)
    requires a > 0.0 && b > 0.0
    ensures a * b > 0.0
  {
  }

  lemma ProductOfNegatives(a: real, b: real)
    requires a < 0.0 && b < 0.0
    ensures a * b > 0.0
  {
  }

  lemma SquarePositive(d: real)
    requires d != 0.0
    ensures Square(d) > 0.0
  {
    if d > 0.0 {
      ProductOfPositives(d, d);
      calc { Square(d); == d * d; > 0.0; }
    } else {
      ProductOfNegatives(d, d);
      calc { Square(d); == d * d; > 0.0; }
    }
  }

  /** FeedForwardNet.error (lines 410-418): half the sum of squared differences. */
  function HalfSquaredError(o: seq<real>, t: seq<real>): (e: real)
    requires |o| <= |t|
    ensures e >= 0.0
  {
    SumSquares(o, t, |o|) / 2.0
  }

  lemma {:induction false} SumSquaresZero(o: seq<real>, t: seq<real>, n: nat)
    requires n <= |o| && n <= |t|
    ensures SumSquares(o, t, n) == 0.0 <==> forall i :: 0 <= i < n ==> o[i] == t[i]
  {
    if n > 0 {
      SumSquaresZero(o, t, n - 1);
      if o[n - 1] != t[n - 1] {
        SquarePositive(t[n - 1] - o[n - 1]);
        assert !(forall i :: 0 <= i < n ==> o[i] == t[i]);
      }
    }
  }

  /** The error is zero exactly when the output equals the target. */
  lemma ErrorZeroIff(o: seq<real>, t: seq<real>)
    requires |o| == |t|
    ensures HalfSquaredError(o, t) == 0.0 <==> o == t
  {
    SumSquaresZero(o, t, |o|);
    if forall i :: 0 <= i < |o| ==> o[i] == t[i] {
      assert o == t;
    }
  }

  /** FeedForwardNet.delta (lines 423-431): the correction that moves each output onto its target. */
  function Delta(o: seq<real>, t: seq<real>): (d: seq<real>)
    requires |o| <= |t|
    ensures |d| == |o|
    ensures forall i :: 0 <= i < |o| ==> o[i] + d[i] == t[i]
  {
    seq(|o|, i requires 0 <= i < |o| => t[i] - o[i])
  }

  // ---------------------------------------------------------------- targets

  /**
   * The target vector built in updateFitness and backprop (lines 456-468,
   * 246-258): one-hot at `label - 1` for classification (the label must
   * parse as an int and index an output), `[label, 0, ...]` for regression.
   * None is the Java exception (NumberFormatException or an index out
   * of bounds).
   */
  function Target(classLabel: Label, width: nat, isClassification: bool): (t: Option<seq<real>>)
    ensures isClassification ==> (t.Some? <==> classLabel.IntLabel? && 1 <= classLabel.n <= width)
    ensures !isClassification ==> (t.Some? <==> width >= 1)
    ensures t.Some? ==> |t.value| == width
  {
    if isClassification then
      if classLabel.IntLabel? && 1 <= classLabel.n <= width then
        Some(seq(width, i requires 0 <= i < width => if i == classLabel.n - 1 then 1.0 else 0.0))
      else None
    else if width >= 1 then
      var y := if classLabel.IntLabel? then classLabel.n as real else classLabel.x;
      Some(seq(width, i requires 0 <= i < width => if i == 0 then y else 0.0))
    else None
  }

  function Sum(s: seq<real>): real
  {
    if |s| == 0 then 0.0 else Sum(s[..|s| - 1]) + s[|s| - 1]
  }

  lemma {:induction false} SumOfIndicator(s: seq<real>, c: nat)
    requires c < |s| && s[c] == 1.0
    requires forall i :: 0 <= i < |s| && i != c ==> s[i] == 0.0
    ensures Sum(s) == 1.0
  {
    var n := |s| - 1;
    if n == c {
      SumOfZeros(s[..n]);
    } else {
      SumOfIndicator(s[..n], c);
    }
  }

  lemma {:induction false} SumOfZeros(s: seq<real>)
    requires forall i :: 0 <= i < |s| ==> s[i] == 0.0
    ensures Sum(s) == 0.0
  {
    if |s| > 0 {
      SumOfZeros(s[..|s| - 1]);
    }
  }

  /** A classification target is one-hot: a single 1.0 at `label - 1`, so its entries sum to 1. */
  lemma ClassTargetOneHot(classLabel: Label, width: nat)
    requires Target(classLabel, width, true).Some?
    ensures var t := Target(classLabel, width, true).value;
            t[classLabel.n - 1] == 1.0 && Sum(t) == 1.0 &&
            forall i :: 0 <= i < width && i != classLabel.n - 1 ==> t[i] == 0.0
  {
    SumOfIndicator(Target(classLabel, width, true).value, classLabel.n - 1);
  }

  // ---------------------------------------------------------------- fitness

  /** Every sample's label decodes against `width` outputs. */
  predicate WellLabelled(data: seq<Sample>, width: nat, isClassification: bool)
  {
    forall s :: s in data ==> Target(s.classLabel, width, isClassification).Some?
  }

  /** Every sample is long enough for the network. */
  predicate FitsInput(ws: WeightVector, data: seq<Sample>)
  {
    forall s :: s in data ==> Accepts(ws, s.features)
  }

  /** Networks whose outputs can be scored against `data`. */
  ghost predicate Scorable(ws: WeightVector, data: seq<Sample>, isClassification: bool, exp: real -> real)
  {
    |ws| > 0 && Chained(ws) && FitsInput(ws, data) && ExpLike(exp) &&
    WellLabelled(data, Rows(ws[|ws| - 1]), isClassification)
  }

  function SampleError(ws: WeightVector, s: Sample, isClassification: bool, exp: real -> real): (e: real)
    requires Scorable(ws, [s], isClassification, exp)
    ensures e >= 0.0
  {
    HalfSquaredError(Forward(ws, s.features, exp), Target(s.classLabel, Rows(ws[|ws| - 1]), isClassification).value)
  }

  lemma ScorablePrefix(ws: WeightVector, data: seq<Sample>, isClassification: bool, exp: real -> real, n: nat)
    requires Scorable(ws, data, isClassification, exp) && n <= |data|
    ensures Scorable(ws, data[..n], isClassification, exp)
    ensures n < |data| ==> Scorable(ws, [data[n]], isClassification, exp)
  {
    assert forall s :: s in data[..n] ==> s in data;
  }

  /** The `totalError` accumulated over the first `n` samples of `data`, in order (updateFitness, lines 451-472). */
  function TotalError(ws: WeightVector, data: seq<Sample>, isClassification: bool, exp: real -> real, n: nat): (e: real)
    requires Scorable(ws, data, isClassification, exp) && n <= |data|
    ensures e >= 0.0
  {
    if n == 0 then 0.0
    else
      ScorablePrefix(ws, data, isClassification, exp, n - 1);
      TotalError(ws, data, isClassification, exp, n - 1) + SampleError(ws, data[n - 1], isClassification, exp)
  }

  /** One more sample adds its own error to the running total. */
  lemma TotalErrorStep(ws: WeightVector, data: seq<Sample>, isClassification: bool, exp: real -> real, n: nat)
    requires Scorable(ws, data, isClassification, exp) && n < |data|
    ensures Scorable(ws, [data[n]], isClassification, exp)
    ensures TotalError(ws, data, isClassification, exp, n + 1) ==
            TotalError(ws, data, isClassification, exp, n) + SampleError(ws, data[n], isClassification, exp)
  {
    ScorablePrefix(ws, data, isClassification, exp, n);
  }

  /** updateFitness (lines 448-477): the mean error over the data set; never negative. */
  function Fitness(ws: WeightVector, data: seq<Sample>, isClassification: bool, exp: real -> real): (f: real)
    requires Scorable(ws, data, isClassification, exp) && |data| > 0
    ensures f >= 0.0
  {
    TotalError(ws, data, isClassification, exp, |data|) / |data| as real
  }

  /** The total error of the first `n` samples is zero exactly when the network reproduces each of their targets. */
  lemma {:induction false} TotalErrorZeroIff(ws: WeightVector, data: seq<Sample>, isClassification: bool, exp: real -> real, n: nat)
    requires Scorable(ws, data, isClassification, exp) && n <= |data|
    ensures TotalError(ws, data, isClassification, exp, n) == 0.0 <==>
            forall k :: 0 <= k < n ==>
              Forward(ws, data[k].features, exp) == Target(data[k].classLabel, Rows(ws[|ws| - 1]), isClassification).value
  {
    if n > 0 {
      ScorablePrefix(ws, data, isClassification, exp, n - 1);
      TotalErrorZeroIff(ws, data, isClassification, exp, n - 1);
      var s := data[n - 1];
      var width := Rows(ws[|ws| - 1]);
      ErrorZeroIff(Forward(ws, s.features, exp), Target(s.classLabel, width, isClassification).value);
    }
  }

  /** Fitness is zero exactly when the network reproduces every target of its data set. */
  lemma FitnessZeroIff(ws: WeightVector, data: seq<Sample>, isClassification: bool, exp: real -> real)
    requires Scorable(ws, data, isClassification, exp) && |data| > 0
    ensures Fitness(ws, data, isClassification, exp) == 0.0 <==>
            forall k :: 0 <= k < |data| ==>
              Forward(ws, data[k].features, exp) == Target(data[k].classLabel, Rows(ws[|ws| - 1]), isClassification).value
  {
    TotalErrorZeroIff(ws, data, isClassification, exp, |data|);
    QuotientZero(TotalError(ws, data, isClassification, exp, |data|), |data| as real);
  }

  lemma QuotientZero(x: real, n: real)
    requires n > 0.0
    ensures x / n == 0.0 <==> x == 0.0
  {
    if x / n == 0.0 {
      assert x == (x / n) * n;
    }
  }

  // ---------------------------------------------------------------- backpropagation

  /** `sum_{i < n} u[i] * m[i][j]`: column `j` weighted by the incoming update (getWeightUpdates, lines 108-112). */
  function ColumnDot(m: Matrix, u: seq<real>, j: nat, n: nat): real
    requires IsMatrix(m) && n <= |m| && n <= |u| && j < Cols(m)
  {
    if n == 0 then 0.0 else ColumnDot(m, u, j, n - 1) + u[n - 1] * m[n - 1][j]
  }

  /** `sum_{c < n} s * r[c]`, as the bias loop of getWeightUpdates accumulates it (lines 115-117). */
  function ScaledRowSum(r: Row, s: real, n: nat): real
    requires n <= |r|
  {
    if n == 0 then 0.0 else ScaledRowSum(r, s, n - 1) + s * r[n - 1]
  }

  function RowSum(r: Row, n: nat): real
    requires n <= |r|
  {
    if n == 0 then 0.0 else RowSum(r, n - 1) + r[n - 1]
  }

  /** The bias entry of getWeightUpdates is the last update times the sum of the last weight row. */
  lemma {:induction false} ScaledRowSumFactors(r: Row, s: real, n: nat)
    requires n <= |r|
    ensures ScaledRowSum(r, s, n) == s * RowSum(r, n)
  {
    if n > 0 {
      ScaledRowSumFactors(r, s, n - 1);
    }
  }

  /** Entry `j` of getWeightUpdates before the bias entry: the column-weighted update times the sigmoid slope at `nodes[j]`. */
  function ColumnSlope(m: Matrix, nodes: seq<real>, u: seq<real>, j: nat): real
    requires IsLayerMatrix(m) && j < |nodes| && |u| >= Rows(m)
  {
    (if j < Cols(m) - 1 then ColumnDot(m, u, j, |m|) else 0.0) * (nodes[j] * (1.0 - nodes[j]))
  }

  /**
   * Layer.getWeightUpdates (lines 106-125): entry j < |nodes| is the
   * column-weighted update times the sigmoid slope `nodes[j] * (1 - nodes[j])`;
   * the last entry is the last update times the sum of the last weight row.
   */
  function BackUpdate(m: Matrix, nodes: seq<real>, u: seq<real>): (next: seq<real>)
    requires IsLayerMatrix(m) && |nodes| + 1 >= Cols(m) && |u| >= Rows(m)
    ensures |next| == |nodes| + 1
    ensures next[|nodes|] == u[|u| - 1] * RowSum(m[Rows(m) - 1], Cols(m))
    ensures forall j :: 0 <= j < Cols(m) - 1 ==> next[j] == ColumnDot(m, u, j, Rows(m)) * (nodes[j] * (1.0 - nodes[j]))
    ensures forall j :: Cols(m) - 1 <= j < |nodes| ==> next[j] == 0.0
  {
    ScaledRowSumFactors(m[|m| - 1], u[|u| - 1], Cols(m));
    seq(|nodes| + 1, j requires 0 <= j <= |nodes| =>
      if j == |nodes| then ScaledRowSum(m[|m| - 1], u[|u| - 1], Cols(m))
      else ColumnSlope(m, nodes, u, j))
  }

  /** Cell (i, j) after the first loop of updateWeights: non-bias cells moved by `eta * u[i] * nodes[j]`. */
  function MovedCell(m: Matrix, nodes: seq<real>, u: seq<real>, eta: real, i: nat, j: nat): real
    requires IsLayerMatrix(m) && |nodes| + 1 >= Cols(m) && |u| >= Rows(m) && i < Rows(m) && j < Cols(m)
  {
    if j < Cols(m) - 1 then m[i][j] + eta * u[i] * nodes[j] else m[i][j]
  }

  function MovedRow(m: Matrix, nodes: seq<real>, u: seq<real>, eta: real, i: nat): (r: Row)
    requires IsLayerMatrix(m) && |nodes| + 1 >= Cols(m) && |u| >= Rows(m) && i < Rows(m)
    ensures |r| == Cols(m)
  {
    seq(Cols(m), j requires 0 <= j < Cols(m) => MovedCell(m, nodes, u, eta, i, j))
  }

  /**
   * Layer.updateWeights (lines 90-101): every non-bias cell (i, j) moves by
   * `eta * u[i] * nodes[j]`, then every cell of the LAST ROW moves by
   * `eta * u[last]`; the bias column of the other rows is not touched.
   */
  function ApplyUpdate(m: Matrix, nodes: seq<real>, u: seq<real>, eta: real): (r: Matrix)
    requires IsLayerMatrix(m) && |nodes| + 1 >= Cols(m) && |u| >= Rows(m)
    ensures SameDims(r, m) && IsLayerMatrix(r)
    ensures forall i, j :: 0 <= i < Rows(m) - 1 && 0 <= j < Cols(m) - 1 ==> r[i][j] == m[i][j] + eta * u[i] * nodes[j]
    ensures forall i :: 0 <= i < Rows(m) - 1 ==> r[i][Cols(m) - 1] == m[i][Cols(m) - 1]
    ensures forall j :: 0 <= j < Cols(m) - 1 ==> r[Rows(m) - 1][j] == m[Rows(m) - 1][j] + eta * u[Rows(m) - 1] * nodes[j] + eta * u[|u| - 1]
    ensures r[Rows(m) - 1][Cols(m) - 1] == m[Rows(m) - 1][Cols(m) - 1] + eta * u[|u| - 1]
  {
    var last := |m| - 1;
    var r := seq(|m|, i requires 0 <= i < |m| =>
      if i == last then LastRow(m, nodes, u, eta) else MovedRow(m, nodes, u, eta, i));
    assert r[last] == LastRow(m, nodes, u, eta);
    r
  }

  /** The last row after both loops of updateWeights: moved, then every cell shifted by `eta * u[last]`. */
  function LastRow(m: Matrix, nodes: seq<real>, u: seq<real>, eta: real): (r: Row)
    requires IsLayerMatrix(m) && |nodes| + 1 >= Cols(m) && |u| >= Rows(m)
    ensures |r| == Cols(m)
  {
    seq(Cols(m), j requires 0 <= j < Cols(m) => MovedCell(m, nodes, u, eta, |m| - 1, j) + eta * u[|u| - 1])
  }

  /** Node buffers that fit their layers, as updateMiniBatch indexes them. */
  predicate NodesFit(ws: WeightVector, nodes: seq<seq<real>>)
  {
    |nodes| == |ws| && forall k :: 0 <= k < |ws| ==> IsMatrix(ws[k]) && |nodes[k]| + 1 >= Cols(ws[k])
  }

  /**
   * The update vector handed to layer k by updateMiniBatch (lines 289-297):
   * the output update for the last weighted layer, and for every earlier
   * layer getWeightUpdates of the layer after it, all from the weights and
   * nodes as they were BEFORE any layer changed.
   */
  function UpdateFor(ws: WeightVector, nodes: seq<seq<real>>, u: seq<real>, k: nat): (v: seq<real>)
    requires Chained(ws) && NodesFit(ws, nodes) && k < |ws| && |u| >= Rows(ws[|ws| - 1])
    ensures |v| >= Rows(ws[k])
    decreases |ws| - k
  {
    if k == |ws| - 1 then u
    else BackUpdate(ws[k + 1], nodes[k + 1], UpdateFor(ws, nodes, u, k + 1))
  }

  /** The c-th vector collected by updateMiniBatch's first loop belongs to layer |ws|-1-c. */
  lemma UpdateCollectedAt(updates: seq<seq<real>>, ws: WeightVector, nodes: seq<seq<real>>, u: seq<real>, c: nat, i: nat)
    requires |ws| >= 1 && Chained(ws) && NodesFit(ws, nodes) && |u| >= Rows(ws[|ws| - 1]) && |updates| == |ws|
    requires forall c {:trigger updates[c]} :: 0 <= c < |updates| ==> updates[c] == UpdateFor(ws, nodes, u, |ws| - 1 - c)
    requires c + i == |ws| - 1
    ensures updates[c] == UpdateFor(ws, nodes, u, i)
  {
    assert updates[c] == UpdateFor(ws, nodes, u, |ws| - 1 - c);
  }

  /** updateMiniBatch (lines 287-304): every layer moved once, by its own update vector. */
  function MiniBatchUpdate(ws: WeightVector, nodes: seq<seq<real>>, u: seq<real>, eta: real): (r: WeightVector)
    requires |ws| > 0 && Chained(ws) && NodesFit(ws, nodes) && |u| >= Rows(ws[|ws| - 1])
    ensures SameShape(r, ws) && Chained(r)
  {
    seq(|ws|, k requires 0 <= k < |ws| => ApplyUpdate(ws[k], nodes[k], UpdateFor(ws, nodes, u, k), eta))
  }

  // ---------------------------------------------------------------- training

  /** A `Collections.shuffle` outcome on `n` elements: position k receives the element that was at `p[k]`. */
  predicate IsPermutation(p: seq<nat>, n: nat)
  {
    && |p| == n
    && (forall k :: 0 <= k < n ==> p[k] < n)
    && (forall a, b :: 0 <= a < b < n ==> p[a] != p[b])
  }

  /** Index j of a sequence with entry k removed: the entry it held before the removal. */
  function Skip(j: nat, k: nat): nat
  {
    if j < k then j else j + 1
  }

  /** Removing entry k of a sequence shifts the later entries down by one. */
  lemma RemovedAt<T>(r: seq<T>, k: nat)
    requires k < |r|
    ensures |r[..k] + r[k + 1..]| == |r| - 1
    ensures forall j :: 0 <= j < |r| - 1 ==> (r[..k] + r[k + 1..])[j] == r[Skip(j, k)]
    ensures multiset(r) == multiset(r[..k] + r[k + 1..]) + multiset{r[k]}
  {
    assert r == r[..k] + [r[k]] + r[k + 1..];
  }

  /** Removing the entry that holds n-1 from a permutation of n leaves a permutation of n-1. */
  lemma RemovedTop(p: seq<nat>, n: nat, k: nat)
    requires IsPermutation(p, n) && k < n && p[k] == n - 1
    ensures IsPermutation(p[..k] + p[k + 1..], n - 1)
    ensures forall j :: 0 <= j < n - 1 ==> (p[..k] + p[k + 1..])[j] == p[Skip(j, k)]
  {
    RemovedAt(p, k);
    var q := p[..k] + p[k + 1..];
    forall a, b | 0 <= a < b < n - 1
      ensures q[a] != q[b]
    {
      assert Skip(a, k) < Skip(b, k);
    }
  }

  /** A permutation of n that does not take n-1 maps its first n-1 positions into n-1 values, and its last entry elsewhere. */
  lemma DroppedLast(p: seq<nat>, n: nat)
    requires IsPermutation(p, n) && n > 0 && n - 1 !in p
    ensures IsPermutation(p[..n - 1], n - 1) && p[n - 1] < n - 1 && p[n - 1] !in p[..n - 1]
  {
    assert p[n - 1] in p;
  }

  /** A permutation of `n` elements takes every value below `n`: an injection of 0..n-1 into itself is onto. */
  lemma {:induction false} PermutationOnto(p: seq<nat>, n: nat, v: nat)
    requires IsPermutation(p, n) && v < n
    ensures v in p
    decreases n
  {
    if n - 1 !in p {
      DroppedLast(p, n);
      PermutationOnto(p[..n - 1], n - 1, p[n - 1]);
      assert false;
    } else if v != n - 1 {
      var k :| 0 <= k < n && p[k] == n - 1;
      RemovedTop(p, n, k);
      var q := p[..k] + p[k + 1..];
      PermutationOnto(q, n - 1, v);
      var j :| 0 <= j < n - 1 && q[j] == v;
      assert p[Skip(j, k)] == v;
    }
  }

  /** A sequence that reads `s` through a permutation holds the same elements, each as often. */
  lemma {:induction false} ReindexedMultiset<T>(s: seq<T>, p: seq<nat>, r: seq<T>)
    requires IsPermutation(p, |s|) && |r| == |s| && forall k :: 0 <= k < |r| ==> r[k] == s[p[k]]
    ensures multiset(r) == multiset(s)
    decreases |s|
  {
    var n := |s|;
    if n > 0 {
      PermutationOnto(p, n, n - 1);
      var k :| 0 <= k < n && p[k] == n - 1;
      RemovedTop(p, n, k);
      RemovedAt(r, k);
      var q := p[..k] + p[k + 1..];
      var r' := r[..k] + r[k + 1..];
      var s' := s[..n - 1];
      forall j | 0 <= j < n - 1
        ensures r'[j] == s'[q[j]]
      {
        assert r'[j] == r[Skip(j, k)] && q[j] == p[Skip(j, k)];
      }
      ReindexedMultiset(s', q, r');
      assert s == s' + [s[n - 1]];
    }
  }

  /** `s` rearranged by `p`, as `Collections.shuffle` leaves it: the same elements, each as often. */
  function Permute<T>(s: seq<T>, p: seq<nat>): (r: seq<T>)
    requires IsPermutation(p, |s|)
    ensures |r| == |s| && multiset(r) == multiset(s)
    ensures forall x :: x in r ==> x in s
  {
    var r := seq(|s|, k requires 0 <= k < |s| => s[p[k]]);
    ReindexedMultiset(s, p, r);
    r
  }

  /** The training array after the in-place shuffles of the first `n` epochs (backprop, lines 235-236): the same samples. */
  function Shuffled<T>(s: seq<T>, perms: seq<seq<nat>>, n: nat): (r: seq<T>)
    requires n <= |perms| && forall e :: 0 <= e < |perms| ==> IsPermutation(perms[e], |s|)
    ensures |r| == |s| && multiset(r) == multiset(s)
    ensures forall x :: x in r ==> x in s
  {
    if n == 0 then s
    else Permute(Shuffled(s, perms, n - 1), perms[n - 1])
  }

  function AddVec(a: seq<real>, b: seq<real>): (c: seq<real>)
    requires |a| == |b|
    ensures |c| == |a|
  {
    seq(|a|, j requires 0 <= j < |a| => a[j] + b[j])
  }

  /** The `weightUpdate` accumulated over the first `n` samples of a mini-batch (backprop, lines 241-267): the sum of their deltas. */
  function DeltaSum(ws: WeightVector, batch: seq<Sample>, isClassification: bool, exp: real -> real, n: nat): (d: seq<real>)
    requires Scorable(ws, batch, isClassification, exp) && n <= |batch|
    ensures |d| == Rows(ws[|ws| - 1])
  {
    var width := Rows(ws[|ws| - 1]);
    if n == 0 then Zeros(width)
    else
      ScorablePrefix(ws, batch, isClassification, exp, n - 1);
      var s := batch[n - 1];
      AddVec(DeltaSum(ws, batch, isClassification, exp, n - 1),
             Delta(Forward(ws, s.features, exp), Target(s.classLabel, width, isClassification).value))
  }

  /** One more sample adds its own delta to the running `weightUpdate`. */
  lemma DeltaSumStep(ws: WeightVector, batch: seq<Sample>, isClassification: bool, exp: real -> real, n: nat)
    requires Scorable(ws, batch, isClassification, exp) && n < |batch|
    ensures Scorable(ws, [batch[n]], isClassification, exp)
    ensures DeltaSum(ws, batch, isClassification, exp, n + 1) ==
            AddVec(DeltaSum(ws, batch, isClassification, exp, n),
                   Delta(Forward(ws, batch[n].features, exp), Target(batch[n].classLabel, Rows(ws[|ws| - 1]), isClassification).value))
  {
    ScorablePrefix(ws, batch, isClassification, exp, n);
  }

  /** The averaging loop of backprop (lines 272-274). */
  function Average(d: seq<real>, size: nat): (a: seq<real>)
    requires size > 0
    ensures |a| == |d| && forall j :: 0 <= j < |d| ==> a[j] * size as real == d[j]
  {
    seq(|d|, j requires 0 <= j < |d| => d[j] / size as real)
  }

  lemma AverageZero(n: nat, size: nat)
    requires size > 0
    ensures Average(Zeros(n), size) == Zeros(n)
  {
    var a := Average(Zeros(n), size);
    forall j | 0 <= j < n
      ensures a[j] == 0.0
    {
      assert a[j] == 0.0 / size as real;
    }
  }

  /** Samples drawn from a scorable data set are scorable by any network of the same shape. */
  lemma ScorableTransfer(ws: WeightVector, ws': WeightVector, data: seq<Sample>, batch: seq<Sample>, isClassification: bool, exp: real -> real)
    requires Scorable(ws, data, isClassification, exp) && SameShape(ws', ws)
    requires forall s :: s in batch ==> s in data
    ensures Scorable(ws', batch, isClassification, exp)
  {
    ChainedSameShape(ws', ws);
  }

  /**
   * One epoch of backprop (lines 232-276) on its mini-batch: the averaged
   * deltas go to updateMiniBatch together with the node buffers that the
   * forward pass of the batch's LAST sample left behind.
   */
  function EpochUpdate(ws: WeightVector, batch: seq<Sample>, isClassification: bool, exp: real -> real, eta: real): (r: WeightVector)
    requires Scorable(ws, batch, isClassification, exp) && |batch| > 0
    ensures SameShape(r, ws) && Chained(r)
  {
    var x := batch[|batch| - 1].features;
    ScorablePrefix(ws, batch, isClassification, exp, |batch| - 1);
    MiniBatchUpdate(ws, Inputs(ws, x, exp), Average(DeltaSum(ws, batch, isClassification, exp, |batch|), |batch|), eta)
  }

  /**
   * backprop (lines 224-280) after `n` epochs: epoch e shuffles the
   * training array by `perms[e]` and trains on its first `size` samples.
   */
  function Train(ws: WeightVector, data: seq<Sample>, perms: seq<seq<nat>>, n: nat, size: nat,
                 isClassification: bool, exp: real -> real, eta: real): (r: WeightVector)
    requires Scorable(ws, data, isClassification, exp) && 1 <= size <= |data|
    requires n <= |perms| && forall e :: 0 <= e < |perms| ==> IsPermutation(perms[e], |data|)
    ensures SameShape(r, ws) && Chained(r)
  {
    if n == 0 then
      SameShapeReflexive(ws);
      ws
    else
      var prev := Train(ws, data, perms, n - 1, size, isClassification, exp, eta);
      var batch := Shuffled(data, perms, n)[..size];
      assert forall s :: s in batch ==> s in Shuffled(data, perms, n);
      SameShapeSymmetric(prev, ws);
      ScorableTransfer(ws, prev, data, batch, isClassification, exp);
      var r := EpochUpdate(prev, batch, isClassification, exp, eta);
      SameShapeTransitive(r, prev, ws);
      r
  }

  /**
   * One more epoch of backprop: from weights `w` and array `d` after `i`
   * epochs, the array is shuffled by `perms[i]` and the weights take one
   * EpochUpdate on the first `size` samples of it.
   */
  lemma TrainStep(ws: WeightVector, data: seq<Sample>, perms: seq<seq<nat>>, size: nat,
                  isClassification: bool, exp: real -> real, eta: real, i: nat, w: WeightVector, d: seq<Sample>)
    requires Scorable(ws, data, isClassification, exp) && 1 <= size <= |data| && i < |perms|
    requires forall e :: 0 <= e < |perms| ==> IsPermutation(perms[e], |data|)
    requires w == Train(ws, data, perms, i, size, isClassification, exp, eta) && d == Shuffled(data, perms, i)
    ensures IsPermutation(perms[i], |d|) && size <= |d| && Scorable(w, Permute(d, perms[i])[..size], isClassification, exp)
    ensures Shuffled(data, perms, i + 1) == Permute(d, perms[i])
    ensures Train(ws, data, perms, i + 1, size, isClassification, exp, eta) ==
            EpochUpdate(w, Permute(d, perms[i])[..size], isClassification, exp, eta)
  {
    var batch := Shuffled(data, perms, i + 1)[..size];
    assert forall s :: s in batch ==> s in Shuffled(data, perms, i + 1);
    SameShapeSymmetric(w, ws);
    ScorableTransfer(ws, w, data, batch, isClassification, exp);
  }

  // ---------------------------------------------------------------- a fitted batch is a fixed point

  lemma {:induction false} DeltaSumZero(ws: WeightVector, batch: seq<Sample>, isClassification: bool, exp: real -> real, n: nat)
    requires Scorable(ws, batch, isClassification, exp) && n <= |batch|
    requires forall k :: 0 <= k < n ==>
               Forward(ws, batch[k].features, exp) == Target(batch[k].classLabel, Rows(ws[|ws| - 1]), isClassification).value
    ensures DeltaSum(ws, batch, isClassification, exp, n) == Zeros(Rows(ws[|ws| - 1]))
  {
    if n > 0 {
      DeltaSumZero(ws, batch, isClassification, exp, n - 1);
      ScorablePrefix(ws, batch, isClassification, exp, n - 1);
      var s := batch[n - 1];
      var width := Rows(ws[|ws| - 1]);
      var t := Target(s.classLabel, width, isClassification).value;
      assert Delta(Forward(ws, s.features, exp), t) == Zeros(width);
    }
  }

  lemma {:induction false} ColumnDotZero(m: Matrix, u: seq<real>, j: nat, n: nat)
    requires IsMatrix(m) && n <= |m| && n <= |u| && j < Cols(m)
    requires forall i :: 0 <= i < |u| ==> u[i] == 0.0
    ensures ColumnDot(m, u, j, n) == 0.0
  {
    if n > 0 {
      ColumnDotZero(m, u, j, n - 1);
    }
  }

  /** A zero update vector propagates back as zeros. */
  lemma BackUpdateZero(m: Matrix, nodes: seq<real>, n: nat)
    requires IsLayerMatrix(m) && |nodes| + 1 >= Cols(m) && n >= Rows(m)
    ensures BackUpdate(m, nodes, Zeros(n)) == Zeros(|nodes| + 1)
  {
    forall j | 0 <= j < Cols(m) - 1
      ensures ColumnDot(m, Zeros(n), j, Rows(m)) == 0.0
    {
      ColumnDotZero(m, Zeros(n), j, Rows(m));
    }
  }

  lemma {:induction false} UpdateForZero(ws: WeightVector, nodes: seq<seq<real>>, n: nat, k: nat)
    requires Chained(ws) && NodesFit(ws, nodes) && k < |ws| && n >= Rows(ws[|ws| - 1])
    ensures UpdateFor(ws, nodes, Zeros(n), k) == Zeros(|UpdateFor(ws, nodes, Zeros(n), k)|)
    decreases |ws| - k
  {
    if k < |ws| - 1 {
      UpdateForZero(ws, nodes, n, k + 1);
      BackUpdateZero(ws[k + 1], nodes[k + 1], |UpdateFor(ws, nodes, Zeros(n), k + 1)|);
    }
  }

  /** A zero update leaves a matrix as it was. */
  lemma ApplyUpdateZero(m: Matrix, nodes: seq<real>, n: nat, eta: real)
    requires IsLayerMatrix(m) && |nodes| + 1 >= Cols(m) && n >= Rows(m)
    ensures ApplyUpdate(m, nodes, Zeros(n), eta) == m
  {
    var r := ApplyUpdate(m, nodes, Zeros(n), eta);
    var u := Zeros(n);
    forall i, j | 0 <= i < |m| && 0 <= j < Cols(m)
      ensures r[i][j] == m[i][j]
    {
      var last, bias := Rows(m) - 1, Cols(m) - 1;
      assert u[i] == 0.0 && u[|u| - 1] == 0.0;
      if j < bias {
        assert eta * u[i] * nodes[j] == 0.0;
      }
      if i < last && j < bias {
        assert r[i][j] == m[i][j] + eta * u[i] * nodes[j];
      } else if i == last && j < bias {
        assert r[i][j] == m[i][j] + eta * u[i] * nodes[j] + eta * u[|u| - 1];
      } else if i == last {
        assert r[i][j] == m[i][j] + eta * u[|u| - 1];
      }
    }
    forall i | 0 <= i < |m|
      ensures r[i] == m[i]
    {
      assert |r[i]| == |m[i]|;
    }
  }

  /** updateMiniBatch with a zero output update changes no layer. */
  lemma MiniBatchUpdateZero(ws: WeightVector, nodes: seq<seq<real>>, n: nat, eta: real)
    requires |ws| > 0 && Chained(ws) && NodesFit(ws, nodes) && n >= Rows(ws[|ws| - 1])
    ensures MiniBatchUpdate(ws, nodes, Zeros(n), eta) == ws
  {
    var r := MiniBatchUpdate(ws, nodes, Zeros(n), eta);
    forall k | 0 <= k < |ws|
      ensures r[k] == ws[k]
    {
      UpdateForZero(ws, nodes, n, k);
      ApplyUpdateZero(ws[k], nodes[k], |UpdateFor(ws, nodes, Zeros(n), k)|, eta);
    }
  }

  /**
   * An epoch whose mini-batch the network already reproduces exactly does
   * not move any weight: every delta is zero, and so is every update
   * vector handed back through the layers.
   */
  lemma FittedBatchFixedPoint(ws: WeightVector, batch: seq<Sample>, isClassification: bool, exp: real -> real, eta: real)
    requires Scorable(ws, batch, isClassification, exp) && |batch| > 0
    requires forall k :: 0 <= k < |batch| ==>
               Forward(ws, batch[k].features, exp) == Target(batch[k].classLabel, Rows(ws[|ws| - 1]), isClassification).value
    ensures EpochUpdate(ws, batch, isClassification, exp, eta) == ws
  {
    var width := Rows(ws[|ws| - 1]);
    var x := batch[|batch| - 1].features;
    ScorablePrefix(ws, batch, isClassification, exp, |batch| - 1);
    DeltaSumZero(ws, batch, isClassification, exp, |batch|);
    AverageZero(width, |batch|);
    MiniBatchUpdateZero(ws, Inputs(ws, x, exp), width, eta);
  }
}
