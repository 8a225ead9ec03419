/**
 * The fields of a network's layers as values, and what a forward pass,
 * init and setWeights make of them (neural-nets/FeedForwardNet.java).
 */
module NetworkState {
  import opened Basics
  import opened WeightVectors
  import opened NetworkMath

  /** A `Math.random()` value. */
  predicate UnitDraw(r: real)
  {
    0.0 <= r < 1.0
  }

  /** The initial weight drawn for one cell: uniform in [-0.01, 0.01). */
  function InitialWeight(r: real): (w: real)
    requires UnitDraw(r)
    ensures -0.01 <= w < 0.01
  {
    r * 0.02 - 0.01
  }

  /** A Layer's four fields, as a value. */
  datatype LayerState = LayerState(weights: Matrix, bias: real, nodes: seq<real>, output: seq<real>)

  // ---------------------------------------------------------------- network states as values

  /** getWeights' view of a state: the matrices of every layer but the output layer, in layer order. */
  function WeightsOf(st: seq<LayerState>): (ws: WeightVector)
    requires |st| >= 1
    ensures |ws| == |st| - 1 && forall k :: 0 <= k < |ws| ==> ws[k] == st[k].weights
  {
    seq(|st| - 1, k requires 0 <= k < |st| - 1 => st[k].weights)
  }

  /** The node buffers of the weighted layers. */
  function NodesOf(st: seq<LayerState>): (ns: seq<seq<real>>)
    requires |st| >= 1
    ensures |ns| == |st| - 1 && forall k :: 0 <= k < |ns| ==> ns[k] == st[k].nodes
  {
    seq(|st| - 1, k requires 0 <= k < |st| - 1 => st[k].nodes)
  }

  /** The output buffers of the weighted layers. */
  function OutputsOf(st: seq<LayerState>): (os: seq<seq<real>>)
    requires |st| >= 1
    ensures |os| == |st| - 1 && forall k :: 0 <= k < |os| ==> os[k] == st[k].output
  {
    seq(|st| - 1, k requires 0 <= k < |st| - 1 => st[k].output)
  }

  /** The biases of the weighted layers. */
  function BiasesOf(st: seq<LayerState>): (bs: seq<real>)
    requires |st| >= 1
    ensures |bs| == |st| - 1 && forall k :: 0 <= k < |bs| ==> bs[k] == st[k].bias
  {
    seq(|st| - 1, k requires 0 <= k < |st| - 1 => st[k].bias)
  }

  /** The width of every layer's node buffer, the output layer's included. */
  function SizesOf(st: seq<LayerState>): (sz: seq<nat>)
    ensures |sz| == |st| && forall k :: 0 <= k < |st| ==> sz[k] == |st[k].nodes|
  {
    seq(|st|, k requires 0 <= k < |st| => |st[k].nodes|)
  }

  /** The layers as the constructor allocates them: `layers[k]` zero nodes each and nothing else. */
  function Blank(layers: seq<nat>): (st: seq<LayerState>)
    ensures |st| == |layers| && SizesOf(st) == layers
    ensures forall k :: 0 <= k < |layers| ==> st[k] == LayerState([], 0.0, Zeros(layers[k]), [])
  {
    seq(|layers|, k requires 0 <= k < |layers| => LayerState([], 0.0, Zeros(layers[k]), []))
  }

  /**
   * The weighted layers are ready for a pass: a matrix with a bias column
   * each, node buffers the matrices can read, one output slot per row, and
   * bias 1.0 everywhere.
   */
  predicate LayersReady(ws: WeightVector, nodes: seq<seq<real>>, outputs: seq<seq<real>>, biases: seq<real>)
  {
    && NodesFit(ws, nodes) && |outputs| == |ws| && |biases| == |ws|
    && forall k :: 0 <= k < |ws| ==> IsLayerMatrix(ws[k]) && |outputs[k]| == Rows(ws[k]) && biases[k] == 1.0
  }

  /** A network state a forward pass can run on: an input and an output layer, chained and ready weighted layers. */
  predicate Ready(st: seq<LayerState>)
  {
    |st| >= 2 && Chained(WeightsOf(st)) && LayersReady(WeightsOf(st), NodesOf(st), OutputsOf(st), BiasesOf(st))
  }

  /** Replacing the matrices by ones of the same shape keeps the layers ready. */
  lemma LayersReadySameShape(a: WeightVector, b: WeightVector, nodes: seq<seq<real>>, outputs: seq<seq<real>>,
                             biases: seq<real>)
    requires SameShape(a, b) && Chained(b) && LayersReady(b, nodes, outputs, biases)
    ensures Chained(a) && LayersReady(a, nodes, outputs, biases)
  {
    ChainedSameShape(a, b);
  }

  /** Layers `lo..hi-1` of `st` take their matrix from `ws`; nothing else changes. */
  function Reweighted(st: seq<LayerState>, ws: WeightVector, lo: nat, hi: nat): (r: seq<LayerState>)
    requires |ws| == |st| - 1 && lo <= hi <= |ws|
    ensures |r| == |st|
  {
    seq(|st|, k requires 0 <= k < |st| => if lo <= k < hi then st[k].(weights := ws[k]) else st[k])
  }

  /** An empty range changes nothing; a range grows by one layer at either end. */
  lemma ReweightedStep(st: seq<LayerState>, ws: WeightVector, lo: nat, hi: nat)
    requires |ws| == |st| - 1 && lo <= hi <= |ws|
    ensures Reweighted(st, ws, lo, lo) == st
    ensures hi < |ws| ==> Reweighted(st, ws, lo, hi)[hi := st[hi].(weights := ws[hi])] == Reweighted(st, ws, lo, hi + 1)
    ensures 0 < lo ==> Reweighted(st, ws, lo, hi)[lo - 1 := st[lo - 1].(weights := ws[lo - 1])] == Reweighted(st, ws, lo - 1, hi)
  {
  }

  /** Every weighted layer reweighted: getWeights returns `ws`, and every other field is as it was. */
  lemma ReweightedViews(st: seq<LayerState>, ws: WeightVector)
    requires |st| >= 1 && |ws| == |st| - 1
    ensures WeightsOf(Reweighted(st, ws, 0, |ws|)) == ws
    ensures NodesOf(Reweighted(st, ws, 0, |ws|)) == NodesOf(st)
    ensures OutputsOf(Reweighted(st, ws, 0, |ws|)) == OutputsOf(st)
    ensures BiasesOf(Reweighted(st, ws, 0, |ws|)) == BiasesOf(st)
    ensures Reweighted(st, ws, 0, |ws|)[|ws|] == st[|ws|]
  {
  }

  /** Matrices of the same shape keep the output layer fitting the last matrix, or not fitting it. */
  lemma ReweightedOutputFits(st: seq<LayerState>, ws: WeightVector)
    requires |st| >= 2 && SameShape(ws, WeightsOf(st))
    ensures OutputFits(Reweighted(st, ws, 0, |ws|)) <==> OutputFits(st)
  {
    var r, z := Reweighted(st, ws, 0, |ws|), |ws| - 1;
    assert r[z].weights == ws[z] && st[z].weights == WeightsOf(st)[z] && SameDims(ws[z], WeightsOf(st)[z]);
    assert r[|st| - 1] == st[|st| - 1];
  }

  /** Matrices of the same shape keep a state ready. */
  lemma ReweightedReady(st: seq<LayerState>, ws: WeightVector)
    requires Ready(st) && SameShape(ws, WeightsOf(st))
    ensures Ready(Reweighted(st, ws, 0, |ws|))
  {
    ReweightedViews(st, ws);
    LayersReadySameShape(ws, WeightsOf(st), NodesOf(st), OutputsOf(st), BiasesOf(st));
  }

  /** The first `n` layers of `st` as a pass left them: matrix `ws[k]`, bias 1.0, input `ins[k]`, output `outs[k]`. */
  function Passed(st: seq<LayerState>, ws: WeightVector, ins: seq<seq<real>>, outs: seq<seq<real>>, n: nat)
    : (r: seq<LayerState>)
    requires n <= |st| && n <= |ws| && n <= |ins| && n <= |outs|
    ensures |r| == |st|
  {
    seq(|st|, k requires 0 <= k < |st| => if k < n then LayerState(ws[k], 1.0, ins[k], outs[k]) else st[k])
  }

  /** No layer passed changes nothing. */
  lemma PassedNone(st: seq<LayerState>, ws: WeightVector, ins: seq<seq<real>>, outs: seq<seq<real>>)
    ensures Passed(st, ws, ins, outs, 0) == st
  {
  }

  /** One more layer passed is one more update. */
  lemma PassedStep(st: seq<LayerState>, ws: WeightVector, ins: seq<seq<real>>, outs: seq<seq<real>>, n: nat)
    requires n < |st| && n < |ws| && n < |ins| && n < |outs|
    ensures Passed(st, ws, ins, outs, n)[n := LayerState(ws[n], 1.0, ins[n], outs[n])] == Passed(st, ws, ins, outs, n + 1)
  {
  }

  /** The step of init's loop: the layer just initialised joins the passed prefix. */
  lemma PassedExtend(st: seq<LayerState>, ws: WeightVector, ins: seq<seq<real>>, outs: seq<seq<real>>,
                     w: Matrix, a: seq<real>, b: seq<real>)
    requires |ws| == |ins| == |outs| < |st|
    ensures Passed(st, ws, ins, outs, |ws|)[|ws| := LayerState(w, 1.0, a, b)]
            == Passed(st, ws + [w], ins + [a], outs + [b], |ws| + 1)
  {
  }

  /**
   * The state after the matrices `ws` were set and fed `x`, starting from
   * `st`: weighted layer k holds `ws[k]`, bias 1.0 and its input and
   * output for `x`; every later layer is as in `st`.
   */
  function FedState(st: seq<LayerState>, ws: WeightVector, x: seq<real>, exp: real -> real): (r: seq<LayerState>)
    requires Chained(ws) && Accepts(ws, x) && ExpLike(exp) && |ws| < |st|
    ensures |r| == |st|
  {
    Passed(st, ws, Inputs(ws, x, exp), Outputs(ws, x, exp), |ws|)
  }

  /**
   * feedForward's effect on a ready state (FeedForwardNet.java:206-218):
   * every weighted layer keeps its matrix and holds its input and output
   * for `x`; the output layer is left as it was.
   */
  function AfterPass(st: seq<LayerState>, x: seq<real>, exp: real -> real): (r: seq<LayerState>)
    requires Ready(st) && Accepts(WeightsOf(st), x) && ExpLike(exp)
    ensures |r| == |st|
  {
    FedState(st, WeightsOf(st), x, exp)
  }

  /** A state fed through every weighted layer is ready, and its views are the pass's. */
  lemma FedViews(st: seq<LayerState>, ws: WeightVector, x: seq<real>, exp: real -> real)
    requires |st| >= 2 && |ws| == |st| - 1 && Chained(ws) && Accepts(ws, x) && ExpLike(exp)
    ensures Ready(FedState(st, ws, x, exp))
    ensures WeightsOf(FedState(st, ws, x, exp)) == ws
    ensures NodesOf(FedState(st, ws, x, exp)) == Inputs(ws, x, exp)
    ensures OutputsOf(FedState(st, ws, x, exp)) == Outputs(ws, x, exp)
    ensures FedState(st, ws, x, exp)[|ws|] == st[|ws|]
  {
    var r := FedState(st, ws, x, exp);
    assert WeightsOf(r) == ws;
    assert NodesOf(r) == Inputs(ws, x, exp);
    assert OutputsOf(r) == Outputs(ws, x, exp);
  }

  /**
   * After a pass the state is ready again, getWeights is unchanged, the
   * node and output buffers are the pass's, and the output layer is
   * untouched.
   */
  lemma AfterPassViews(st: seq<LayerState>, x: seq<real>, exp: real -> real)
    requires Ready(st) && Accepts(WeightsOf(st), x) && ExpLike(exp)
    ensures Ready(AfterPass(st, x, exp))
    ensures WeightsOf(AfterPass(st, x, exp)) == WeightsOf(st)
    ensures NodesOf(AfterPass(st, x, exp)) == Inputs(WeightsOf(st), x, exp)
    ensures OutputsOf(AfterPass(st, x, exp)) == Outputs(WeightsOf(st), x, exp)
    ensures AfterPass(st, x, exp)[|st| - 1] == st[|st| - 1]
  {
    FedViews(st, WeightsOf(st), x, exp);
  }

  /** A pass overwrites every buffer the pass before it left: only the last input counts. */
  lemma AfterPassTwice(st: seq<LayerState>, y: seq<real>, x: seq<real>, exp: real -> real)
    requires Ready(st) && Accepts(WeightsOf(st), y) && Accepts(WeightsOf(st), x) && ExpLike(exp)
    ensures Ready(AfterPass(st, y, exp)) && WeightsOf(AfterPass(st, y, exp)) == WeightsOf(st)
    ensures AfterPass(AfterPass(st, y, exp), x, exp) == AfterPass(st, x, exp)
  {
    AfterPassViews(st, y, exp);
  }

  /**
   * The matrices init has made so far for input `x`: chained, reading `x`
   * with one bias column, layer k as wide as `sizes[k + 1]`, every cell
   * its own draw.
   */
  predicate Initialised(ws: WeightVector, x: seq<real>, sizes: seq<nat>, draw: (nat, nat, nat) -> real)
  {
    && Chained(ws) && Accepts(ws, x) && Drawn(ws, draw) && |ws| < |sizes|
    && (|ws| > 0 ==> Cols(ws[0]) == |x| + 1)
    && forall k :: 0 <= k < |ws| ==> Rows(ws[k]) == sizes[k + 1]
  }

  /**
   * init's loop step: the matrix `w` drawn for layer `|ws|`, fed with the
   * output of the layers before, extends what is initialised and the
   * state the pass leaves.
   */
  lemma InitialisedExtend(st: seq<LayerState>, ws: WeightVector, w: Matrix, x: seq<real>, sizes: seq<nat>,
                          draw: (nat, nat, nat) -> real, exp: real -> real, input: seq<real>, out: seq<real>)
    requires Initialised(ws, x, sizes, draw) && ExpLike(exp) && |ws| + 1 < |sizes| && |ws| + 1 < |st|
    requires input == Activation(ws, x, exp, |ws|)
    requires IsLayerMatrix(w) && Rows(w) == sizes[|ws| + 1] && Cols(w) == |input| + 1
    requires out == LayerOutput(w, 1.0, input, exp)
    requires forall r, c :: 0 <= r < Rows(w) && 0 <= c < Cols(w) ==>
               UnitDraw(draw(|ws|, r, c)) && w[r][c] == InitialWeight(draw(|ws|, r, c))
    ensures Initialised(ws + [w], x, sizes, draw)
    ensures out == Activation(ws + [w], x, exp, |ws| + 1)
    ensures FedState(st, ws, x, exp)[|ws| := LayerState(w, 1.0, input, out)] == FedState(st, ws + [w], x, exp)
  {
    var v := ws + [w];
    assert forall k :: 0 <= k < |ws| ==> v[k] == ws[k];
    assert Chained(v);
    DrawnExtend(ws, w, draw);
    PassExtend(ws, w, x, exp);
    PassedExtend(st, ws, Inputs(ws, x, exp), Outputs(ws, x, exp), w, input, out);
  }

  /** Every cell (k, r, c) holds the initial weight of its own draw. */
  predicate Drawn(ws: WeightVector, draw: (nat, nat, nat) -> real)
  {
    forall k, r, c :: 0 <= k < |ws| && 0 <= r < |ws[k]| && 0 <= c < |ws[k][r]| ==>
      UnitDraw(draw(k, r, c)) && ws[k][r][c] == InitialWeight(draw(k, r, c))
  }

  /** A matrix whose cells hold the initial weights of layer |ws|'s draws extends what is drawn. */
  lemma DrawnExtend(ws: WeightVector, w: Matrix, draw: (nat, nat, nat) -> real)
    requires Drawn(ws, draw)
    requires forall r, c :: 0 <= r < |w| && 0 <= c < |w[r]| ==>
               UnitDraw(draw(|ws|, r, c)) && w[r][c] == InitialWeight(draw(|ws|, r, c))
    ensures Drawn(ws + [w], draw)
  {
    var v := ws + [w];
    forall k, r, c | 0 <= k < |v| && 0 <= r < |v[k]| && 0 <= c < |v[k][r]|
      ensures UnitDraw(draw(k, r, c)) && v[k][r][c] == InitialWeight(draw(k, r, c))
    {
      if k < |ws| {
        assert v[k] == ws[k];
      }
    }
  }

  /** A pass depends on the output layer's fields alone, not on what the weighted layers held before. */
  lemma PassFrom(st: seq<LayerState>, st': seq<LayerState>, x: seq<real>, exp: real -> real)
    requires Ready(st') && Accepts(WeightsOf(st'), x) && ExpLike(exp)
    requires |st| == |st'| && st[|st| - 1] == st'[|st| - 1]
    ensures FedState(st, WeightsOf(st'), x, exp) == AfterPass(st', x, exp)
  {
  }

  /**
   * One step of updateMiniBatch's second loop (lines 300-303): while layers
   * `i+1..` already hold their new matrix, layer `i` is still as it was, can
   * take its update vector, and taking it extends the updated range by one.
   */
  lemma MiniBatchStep(st: seq<LayerState>, u: seq<real>, eta: real, i: nat, before: seq<LayerState>, v: seq<real>)
    requires Ready(st) && |u| >= Rows(WeightsOf(st)[|st| - 2]) && i < |st| - 1
    requires before == Reweighted(st, MiniBatchUpdate(WeightsOf(st), NodesOf(st), u, eta), i + 1, |st| - 1)
    requires v == UpdateFor(WeightsOf(st), NodesOf(st), u, i)
    ensures before[i] == st[i]
    ensures IsLayerMatrix(st[i].weights) && |st[i].nodes| + 1 >= Cols(st[i].weights) && |v| >= Rows(st[i].weights)
    ensures before[i := before[i].(weights := ApplyUpdate(before[i].weights, before[i].nodes, v, eta))]
              == Reweighted(st, MiniBatchUpdate(WeightsOf(st), NodesOf(st), u, eta), i, |st| - 1)
  {
    var target := MiniBatchUpdate(WeightsOf(st), NodesOf(st), u, eta);
    ReweightedStep(st, target, i + 1, |st| - 1);
  }

  /** One step of updateMiniBatch's first loop (lines 292-296): layer `i` can hand the vector for layer `i-1` back. */
  lemma CollectStep(st: seq<LayerState>, u: seq<real>, i: nat)
    requires Ready(st) && |u| >= Rows(WeightsOf(st)[|st| - 2]) && 0 < i < |st| - 1
    ensures IsLayerMatrix(st[i].weights) && |st[i].nodes| + 1 >= Cols(st[i].weights)
    ensures |UpdateFor(WeightsOf(st), NodesOf(st), u, i)| >= Rows(st[i].weights)
    ensures BackUpdate(st[i].weights, st[i].nodes, UpdateFor(WeightsOf(st), NodesOf(st), u, i))
              == UpdateFor(WeightsOf(st), NodesOf(st), u, i - 1)
  {
  }

  /** The output layer is as wide as the last matrix has rows, as init leaves it. */
  predicate OutputFits(st: seq<LayerState>)
  {
    |st| >= 2 && |st[|st| - 1].nodes| == Rows(st[|st| - 2].weights)
  }

  /**
   * One epoch of backprop on the layers' values: the passes over the batch
   * leave the buffers of its last sample's pass, and updateMiniBatch on
   * those with the averaged deltas is the epoch's update; the output layer
   * still fits.
   */
  lemma EpochState(st: seq<LayerState>, batch: seq<Sample>, isClassification: bool, exp: real -> real, eta: real)
    requires Ready(st) && OutputFits(st) && Scorable(WeightsOf(st), batch, isClassification, exp) && |batch| > 0
    ensures Accepts(WeightsOf(st), batch[|batch| - 1].features)
    ensures var ws := WeightsOf(st);
            var st1 := AfterPass(st, batch[|batch| - 1].features, exp);
            var u := Average(DeltaSum(ws, batch, isClassification, exp, |batch|), |batch|);
            && Ready(st1) && WeightsOf(st1) == ws && |u| >= Rows(ws[|ws| - 1])
            && MiniBatchUpdate(ws, NodesOf(st1), u, eta) == EpochUpdate(ws, batch, isClassification, exp, eta)
            && OutputFits(Reweighted(st1, MiniBatchUpdate(ws, NodesOf(st1), u, eta), 0, |ws|))
  {
    var ws := WeightsOf(st);
    var x := batch[|batch| - 1].features;
    ScorablePrefix(ws, batch, isClassification, exp, |batch| - 1);
    AfterPassViews(st, x, exp);
    var st1 := AfterPass(st, x, exp);
    var u := Average(DeltaSum(ws, batch, isClassification, exp, |batch|), |batch|);
    ReweightedViews(st1, MiniBatchUpdate(ws, NodesOf(st1), u, eta));
  }
}
