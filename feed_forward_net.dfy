/**
 * FeedForwardNet and its inner Layer (neural-nets/FeedForwardNet.java) as
 * Dafny classes.  A Layer's fields are updated in place exactly where the
 * Java code updates them; the network holds its Layer objects in a `const`
 * sequence, so a copy made with the copy constructor shares them, as the
 * Java copy constructor shares its `Layer[]`.  Every method is proved equal
 * to the value-level functions of NetworkMath.
 */
module FeedForward {
  import opened Basics
  import opened WeightVectors
  import opened NetworkMath
  import opened NetworkState

  class Layer {
    var weights: Matrix
    var bias: real
    var nodes: seq<real>
    var output: seq<real>

    function State(): LayerState
      reads this
    {
      LayerState(weights, bias, nodes, output)
    }

    /** `Layer(int size)`: a node buffer of `size` zeros; weights and output do not exist yet. */
    constructor (size: nat)
      ensures nodes == Zeros(size) && weights == [] && output == [] && bias == 0.0
    {
      weights := [];
      bias := 0.0;
      nodes := Zeros(size);
      output := [];
    }

    /**
     * Layer.init: with a next layer, allocate a `nextLayerSize x (|input|+1)`
     * matrix of initial weights (cell (r, c) from draw (r, c)), an output
     * slot per row and bias 1.0, then run the first forward pass; for the
     * output layer (`nextLayerSize == 0`) hand `input` back untouched.
     */
    method Init(input: seq<real>, nextLayerSize: nat, draw: (nat, nat) -> real, exp: real -> real) returns (out: seq<real>)
      requires ExpLike(exp) && forall r, c :: UnitDraw(draw(r, c))
      modifies this
      ensures nextLayerSize == 0 ==> out == input && unchanged(this)
      ensures nextLayerSize > 0 ==>
        && IsLayerMatrix(weights) && Rows(weights) == nextLayerSize && Cols(weights) == |input| + 1
        && (forall r, c :: 0 <= r < nextLayerSize && 0 <= c <= |input| ==> weights[r][c] == InitialWeight(draw(r, c)))
        && bias == 1.0 && nodes == input
        && out == output == LayerOutput(weights, 1.0, input, exp)
    {
      if nextLayerSize > 0 {
        var m: Matrix := [];
        var row := 0;
        while row < nextLayerSize
          invariant 0 <= row <= nextLayerSize && |m| == row
          invariant forall r :: 0 <= r < row ==> |m[r]| == |input| + 1
          invariant forall r, c :: 0 <= r < row && 0 <= c <= |input| ==> m[r][c] == InitialWeight(draw(r, c))
        {
          var cells: Row := [];
          var col := 0;
          while col < |input| + 1
            invariant 0 <= col <= |input| + 1 && |cells| == col
            invariant forall c :: 0 <= c < col ==> cells[c] == InitialWeight(draw(row, c))
          {
            cells := cells + [InitialWeight(draw(row, col))];
            col := col + 1;
          }
          m := m + [cells];
          row := row + 1;
        }
        weights := m;
        output := Zeros(nextLayerSize);
        bias := 1.0;
        out := FeedForward(input, exp);
      } else {
        out := input;
      }
    }

    /**
     * Layer.feedForward: record `input` as the node buffer and fill the
     * output buffer with the layer map of NetworkMath.LayerOutput.
     */
    method FeedForward(input: seq<real>, exp: real -> real) returns (out: seq<real>)
      requires IsLayerMatrix(weights) && |output| == Rows(weights) && |input| + 1 >= Cols(weights) && ExpLike(exp)
      modifies this`nodes, this`output
      ensures nodes == input && out == output == LayerOutput(weights, bias, input, exp)
    {
      nodes := input;
      output := Zeros(|weights|);
      MultiplyInto(input);
      AddBias(input);
      if |output| > 1 {
        Activate(input, exp);
      }
      assert forall r :: 0 <= r < |output| ==> output[r] == LayerOutput(weights, bias, input, exp)[r];
      out := output;
    }

    /** The first loop of feedForward: `[output] += [weights] * [input]`, bias column left out. */
    method MultiplyInto(input: seq<real>)
      requires IsLayerMatrix(weights) && |input| + 1 >= Cols(weights)
      requires output == Zeros(Rows(weights))
      modifies this`output
      ensures |output| == Rows(weights)
      ensures forall r :: 0 <= r < |output| ==> output[r] == Dot(weights[r], input, Cols(weights) - 1)
    {
      var rows := |weights|;
      var cols := |weights[0]|;
      var i := 0;
      while i < rows
        invariant 0 <= i <= rows && |output| == rows
        invariant forall r :: 0 <= r < i ==> output[r] == Dot(weights[r], input, cols - 1)
        invariant forall r :: i <= r < rows ==> output[r] == 0.0
      {
        var k := 0;
        while k < cols - 1
          invariant 0 <= k <= cols - 1 && |output| == rows
          invariant output[i] == Dot(weights[i], input, k)
          invariant forall r :: 0 <= r < i ==> output[r] == Dot(weights[r], input, cols - 1)
          invariant forall r :: i < r < rows ==> output[r] == 0.0
        {
          output := output[i := output[i] + weights[i][k] * input[k]];
          k := k + 1;
        }
        i := i + 1;
      }
    }

    /** The bias loop of feedForward: every row adds its last weight times the bias. */
    method AddBias(input: seq<real>)
      requires IsLayerMatrix(weights) && |input| + 1 >= Cols(weights) && |output| == Rows(weights)
      requires forall r :: 0 <= r < |output| ==> output[r] == Dot(weights[r], input, Cols(weights) - 1)
      modifies this`output
      ensures |output| == Rows(weights)
      ensures forall r :: 0 <= r < |output| ==> output[r] == Affine(weights, bias, input, r)
    {
      var rows := |weights|;
      var cols := |weights[0]|;
      var i := 0;
      while i < rows
        invariant 0 <= i <= rows && |output| == rows
        invariant forall r :: 0 <= r < i ==> output[r] == Affine(weights, bias, input, r)
        invariant forall r :: i <= r < rows ==> output[r] == Dot(weights[r], input, cols - 1)
      {
        output := output[i := output[i] + weights[i][cols - 1] * bias];
        i := i + 1;
      }
    }

    /** The activation loop of feedForward: the sigmoid of every entry. */
    method Activate(input: seq<real>, exp: real -> real)
      requires IsLayerMatrix(weights) && |input| + 1 >= Cols(weights) && |output| == Rows(weights) && ExpLike(exp)
      requires forall r :: 0 <= r < |output| ==> output[r] == Affine(weights, bias, input, r)
      modifies this`output
      ensures |output| == Rows(weights)
      ensures forall r :: 0 <= r < |output| ==> output[r] == Sigmoid(exp, Affine(weights, bias, input, r))
    {
      var i := 0;
      while i < |output|
        invariant 0 <= i <= |output| == Rows(weights)
        invariant forall r :: 0 <= r < i ==> output[r] == Sigmoid(exp, Affine(weights, bias, input, r))
        invariant forall r :: i <= r < |output| ==> output[r] == Affine(weights, bias, input, r)
      {
        output := output[i := Sigmoid(exp, output[i])];
        i := i + 1;
      }
    }

    /** Layer.updateWeights: the weights become NetworkMath.ApplyUpdate of the old ones; nothing else changes. */
    method UpdateWeights(weightUpdate: seq<real>, eta: real)
      requires IsLayerMatrix(weights) && |nodes| + 1 >= Cols(weights) && |weightUpdate| >= Rows(weights)
      modifies this`weights
      ensures weights == ApplyUpdate(old(weights), nodes, weightUpdate, eta)
    {
      ghost var m := weights;
      var rows := |weights|;
      var cols := |weights[0]|;
      var i := 0;
      while i < rows
        invariant 0 <= i <= rows && |weights| == rows
        invariant forall r :: 0 <= r < i ==> weights[r] == MovedRow(m, nodes, weightUpdate, eta, r)
        invariant forall r :: i <= r < rows ==> weights[r] == m[r]
      {
        var row := weights[i];
        var j := 0;
        while j < cols - 1
          invariant 0 <= j <= cols - 1 && |row| == cols
          invariant forall c :: 0 <= c < j ==> row[c] == MovedCell(m, nodes, weightUpdate, eta, i, c)
          invariant forall c :: j <= c < cols ==> row[c] == m[i][c]
        {
          row := row[j := row[j] + eta * weightUpdate[i] * nodes[j]];
          j := j + 1;
        }
        weights := weights[i := row];
        i := i + 1;
      }
      // bias: every cell of the last row
      var last := rows - 1;
      var row := weights[last];
      i := 0;
      while i < cols
        invariant 0 <= i <= cols && |row| == cols
        invariant forall c :: 0 <= c < i ==> row[c] == MovedCell(m, nodes, weightUpdate, eta, last, c) + eta * weightUpdate[|weightUpdate| - 1]
        invariant forall c :: i <= c < cols ==> row[c] == MovedCell(m, nodes, weightUpdate, eta, last, c)
      {
        row := row[i := row[i] + eta * weightUpdate[|weightUpdate| - 1]];
        i := i + 1;
      }
      assert row == LastRow(m, nodes, weightUpdate, eta);
      weights := weights[last := row];
    }

    /** Layer.getWeightUpdates: the update vector for the layer before, NetworkMath.BackUpdate; the layer is not changed. */
    method GetWeightUpdates(weightUpdate: seq<real>) returns (nextUpdate: seq<real>)
      requires IsLayerMatrix(weights) && |nodes| + 1 >= Cols(weights) && |weightUpdate| >= Rows(weights)
      ensures nextUpdate == BackUpdate(weights, nodes, weightUpdate)
    {
      var rows := |weights|;
      var cols := |weights[0]|;
      var last := |nodes|;
      nextUpdate := Zeros(last + 1);
      var i := 0;
      while i < rows
        invariant 0 <= i <= rows && |nextUpdate| == last + 1
        invariant forall j :: 0 <= j < cols - 1 ==> nextUpdate[j] == ColumnDot(weights, weightUpdate, j, i)
        invariant forall j :: cols - 1 <= j <= last ==> nextUpdate[j] == 0.0
      {
        var j := 0;
        while j < cols - 1
          invariant 0 <= j <= cols - 1 && |nextUpdate| == last + 1
          invariant forall c :: 0 <= c < j ==> nextUpdate[c] == ColumnDot(weights, weightUpdate, c, i + 1)
          invariant forall c :: j <= c < cols - 1 ==> nextUpdate[c] == ColumnDot(weights, weightUpdate, c, i)
          invariant forall c :: cols - 1 <= c <= last ==> nextUpdate[c] == 0.0
        {
          nextUpdate := nextUpdate[j := nextUpdate[j] + weightUpdate[i] * weights[i][j]];
          j := j + 1;
        }
        i := i + 1;
      }
      // bias
      var s := weightUpdate[|weightUpdate| - 1];
      i := 0;
      while i < cols
        invariant 0 <= i <= cols && |nextUpdate| == last + 1
        invariant nextUpdate[last] == ScaledRowSum(weights[rows - 1], s, i)
        invariant forall j :: 0 <= j < cols - 1 ==> nextUpdate[j] == ColumnDot(weights, weightUpdate, j, rows)
        invariant forall j :: cols - 1 <= j < last ==> nextUpdate[j] == 0.0
      {
        nextUpdate := nextUpdate[last := nextUpdate[last] + s * weights[rows - 1][i]];
        i := i + 1;
      }
      // backprop through the sigmoid
      i := 0;
      while i < last
        invariant 0 <= i <= last && |nextUpdate| == last + 1
        invariant nextUpdate[last] == ScaledRowSum(weights[rows - 1], s, cols)
        invariant forall j :: 0 <= j < i ==> nextUpdate[j] == ColumnSlope(weights, nodes, weightUpdate, j)
        invariant forall j :: i <= j < last ==> nextUpdate[j] == (if j < cols - 1 then ColumnDot(weights, weightUpdate, j, rows) else 0.0)
      {
        nextUpdate := nextUpdate[i := nextUpdate[i] * (nodes[i] * (1.0 - nodes[i]))];
        i := i + 1;
      }
    }

    /** Layer.setWeights: the matrix is replaced; nothing else changes. */
    method SetWeights(newWeights: Matrix)
      modifies this`weights
      ensures weights == newWeights
    {
      weights := newWeights;
    }
  }


  /**
   * FeedForwardNet: `network[0..n-2]` are the weighted layers, `network[n-1]`
   * the output layer, whose node buffer only fixes the output width.  The
   * constants are fixed at construction; `fitness` and the layers change.
   */
  class FeedForwardNet {
    const network: seq<Layer>
    const data: seq<Sample>
    const eta: real
    const isClassification: bool
    /** `Math.exp`, a parameter of the model. */
    const exp: real -> real
    var fitness: real

    /** Every layer's fields, in layer order. */
    function State(): (st: seq<LayerState>)
      reads network
      ensures |st| == |network| && forall k :: 0 <= k < |network| ==> st[k] == network[k].State()
    {
      seq(|network|, k requires 0 <= k < |network| reads network => network[k].State())
    }

    /** getWeights (lines 433-440): one matrix per non-output layer, in layer order. */
    function Weights(): (ws: WeightVector)
      reads network
      requires |network| >= 1
    {
      WeightsOf(State())
    }

    /** Neither the net nor any of its Layers changed since the old state. */
    twostate predicate Untouched()
      reads this, network
    {
      unchanged(this) && unchanged(network)
    }

    /** The mini-batch size of backprop (lines 228-229). */
    function BatchSize(): nat
    {
      if isClassification then 4 else |data| / 10
    }

    /** No Layer object appears twice in the network. */
    predicate Distinct()
    {
      forall a, b :: 0 <= a < b < |network| ==> network[a] != network[b]
    }

    /** A usable network: distinct Layer objects in a ready state, some data, and an exp that is never negative. */
    ghost predicate Valid()
      reads network
    {
      |network| >= 2 && Distinct() && |data| > 0 && ExpLike(exp) && Ready(State())
    }

    /** The output layer is as wide as the last matrix has rows, as init leaves it: backprop's `weightUpdate` fits the deltas. */
    ghost predicate OutputWidth()
      reads network
    {
      OutputFits(State())
    }

    /**
     * `FeedForwardNet(trainingData, layers, isClassification)` (lines
     * 161-174): eta 0.5, fitness 0, one fresh Layer per entry of `layers`,
     * then init.  `draw(k, r, c)` is the `Math.random()` value of cell
     * (r, c) of layer k.
     */
    constructor (trainingData: seq<Sample>, layers: seq<nat>, isClassification: bool, exp: real -> real,
                 draw: (nat, nat, nat) -> real)
      requires |layers| >= 2 && forall k :: 1 <= k < |layers| ==> layers[k] > 0
      requires |trainingData| > 0 && ExpLike(exp)
      requires forall k, r, c :: UnitDraw(draw(k, r, c))
      ensures Valid()
      ensures data == trainingData && eta == 0.5 && this.isClassification == isClassification
      ensures this.exp == exp && fitness == 0.0
      ensures |network| == |layers| && forall k :: 0 <= k < |network| ==> fresh(network[k])
      ensures Initialised(Weights(), trainingData[0].features, layers, draw)
      ensures State() == FedState(Blank(layers), Weights(), trainingData[0].features, exp)
      ensures OutputWidth()
    {
      var ls := NewLayers(layers);
      data := trainingData;
      eta := 0.5;
      this.isClassification := isClassification;
      this.exp := exp;
      fitness := 0.0;
      network := ls;
      new;
      ghost var st0 := State();
      assert st0 == Blank(layers);
      Init(draw);
      assert SizesOf(st0) == layers;
    }

    /** One fresh Layer per entry of `layers`, each with `layers[k]` zero nodes (lines 166-169). */
    static method NewLayers(layers: seq<nat>) returns (ls: seq<Layer>)
      ensures |ls| == |layers| && forall k :: 0 <= k < |ls| ==> fresh(ls[k])
      ensures forall a, b :: 0 <= a < b < |ls| ==> ls[a] != ls[b]
      ensures forall k :: 0 <= k < |ls| ==> ls[k].State() == Blank(layers)[k]
    {
      ls := [];
      var i := 0;
      while i < |layers|
        invariant 0 <= i <= |layers| && |ls| == i
        invariant forall k :: 0 <= k < i ==> fresh(ls[k]) && ls[k].State() == Blank(layers)[k]
        invariant forall a, b :: 0 <= a < b < i ==> ls[a] != ls[b]
      {
        var l := new Layer(layers[i]);
        ls := ls + [l];
        i := i + 1;
      }
    }

    /** The copy constructor (lines 176-182): shares the very same Layer objects. */
    constructor Clone(other: FeedForwardNet)
      ensures network == other.network && data == other.data && eta == other.eta
      ensures isClassification == other.isClassification && exp == other.exp && fitness == other.fitness
    {
      network := other.network;
      data := other.data;
      eta := other.eta;
      isClassification := other.isClassification;
      exp := other.exp;
      fitness := other.fitness;
    }

    /**
     * init (lines 188-200): every weighted layer is initialised with the
     * output of the one before (the first with the first sample's
     * features) and the width of the layer after; the output layer is
     * handed the last output and left as it was.
     */
    method Init(draw: (nat, nat, nat) -> real)
      requires |network| >= 2 && Distinct() && |data| > 0 && ExpLike(exp)
      requires forall k :: 1 <= k < |network| ==> |State()[k].nodes| > 0
      requires forall k, r, c :: UnitDraw(draw(k, r, c))
      modifies network
      ensures Valid() && Initialised(Weights(), data[0].features, SizesOf(old(State())), draw)
      ensures State() == FedState(old(State()), Weights(), data[0].features, exp)
      ensures fitness == old(fitness)
    {
      ghost var st0 := State();
      var out;
      ghost var ws;
      out, ws := InitLayers(draw);
      InitOutputLayer(out, draw);
      FedViews(st0, ws, data[0].features, exp);
    }

    /** The loop of init over the weighted layers; `ws` are the matrices drawn. */
    method InitLayers(draw: (nat, nat, nat) -> real) returns (out: seq<real>, ghost ws: WeightVector)
      requires |network| >= 2 && Distinct() && |data| > 0 && ExpLike(exp)
      requires forall k :: 1 <= k < |network| ==> |State()[k].nodes| > 0
      requires forall k, r, c :: UnitDraw(draw(k, r, c))
      modifies network
      ensures |ws| == |network| - 1 && Initialised(ws, data[0].features, SizesOf(old(State())), draw)
      ensures State() == FedState(old(State()), ws, data[0].features, exp)
    {
      var x := data[0].features;
      ghost var st0 := State();
      ghost var sizes := SizesOf(st0);
      ws := [];
      PassedNone(st0, ws, [], []);
      out := x;
      var i := 0;
      while i < |network| - 1
        invariant 0 <= i <= |network| - 1 && |ws| == i
        invariant Initialised(ws, x, sizes, draw)
        invariant out == Activation(ws, x, exp, i)
        invariant State() == FedState(st0, ws, x, exp)
      {
        ghost var w;
        var input := out;
        out, w := InitLayer(i, input, draw);
        InitialisedExtend(st0, ws, w, x, sizes, draw, exp, input, out);
        ws := ws + [w];
        i := i + 1;
      }
    }

    /** One step of init's loop: layer i is initialised with `input` and the next layer's width. */
    method InitLayer(i: nat, input: seq<real>, draw: (nat, nat, nat) -> real) returns (out: seq<real>, ghost w: Matrix)
      requires Distinct() && i < |network| - 1 && ExpLike(exp) && |State()[i + 1].nodes| > 0
      requires forall k, r, c :: UnitDraw(draw(k, r, c))
      modifies network[i]
      ensures IsLayerMatrix(w) && Rows(w) == |old(State())[i + 1].nodes| && Cols(w) == |input| + 1
      ensures forall r, c :: 0 <= r < Rows(w) && 0 <= c < Cols(w) ==>
                UnitDraw(draw(i, r, c)) && w[r][c] == InitialWeight(draw(i, r, c))
      ensures out == LayerOutput(w, 1.0, input, exp)
      ensures State() == old(State())[i := LayerState(w, 1.0, input, out)]
    {
      out := network[i].Init(input, |network[i + 1].nodes|, (r: nat, c: nat) => draw(i, r, c), exp);
      w := network[i].weights;
    }

    /** The last call of init: the output layer is handed `input` with next-layer width 0 and does nothing. */
    method InitOutputLayer(input: seq<real>, draw: (nat, nat, nat) -> real)
      requires |network| >= 1 && ExpLike(exp) && forall k, r, c :: UnitDraw(draw(k, r, c))
      modifies network[|network| - 1]
      ensures State() == old(State())
    {
      var same := network[|network| - 1].Init(input, 0, (r: nat, c: nat) => draw(|network| - 1, r, c), exp);
    }

    /**
     * feedForward (lines 206-218): every weighted layer in order; the
     * result is the last weighted layer's output.
     */
    method FeedForward(x: seq<real>) returns (out: seq<real>)
      requires Valid() && Accepts(Weights(), x)
      modifies network
      ensures Valid() && State() == AfterPass(old(State()), x, exp)
      ensures Weights() == old(Weights()) && out == Forward(Weights(), x, exp)
    {
      ghost var st0 := State();
      ghost var ws := WeightsOf(st0);
      ghost var ins, outs := Inputs(ws, x, exp), Outputs(ws, x, exp);
      PassedNone(st0, ws, ins, outs);
      out := x;
      var i := 0;
      while i < |network| - 1
        invariant 0 <= i <= |network| - 1
        invariant State() == Passed(st0, ws, ins, outs, i)
        invariant out == Activation(ws, x, exp, i)
      {
        PassAt(ws, x, exp, i);
        PassedStep(st0, ws, ins, outs, i);
        out := FeedLayer(i, out);
        i := i + 1;
      }
      AfterPassViews(st0, x, exp);
    }

    /** One step of feedForward's loop: layer i reads `input`; only its node and output buffers change. */
    method FeedLayer(i: nat, input: seq<real>) returns (out: seq<real>)
      requires Distinct() && i < |network| - 1 && ExpLike(exp)
      requires IsLayerMatrix(State()[i].weights) && |State()[i].output| == Rows(State()[i].weights)
      requires State()[i].bias == 1.0 && |input| + 1 >= Cols(State()[i].weights)
      modifies network[i]
      ensures out == LayerOutput(old(State())[i].weights, 1.0, input, exp)
      ensures State() == old(State())[i := LayerState(old(State())[i].weights, 1.0, input, out)]
    {
      out := network[i].FeedForward(input, exp);
    }

    /** getWeights (lines 433-440). */
    method GetWeights() returns (ws: WeightVector)
      requires |network| >= 1
      ensures ws == Weights()
    {
      ws := [];
      var i := 0;
      while i < |network| - 1
        invariant 0 <= i <= |network| - 1 && |ws| == i
        invariant forall k :: 0 <= k < i ==> ws[k] == network[k].weights
      {
        ws := ws + [network[i].weights];
        i := i + 1;
      }
    }

    /**
     * setWeights (lines 442-446): layer k takes matrix k of `newWeights`;
     * node buffers, outputs, biases and the output layer are untouched.
     */
    method SetWeights(newWeights: WeightVector)
      requires Valid() && SameShape(newWeights, Weights())
      modifies network
      ensures Valid() && State() == Reweighted(old(State()), newWeights, 0, |newWeights|)
      ensures Weights() == newWeights && (OutputWidth() <==> old(OutputWidth()))
    {
      ghost var st0 := State();
      WriteLayers(newWeights);
      ReweightedReady(st0, newWeights);
      ReweightedViews(st0, newWeights);
      ReweightedOutputFits(st0, newWeights);
    }

    /** setWeights' loop: layer i takes matrix `ws[i]`, in layer order. */
    method WriteLayers(ws: WeightVector)
      requires Distinct() && |ws| == |network| - 1
      modifies network
      ensures State() == Reweighted(old(State()), ws, 0, |ws|)
    {
      ghost var st0 := State();
      ReweightedStep(st0, ws, 0, 0);
      var i := 0;
      while i < |network| - 1
        invariant 0 <= i <= |network| - 1
        invariant State() == Reweighted(st0, ws, 0, i)
      {
        ReweightedStep(st0, ws, 0, i);
        SetLayer(i, ws[i]);
        i := i + 1;
      }
    }

    /** One step of setWeights' loop: layer i takes matrix `m`. */
    method SetLayer(i: nat, m: Matrix)
      requires Distinct() && i < |network| - 1
      modifies network[i]
      ensures State() == old(State())[i := old(State())[i].(weights := m)]
    {
      network[i].SetWeights(m);
    }

    /** error (lines 410-418): half the sum of squared differences over the output's entries. */
    static method Error(output: seq<real>, target: seq<real>) returns (e: real)
      requires |output| <= |target|
      ensures e == HalfSquaredError(output, target)
    {
      var sum := 0.0;
      var i := 0;
      while i < |output|
        invariant 0 <= i <= |output| && sum == SumSquares(output, target, i)
      {
        sum := sum + Square(target[i] - output[i]);
        i := i + 1;
      }
      e := sum / 2.0;
    }

    /** delta (lines 423-431): `target[i] - output[i]` for every output. */
    static method Delta(output: seq<real>, target: seq<real>) returns (d: seq<real>)
      requires |output| <= |target|
      ensures d == NetworkMath.Delta(output, target)
    {
      d := Zeros(|output|);
      var i := 0;
      while i < |output|
        invariant 0 <= i <= |output| && |d| == |output|
        invariant forall j :: 0 <= j < i ==> d[j] == target[j] - output[j]
      {
        d := d[i := target[i] - output[i]];
        i := i + 1;
      }
    }

    /**
     * updateFitness (lines 448-477): a forward pass per sample and the mean
     * error over `data`.  The weights do not change; the layers are left as
     * the pass of the last sample leaves them.
     */
    method UpdateFitness()
      requires Valid() && Scorable(Weights(), data, isClassification, exp)
      modifies this`fitness, network
      ensures Valid() && fitness == Fitness(old(Weights()), data, isClassification, exp)
      ensures State() == AfterPass(old(State()), data[|data| - 1].features, exp)
      ensures Weights() == old(Weights())
    {
      var totalError := SumErrors();
      ghost var st1 := State();
      assert forall k :: 0 <= k < |network| ==> network[k] as object != this;
      fitness := totalError / |data| as real;
      assert State() == st1;
    }

    /**
     * The loop of updateFitness (lines 451-472): `totalError` summed over
     * `data` in order.  The last sample is scored after the loop, so that
     * the final state is the one its pass leaves.
     */
    method SumErrors() returns (totalError: real)
      requires Valid() && Scorable(Weights(), data, isClassification, exp)
      modifies network
      ensures Valid() && totalError == TotalError(old(Weights()), data, isClassification, exp, |data|)
      ensures State() == AfterPass(old(State()), data[|data| - 1].features, exp)
      ensures Weights() == old(Weights()) && State()[|Weights()|] == old(State())[|Weights()|]
    {
      ghost var st0 := State();
      ghost var ws := Weights();
      totalError := 0.0;
      var i := 0;
      while i < |data| - 1
        invariant 0 <= i <= |data| - 1 && Valid() && Weights() == ws && State()[|ws|] == st0[|ws|]
        invariant totalError == TotalError(ws, data, isClassification, exp, i)
      {
        totalError := ScoreNext(i, ws, totalError);
        i := i + 1;
      }
      totalError := ScoreLast(ws, st0, totalError);
    }

    /** One turn of updateFitness's loop: sample i's error added to the running total. */
    method ScoreNext(i: nat, ghost ws: WeightVector, acc: real) returns (total: real)
      requires Valid() && Weights() == ws && Scorable(ws, data, isClassification, exp) && i < |data|
      requires acc == TotalError(ws, data, isClassification, exp, i)
      modifies network
      ensures Valid() && Weights() == ws && State()[|ws|] == old(State())[|ws|]
      ensures Accepts(ws, data[i].features) && State() == FedState(old(State()), ws, data[i].features, exp)
      ensures total == TotalError(ws, data, isClassification, exp, i + 1)
    {
      TotalErrorStep(ws, data, isClassification, exp, i);
      var output, t := SamplePass(data[i], ws);
      ghost var st1 := State();
      var e := Error(output, t);
      assert State() == st1;
      total := acc + e;
    }

    /** The last turn of updateFitness's loop: its pass is the one the layers keep. */
    method ScoreLast(ghost ws: WeightVector, ghost st0: seq<LayerState>, acc: real) returns (total: real)
      requires Valid() && Weights() == ws && Scorable(ws, data, isClassification, exp)
      requires Ready(st0) && |st0| == |network| && State()[|ws|] == st0[|ws|] && WeightsOf(st0) == ws
      requires acc == TotalError(ws, data, isClassification, exp, |data| - 1)
      modifies network
      ensures Valid() && total == TotalError(ws, data, isClassification, exp, |data|)
      ensures State() == AfterPass(st0, data[|data| - 1].features, exp)
      ensures Weights() == ws && State()[|ws|] == st0[|ws|]
    {
      var i := |data| - 1;
      ghost var before := State();
      total := ScoreNext(i, ws, acc);
      assert State() == FedState(before, ws, data[i].features, exp);
      PassFrom(before, st0, data[i].features, exp);
      assert State() == AfterPass(st0, data[i].features, exp);
    }

    /**
     * The head of the per-sample loops of updateFitness (lines 452-469) and
     * backprop (lines 242-259): the forward pass of `s` and its target,
     * one-hot at `label - 1` for classification, the value in slot 0 for
     * regression.
     */
    method SamplePass(s: Sample, ghost ws: WeightVector) returns (output: seq<real>, t: seq<real>)
      requires Valid() && Weights() == ws && Scorable(ws, [s], isClassification, exp)
      modifies network
      ensures Valid() && Weights() == ws && State()[|ws|] == old(State())[|ws|]
      ensures Accepts(ws, s.features) && State() == FedState(old(State()), ws, s.features, exp)
      ensures output == Forward(ws, s.features, exp) && t == Target(s.classLabel, Rows(ws[|ws| - 1]), isClassification).value
      ensures |output| <= |t|
    {
      output := FeedForward(s.features);
      t := Target(s.classLabel, |output|, isClassification).value;
      AfterPassViews(old(State()), s.features, exp);
    }

    /**
     * updateMiniBatch (lines 287-304): every update vector is computed from
     * the layers as they are, then layers n-2 down to 0 each take theirs.
     * Only the matrices change.
     */
    method UpdateMiniBatch(weightUpdate: seq<real>)
      requires Valid() && |weightUpdate| >= Rows(Weights()[|network| - 2])
      modifies network
      ensures Valid() && Weights() == MiniBatchUpdate(old(Weights()), NodesOf(old(State())), weightUpdate, eta)
      ensures State() == Reweighted(old(State()), Weights(), 0, |network| - 1)
    {
      var updates := CollectUpdates(weightUpdate);
      ghost var st0 := State();
      ApplyUpdates(updates, weightUpdate);
      ghost var target := MiniBatchUpdate(WeightsOf(st0), NodesOf(st0), weightUpdate, eta);
      ReweightedReady(st0, target);
      ReweightedViews(st0, target);
    }

    /**
     * The first loop of updateMiniBatch (lines 289-297): `updates[c]` is the
     * vector for layer n-2-c, each obtained from the layer after it by
     * getWeightUpdates.  No layer changes.
     */
    method CollectUpdates(weightUpdate: seq<real>) returns (updates: seq<seq<real>>)
      requires Valid() && |weightUpdate| >= Rows(Weights()[|network| - 2])
      ensures |updates| == |network| - 1
      ensures forall c {:trigger updates[c]} :: 0 <= c < |updates| ==>
                updates[c] == UpdateFor(Weights(), NodesOf(State()), weightUpdate, |network| - 2 - c)
    {
      ghost var st := State();
      ghost var ws, nodes := WeightsOf(st), NodesOf(st);
      assert Chained(ws) && NodesFit(ws, nodes);
      updates := [weightUpdate];
      var prevUpdate := weightUpdate;
      var i := |network| - 2;
      while i > 0
        invariant 0 <= i <= |network| - 2 && |updates| == |network| - 1 - i
        invariant forall c {:trigger updates[c]} :: 0 <= c < |updates| ==> updates[c] == UpdateFor(ws, nodes, weightUpdate, |network| - 2 - c)
        invariant prevUpdate == updates[|updates| - 1]
      {
        CollectStep(st, weightUpdate, i);
        assert network[i].State() == st[i] && prevUpdate == UpdateFor(ws, nodes, weightUpdate, i);
        var update := network[i].GetWeightUpdates(prevUpdate);
        assert update == UpdateFor(ws, nodes, weightUpdate, |network| - 2 - |updates|);
        updates := updates + [update];
        prevUpdate := update;
        i := i - 1;
      }
    }

    /** The second loop of updateMiniBatch (lines 300-303): layer i takes `updates[c]`, i from n-2 down to 0. */
    method ApplyUpdates(updates: seq<seq<real>>, ghost u: seq<real>)
      requires Valid() && |u| >= Rows(Weights()[|network| - 2]) && |updates| == |network| - 1
      requires forall c {:trigger updates[c]} :: 0 <= c < |updates| ==> updates[c] == UpdateFor(Weights(), NodesOf(State()), u, |network| - 2 - c)
      modifies network
      ensures State() == Reweighted(old(State()), MiniBatchUpdate(old(Weights()), NodesOf(old(State())), u, eta), 0, |network| - 1)
    {
      ghost var st0 := State();
      ghost var target := MiniBatchUpdate(WeightsOf(st0), NodesOf(st0), u, eta);
      ReweightedStep(st0, target, |network| - 1, |network| - 1);
      StepLayers(updates, st0, u, target);
    }

    /** The loop itself: from layer n-2 down to 0, layer i takes `updates[c]`, c counting the turns. */
    method StepLayers(updates: seq<seq<real>>, ghost st0: seq<LayerState>, ghost u: seq<real>, ghost target: WeightVector)
      requires Distinct() && Ready(st0) && |st0| == |network| && |u| >= Rows(WeightsOf(st0)[|st0| - 2])
      requires target == MiniBatchUpdate(WeightsOf(st0), NodesOf(st0), u, eta) && |updates| == |network| - 1
      requires forall c {:trigger updates[c]} :: 0 <= c < |updates| ==>
                 updates[c] == UpdateFor(WeightsOf(st0), NodesOf(st0), u, |WeightsOf(st0)| - 1 - c)
      requires State() == Reweighted(st0, target, |st0| - 1, |st0| - 1)
      modifies network
      ensures State() == Reweighted(st0, target, 0, |st0| - 1)
    {
      var c := 0;
      var i := |network| - 2;
      while i >= 0
        invariant c + i == |network| - 2 && -1 <= i
        invariant State() == Reweighted(st0, target, i + 1, |st0| - 1)
        decreases i + 1
      {
        UpdateCollectedAt(updates, WeightsOf(st0), NodesOf(st0), u, c, i);
        StepLayer(i, updates[c], st0, u, target);
        c := c + 1;
        i := i - 1;
      }
    }

    /** One turn of updateMiniBatch's second loop: layers i+1.. hold their new matrices, and now layer i takes its own. */
    method StepLayer(i: nat, v: seq<real>, ghost st0: seq<LayerState>, ghost u: seq<real>, ghost target: WeightVector)
      requires Distinct() && Ready(st0) && |st0| == |network| && |u| >= Rows(WeightsOf(st0)[|st0| - 2]) && i < |st0| - 1
      requires target == MiniBatchUpdate(WeightsOf(st0), NodesOf(st0), u, eta)
      requires State() == Reweighted(st0, target, i + 1, |st0| - 1)
      requires v == UpdateFor(WeightsOf(st0), NodesOf(st0), u, i)
      modifies network
      ensures State() == Reweighted(st0, target, i, |st0| - 1)
    {
      MiniBatchStep(st0, u, eta, i, State(), v);
      UpdateLayer(i, v);
    }

    /** One step of updateMiniBatch's second loop: layer i's matrix moves by `v`; nothing else changes. */
    method UpdateLayer(i: nat, v: seq<real>)
      requires Distinct() && i < |network| - 1
      requires IsLayerMatrix(State()[i].weights) && |State()[i].nodes| + 1 >= Cols(State()[i].weights)
      requires |v| >= Rows(State()[i].weights)
      modifies network[i]
      ensures State() == old(State())[i := old(State())[i].(weights := ApplyUpdate(old(State())[i].weights, old(State())[i].nodes, v, eta))]
    {
      network[i].UpdateWeights(v, eta);
    }

    /**
     * backprop (lines 224-280) for `epochs` epochs: each shuffles
     * `trainingData` in place by the next permutation of `perms` and trains
     * one epoch on its first BatchSize() samples.
     */
    method Backprop(trainingData: array<Sample>, epochs: nat, perms: seq<seq<nat>>)
      requires Valid() && OutputWidth() && |perms| == epochs
      requires forall e :: 0 <= e < epochs ==> IsPermutation(perms[e], trainingData.Length)
      requires Scorable(Weights(), trainingData[..], isClassification, exp) && 1 <= BatchSize() <= trainingData.Length
      modifies network, trainingData
      ensures Valid() && OutputWidth() && trainingData[..] == Shuffled(old(trainingData[..]), perms, epochs)
      ensures multiset(trainingData[..]) == multiset(old(trainingData[..]))
      ensures Weights() == Train(old(Weights()), old(trainingData[..]), perms, epochs, BatchSize(), isClassification, exp, eta)
    {
      var miniBatchSize := if isClassification then 4 else |data| / 10;
      ghost var d0 := trainingData[..];
      ghost var ws0 := Weights();
      var i := 0;
      while i < epochs
        invariant 0 <= i <= epochs && Valid() && OutputWidth()
        invariant trainingData[..] == Shuffled(d0, perms, i)
        invariant Weights() == Train(ws0, d0, perms, i, miniBatchSize, isClassification, exp, eta)
      {
        EpochTurn(trainingData, ws0, d0, perms, i, miniBatchSize);
        i := i + 1;
      }
    }

    /** Epoch `i` of backprop's loop, stated against the epochs before it. */
    method EpochTurn(trainingData: array<Sample>, ghost ws0: WeightVector, ghost d0: seq<Sample>, perms: seq<seq<nat>>, i: nat, miniBatchSize: nat)
      requires Valid() && OutputWidth() && i < |perms|
      requires Scorable(ws0, d0, isClassification, exp) && 1 <= miniBatchSize <= |d0|
      requires forall e :: 0 <= e < |perms| ==> IsPermutation(perms[e], |d0|)
      requires trainingData[..] == Shuffled(d0, perms, i)
      requires Weights() == Train(ws0, d0, perms, i, miniBatchSize, isClassification, exp, eta)
      modifies network, trainingData
      ensures Valid() && OutputWidth()
      ensures trainingData[..] == Shuffled(d0, perms, i + 1)
      ensures Weights() == Train(ws0, d0, perms, i + 1, miniBatchSize, isClassification, exp, eta)
    {
      TrainStep(ws0, d0, perms, miniBatchSize, isClassification, exp, eta, i, Weights(), trainingData[..]);
      BackpropEpoch(trainingData, perms[i], miniBatchSize);
    }

    /** One turn of backprop's epoch loop (lines 232-276): shuffle, take the first `miniBatchSize` samples, train on them. */
    method BackpropEpoch(trainingData: array<Sample>, p: seq<nat>, miniBatchSize: nat)
      requires Valid() && OutputWidth() && IsPermutation(p, trainingData.Length) && 1 <= miniBatchSize <= trainingData.Length
      requires Scorable(Weights(), Permute(trainingData[..], p)[..miniBatchSize], isClassification, exp)
      modifies network, trainingData
      ensures Valid() && OutputWidth() && trainingData[..] == Permute(old(trainingData[..]), p)
      ensures Weights() == EpochUpdate(old(Weights()), Permute(old(trainingData[..]), p)[..miniBatchSize], isClassification, exp, eta)
    {
      assert forall k :: 0 <= k < |network| ==> network[k] as object != trainingData;
      ghost var st0 := State();
      Shuffle(trainingData, p);
      assert State() == st0;
      var miniBatch := trainingData[..miniBatchSize];
      ghost var d1 := trainingData[..];
      TrainEpoch(miniBatch);
      assert trainingData[..] == d1;
    }

    /** `Collections.shuffle` of the list view of `a` (lines 235-236), its outcome `p` given: `a` is rearranged in place. */
    static method Shuffle(a: array<Sample>, p: seq<nat>)
      requires IsPermutation(p, a.Length)
      modifies a
      ensures a[..] == Permute(old(a[..]), p) && multiset(a[..]) == multiset(old(a[..]))
    {
      var s := a[..];
      var k := 0;
      while k < a.Length
        invariant 0 <= k <= a.Length
        invariant forall j :: 0 <= j < k ==> a[j] == s[p[j]]
      {
        a[k] := s[p[k]];
        k := k + 1;
      }
    }

    /**
     * The body of backprop's epoch loop (lines 232-276) on its mini-batch:
     * the deltas summed over the batch, averaged, and handed to
     * updateMiniBatch with the node buffers the batch's last pass left.
     */
    method TrainEpoch(miniBatch: seq<Sample>)
      requires Valid() && OutputWidth() && |miniBatch| > 0 && Scorable(Weights(), miniBatch, isClassification, exp)
      modifies network
      ensures Valid() && OutputWidth() && Weights() == EpochUpdate(old(Weights()), miniBatch, isClassification, exp, eta)
    {
      ghost var st0 := State();
      EpochState(st0, miniBatch, isClassification, exp, eta);
      var weightUpdate := AveragedDeltas(miniBatch);
      UpdateMiniBatch(weightUpdate);
    }

    /** The mini-batch part of backprop's epoch (lines 241-274): the deltas summed over the batch, then averaged. */
    method AveragedDeltas(miniBatch: seq<Sample>) returns (weightUpdate: seq<real>)
      requires Valid() && OutputWidth() && |miniBatch| > 0 && Scorable(Weights(), miniBatch, isClassification, exp)
      modifies network
      ensures Valid() && weightUpdate == Average(DeltaSum(old(Weights()), miniBatch, isClassification, exp, |miniBatch|), |miniBatch|)
      ensures State() == AfterPass(old(State()), miniBatch[|miniBatch| - 1].features, exp)
    {
      weightUpdate := SumDeltas(miniBatch);
      ghost var st1 := State();
      weightUpdate := AverageInto(weightUpdate, |miniBatch|);
      assert State() == st1;
    }

    /** The sample loop of backprop (lines 241-268): `weightUpdate` starts at zero and collects every sample's delta. */
    method SumDeltas(miniBatch: seq<Sample>) returns (weightUpdate: seq<real>)
      requires Valid() && OutputWidth() && |miniBatch| > 0 && Scorable(Weights(), miniBatch, isClassification, exp)
      modifies network
      ensures Valid() && weightUpdate == DeltaSum(old(Weights()), miniBatch, isClassification, exp, |miniBatch|)
      ensures State() == AfterPass(old(State()), miniBatch[|miniBatch| - 1].features, exp)
    {
      ghost var st0 := State();
      ghost var ws := Weights();
      weightUpdate := Zeros(|network[|network| - 1].nodes|);
      var i := 0;
      while i < |miniBatch| - 1
        invariant 0 <= i <= |miniBatch| - 1 && Valid() && Weights() == ws && State()[|ws|] == st0[|ws|]
        invariant weightUpdate == DeltaSum(ws, miniBatch, isClassification, exp, i)
      {
        weightUpdate := DeltaNext(miniBatch, i, ws, weightUpdate);
        i := i + 1;
      }
      weightUpdate := DeltaLast(miniBatch, ws, st0, weightUpdate);
    }

    /** One turn of backprop's sample loop: sample i's delta added to `weightUpdate`. */
    method DeltaNext(miniBatch: seq<Sample>, i: nat, ghost ws: WeightVector, weightUpdate: seq<real>) returns (sum: seq<real>)
      requires Valid() && Weights() == ws && Scorable(ws, miniBatch, isClassification, exp) && i < |miniBatch|
      requires weightUpdate == DeltaSum(ws, miniBatch, isClassification, exp, i)
      modifies network
      ensures Valid() && Weights() == ws && State()[|ws|] == old(State())[|ws|]
      ensures Accepts(ws, miniBatch[i].features) && State() == FedState(old(State()), ws, miniBatch[i].features, exp)
      ensures sum == DeltaSum(ws, miniBatch, isClassification, exp, i + 1)
    {
      DeltaSumStep(ws, miniBatch, isClassification, exp, i);
      var deltas := SampleDelta(miniBatch[i], ws);
      sum := AddInto(weightUpdate, deltas);
    }

    /** The forward pass of one mini-batch sample and its delta (backprop, lines 242-262). */
    method SampleDelta(s: Sample, ghost ws: WeightVector) returns (deltas: seq<real>)
      requires Valid() && Weights() == ws && Scorable(ws, [s], isClassification, exp)
      modifies network
      ensures Valid() && Weights() == ws && State()[|ws|] == old(State())[|ws|]
      ensures Accepts(ws, s.features) && State() == FedState(old(State()), ws, s.features, exp)
      ensures deltas == NetworkMath.Delta(Forward(ws, s.features, exp), Target(s.classLabel, Rows(ws[|ws| - 1]), isClassification).value)
    {
      var output, t := SamplePass(s, ws);
      ghost var st1 := State();
      deltas := Delta(output, t);
      assert State() == st1;
    }

    /** The last turn of backprop's sample loop: its pass is the one the layers keep. */
    method DeltaLast(miniBatch: seq<Sample>, ghost ws: WeightVector, ghost st0: seq<LayerState>, weightUpdate: seq<real>)
      returns (sum: seq<real>)
      requires Valid() && Weights() == ws && Scorable(ws, miniBatch, isClassification, exp) && |miniBatch| > 0
      requires Ready(st0) && |st0| == |network| && State()[|ws|] == st0[|ws|] && WeightsOf(st0) == ws
      requires weightUpdate == DeltaSum(ws, miniBatch, isClassification, exp, |miniBatch| - 1)
      modifies network
      ensures Valid() && sum == DeltaSum(ws, miniBatch, isClassification, exp, |miniBatch|)
      ensures State() == AfterPass(st0, miniBatch[|miniBatch| - 1].features, exp)
    {
      var i := |miniBatch| - 1;
      ghost var before := State();
      sum := DeltaNext(miniBatch, i, ws, weightUpdate);
      assert State() == FedState(before, ws, miniBatch[i].features, exp);
      PassFrom(before, st0, miniBatch[i].features, exp);
      assert State() == AfterPass(st0, miniBatch[i].features, exp);
    }

    /** The accumulation loop of backprop (lines 265-267): `weightUpdate[j] += deltas[j]` over the length of `weightUpdate`. */
    static method AddInto(weightUpdate: seq<real>, deltas: seq<real>) returns (sum: seq<real>)
      requires |deltas| >= |weightUpdate|
      ensures sum == AddVec(weightUpdate, deltas[..|weightUpdate|])
      ensures |deltas| == |weightUpdate| ==> sum == AddVec(weightUpdate, deltas)
    {
      sum := weightUpdate;
      var j := 0;
      while j < |sum|
        invariant 0 <= j <= |sum| == |weightUpdate|
        invariant forall k :: 0 <= k < j ==> sum[k] == weightUpdate[k] + deltas[k]
        invariant forall k :: j <= k < |sum| ==> sum[k] == weightUpdate[k]
      {
        sum := sum[j := sum[j] + deltas[j]];
        j := j + 1;
      }
      assert |deltas| == |weightUpdate| ==> deltas[..|weightUpdate|] == deltas;
    }

    /** The averaging loop of backprop (lines 272-274): every entry divided by the batch size. */
    static method AverageInto(weightUpdate: seq<real>, size: nat) returns (avg: seq<real>)
      requires size > 0
      ensures avg == Average(weightUpdate, size)
    {
      avg := weightUpdate;
      var j := 0;
      while j < |avg|
        invariant 0 <= j <= |avg| == |weightUpdate|
        invariant forall k :: 0 <= k < j ==> avg[k] == weightUpdate[k] / size as real
        invariant forall k :: j <= k < |avg| ==> avg[k] == weightUpdate[k]
      {
        avg := avg[j := avg[j] / size as real];
        j := j + 1;
      }
    }
  }
}
