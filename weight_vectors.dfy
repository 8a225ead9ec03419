/**
 * The weight vector every optimizer works on: one `double[][]` matrix per
 * non-output layer, in network order (Java `List<double[][]>`).  This module
 * holds the shape predicates and the element-by-element operators that the
 * Java code writes out as nested loops in DE.mutation, DE.crossover,
 * Particle.updateVelocity and Particle.updatePosition; the methods that run
 * those loops are proved equal to these functions.
 */
module WeightVectors {

  type Row = seq<real>
  type Matrix = seq<Row>
  type WeightVector = seq<Matrix>

  /** A Java `double[rows][cols]` as the loops use it: at least one row, every row as long as row 0. */
  predicate IsMatrix(m: Matrix)
  {
    |m| > 0 && forall i :: 0 <= i < |m| ==> |m[i]| == |m[0]|
  }

  function Rows(m: Matrix): nat
  {
    |m|
  }

  /** Column count as FeedForwardNet.java reads it: `m[0].length`. */
  function Cols(m: Matrix): nat
    requires |m| > 0
  {
    |m[0]|
  }

  predicate SameDims(a: Matrix, b: Matrix)
  {
    IsMatrix(a) && IsMatrix(b) && |a| == |b| && |a[0]| == |b[0]|
  }

  /** The cardinal invariant: same number of matrices, pairwise the same dimensions. */
  predicate SameShape(a: WeightVector, b: WeightVector)
  {
    |a| == |b| && forall z :: 0 <= z < |a| ==> SameDims(a[z], b[z])
  }

  /** Every matrix of `v` is a proper matrix. */
  predicate Matrices(v: WeightVector)
  {
    forall z :: 0 <= z < |v| ==> IsMatrix(v[z])
  }

  lemma SameShapeSymmetric(a: WeightVector, b: WeightVector)
    requires SameShape(a, b)
    ensures SameShape(b, a)
  {
  }

  lemma SameShapeTransitive(a: WeightVector, b: WeightVector, c: WeightVector)
    requires SameShape(a, b) && SameShape(b, c)
    ensures SameShape(a, c)
  {
  }

  /** Weight vectors all shaped like one vector are shaped like each other. */
  lemma CommonShape(ws: seq<WeightVector>, shape: WeightVector)
    requires forall k :: 0 <= k < |ws| ==> SameShape(ws[k], shape)
    ensures forall a, b :: 0 <= a < |ws| && 0 <= b < |ws| ==> SameShape(ws[a], ws[b])
  {
    forall a, b | 0 <= a < |ws| && 0 <= b < |ws|
      ensures SameShape(ws[a], ws[b])
    {
      SameShapeSymmetric(ws[b], shape);
      SameShapeTransitive(ws[a], shape, ws[b]);
    }
  }

  lemma SameShapeReflexive(a: WeightVector)
    requires Matrices(a)
    ensures SameShape(a, a)
  {
  }

  // ---------------------------------------------------------------- DE mutation

  function TrialMatrix(a: Matrix, b: Matrix, c: Matrix, beta: real): (t: Matrix)
    requires SameDims(a, b) && SameDims(a, c)
    ensures SameDims(t, a)
  {
    seq(|a|, i requires 0 <= i < |a| =>
      seq(|a[0]|, j requires 0 <= j < |a[0]| => a[i][j] + beta * (b[i][j] - c[i][j])))
  }

  /** The trial vector `X1 + beta * (X2 - X3)` (DE.java:65-76), shaped like `X1`. */
  function Trial(x1: WeightVector, x2: WeightVector, x3: WeightVector, beta: real): (t: WeightVector)
    requires SameShape(x1, x2) && SameShape(x1, x3)
    ensures SameShape(t, x1)
  {
    seq(|x1|, z requires 0 <= z < |x1| => TrialMatrix(x1[z], x2[z], x3[z], beta))
  }

  // ---------------------------------------------------------------- DE crossover

  function CrossoverMatrix(a: Matrix, b: Matrix, draw: (nat, nat) -> real, p: real): (o: Matrix)
    requires SameDims(a, b)
    ensures SameDims(o, a)
  {
    seq(|a|, i requires 0 <= i < |a| =>
      seq(|a[0]|, j requires 0 <= j < |a[0]| => if draw(i, j) <= p then a[i][j] else b[i][j]))
  }

  /**
   * Binomial crossover (DE.java:102-117): element (z, i, j) is the target's when its
   * draw is at most `p`, otherwise the trial's.  Shaped like the target.
   */
  function BinomialCrossover(target: WeightVector, trial: WeightVector, draw: (nat, nat, nat) -> real, p: real): (o: WeightVector)
    requires SameShape(target, trial)
    ensures SameShape(o, target)
    ensures forall z, i, j :: 0 <= z < |o| && 0 <= i < |o[z]| && 0 <= j < |o[z][i]| ==>
              o[z][i][j] == target[z][i][j] || o[z][i][j] == trial[z][i][j]
  {
    seq(|target|, z requires 0 <= z < |target| =>
      CrossoverMatrix(target[z], trial[z], (i: nat, j: nat) => draw(z, i, j), p))
  }

  /** Crossing a vector with itself gives it back, whatever the draws: the crossover DE actually performs. */
  lemma CrossoverSelf(v: WeightVector, draw: (nat, nat, nat) -> real, p: real)
    requires Matrices(v)
    ensures BinomialCrossover(v, v, draw, p) == v
  {
    var o := BinomialCrossover(v, v, draw, p);
    forall z | 0 <= z < |v|
      ensures o[z] == v[z]
    {
      forall i | 0 <= i < |v[z]|
        ensures o[z][i] == v[z][i]
      {
        assert |o[z][i]| == |v[z][0]| == |v[z][i]|;
      }
    }
  }

  /** Draws that all fall at or below `p` keep the target whole. */
  lemma CrossoverKeepsTarget(target: WeightVector, trial: WeightVector, draw: (nat, nat, nat) -> real, p: real)
    requires SameShape(target, trial) && forall z, i, j :: draw(z, i, j) <= p
    ensures BinomialCrossover(target, trial, draw, p) == target
  {
    var o := BinomialCrossover(target, trial, draw, p);
    forall z | 0 <= z < |target|
      ensures o[z] == target[z]
    {
      forall i | 0 <= i < |target[z]|
        ensures o[z][i] == target[z][i]
      {
        assert |o[z][i]| == |target[z][0]| == |target[z][i]|;
      }
    }
  }

  /** Draws that all exceed `p` give the trial. */
  lemma CrossoverTakesTrial(target: WeightVector, trial: WeightVector, draw: (nat, nat, nat) -> real, p: real)
    requires SameShape(target, trial) && forall z, i, j :: draw(z, i, j) > p
    ensures BinomialCrossover(target, trial, draw, p) == trial
  {
    var o := BinomialCrossover(target, trial, draw, p);
    forall z | 0 <= z < |target|
      ensures o[z] == trial[z]
    {
      forall i | 0 <= i < |target[z]|
        ensures o[z][i] == trial[z][i]
      {
        assert |o[z][i]| == |target[z][0]| == |trial[z][i]|;
      }
    }
  }

  /** With two equal donors the difference vanishes and the trial is the first donor. */
  lemma TrialEqualDonors(x1: WeightVector, x2: WeightVector, beta: real)
    requires SameShape(x1, x2)
    ensures Trial(x1, x2, x2, beta) == x1
  {
    var t := Trial(x1, x2, x2, beta);
    forall z | 0 <= z < |x1|
      ensures t[z] == x1[z]
    {
      forall i | 0 <= i < |x1[z]|
        ensures t[z][i] == x1[z][i]
      {
        assert |t[z][i]| == |x1[z][0]| == |x1[z][i]|;
      }
    }
  }

  // ---------------------------------------------------------------- PSO

  function VelocityMatrix(v: Matrix, pb: Matrix, pos: Matrix, lb: Matrix, w: real, c1: real, c2: real,
                          r1: (nat, nat) -> real, r2: (nat, nat) -> real): (nv: Matrix)
    requires SameDims(v, pb) && SameDims(v, pos) && SameDims(v, lb)
    ensures SameDims(nv, v)
  {
    seq(|v|, i requires 0 <= i < |v| =>
      seq(|v[0]|, j requires 0 <= j < |v[0]| =>
        w * v[i][j] + c1 * r1(i, j) * (pb[i][j] - pos[i][j]) + c2 * r2(i, j) * (lb[i][j] - pos[i][j])))
  }

  /**
   * The velocity rule of ParticleSwarm.java:54-62, with one pair of draws per
   * element: `w*v + c1*r1*(pBest - pos) + c2*r2*(lBest - pos)`, shaped like `v`.
   */
  function NextVelocity(v: WeightVector, pBest: WeightVector, pos: WeightVector, lBest: WeightVector,
                        w: real, c1: real, c2: real,
                        r1: (nat, nat, nat) -> real, r2: (nat, nat, nat) -> real): (nv: WeightVector)
    requires SameShape(v, pBest) && SameShape(v, pos) && SameShape(v, lBest)
    ensures SameShape(nv, v)
  {
    seq(|v|, z requires 0 <= z < |v| =>
      VelocityMatrix(v[z], pBest[z], pos[z], lBest[z], w, c1, c2, (i: nat, j: nat) => r1(z, i, j), (i: nat, j: nat) => r2(z, i, j)))
  }

  function DisplaceMatrix(x: Matrix, v: Matrix): (y: Matrix)
    requires SameDims(x, v)
    ensures SameDims(y, x)
  {
    seq(|x|, i requires 0 <= i < |x| => seq(|x[0]|, j requires 0 <= j < |x[0]| => x[i][j] + v[i][j]))
  }

  /** The position rule of ParticleSwarm.java:80-91: position plus velocity, shaped like the position. */
  function Displace(x: WeightVector, v: WeightVector): (y: WeightVector)
    requires SameShape(x, v)
    ensures SameShape(y, x)
  {
    seq(|x|, z requires 0 <= z < |x| => DisplaceMatrix(x[z], v[z]))
  }

  /** Every entry of `v` is 0: a velocity at rest. */
  predicate Still(v: WeightVector)
  {
    forall z, i, j :: 0 <= z < |v| && 0 <= i < |v[z]| && 0 <= j < |v[z][i]| ==> v[z][i][j] == 0.0
  }

  /**
   * A particle that sits at its personal best and at its slot's weights
   * feels no pull: only the inertia term `w*v` of the velocity rule is
   * left, whatever the draws.
   */
  lemma {:induction false} VelocityAtBest(v: WeightVector, pos: WeightVector, w: real, c1: real, c2: real,
                                          r1: (nat, nat, nat) -> real, r2: (nat, nat, nat) -> real)
    requires SameShape(v, pos)
    ensures var nv := NextVelocity(v, pos, pos, pos, w, c1, c2, r1, r2);
            forall z, i, j :: 0 <= z < |v| && 0 <= i < |v[z]| && 0 <= j < |v[z][i]| ==> nv[z][i][j] == w * v[z][i][j]
  {
    var nv := NextVelocity(v, pos, pos, pos, w, c1, c2, r1, r2);
    forall z, i, j | 0 <= z < |v| && 0 <= i < |v[z]| && 0 <= j < |v[z][i]|
      ensures nv[z][i][j] == w * v[z][i][j]
    {
      assert SameDims(v[z], pos[z]);
      var m := VelocityMatrix(v[z], pos[z], pos[z], pos[z], w, c1, c2, (i: nat, j: nat) => r1(z, i, j), (i: nat, j: nat) => r2(z, i, j));
      assert nv[z] == m;
      assert m[i][j] == w * v[z][i][j] + c1 * r1(z, i, j) * (pos[z][i][j] - pos[z][i][j]) + c2 * r2(z, i, j) * (pos[z][i][j] - pos[z][i][j]);
    }
  }

  /** So a particle at rest at its bests stays at rest. */
  lemma AtRestStaysAtRest(v: WeightVector, pos: WeightVector, w: real, c1: real, c2: real,
                          r1: (nat, nat, nat) -> real, r2: (nat, nat, nat) -> real)
    requires SameShape(v, pos) && Still(v)
    ensures Still(NextVelocity(v, pos, pos, pos, w, c1, c2, r1, r2))
  {
    VelocityAtBest(v, pos, w, c1, c2, r1, r2);
  }

  /** A velocity at rest leaves the position where it is. */
  lemma {:induction false} DisplaceStill(x: WeightVector, v: WeightVector)
    requires SameShape(x, v) && Still(v)
    ensures Displace(x, v) == x
  {
    var y := Displace(x, v);
    forall z | 0 <= z < |x|
      ensures y[z] == x[z]
    {
      assert SameDims(x[z], v[z]);
      forall i | 0 <= i < |x[z]|
        ensures y[z][i] == x[z][i]
      {
        assert |x[z][i]| == |x[z][0]|;
        forall j | 0 <= j < |x[z][i]|
          ensures y[z][i][j] == x[z][i][j]
        {
          assert |v[z][i]| == |v[z][0]|;
        }
      }
    }
  }
}
