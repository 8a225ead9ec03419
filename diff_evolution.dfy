/**
 * Differential evolution over a population of FeedForwardNet objects
 * (neural-nets/DE.java).  Mutation and crossover write the new weights
 * into their target net with setWeights; the per-individual step works on
 * a copy made with the copy constructor, which shares the population
 * member's Layer objects, so both writes land in the member itself.
 */
module DifferentialEvolution {
  import opened Basics
  import opened WeightVectors
  import opened NetworkMath
  import opened NetworkState
  import opened FeedForward
  import opened Populations

  // ---------------------------------------------------------------- donor search

  /** Every draw of the stream is a `Math.random()` value. */
  predicate UnitDraws(draws: seq<real>)
  {
    forall n :: 0 <= n < |draws| ==> UnitDraw(draws[n])
  }

  /**
   * The donor indexes mutation has collected after `n` draws (lines
   * 50-54): each draw names `(int)(r * (len - 1))`, a new index joins in
   * order of first draw, and once three are held the search is over.
   */
  function Picked(draws: seq<real>, len: nat, n: nat): (p: seq<nat>)
    requires UnitDraws(draws) && len >= 1 && n <= |draws|
    ensures |p| <= 3 && forall a, b :: 0 <= a < b < |p| ==> p[a] != p[b]
    ensures forall a :: 0 <= a < |p| ==> p[a] + 1 < len || p[a] == 0
  {
    if n == 0 then []
    else
      var p := Picked(draws, len, n - 1);
      var k := DrawIndex(draws[n - 1], len - 1);
      if |p| == 3 || k in p then p else p + [k]
  }

  /** Three donors held stay held: later draws change nothing. */
  lemma {:induction false} PickedSettled(draws: seq<real>, len: nat, n: nat, m: nat)
    requires UnitDraws(draws) && len >= 1 && n <= m <= |draws| && |Picked(draws, len, n)| == 3
    ensures Picked(draws, len, m) == Picked(draws, len, n)
    decreases m - n
  {
    if m > n {
      PickedSettled(draws, len, n, m - 1);
    }
  }

  /** The donors of one mutation, or `Stalled` when the stream runs out first: the Java loop never ends then. */
  datatype Donors = Found(x1: nat, x2: nat, x3: nat) | Stalled

  /**
   * What the donor search comes to.  Three distinct indexes in
   * [0, len - 2] are needed, so the search ends only when the
   * population holds at least four nets.
   */
  function DonorsOf(draws: seq<real>, len: nat): (d: Donors)
    requires UnitDraws(draws) && len >= 1
    ensures d.Found? ==> len >= 4 && d.x1 != d.x2 && d.x1 != d.x3 && d.x2 != d.x3
    ensures d.Found? ==> d.x1 <= len - 2 && d.x2 <= len - 2 && d.x3 <= len - 2
  {
    var p := Picked(draws, len, |draws|);
    if |p| == 3 then Found(p[0], p[1], p[2]) else Stalled
  }

  /**
   * The donor search of mutation (lines 50-57), over indexes rather than the
   * nets they name: draw until three distinct indexes are held, and stop
   * when the draws run out.
   */
  method DrawDonors(draws: seq<real>, len: nat) returns (donors: Donors)
    requires UnitDraws(draws) && len >= 1
    ensures donors == DonorsOf(draws, len)
  {
    var distinct: seq<nat> := [];
    var n := 0;
    while |distinct| < 3 && n < |draws|
      invariant n <= |draws| && distinct == Picked(draws, len, n)
    {
      var k := DrawIndex(draws[n], len - 1);
      if k !in distinct {
        distinct := distinct + [k];
      }
      n := n + 1;
    }
    if |distinct| < 3 {
      return Stalled;
    }
    PickedSettled(draws, len, n, |draws|);
    donors := Found(distinct[0], distinct[1], distinct[2]);
  }

  /**
   * The donor search as evidently intended: each draw names
   * `(int)(r * len)`, so every member, the last one included, can be
   * drawn, and three members are enough.
   */
  function PickedAmong(draws: seq<real>, len: nat, n: nat): (p: seq<nat>)
    requires UnitDraws(draws) && n <= |draws|
    ensures |p| <= 3 && forall a, b :: 0 <= a < b < |p| ==> p[a] != p[b]
    ensures forall a :: 0 <= a < |p| ==> p[a] < len || p[a] == 0
  {
    if n == 0 then []
    else
      var p := PickedAmong(draws, len, n - 1);
      var k := DrawIndex(draws[n - 1], len);
      if |p| == 3 || k in p then p else p + [k]
  }

  /** What the intended donor search comes to: three distinct members, or `Stalled` when the stream runs out. */
  function IntendedDonorsOf(draws: seq<real>, len: nat): (d: Donors)
    requires UnitDraws(draws)
    ensures d.Found? ==> len >= 3 && d.x1 != d.x2 && d.x1 != d.x3 && d.x2 != d.x3
    ensures d.Found? ==> d.x1 < len && d.x2 < len && d.x3 < len
  {
    var p := PickedAmong(draws, len, |draws|);
    if |p| == 3 then Found(p[0], p[1], p[2]) else Stalled
  }

  /** The draw `k / len` names member k in the intended search. */
  lemma DrawAt(k: nat, len: nat)
    requires k < len
    ensures UnitDraw(k as real / len as real) && DrawIndex(k as real / len as real, len) == k
  {
    var m := len as real;
    var r := k as real / m;
    assert r * m == k as real;
    assert 0.0 <= r < 1.0;
  }

  /**
   * The intended search finds donors in any population of three or more:
   * the draws 0, 1/len and 2/len name members 0, 1 and 2.  As written,
   * a population of three never gets there (FewerThanFourStall).
   */
  lemma IntendedDonorsFound(len: nat)
    requires len >= 3
    ensures var draws := [0.0, 1.0 / len as real, 2.0 / len as real];
            UnitDraws(draws) && IntendedDonorsOf(draws, len) == Found(0, 1, 2)
  {
    var draws := [0.0, 1.0 / len as real, 2.0 / len as real];
    DrawAt(0, len);
    DrawAt(1, len);
    DrawAt(2, len);
    assert draws[0] == 0 as real / len as real;
    assert draws[1] == 1 as real / len as real;
    assert draws[2] == 2 as real / len as real;
    PickedFirstThree(draws, len);
  }

  /** Three draws that land on members 0, 1 and 2 give those three as donors. */
  lemma PickedFirstThree(draws: seq<real>, len: nat)
    requires UnitDraws(draws) && |draws| == 3
    requires DrawIndex(draws[0], len) == 0 && DrawIndex(draws[1], len) == 1 && DrawIndex(draws[2], len) == 2
    ensures IntendedDonorsOf(draws, len) == Found(0, 1, 2)
  {
    var p0 := PickedAmong(draws, len, 0);
    var p1 := PickedAmong(draws, len, 1);
    assert p1 == p0 + [0];
    var p2 := PickedAmong(draws, len, 2);
    assert 1 !in p1;
    assert p2 == p1 + [1];
    var p3 := PickedAmong(draws, len, 3);
    assert 2 !in p2;
    assert p3 == p2 + [2];
  }

  // ---------------------------------------------------------------- the element loops

  /** Layer `z` of the trial, filled row by row as mutation's inner loops do (lines 67-73). */
  method TrialLayer(x1: WeightVector, x2: WeightVector, x3: WeightVector, z: nat, beta: real) returns (m: Matrix)
    requires SameShape(x1, x2) && SameShape(x1, x3) && z < |x1|
    ensures m == Trial(x1, x2, x3, beta)[z]
  {
    ghost var spec := Trial(x1, x2, x3, beta)[z];
    var layer := x1[z];
    m := [];
    var i := 0;
    while i < |layer|
      invariant 0 <= i <= |layer| && m == spec[..i]
    {
      var row: seq<real> := [];
      var j := 0;
      while j < |layer[0]|
        invariant 0 <= j <= |layer[0]| && row == spec[i][..j]
      {
        assert |spec[i]| == |layer[0]| && spec[i][j] == x1[z][i][j] + beta * (x2[z][i][j] - x3[z][i][j]);
        row := row + [x1[z][i][j] + beta * (x2[z][i][j] - x3[z][i][j])];
        j := j + 1;
      }
      assert row == spec[i];
      m := m + [row];
      i := i + 1;
    }
    assert m == spec;
  }

  /** The trial `X1 + beta * (X2 - X3)`, one fresh matrix per layer of `X1` (lines 63-76). */
  method TrialWeights(x1: WeightVector, x2: WeightVector, x3: WeightVector, beta: real) returns (t: WeightVector)
    requires SameShape(x1, x2) && SameShape(x1, x3)
    ensures t == Trial(x1, x2, x3, beta)
  {
    t := [];
    var z := 0;
    while z < |x1|
      invariant 0 <= z <= |x1| && t == Trial(x1, x2, x3, beta)[..z]
    {
      var newWeights := TrialLayer(x1, x2, x3, z, beta);
      t := t + [newWeights];
      z := z + 1;
    }
  }

  /** Layer `z` of the offspring, filled as crossover's inner loops do (lines 104-114). */
  method CrossoverLayer(target: WeightVector, trial: WeightVector, z: nat, draw: (nat, nat, nat) -> real, p: real)
    returns (m: Matrix)
    requires SameShape(target, trial) && z < |target|
    ensures m == BinomialCrossover(target, trial, draw, p)[z]
  {
    ghost var spec := BinomialCrossover(target, trial, draw, p)[z];
    var layer := target[z];
    m := [];
    var i := 0;
    while i < |layer|
      invariant 0 <= i <= |layer| && m == spec[..i]
    {
      var row: seq<real> := [];
      var j := 0;
      while j < |layer[0]|
        invariant 0 <= j <= |layer[0]| && row == spec[i][..j]
      {
        if draw(z, i, j) <= p {
          row := row + [target[z][i][j]];
        } else {
          row := row + [trial[z][i][j]];
        }
        j := j + 1;
      }
      assert row == spec[i];
      m := m + [row];
      i := i + 1;
    }
    assert m == spec;
  }

  /** The offspring of binomial crossover, one fresh matrix per layer of the target (lines 100-117). */
  method CrossoverWeights(target: WeightVector, trial: WeightVector, draw: (nat, nat, nat) -> real, p: real)
    returns (o: WeightVector)
    requires SameShape(target, trial)
    ensures o == BinomialCrossover(target, trial, draw, p)
  {
    o := [];
    var z := 0;
    while z < |target|
      invariant 0 <= z <= |target| && o == BinomialCrossover(target, trial, draw, p)[..z]
    {
      var newWeights := CrossoverLayer(target, trial, z, draw, p);
      o := o + [newWeights];
      z := z + 1;
    }
  }

  // ---------------------------------------------------------------- the population

  /** The fitnesses are in order, lowest first. */
  predicate Ascending(f: seq<real>)
  {
    forall a, b :: 0 <= a < b < |f| ==> f[a] <= f[b]
  }

  /** The best fitnesses of the passes of a run so far, each no higher than the one before. */
  predicate NonRising(bests: seq<real>)
  {
    |bests| <= 1 || (bests[|bests| - 1] <= bests[|bests| - 2] && NonRising(bests[..|bests| - 1]))
  }

  /** What NonRising means: no best is higher than any best before it. */
  lemma {:induction false} NonRisingOrdered(bests: seq<real>)
    requires NonRising(bests)
    ensures forall a, b :: 0 <= a <= b < |bests| ==> bests[b] <= bests[a]
  {
    if |bests| > 1 {
      var front := bests[..|bests| - 1];
      NonRisingOrdered(front);
      forall a, b | 0 <= a <= b < |bests|
        ensures bests[b] <= bests[a]
      {
        if b < |bests| - 1 {
          assert bests[a] == front[a] && bests[b] == front[b];
        } else if a < b {
          assert bests[a] == front[a] && bests[b - 1] == front[b - 1];
        }
      }
    }
  }

  /** A pass whose best is no higher than the last keeps the bests non-rising. */
  lemma NonRisingAppend(bests: seq<real>, best: real)
    requires NonRising(bests) && (0 < |bests| ==> best <= bests[|bests| - 1])
    ensures NonRising(bests + [best])
  {
    assert (bests + [best])[..|bests|] == bests;
  }

  /** Every best but the last is at least 0.008: the run had not met its target before its last pass. */
  predicate Unmet(bests: seq<real>)
  {
    forall k :: 0 <= k < |bests| - 1 ==> 0.008 <= bests[k]
  }

  /**
   * The bookkeeping of DiffEvolution's loop after z passes, whatever the
   * step: at most z bests, one per pass until a stall or the stop, and
   * `stop` set exactly when the last best fell below 0.008.
   */
  predicate Ledger(bests: seq<real>, z: nat, generations: nat, stalled: bool, stop: bool)
  {
    |bests| <= z <= generations && (!stalled && !stop ==> |bests| == z)
    && Unmet(bests) && (stop <==> 0 < |bests| && bests[|bests| - 1] < 0.008)
  }

  /** One more pass keeps the ledger: a stall records nothing, any other pass records its best. */
  lemma LedgerStep(bests: seq<real>, z: nat, generations: nat, stalled: bool, best: real)
    requires Ledger(bests, z, generations, false, false) && z < generations
    ensures !stalled ==> Ledger(bests + [best], z + 1, generations, false, best < 0.008)
    ensures stalled ==> Ledger(bests, z + 1, generations, true, false)
  {
    var b := bests + [best];
    forall k | 0 <= k < |b| - 1
      ensures 0.008 <= b[k]
    {
      assert b[k] == bests[k];
    }
  }

  /** When the loop ends the run either used every generation, stopped, or stalled. */
  lemma LedgerEnd(bests: seq<real>, z: nat, generations: nat, stalled: bool, stop: bool)
    requires Ledger(bests, z, generations, stalled, stop) && !(z < generations && !stalled && !stop)
    ensures |bests| <= generations && Unmet(bests)
    ensures !stalled ==> |bests| == generations || (0 < |bests| && bests[|bests| - 1] < 0.008)
  {
  }

  /**
   * How a run of DiffEvolution ends: at most one best per generation, every
   * best but the last at least 0.008, and unless it stalled, every
   * generation used or the last best below 0.008.
   */
  predicate Ran(bests: seq<real>, generations: nat, stalled: bool)
  {
    |bests| <= generations && Unmet(bests)
    && (!stalled ==> |bests| == generations || (0 < |bests| && bests[|bests| - 1] < 0.008))
  }

  /** DiffEvolution's ledger with the corrected step: besides, the bests never rise. */
  predicate Books(bests: seq<real>, z: nat, generations: nat, stalled: bool, stop: bool)
  {
    Ledger(bests, z, generations, stalled, stop) && NonRising(bests)
  }

  /** One more pass keeps the books: a stall records nothing, any other pass records its best. */
  lemma BooksStep(bests: seq<real>, z: nat, generations: nat, stalled: bool, best: real)
    requires Books(bests, z, generations, false, false) && z < generations
    requires !stalled && 0 < |bests| ==> best <= bests[|bests| - 1]
    ensures !stalled ==> Books(bests + [best], z + 1, generations, false, best < 0.008)
    ensures stalled ==> Books(bests, z + 1, generations, true, false)
  {
    LedgerStep(bests, z, generations, stalled, best);
    if !stalled {
      NonRisingAppend(bests, best);
    }
  }

  /** When the loop ends the run either used every generation, stopped, or stalled. */
  lemma BooksEnd(bests: seq<real>, z: nat, generations: nat, stalled: bool, stop: bool)
    requires Books(bests, z, generations, stalled, stop) && !(z < generations && !stalled && !stop)
    ensures Ran(bests, generations, stalled) && NonRising(bests)
  {
  }

  /**
   * Insertion of entry i under way, the entry now at j: apart from it
   * the first i + 1 entries are in order, and it is strictly below every
   * entry it has passed.
   */
  predicate Sinking(f: seq<real>, i: nat, j: nat)
  {
    && j <= i < |f|
    && (forall a, b :: 0 <= a < b <= i && b != j ==> f[a] <= f[b])
    && (forall b :: j < b <= i ==> f[j] < f[b])
  }

  /** Insertion starts with the first i entries in order. */
  lemma SinkingStart(f: seq<real>, i: nat)
    requires i < |f| && Ascending(f[..i])
    ensures Sinking(f, i, i)
  {
    forall a, b | 0 <= a < b < i
      ensures f[a] <= f[b]
    {
      assert f[..i][a] <= f[..i][b];
    }
  }

  /** Exchanging the entry with a higher left neighbour moves the insertion one place left. */
  lemma SinkingStep(f: seq<real>, i: nat, j: nat)
    requires Sinking(f, i, j) && 0 < j && f[j - 1] > f[j]
    ensures Sinking(f[j - 1 := f[j]][j := f[j - 1]], i, j - 1)
  {
  }

  /** Insertion ends in order when the left neighbour is no higher, or there is none. */
  lemma SinkingEnd(f: seq<real>, i: nat, j: nat)
    requires Sinking(f, i, j) && (j == 0 || f[j - 1] <= f[j])
    ensures Ascending(f[..i + 1])
  {
    forall a, b | 0 <= a < b <= i
      ensures f[a] <= f[b]
    {
      if b == j && 0 < a {
        assert f[a] <= f[j - 1];
      }
    }
  }

  /**
   * DE: the population array (sorted in place by evaluate, never resized)
   * and the constants of the run.  The data set, the task flag and
   * `Math.exp` are those every member was built with, and `shape` is the
   * shape their weights keep.
   */
  class DE {
    const population: array<FeedForwardNet>
    const mutationRate: real
    const beta: real
    const crossoverProb: real
    const data: seq<Sample>
    const isClassification: bool
    const exp: real -> real
    ghost const shape: WeightVector

    /** Every member is valid, scores `data` and is shaped like `shape`; no two members share a Layer. */
    ghost predicate Valid()
      reads population, Footprint(population[..])
    {
      && Scorable(shape, data, isClassification, exp) && |data| > 0
      && Members(population[..], data, isClassification, exp, shape)
      && AllApart(population[..])
    }

    /** Every member's weights, in population order. */
    ghost function PopulationWeights(): (ws: seq<WeightVector>)
      reads population, Footprint(population[..])
      requires Valid()
      ensures |ws| == population.Length
      ensures forall k :: 0 <= k < population.Length ==> ws[k] == population[k].Weights() && SameShape(ws[k], shape)
      ensures forall a, b :: 0 <= a < |ws| && 0 <= b < |ws| ==> SameShape(ws[a], ws[b])
    {
      var ws := seq(population.Length, k requires 0 <= k < population.Length && |population[k].network| >= 1
                                         reads population, Footprint(population[..]) => population[k].Weights());
      CommonShape(ws, shape);
      ws
    }

    /**
     * mutation (lines 42-81): pick three distinct donors and write the
     * trial `X1 + beta * (X2 - X3)` into `targetVector` with setWeights.
     * Only the target's Layers are written: `others` stay as they were.
     * The donors are drawn as indexes `(int)(r * (population.length - 1))`
     * until three distinct ones are held; with a finite stream the search
     * reports `Stalled` where the Java loop would go on.
     */
    method Mutation(targetVector: FeedForwardNet, draws: seq<real>, ghost others: set<object>)
      returns (trial: FeedForwardNet, donors: Donors)
      requires Valid() && UnitDraws(draws) && population.Length >= 1
      requires Member(targetVector, data, isClassification, exp, shape)
      requires forall j :: 0 <= j < |targetVector.network| ==> targetVector.network[j] !in others
      modifies targetVector.network
      ensures trial == targetVector && donors == DonorsOf(draws, population.Length) && unchanged(others)
      ensures Member(targetVector, data, isClassification, exp, shape)
      ensures donors.Found? ==>
                var ws := old(PopulationWeights());
                targetVector.Weights() == Trial(ws[donors.x1], ws[donors.x2], ws[donors.x3], beta)
      ensures donors.Stalled? ==> unchanged(targetVector.network)
    {
      donors := DrawDonors(draws, population.Length);
      assert PopulationWeights() == old(PopulationWeights());
      trial := targetVector;
      if donors.Stalled? {
        return;
      }
      WriteTrial(targetVector, donors, others);
    }

    /** The second half of mutation (lines 59-79): the trial of three distinct donors, written into `targetVector`. */
    method WriteTrial(targetVector: FeedForwardNet, donors: Donors, ghost others: set<object>)
      requires Valid() && donors.Found?
      requires donors.x1 < population.Length && donors.x2 < population.Length && donors.x3 < population.Length
      requires Member(targetVector, data, isClassification, exp, shape)
      requires forall j :: 0 <= j < |targetVector.network| ==> targetVector.network[j] !in others
      modifies targetVector.network
      ensures unchanged(others) && Member(targetVector, data, isClassification, exp, shape)
      ensures var ws := old(PopulationWeights());
              targetVector.Weights() == Trial(ws[donors.x1], ws[donors.x2], ws[donors.x3], beta)
    {
      ghost var ws := PopulationWeights();
      var x1 := population[donors.x1].Weights();
      var x2 := population[donors.x2].Weights();
      var x3 := population[donors.x3].Weights();
      assert x1 == ws[donors.x1] && x2 == ws[donors.x2] && x3 == ws[donors.x3];
      var trialWeights := TrialWeights(x1, x2, x3, beta);
      SameShapeTransitive(trialWeights, x1, shape);
      SameShapeSymmetric(targetVector.Weights(), shape);
      SameShapeTransitive(trialWeights, shape, targetVector.Weights());
      Reweigh(targetVector, trialWeights, others);
    }

    /**
     * crossover (lines 83-121): binomial crossover of the target's and the
     * trial's weights, element (z, i, j) kept from the target when its draw
     * is at most `crossoverProb`, written into `targetVector`.  The two nets
     * may be one and the same.
     */
    method Crossover(targetVector: FeedForwardNet, trialVector: FeedForwardNet, draw: (nat, nat, nat) -> real,
                     ghost others: set<object>) returns (offspring: FeedForwardNet)
      requires Member(targetVector, data, isClassification, exp, shape)
      requires Member(trialVector, data, isClassification, exp, shape)
      requires forall j :: 0 <= j < |targetVector.network| ==> targetVector.network[j] !in others
      modifies targetVector.network
      ensures offspring == targetVector && unchanged(others)
      ensures Member(targetVector, data, isClassification, exp, shape)
      ensures targetVector.Weights() ==
                BinomialCrossover(old(targetVector.Weights()), old(trialVector.Weights()), draw, crossoverProb)
    {
      var targetWeights := targetVector.Weights();
      var trialWeights := trialVector.Weights();
      SameShapeSymmetric(trialWeights, shape);
      SameShapeTransitive(targetWeights, shape, trialWeights);
      var offspringWeights := CrossoverWeights(targetWeights, trialWeights, draw, crossoverProb);
      SameShapeReflexive(targetWeights);
      Reweigh(targetVector, offspringWeights, others);
      offspring := targetVector;
    }

    /**
     * One pass of DiffEvolution's inner loop (lines 160-179), as written.
     * `targetVector` is made with the copy constructor and so shares
     * member i's Layers: mutation writes the trial into member i itself.
     * Member i ends up holding the trial whether or not it scores better,
     * and its recorded fitness is left as it was.  Every other member, and
     * every recorded fitness, is untouched.
     */
    method EvolveIndividual(i: nat, draws: seq<real>, draw: (nat, nat, nat) -> real) returns (donors: Donors)
      requires Valid() && i < population.Length && UnitDraws(draws)
      modifies population[i].network
      ensures Valid() && donors == DonorsOf(draws, population.Length)
      ensures population[..] == old(population[..]) && Fitnesses() == old(Fitnesses())
      ensures var ws := old(PopulationWeights()); PopulationWeights() == ws[i := Mutated(ws, i, donors)]
    {
      donors := BreedMember(i, draws, draw);
      WeightsAfterWrite(i);
      FitnessesAfterWrite(i);
    }

    /** EvolveIndividual on member i alone: member i holds what the step as written leaves it, no other object changes. */
    method BreedMember(i: nat, draws: seq<real>, draw: (nat, nat, nat) -> real) returns (donors: Donors)
      requires Valid() && i < population.Length && UnitDraws(draws)
      modifies population[i].network
      ensures Valid() && donors == DonorsOf(draws, population.Length) && population[..] == old(population[..])
      ensures unchanged(FootprintExcept(population[..], i)) && population[i].fitness == old(population[i].fitness)
      ensures population[i].Weights() == Mutated(old(PopulationWeights()), i, donors)
    {
      ghost var ws := PopulationWeights();
      ghost var others := FootprintExcept(population[..], i) + {population, population[i]};
      var member := population[i];
      Isolated(i);
      donors := Breed(member, draws, draw, others);
      ValidAfterWrite(i);
    }

    /**
     * Lines 163-179 of one pass: `member` is cloned with the copy
     * constructor, and the clone, which shares its Layers, goes through
     * mutation, crossover and selection.  Whatever the donors, `member`
     * ends up holding their trial.
     */
    method Breed(member: FeedForwardNet, draws: seq<real>, draw: (nat, nat, nat) -> real,
                 ghost others: set<object>) returns (donors: Donors)
      requires Valid() && UnitDraws(draws) && population.Length >= 1
      requires Member(member, data, isClassification, exp, shape)
      requires forall j :: 0 <= j < |member.network| ==> member.network[j] !in others
      modifies member.network
      ensures unchanged(others) && Member(member, data, isClassification, exp, shape)
      ensures donors == DonorsOf(draws, population.Length)
      ensures donors.Found? ==>
                var ws := old(PopulationWeights());
                member.Weights() == Trial(ws[donors.x1], ws[donors.x2], ws[donors.x3], beta)
      ensures donors.Stalled? ==> unchanged(member.network)
    {
      var targetVector := Copy(member, others + Footprint(population[..]) + {member});
      donors := MutateAndSelect(member, targetVector, draws, draw, others);
    }

    /** Lines 166-179 of one pass, given the clone `targetVector` of `member`. */
    method MutateAndSelect(member: FeedForwardNet, targetVector: FeedForwardNet, draws: seq<real>,
                           draw: (nat, nat, nat) -> real, ghost others: set<object>) returns (donors: Donors)
      requires Valid() && UnitDraws(draws) && population.Length >= 1
      requires targetVector.network == member.network && targetVector.fitness == member.fitness
      requires Member(member, data, isClassification, exp, shape)
      requires targetVector.data == member.data && targetVector.isClassification == member.isClassification
      requires targetVector.exp == member.exp && targetVector.eta == member.eta
      requires targetVector !in others && forall j :: 0 <= j < |member.network| ==> member.network[j] !in others
      modifies targetVector, member.network
      ensures unchanged(others) && Member(member, data, isClassification, exp, shape)
      ensures donors == DonorsOf(draws, population.Length)
      ensures donors.Found? ==>
                var ws := old(PopulationWeights());
                member.Weights() == Trial(ws[donors.x1], ws[donors.x2], ws[donors.x3], beta)
      ensures donors.Stalled? ==> unchanged(member.network)
    {
      assert Member(targetVector, data, isClassification, exp, shape);
      var targetFitness := targetVector.fitness;
      var tempTrial;
      tempTrial, donors := Mutation(targetVector, draws, others);
      if donors.Found? {
        var improved := SelectAsWritten(member, targetVector, targetFitness, draw, others);
      }
    }

    /**
     * The rest of the pass (lines 172-179), once mutation has written the
     * trial into `targetVector`, which shares `member`'s Layers: crossover
     * of the trial with itself gives the trial back, the copy is scored,
     * and on improvement `member` is set to the weights it already holds.
     */
    method SelectAsWritten(member: FeedForwardNet, targetVector: FeedForwardNet, targetFitness: real,
                           draw: (nat, nat, nat) -> real, ghost others: set<object>) returns (improved: bool)
      requires targetVector.network == member.network
      requires Member(targetVector, data, isClassification, exp, shape) && Member(member, data, isClassification, exp, shape)
      requires Scorable(shape, data, isClassification, exp)
      requires targetVector !in others && forall j :: 0 <= j < |targetVector.network| ==> targetVector.network[j] !in others
      modifies targetVector, targetVector.network
      ensures unchanged(others) && Member(targetVector, data, isClassification, exp, shape)
      ensures targetVector.Weights() == old(targetVector.Weights())
      ensures improved == (Fitness(targetVector.Weights(), data, isClassification, exp) < targetFitness)
    {
      ghost var t := targetVector.Weights();
      var trialVector := Crossover(targetVector, targetVector, draw, others);
      CrossoverSelf(t, draw, crossoverProb);
      MemberScorable(trialVector, data, isClassification, exp, shape);
      Rescore(trialVector, others);
      var offspringFitness := trialVector.fitness;
      improved := offspringFitness < targetFitness;
      if improved {
        var w := trialVector.Weights();
        assert member.Valid();
        Reweigh(member, w, others);
      }
    }

    // ------------------------------------------------------------ the step as written, on values

    /**
     * Member i's weights after the step as written: the trial of donors
     * `d` over the weights as they stand, whatever it scores; its own
     * weights when no donors were found.
     */
    ghost function Mutated(ws: seq<WeightVector>, i: nat, d: Donors): (w: WeightVector)
      requires i < |ws|
      ensures (forall k :: 0 <= k < |ws| ==> SameShape(ws[k], ws[i])) ==> SameShape(w, ws[i])
      ensures !d.Found? ==> w == ws[i]
    {
      if d.Found? && d.x1 < |ws| && d.x2 < |ws| && d.x3 < |ws| && SameShape(ws[d.x1], ws[d.x2])
         && SameShape(ws[d.x1], ws[d.x3])
      then
        var t := Trial(ws[d.x1], ws[d.x2], ws[d.x3], beta);
        assert (forall k :: 0 <= k < |ws| ==> SameShape(ws[k], ws[i])) ==> SameShape(t, ws[i]) by {
          if forall k :: 0 <= k < |ws| ==> SameShape(ws[k], ws[i]) {
            SameShapeTransitive(t, ws[d.x1], ws[i]);
          }
        }
        t
      else ws[i]
    }

    /**
     * One generation of steps as written over members 0 .. n-1, in order,
     * member k with the donors `picks[k]`: each member takes its trial,
     * and no fitness has a say.  `None` when some donor search of the
     * generation runs out of draws.
     */
    ghost function GeneratedAsWritten(ws: seq<WeightVector>, picks: seq<Donors>, n: nat): (r: Option<seq<WeightVector>>)
      requires n <= |ws| && n <= |picks|
      ensures r.Some? <==> forall k :: 0 <= k < n ==> picks[k].Found?
      ensures r.Some? ==> |r.value| == |ws| && forall k :: n <= k < |ws| ==> r.value[k] == ws[k]
    {
      if n == 0 then Some(ws)
      else
        match GeneratedAsWritten(ws, picks, n - 1)
        case None => None
        case Some(prev) =>
          if picks[n - 1].Stalled? then None
          else Some(prev[n - 1 := Mutated(prev, n - 1, picks[n - 1])])
    }

    /**
     * What the step of member i as written does to a generation under
     * way: with donors, the generation goes on from the weights it
     * leaves; without, the generation never completes.
     */
    lemma GeneratedAsWrittenNext(ws: seq<WeightVector>, picks: seq<Donors>, i: nat, before: seq<WeightVector>)
      requires i < |ws| <= |picks| && GeneratedAsWritten(ws, picks, i) == Some(before)
      ensures picks[i].Found? ==> GeneratedAsWritten(ws, picks, i + 1) == Some(before[i := Mutated(before, i, picks[i])])
      ensures picks[i].Stalled? ==> GeneratedAsWritten(ws, picks, |ws|).None?
    {
    }

    /** Member 0 steps first and nobody touches it afterwards: it ends the generation with its trial. */
    lemma {:induction false} GeneratedAsWrittenFirst(ws: seq<WeightVector>, picks: seq<Donors>, n: nat)
      requires 1 <= n <= |ws| && n <= |picks| && GeneratedAsWritten(ws, picks, n).Some?
      ensures GeneratedAsWritten(ws, picks, n).value[0] == Mutated(ws, 0, picks[0])
    {
      if n > 1 {
        GeneratedAsWrittenFirst(ws, picks, n - 1);
      }
    }

    /**
     * The generation as written and the corrected one part ways: in the
     * first generation, every fitness still 0, with member 0's donors x2
     * and x3 of equal weights and x1 unlike member 0, the corrected
     * generation leaves every member as it was, while the generation as
     * written leaves member 0 holding x1.
     */
    lemma AsWrittenGenerationDiffers(ws: seq<WeightVector>, fits: seq<real>, picks: seq<Donors>,
                                     drawOf: nat -> (nat, nat, nat) -> real)
      requires |fits| == |ws| && 1 <= |ws| <= |picks| && forall k :: 0 <= k < |ws| ==> fits[k] == 0.0
      requires forall k :: 0 <= k < |ws| ==> picks[k].Found?
      requires var d := picks[0];
               d.x1 < |ws| && d.x2 < |ws| && d.x3 < |ws| && SameShape(ws[d.x1], ws[d.x2])
               && ws[d.x2] == ws[d.x3] && ws[d.x1] != ws[0]
      ensures GeneratedAsWritten(ws, picks, |ws|).Some? && Generated(ws, fits, picks, drawOf, |ws|).Some?
      ensures GeneratedAsWritten(ws, picks, |ws|).value[0] == ws[picks[0].x1]
      ensures Generated(ws, fits, picks, drawOf, |ws|).value == ws
    {
      var d := picks[0];
      TrialEqualDonors(ws[d.x1], ws[d.x2], beta);
      GeneratedAsWrittenFirst(ws, picks, |ws|);
      FirstGenerationKeeps(ws, fits, picks, drawOf, |ws|);
    }

    // ------------------------------------------------------------ the corrected step, on values

    /** The fitness updateFitness records for weights `w` on this run's data set. */
    ghost function Score(w: WeightVector): (f: real)
      ensures f >= 0.0
      ensures Scorable(w, data, isClassification, exp) && |data| > 0 ==> f == Fitness(w, data, isClassification, exp)
    {
      if Scorable(w, data, isClassification, exp) && |data| > 0 then Fitness(w, data, isClassification, exp) else 0.0
    }

    /**
     * The offspring the per-individual step means to breed for member i:
     * its own weights crossed with the trial of donors `d`, the trial
     * built apart from them (in the Java code mutation writes the trial
     * over the target it is given, lines 79-80).  Weights of
     * different shapes never arise; the member's own are given for them.
     */
    ghost function Child(ws: seq<WeightVector>, i: nat, d: Donors, draw: (nat, nat, nat) -> real): (o: WeightVector)
      requires i < |ws| && d.Found? && d.x1 < |ws| && d.x2 < |ws| && d.x3 < |ws|
      ensures SameShape(o, ws[i]) || o == ws[i]
    {
      var x1, x2, x3 := ws[d.x1], ws[d.x2], ws[d.x3];
      if SameShape(ws[i], x1) && SameShape(x1, x2) && SameShape(x1, x3) then
        var t := Trial(x1, x2, x3, beta);
        SameShapeTransitive(ws[i], x1, t);
        BinomialCrossover(ws[i], t, draw, crossoverProb)
      else ws[i]
    }

    /**
     * Member i's weights after greedy selection: the child when it scores
     * strictly below the member's recorded fitness, the member's own
     * weights otherwise or when no donors were found.  Donor indexes
     * always lie in the population; others keep the member as it is.
     */
    ghost function Selected(ws: seq<WeightVector>, fits: seq<real>, i: nat, d: Donors,
                            draw: (nat, nat, nat) -> real): (w: WeightVector)
      requires |fits| == |ws| && i < |ws|
      ensures w == ws[i] ||
              (d.Found? && d.x1 < |ws| && d.x2 < |ws| && d.x3 < |ws| && w == Child(ws, i, d, draw) && Score(w) < fits[i])
      ensures d.Found? && d.x1 < |ws| && d.x2 < |ws| && d.x3 < |ws| && Score(Child(ws, i, d, draw)) < fits[i] ==>
                w == Child(ws, i, d, draw)
    {
      if d.Stalled? || d.x1 >= |ws| || d.x2 >= |ws| || d.x3 >= |ws| then ws[i]
      else
        var o := Child(ws, i, d, draw);
        if Score(o) < fits[i] then o else ws[i]
    }

    /** The outcome of every member's donor search in one generation, member k drawing from `drawsOf(k)`. */
    static function Searches(drawsOf: nat -> seq<real>, len: nat): (picks: seq<Donors>)
      requires forall k :: UnitDraws(drawsOf(k))
      ensures |picks| == len && forall k :: 0 <= k < len ==> picks[k] == DonorsOf(drawsOf(k), len)
    {
      seq(len, k requires 0 <= k < len => DonorsOf(drawsOf(k), len))
    }

    /**
     * One generation of corrected steps over members 0 .. n-1, in order,
     * member k with the donors `picks[k]`: each step sees the weights the
     * earlier ones left.  `None` when some donor search of the generation
     * runs out of draws.
     */
    ghost function Generated(ws: seq<WeightVector>, fits: seq<real>, picks: seq<Donors>,
                             drawOf: nat -> (nat, nat, nat) -> real, n: nat): (r: Option<seq<WeightVector>>)
      requires |fits| == |ws| && n <= |ws| && n <= |picks|
      ensures r.Some? <==> forall k :: 0 <= k < n ==> picks[k].Found?
      ensures r.Some? ==> |r.value| == |ws| && forall k :: n <= k < |ws| ==> r.value[k] == ws[k]
    {
      if n == 0 then Some(ws)
      else
        match Generated(ws, fits, picks, drawOf, n - 1)
        case None => None
        case Some(prev) =>
          if picks[n - 1].Stalled? then None
          else Some(prev[n - 1 := Selected(prev, fits, n - 1, picks[n - 1], drawOf(n - 1))])
    }

    /** The last step of a completed generation prefix. */
    lemma GeneratedStep(ws: seq<WeightVector>, fits: seq<real>, picks: seq<Donors>,
                        drawOf: nat -> (nat, nat, nat) -> real, n: nat)
      requires |fits| == |ws| && 0 < n <= |ws| && n <= |picks|
      requires Generated(ws, fits, picks, drawOf, n).Some?
      ensures Generated(ws, fits, picks, drawOf, n - 1).Some?
      ensures var prev := Generated(ws, fits, picks, drawOf, n - 1).value;
              var w := Selected(prev, fits, n - 1, picks[n - 1], drawOf(n - 1));
              prev[n - 1] == ws[n - 1] && Generated(ws, fits, picks, drawOf, n).value == prev[n - 1 := w]
    {
    }

    /**
     * A generation never leaves a member scoring worse than its recorded
     * fitness: each member keeps its weights or takes a child that scores
     * strictly lower.
     */
    lemma {:induction false} GeneratedNoWorse(ws: seq<WeightVector>, fits: seq<real>, picks: seq<Donors>,
                                              drawOf: nat -> (nat, nat, nat) -> real, n: nat)
      requires |fits| == |ws| && n <= |ws| && n <= |picks|
      requires Generated(ws, fits, picks, drawOf, n).Some?
      ensures var r := Generated(ws, fits, picks, drawOf, n).value;
              forall k :: 0 <= k < |ws| ==> r[k] == ws[k] || Score(r[k]) < fits[k]
    {
      if n > 0 {
        GeneratedStep(ws, fits, picks, drawOf, n);
        GeneratedNoWorse(ws, fits, picks, drawOf, n - 1);
        var prev := Generated(ws, fits, picks, drawOf, n - 1).value;
        var r := Generated(ws, fits, picks, drawOf, n).value;
        forall k | 0 <= k < |ws|
          ensures r[k] == ws[k] || Score(r[k]) < fits[k]
        {
          if k != n - 1 {
            assert r[k] == prev[k];
          }
        }
      }
    }

    /** When the recorded fitnesses are up to date, a generation raises no member's fitness. */
    lemma GeneratedNoRise(ws: seq<WeightVector>, fits: seq<real>, picks: seq<Donors>,
                          drawOf: nat -> (nat, nat, nat) -> real)
      requires |fits| == |ws| && |ws| <= |picks|
      requires Generated(ws, fits, picks, drawOf, |ws|).Some?
      requires forall k :: 0 <= k < |ws| ==> fits[k] == Score(ws[k])
      ensures var r := Generated(ws, fits, picks, drawOf, |ws|).value;
              forall k :: 0 <= k < |ws| ==> Score(r[k]) <= Score(ws[k])
    {
      GeneratedNoWorse(ws, fits, picks, drawOf, |ws|);
      var r := Generated(ws, fits, picks, drawOf, |ws|).value;
      forall k | 0 <= k < |ws|
        ensures Score(r[k]) <= Score(ws[k])
      {
        assert r[k] == ws[k] || Score(r[k]) < fits[k];
      }
    }

    /**
     * What the step of member i does to a generation under way: with
     * donors, the generation goes on from the weights it leaves; without,
     * the generation never completes.
     */
    lemma GeneratedNext(ws: seq<WeightVector>, fits: seq<real>, picks: seq<Donors>,
                        drawOf: nat -> (nat, nat, nat) -> real, i: nat, before: seq<WeightVector>)
      requires |fits| == |ws| && i < |ws| <= |picks|
      requires Generated(ws, fits, picks, drawOf, i) == Some(before)
      ensures picks[i].Found? ==>
                Generated(ws, fits, picks, drawOf, i + 1) == Some(before[i := Selected(before, fits, i, picks[i], drawOf(i))])
      ensures picks[i].Stalled? ==> Generated(ws, fits, picks, drawOf, |ws|).None?
    {
    }

    /** A population of fewer than four never completes a generation: mutation cannot find three donors. */
    lemma FewerThanFourStall(ws: seq<WeightVector>, fits: seq<real>, drawsOf: nat -> seq<real>,
                             drawOf: nat -> (nat, nat, nat) -> real)
      requires |fits| == |ws| && forall k :: UnitDraws(drawsOf(k))
      requires 1 <= |ws| < 4
      ensures Generated(ws, fits, Searches(drawsOf, |ws|), drawOf, |ws|).None?
    {
      assert !Searches(drawsOf, |ws|)[0].Found?;
    }

    /**
     * Before the first evaluate every recorded fitness is 0, and no child
     * scores strictly below 0: the corrected step keeps member i.
     */
    lemma UnscoredKept(ws: seq<WeightVector>, fits: seq<real>, i: nat, d: Donors, draw: (nat, nat, nat) -> real)
      requires |fits| == |ws| && i < |ws| && fits[i] == 0.0
      ensures Selected(ws, fits, i, d, draw) == ws[i]
    {
    }

    /** A completed first generation of corrected steps, every fitness still 0, leaves every member as it was. */
    lemma {:induction false} FirstGenerationKeeps(ws: seq<WeightVector>, fits: seq<real>, picks: seq<Donors>,
                                                  drawOf: nat -> (nat, nat, nat) -> real, n: nat)
      requires |fits| == |ws| && n <= |ws| && n <= |picks|
      requires forall k :: 0 <= k < |ws| ==> fits[k] == 0.0
      requires Generated(ws, fits, picks, drawOf, n).Some?
      ensures Generated(ws, fits, picks, drawOf, n).value == ws
    {
      if n > 0 {
        GeneratedStep(ws, fits, picks, drawOf, n);
        FirstGenerationKeeps(ws, fits, picks, drawOf, n - 1);
        var prev := Generated(ws, fits, picks, drawOf, n - 1).value;
        assert prev == ws;
        UnscoredKept(prev, fits, n - 1, picks[n - 1], drawOf(n - 1));
        assert prev[n - 1 := prev[n - 1]] == ws;
      }
    }

    /**
     * Where the step as written and the corrected step part ways: in the
     * first generation, with donors x2 and x3 of equal weights and x1 unlike
     * member i, EvolveIndividual leaves member i holding the trial, which is
     * x1, while the corrected step keeps member i as it was.
     */
    lemma AliasedTrialDiffers(ws: seq<WeightVector>, fits: seq<real>, i: nat, d: Donors, draw: (nat, nat, nat) -> real)
      requires |fits| == |ws| && i < |ws| && fits[i] == 0.0
      requires d.Found? && d.x1 < |ws| && d.x2 < |ws| && d.x3 < |ws|
      requires SameShape(ws[d.x1], ws[d.x2]) && ws[d.x2] == ws[d.x3] && ws[d.x1] != ws[i]
      ensures Trial(ws[d.x1], ws[d.x2], ws[d.x3], beta) != Selected(ws, fits, i, d, draw)
    {
      TrialEqualDonors(ws[d.x1], ws[d.x2], beta);
      UnscoredKept(ws, fits, i, d, draw);
    }

    /** The recorded fitness of every member, in population order. */
    ghost function Fitnesses(): (fits: seq<real>)
      reads population, population[..]
      ensures |fits| == population.Length
      ensures forall k :: 0 <= k < population.Length ==> fits[k] == population[k].fitness
    {
      seq(population.Length, k requires 0 <= k < population.Length reads population, population[..] =>
            population[k].fitness)
    }

    /**
     * The per-individual step as the comments of DiffEvolution describe
     * it (lines 148-156, 163-179).  It takes two changes to the Java code:
     * the target is a copy of member i rather than an alias of its Layers,
     * and mutation builds the trial in a fresh net instead of writing it
     * into the target and returning that (lines 79-80), so that crossover
     * meets member i's own weights and the trial.  The child of member i
     * is bred from the weights as they stand, and member i takes the child's
     * weights only when the child scores strictly below member i's
     * recorded fitness.  Recorded fitnesses are left for evaluate.
     */
    method GreedyStep(i: nat, draws: seq<real>, draw: (nat, nat, nat) -> real) returns (donors: Donors)
      requires Valid() && i < population.Length && UnitDraws(draws)
      modifies population[i].network
      ensures Valid() && donors == DonorsOf(draws, population.Length)
      ensures population[..] == old(population[..]) && Fitnesses() == old(Fitnesses())
      ensures var ws := old(PopulationWeights());
              PopulationWeights() == ws[i := Selected(ws, old(Fitnesses()), i, donors, draw)]
    {
      ghost var ws := PopulationWeights();
      ghost var fits := Fitnesses();
      var member := population[i];
      donors := DonorsOf(draws, population.Length);
      if donors.Stalled? {
        assert Selected(ws, fits, i, donors, draw) == ws[i] && ws[i := ws[i]] == ws;
        return;
      }
      var x1 := population[donors.x1].Weights();
      var x2 := population[donors.x2].Weights();
      var x3 := population[donors.x3].Weights();
      var w := member.Weights();
      assert x1 == ws[donors.x1] && x2 == ws[donors.x2] && x3 == ws[donors.x3] && w == ws[i];
      var trial := Trial(x1, x2, x3, beta);
      SameShapeTransitive(w, x1, trial);
      var child := BinomialCrossover(w, trial, draw, crossoverProb);
      assert child == Child(ws, i, donors, draw);
      SameShapeTransitive(child, w, shape);
      ScorableTransfer(shape, child, data, data, isClassification, exp);
      if Fitness(child, data, isClassification, exp) < member.fitness {
        assert Score(child) < fits[i];
        assert Selected(ws, fits, i, donors, draw) == child;
        Replace(i, child);
      } else {
        assert !(Score(child) < fits[i]);
        assert Selected(ws, fits, i, donors, draw) == ws[i] && ws[i := ws[i]] == ws;
      }
    }

    /** setWeights on member i: member i takes `child`, shaped like the members; the rest stay as they were. */
    method Replace(i: nat, child: WeightVector)
      requires Valid() && i < population.Length && SameShape(child, shape)
      modifies population[i].network
      ensures Valid() && population[..] == old(population[..]) && Fitnesses() == old(Fitnesses())
      ensures PopulationWeights() == old(PopulationWeights())[i := child]
    {
      ghost var others := FootprintExcept(population[..], i) + {population};
      var member := population[i];
      Isolated(i);
      SameShapeSymmetric(member.Weights(), shape);
      SameShapeTransitive(child, shape, member.Weights());
      Reweigh(member, child, others);
      ReweighedAt(i);
    }

    /** What Replace leaves: member i is a member with new weights, the rest are as they were. */
    twostate lemma ReweighedAt(i: nat)
      requires old(Valid()) && i < population.Length && population[..] == old(population[..])
      requires unchanged(FootprintExcept(population[..], i)) && population[i].fitness == old(population[i].fitness)
      requires Member(population[i], data, isClassification, exp, shape)
      ensures Valid() && Fitnesses() == old(Fitnesses())
      ensures PopulationWeights() == old(PopulationWeights())[i := population[i].Weights()]
    {
      ghost var fits := old(Fitnesses());
      ValidAfterWrite(i);
      FitnessesAfterWrite(i);
      WeightsAfterWrite(i);
      assert fits[i := fits[i]] == fits;
    }

    /** Only member i's Layers changed: only member i's weights may differ. */
    twostate lemma WeightsAfterWrite(i: nat)
      requires old(Valid()) && Valid() && i < population.Length && population[..] == old(population[..])
      requires unchanged(FootprintExcept(population[..], i))
      ensures PopulationWeights() == old(PopulationWeights())[i := population[i].Weights()]
    {
      ghost var s := population[..];
      forall k | 0 <= k < population.Length && k != i
        ensures population[k].Weights() == old(population[k].Weights())
      {
        assert population[k].network == s[k].network;
        assert forall j :: 0 <= j < |s[k].network| ==> s[k].network[j] in FootprintExcept(s, i);
      }
    }

    /** The step of member i within a generation under way from `ws`. */
    method Advance(i: nat, draws: seq<real>, drawOf: nat -> (nat, nat, nat) -> real,
                   ghost ws: seq<WeightVector>, ghost fits: seq<real>, ghost picks: seq<Donors>) returns (stalled: bool)
      requires Valid() && i < population.Length && UnitDraws(draws)
      requires |ws| == |fits| == |picks| == population.Length && picks[i] == DonorsOf(draws, population.Length)
      requires Fitnesses() == fits && Generated(ws, fits, picks, drawOf, i) == Some(PopulationWeights())
      modifies population[i].network
      ensures Valid() && population[..] == old(population[..]) && Fitnesses() == fits
      ensures stalled ==> Generated(ws, fits, picks, drawOf, |ws|).None?
      ensures !stalled ==> Generated(ws, fits, picks, drawOf, i + 1) == Some(PopulationWeights())
    {
      ghost var before := PopulationWeights();
      GeneratedNext(ws, fits, picks, drawOf, i, before);
      var donors := GreedyStep(i, draws, drawOf(i));
      stalled := donors.Stalled?;
    }

    /**
     * One pass of DiffEvolution's inner loop (lines 160-180) with the
     * corrected step: members 0 .. population.length-1 in order.  Reports
     * `stalled` when a donor search runs out of draws, where the Java loop
     * would never return.  Recorded fitnesses are left for evaluate.
     */
    method Generation(drawsOf: nat -> seq<real>, drawOf: nat -> (nat, nat, nat) -> real) returns (stalled: bool)
      requires Valid() && forall k :: UnitDraws(drawsOf(k))
      modifies Layers(population[..])
      ensures Valid() && population[..] == old(population[..]) && Fitnesses() == old(Fitnesses())
      ensures var r := Generated(old(PopulationWeights()), old(Fitnesses()), Searches(drawsOf, population.Length), drawOf,
                                 population.Length);
              (stalled <==> r.None?) && (!stalled ==> r.value == PopulationWeights())
    {
      stalled := Steps(drawsOf, drawOf, PopulationWeights(), Fitnesses(), Searches(drawsOf, population.Length));
    }

    /** The loop of Generation, from the weights `ws`, the fitnesses `fits` and the donors `picks` it starts with. */
    method Steps(drawsOf: nat -> seq<real>, drawOf: nat -> (nat, nat, nat) -> real,
                 ghost ws: seq<WeightVector>, ghost fits: seq<real>, ghost picks: seq<Donors>) returns (stalled: bool)
      requires Valid() && forall k :: UnitDraws(drawsOf(k))
      requires ws == PopulationWeights() && fits == Fitnesses() && picks == Searches(drawsOf, population.Length)
      modifies Layers(population[..])
      ensures Valid() && population[..] == old(population[..]) && Fitnesses() == fits
      ensures stalled ==> Generated(ws, fits, picks, drawOf, |ws|).None?
      ensures !stalled ==> Generated(ws, fits, picks, drawOf, |ws|) == Some(PopulationWeights())
    {
      stalled := false;
      var i := 0;
      while i < population.Length && !stalled
        invariant i <= population.Length && Valid() && population[..] == old(population[..]) && Fitnesses() == fits
        invariant stalled ==> Generated(ws, fits, picks, drawOf, |ws|).None?
        invariant !stalled ==> Generated(ws, fits, picks, drawOf, i) == Some(PopulationWeights())
      {
        stalled := Advance(i, drawsOf(i), drawOf, ws, fits, picks);
        i := i + 1;
      }
    }

    /** The step of member i as written, within a generation under way from `ws`. */
    method AdvanceAsWritten(i: nat, draws: seq<real>, draw: (nat, nat, nat) -> real,
                            ghost ws: seq<WeightVector>, ghost picks: seq<Donors>) returns (stalled: bool)
      requires Valid() && i < population.Length && UnitDraws(draws)
      requires |ws| == |picks| == population.Length && picks[i] == DonorsOf(draws, population.Length)
      requires GeneratedAsWritten(ws, picks, i) == Some(PopulationWeights())
      modifies population[i].network
      ensures Valid() && population[..] == old(population[..]) && Fitnesses() == old(Fitnesses())
      ensures stalled ==> GeneratedAsWritten(ws, picks, |ws|).None?
      ensures !stalled ==> GeneratedAsWritten(ws, picks, i + 1) == Some(PopulationWeights())
    {
      ghost var before := PopulationWeights();
      GeneratedAsWrittenNext(ws, picks, i, before);
      var donors := EvolveIndividual(i, draws, draw);
      stalled := donors.Stalled?;
    }

    /**
     * One pass of DiffEvolution's inner loop (lines 160-180) as written:
     * members 0 .. population.length-1 in order, each taking its trial.
     * Reports `stalled` when a donor search runs out of draws, where the
     * Java loop would never return.  Recorded fitnesses are left for
     * evaluate.
     */
    method GenerationAsWritten(drawsOf: nat -> seq<real>, drawOf: nat -> (nat, nat, nat) -> real) returns (stalled: bool)
      requires Valid() && forall k :: UnitDraws(drawsOf(k))
      modifies Layers(population[..])
      ensures Valid() && population[..] == old(population[..]) && Fitnesses() == old(Fitnesses())
      ensures var r := GeneratedAsWritten(old(PopulationWeights()), Searches(drawsOf, population.Length), population.Length);
              (stalled <==> r.None?) && (!stalled ==> r.value == PopulationWeights())
    {
      stalled := StepsAsWritten(drawsOf, drawOf, PopulationWeights(), Searches(drawsOf, population.Length));
    }

    /** The loop of GenerationAsWritten, from the weights `ws` and the donors `picks` it starts with. */
    method StepsAsWritten(drawsOf: nat -> seq<real>, drawOf: nat -> (nat, nat, nat) -> real,
                          ghost ws: seq<WeightVector>, ghost picks: seq<Donors>) returns (stalled: bool)
      requires Valid() && forall k :: UnitDraws(drawsOf(k))
      requires ws == PopulationWeights() && picks == Searches(drawsOf, population.Length)
      modifies Layers(population[..])
      ensures Valid() && population[..] == old(population[..]) && Fitnesses() == old(Fitnesses())
      ensures stalled ==> GeneratedAsWritten(ws, picks, |ws|).None?
      ensures !stalled ==> GeneratedAsWritten(ws, picks, |ws|) == Some(PopulationWeights())
    {
      stalled := false;
      var i := 0;
      while i < population.Length && !stalled
        invariant i <= population.Length && Valid() && population[..] == old(population[..])
        invariant Fitnesses() == old(Fitnesses())
        invariant stalled ==> GeneratedAsWritten(ws, picks, |ws|).None?
        invariant !stalled ==> GeneratedAsWritten(ws, picks, i) == Some(PopulationWeights())
      {
        stalled := AdvanceAsWritten(i, drawsOf(i), drawOf(i), ws, picks);
        i := i + 1;
      }
    }

    // ------------------------------------------------------------ evaluate and the run

    /** Every net of `t` records the score of its own weights. */
    ghost predicate Rated(t: seq<FeedForwardNet>)
      reads Footprint(t)
    {
      forall k :: 0 <= k < |t| ==> |t[k].network| >= 1 && t[k].fitness == Score(t[k].Weights())
    }

    /** Every member records the score of its weights, as evaluate leaves it. */
    ghost predicate Scored()
      reads population, Footprint(population[..])
    {
      Rated(population[..])
    }

    /** The same nets in another order are rated alike. */
    lemma RatedPermutation(s: seq<FeedForwardNet>, t: seq<FeedForwardNet>)
      requires multiset(s) == multiset(t) && Rated(s)
      ensures Rated(t)
    {
      forall k | 0 <= k < |t|
        ensures |t[k].network| >= 1 && t[k].fitness == Score(t[k].Weights())
      {
        assert t[k] in multiset(s);
        var m :| 0 <= m < |s| && s[m] == t[k];
      }
    }

    /** updateFitness on member i (line 126): its fitness becomes the score of its weights; nothing else changes. */
    method RescoreMember(i: nat)
      requires Valid() && i < population.Length
      modifies population[i], population[i].network
      ensures Valid() && population[..] == old(population[..]) && PopulationWeights() == old(PopulationWeights())
      ensures Fitnesses() == old(Fitnesses())[i := Score(old(PopulationWeights())[i])]
    {
      ghost var others := FootprintExcept(population[..], i) + {population};
      var member := population[i];
      Isolated(i);
      Rescore(member, others);
      RescoredAt(i);
    }

    /** Member i is a member that can score the data, and neither it nor its Layers belong to the rest. */
    lemma Isolated(i: nat)
      requires Valid() && i < population.Length
      ensures Member(population[i], data, isClassification, exp, shape)
      ensures Scorable(population[i].Weights(), data, isClassification, exp)
      ensures population[i] !in FootprintExcept(population[..], i)
      ensures forall j :: 0 <= j < |population[i].network| ==> population[i].network[j] !in FootprintExcept(population[..], i)
    {
      ApartFromRest(population[..], i);
      MembersSplit(population[..], i, data, isClassification, exp, shape);
      MemberScorable(population[i], data, isClassification, exp, shape);
    }

    /** What RescoreMember leaves: member i records the score of its unchanged weights, the rest are as they were. */
    twostate lemma RescoredAt(i: nat)
      requires old(Valid()) && i < population.Length && population[..] == old(population[..])
      requires unchanged(FootprintExcept(population[..], i))
      requires population[i].Valid() && population[i].Weights() == old(population[i].Weights())
      requires population[i].fitness == Fitness(old(population[i].Weights()), data, isClassification, exp)
      ensures Valid() && PopulationWeights() == old(PopulationWeights())
      ensures Fitnesses() == old(Fitnesses())[i := Score(old(PopulationWeights())[i])]
    {
      ghost var ws := old(PopulationWeights());
      assert old(Member(population[i], data, isClassification, exp, shape));
      ValidAfterWrite(i);
      FitnessesAfterWrite(i);
      WeightsAfterWrite(i);
      assert ws[i := ws[i]] == ws;
    }

    /** Member i is still a member and the rest did not change: the population is still valid. */
    twostate lemma ValidAfterWrite(i: nat)
      requires old(Valid()) && i < population.Length && population[..] == old(population[..])
      requires unchanged(FootprintExcept(population[..], i))
      requires Member(population[i], data, isClassification, exp, shape)
      ensures Valid()
    {
      ghost var s := population[..];
      forall k | 0 <= k < |s| && k != i
        ensures Member(s[k], data, isClassification, exp, shape)
      {
        assert old(Member(s[k], data, isClassification, exp, shape));
        assert forall j :: 0 <= j < |s[k].network| ==> s[k].network[j] in FootprintExcept(s, i);
      }
    }

    /** Only member i's fitness changed: only member i's entry of Fitnesses may differ. */
    twostate lemma FitnessesAfterWrite(i: nat)
      requires i < population.Length && population[..] == old(population[..])
      requires unchanged(FootprintExcept(population[..], i))
      ensures Fitnesses() == old(Fitnesses())[i := population[i].fitness]
      ensures population[i].fitness == old(population[i].fitness) ==> Fitnesses() == old(Fitnesses())
    {
      forall k | 0 <= k < population.Length && k != i
        ensures population[k].fitness == old(population[k].fitness)
      {
        assert population[k] in FootprintExcept(population[..], i);
      }
    }

    /** The first loop of evaluate (lines 124-127): every member is rescored, and keeps its weights. */
    method RefreshFitness()
      requires Valid()
      modifies population[..], Layers(population[..])
      ensures Valid() && population[..] == old(population[..]) && PopulationWeights() == old(PopulationWeights())
      ensures Scored()
    {
      ghost var s := population[..];
      ghost var ws := PopulationWeights();
      var i := 0;
      while i < population.Length
        invariant i <= population.Length && Valid() && population[..] == s && PopulationWeights() == ws
        invariant forall k :: 0 <= k < i ==> Fitnesses()[k] == Score(ws[k])
      {
        RescoreMember(i);
        i := i + 1;
      }
    }

    /** Exchanges entries a and b of the array; the nets themselves are untouched. */
    method Swap(a: nat, b: nat)
      requires a < population.Length && b < population.Length && AllApart(population[..])
      modifies population
      ensures population[..] == old(population[..])[a := old(population[b])][b := old(population[a])]
      ensures AllApart(population[..]) && multiset(population[..]) == multiset(old(population[..]))
      ensures Fitnesses() == old(Fitnesses())[a := old(Fitnesses())[b]][b := old(Fitnesses())[a]]
    {
      ghost var s := population[..];
      ghost var f := Fitnesses();
      AllApartSwap(s, a, b);
      SwapPermutes(s, a, b);
      population[a], population[b] := population[b], population[a];
      SwappedFitnesses(s, f, a, b);
    }

    /** With the nets of `s` exchanged at a and b in the array, the recorded fitnesses `f` of `s` are exchanged too. */
    lemma SwappedFitnesses(s: seq<FeedForwardNet>, f: seq<real>, a: nat, b: nat)
      requires a < |s| && b < |s| && |f| == |s| && forall k :: 0 <= k < |s| ==> s[k].fitness == f[k]
      requires population[..] == s[a := s[b]][b := s[a]]
      ensures Fitnesses() == f[a := f[b]][b := f[a]]
    {
      forall k | 0 <= k < population.Length
        ensures Fitnesses()[k] == f[a := f[b]][b := f[a]][k]
      {
      }
    }

    /**
     * The sort of evaluate (lines 130-137): the array ordered by fitness,
     * lowest first, as `Arrays.sort` with the fitness comparator leaves
     * it, and stably, as that sort is: members of equal fitness keep
     * their order, `os` giving each entry's old place.  The nets are only
     * moved, never changed.
     */
    method SortByFitness() returns (ghost os: seq<nat>)
      requires Valid()
      modifies population
      ensures Valid() && Ascending(Fitnesses()) && multiset(population[..]) == multiset(old(population[..]))
      ensures SortedStably(old(population[..]), population[..], Fitnesses(), os)
      ensures unchanged(Footprint(old(population[..])))
    {
      os := Order(population[..]);
      Resorted();
    }

    /** The array, reordered with no net changed, is valid as it was. */
    twostate lemma Resorted()
      requires old(Valid()) && AllApart(population[..]) && multiset(population[..]) == multiset(old(population[..]))
      requires unchanged(Footprint(old(population[..])))
      ensures Valid()
    {
      MembersPermutation(old(population[..]), population[..], data, isClassification, exp, shape);
    }

    /** The passes of the insertion sort, from the array `s0`. */
    method Order(ghost s0: seq<FeedForwardNet>) returns (ghost os: seq<nat>)
      requires AllApart(population[..]) && s0 == population[..]
      modifies population
      ensures AllApart(population[..]) && multiset(population[..]) == multiset(s0)
      ensures Ascending(Fitnesses()) && SortedStably(s0, population[..], Fitnesses(), os)
      ensures unchanged(Footprint(s0))
    {
      os := seq(population.Length, k => k);
      InsertedNone(Fitnesses(), os);
      var i := 0;
      while i < population.Length
        invariant i <= population.Length && AllApart(population[..])
        invariant multiset(population[..]) == multiset(s0)
        invariant Ascending(Fitnesses()[..i]) && Inserted(Fitnesses(), os, i) && Traced(s0, population[..], os)
      {
        os := Sink(i, s0, os);
        i := i + 1;
      }
      assert Fitnesses()[..i] == Fitnesses();
      InsertedAll(s0, population[..], Fitnesses(), os);
    }

    /**
     * One pass of insertion: entry i moves left past every entry of
     * strictly higher fitness, so it stays behind any of equal fitness.
     */
    method Sink(i: nat, ghost s0: seq<FeedForwardNet>, ghost os: seq<nat>) returns (ghost os': seq<nat>)
      requires i < population.Length && AllApart(population[..]) && Ascending(Fitnesses()[..i])
      requires Inserted(Fitnesses(), os, i) && Traced(s0, population[..], os)
      modifies population
      ensures AllApart(population[..]) && multiset(population[..]) == multiset(old(population[..]))
      ensures Ascending(Fitnesses()[..i + 1]) && Inserted(Fitnesses(), os', i + 1) && Traced(s0, population[..], os')
    {
      ghost var fs := Fitnesses();
      SinkingStart(fs, i);
      InsertingStart(fs, os, i);
      os' := os;
      var j: nat := i;
      while j > 0 && population[j - 1].fitness > population[j].fitness
        invariant AllApart(population[..]) && multiset(population[..]) == multiset(old(population[..]))
        invariant fs == Fitnesses() && Sinking(fs, i, j) && Inserting(fs, os', i, j) && Traced(s0, population[..], os')
      {
        SinkingStep(fs, i, j);
        InsertingStep(fs, os', i, j);
        TracedSwap(s0, population[..], os', j - 1, j);
        Swap(j - 1, j);
        fs := fs[j - 1 := fs[j]][j := fs[j - 1]];
        os' := os'[j - 1 := os'[j]][j := os'[j - 1]];
        j := j - 1;
      }
      SinkingEnd(fs, i, j);
      InsertingEnd(fs, os', i, j);
    }

    /**
     * evaluate (lines 123-144): every member is rescored, then the array
     * is sorted stably by fitness, lowest first.  Each net keeps its
     * weights.
     */
    method Evaluate(ghost s: seq<FeedForwardNet>, ghost ws: seq<WeightVector>) returns (ghost os: seq<nat>)
      requires Valid() && s == population[..] && ws == PopulationWeights()
      modifies population, population[..], Layers(population[..])
      ensures Valid() && multiset(population[..]) == multiset(s)
      ensures Ascending(Fitnesses()) && Scored() && SortedStably(s, population[..], Fitnesses(), os)
      ensures forall k :: 0 <= k < |s| ==> |s[k].network| >= 1 && s[k].Weights() == ws[k]
    {
      RefreshFitness();
      os := SortScored(s, ws);
    }

    /** The second half of evaluate: the rescored array sorted, every net still rated and with its weights. */
    method SortScored(ghost s: seq<FeedForwardNet>, ghost ws: seq<WeightVector>) returns (ghost os: seq<nat>)
      requires Valid() && Scored() && s == population[..]
      requires |ws| == |s| && forall k :: 0 <= k < |s| ==> |s[k].network| >= 1 && s[k].Weights() == ws[k]
      modifies population
      ensures Valid() && multiset(population[..]) == multiset(s)
      ensures Ascending(Fitnesses()) && Scored() && SortedStably(s, population[..], Fitnesses(), os)
      ensures forall k :: 0 <= k < |s| ==> |s[k].network| >= 1 && s[k].Weights() == ws[k]
    {
      os := SortByFitness();
      RatedPermutation(s, population[..]);
    }

    /** Once evaluate has run, the best fitness is no higher than the score of any member's weights. */
    lemma BestBelow(n: FeedForwardNet)
      requires Scored() && Ascending(Fitnesses()) && n in population[..] && |n.network| >= 1
      ensures population[0].fitness <= Score(n.Weights())
    {
      var m :| 0 <= m < population.Length && population[m] == n;
    }

    /**
     * One pass of DiffEvolution's outer loop (lines 158-182) with the
     * corrected step: every member in turn, then evaluate.  Each net ends
     * with the weights the generation gives its old place, and once
     * fitnesses are up to date the best fitness never rises.
     */
    method Epoch(drawsOf: nat -> seq<real>, drawOf: nat -> (nat, nat, nat) -> real, ghost s: seq<FeedForwardNet>,
                 ghost ws: seq<WeightVector>, ghost fits: seq<real>) returns (stalled: bool)
      requires Valid() && population.Length >= 1 && forall k :: UnitDraws(drawsOf(k))
      requires s == population[..] && ws == PopulationWeights() && fits == Fitnesses()
      modifies population, population[..], Layers(population[..])
      ensures Valid() && multiset(population[..]) == multiset(s)
      ensures var r := Generated(ws, fits, Searches(drawsOf, |s|), drawOf, |s|);
              (stalled <==> r.None?) &&
              (!stalled ==> && Scored() && Ascending(Fitnesses())
                            && forall k :: 0 <= k < |s| ==> |s[k].network| >= 1 && s[k].Weights() == r.value[k])
      ensures !stalled && (forall k :: 0 <= k < |s| ==> fits[k] == Score(ws[k])) ==> population[0].fitness <= fits[0]
    {
      stalled := Generation(drawsOf, drawOf);
      if stalled {
        return;
      }
      ghost var r := PopulationWeights();
      if forall k :: 0 <= k < |s| ==> fits[k] == Score(ws[k]) {
        GeneratedNoRise(ws, fits, Searches(drawsOf, |s|), drawOf);
      }
      ghost var os := Evaluate(s, r);
      assert s[0] in multiset(population[..]);
      BestBelow(s[0]);
    }

    /** As evaluate leaves the population: every member scored, sorted, and `best` the fitness of member 0. */
    ghost predicate Settled(best: real)
      reads population, Footprint(population[..])
    {
      Scored() && Ascending(Fitnesses()) && population.Length >= 1 && population[0].fitness == best
    }

    /**
     * What DiffEvolution's loop keeps of the population: still valid, the
     * nets it started with (`s0`) in some order, and, unless the last
     * pass stalled, settled with the last recorded best at member 0.
     */
    ghost predicate Keeping(s0: seq<FeedForwardNet>, stalled: bool, bests: seq<real>)
      reads population, Footprint(population[..])
    {
      Valid() && multiset(population[..]) == multiset(s0) && (!stalled && 0 < |bests| ==> Settled(bests[|bests| - 1]))
    }

    /**
     * The body of DiffEvolution's outer loop up to its stopping test
     * (lines 160-182): a pass, then `best`, the fitness of member 0.
     * After a pass that left `prev` as the best (`started`), the best
     * never rises.
     */
    method Pass(drawsOf: nat -> seq<real>, drawOf: nat -> (nat, nat, nat) -> real, ghost started: bool,
                ghost prev: real, ghost s0: seq<FeedForwardNet>) returns (stalled: bool, best: real)
      requires Valid() && population.Length >= 1 && (started ==> Settled(prev)) && forall k :: UnitDraws(drawsOf(k))
      requires multiset(population[..]) == multiset(s0)
      modifies population, population[..], Layers(population[..])
      ensures Valid() && multiset(population[..]) == multiset(s0)
      ensures !stalled ==> Settled(best) && (started ==> best <= prev)
    {
      if started {
        ScoredValues();
      }
      stalled := Epoch(drawsOf, drawOf, population[..], PopulationWeights(), Fitnesses());
      best := population[0].fitness;
    }

    /** Pass, for a caller whose frame is the population it started with, `s0`, now possibly reordered. */
    method PassWithin(drawsOf: nat -> seq<real>, drawOf: nat -> (nat, nat, nat) -> real, ghost started: bool,
                      ghost prev: real, ghost s0: seq<FeedForwardNet>) returns (stalled: bool, best: real)
      requires Valid() && population.Length >= 1 && (started ==> Settled(prev)) && forall k :: UnitDraws(drawsOf(k))
      requires multiset(population[..]) == multiset(s0)
      modifies population, s0, Layers(s0)
      ensures Valid() && multiset(population[..]) == multiset(s0)
      ensures !stalled ==> Settled(best) && (started ==> best <= prev)
    {
      LayersOfPermutation(s0, population[..]);
      stalled, best := Pass(drawsOf, drawOf, started, prev, s0);
    }

    /** Recorded fitnesses that are up to date, as values. */
    lemma ScoredValues()
      requires Valid() && Scored()
      ensures forall k :: 0 <= k < population.Length ==> Fitnesses()[k] == Score(PopulationWeights()[k])
    {
    }

    /**
     * DiffEvolution (lines 146-187) with the corrected step: up to
     * `generations` passes, each ending with evaluate; `bests` records
     * the best fitness after each pass, and the run stops after the first
     * pass whose best is below 0.008.  Pass z draws its donors from
     * `drawsOf(z)` and its crossover coins from `drawOf(z)`; `stalled`
     * reports a donor search that ran out of draws, where the Java loop
     * would loop forever.
     */
    method DiffEvolution(generations: nat, drawsOf: nat -> nat -> seq<real>,
                         drawOf: nat -> nat -> (nat, nat, nat) -> real) returns (bests: seq<real>, stalled: bool)
      requires Valid() && population.Length >= 1 && forall z, k :: UnitDraws(drawsOf(z)(k))
      modifies population, population[..], Layers(population[..])
      ensures Valid() && multiset(population[..]) == multiset(old(population[..]))
      ensures |bests| <= generations
      ensures Unmet(bests) && NonRising(bests)
      ensures !stalled ==> |bests| == generations || (0 < |bests| && bests[|bests| - 1] < 0.008)
      ensures !stalled && 0 < |bests| ==> Settled(bests[|bests| - 1])
    {
      bests, stalled := Run(generations, drawsOf, drawOf, population[..]);
    }

    /** DiffEvolution's loop, for a caller whose frame is the population it started with, `s0`. */
    method Run(generations: nat, drawsOf: nat -> nat -> seq<real>, drawOf: nat -> nat -> (nat, nat, nat) -> real,
               ghost s0: seq<FeedForwardNet>) returns (bests: seq<real>, stalled: bool)
      requires population.Length >= 1 && forall z, k :: UnitDraws(drawsOf(z)(k))
      requires Keeping(s0, false, [])
      modifies population, s0, Layers(s0)
      ensures Ran(bests, generations, stalled) && NonRising(bests) && Keeping(s0, stalled, bests)
    {
      bests := [];
      stalled := false;
      var stop := false;
      var z := 0;
      while z < generations && !stalled && !stop
        invariant Books(bests, z, generations, stalled, stop) && Keeping(s0, stalled, bests)
      {
        bests, stalled, stop := Turn(generations, drawsOf(z), drawOf(z), z, bests, s0);
        z := z + 1;
      }
      BooksEnd(bests, z, generations, stalled, stop);
    }

    /**
     * Turn z of DiffEvolution's outer loop (lines 160-184): a pass, its
     * best recorded unless it stalled, and the test against 0.008.
     */
    method Turn(generations: nat, drawsOf: nat -> seq<real>, drawOf: nat -> (nat, nat, nat) -> real, z: nat,
                bests: seq<real>, ghost s0: seq<FeedForwardNet>) returns (bests': seq<real>, stalled: bool, stop: bool)
      requires Books(bests, z, generations, false, false) && z < generations
      requires population.Length >= 1 && forall k :: UnitDraws(drawsOf(k))
      requires Keeping(s0, false, bests)
      modifies population, s0, Layers(s0)
      ensures Books(bests', z + 1, generations, stalled, stop) && Keeping(s0, stalled, bests')
    {
      var best;
      ghost var prev := if 0 < |bests| then bests[|bests| - 1] else 0.0;
      stalled, best := PassWithin(drawsOf, drawOf, 0 < |bests|, prev, s0);
      BooksStep(bests, z, generations, stalled, best);
      bests' := bests;
      stop := false;
      if !stalled {
        bests' := bests + [best];
        stop := best < 0.008;
      }
    }

    /**
     * The body of DiffEvolution's outer loop as written, up to its
     * stopping test (lines 160-182): a generation of steps as written,
     * then evaluate, then `best`, the fitness of member 0.
     */
    method EpochAsWritten(drawsOf: nat -> seq<real>, drawOf: nat -> (nat, nat, nat) -> real,
                          ghost s: seq<FeedForwardNet>, ghost ws: seq<WeightVector>) returns (stalled: bool, best: real)
      requires Valid() && population.Length >= 1 && forall k :: UnitDraws(drawsOf(k))
      requires s == population[..] && ws == PopulationWeights()
      modifies population, population[..], Layers(population[..])
      ensures Valid() && multiset(population[..]) == multiset(s)
      ensures var r := GeneratedAsWritten(ws, Searches(drawsOf, |s|), |s|);
              (stalled <==> r.None?) &&
              (!stalled ==> Settled(best) && forall k :: 0 <= k < |s| ==> |s[k].network| >= 1 && s[k].Weights() == r.value[k])
    {
      stalled := GenerationAsWritten(drawsOf, drawOf);
      if stalled {
        return true, 0.0;
      }
      ghost var os := Evaluate(s, PopulationWeights());
      best := population[0].fitness;
    }

    /** EpochAsWritten, for a caller whose frame is the population it started with, `s0`, now possibly reordered. */
    method PassAsWritten(drawsOf: nat -> seq<real>, drawOf: nat -> (nat, nat, nat) -> real,
                         ghost s0: seq<FeedForwardNet>, ghost s: seq<FeedForwardNet>, ghost ws: seq<WeightVector>)
      returns (stalled: bool, best: real)
      requires Valid() && population.Length >= 1 && forall k :: UnitDraws(drawsOf(k))
      requires multiset(population[..]) == multiset(s0) && s == population[..] && ws == PopulationWeights()
      modifies population, s0, Layers(s0)
      ensures Valid() && multiset(population[..]) == multiset(s0)
      ensures var r := GeneratedAsWritten(ws, Searches(drawsOf, |s|), |s|);
              (stalled <==> r.None?) &&
              (!stalled ==> Settled(best) && forall k :: 0 <= k < |s| ==> |s[k].network| >= 1 && s[k].Weights() == r.value[k])
    {
      LayersOfPermutation(s0, population[..]);
      stalled, best := EpochAsWritten(drawsOf, drawOf, s, ws);
    }

    /**
     * DiffEvolution (lines 146-187) as written: up to `generations`
     * passes of steps as written, each ending with evaluate; `bests`
     * records the best fitness after each pass, and the run stops after
     * the first pass whose best is below 0.008.  Nothing keeps the best
     * from rising from one pass to the next.
     */
    method DiffEvolutionAsWritten(generations: nat, drawsOf: nat -> nat -> seq<real>,
                                  drawOf: nat -> nat -> (nat, nat, nat) -> real) returns (bests: seq<real>, stalled: bool)
      requires Valid() && population.Length >= 1 && forall z, k :: UnitDraws(drawsOf(z)(k))
      modifies population, population[..], Layers(population[..])
      ensures Valid() && multiset(population[..]) == multiset(old(population[..]))
      ensures |bests| <= generations && Unmet(bests)
      ensures !stalled ==> |bests| == generations || (0 < |bests| && bests[|bests| - 1] < 0.008)
      ensures !stalled && 0 < |bests| ==> Settled(bests[|bests| - 1])
    {
      ghost var s0 := population[..];
      bests := [];
      stalled := false;
      var stop := false;
      var z := 0;
      while z < generations && !stalled && !stop
        invariant Ledger(bests, z, generations, stalled, stop) && Keeping(s0, stalled, bests)
      {
        var best;
        stalled, best := PassAsWritten(drawsOf(z), drawOf(z), s0, population[..], PopulationWeights());
        LedgerStep(bests, z, generations, stalled, best);
        if !stalled {
          bests := bests + [best];
          stop := best < 0.008;
        }
        z := z + 1;
      }
      LedgerEnd(bests, z, generations, stalled, stop);
    }

    /** Takes the population and the constants of DE's constructor; `others` are left as they were. */
    constructor Of(pop: array<FeedForwardNet>, trainingData: seq<Sample>, isClassification: bool, exp: real -> real,
                   ghost sh: WeightVector, ghost others: set<object>)
      ensures population == pop && mutationRate == 0.05 && beta == 0.1 && crossoverProb == 0.5
      ensures data == trainingData && this.isClassification == isClassification && this.exp == exp && shape == sh
      ensures unchanged(others) && unchanged(pop)
    {
      population := pop;
      mutationRate := 0.05;
      beta := 0.1;
      crossoverProb := 0.5;
      data := trainingData;
      this.isClassification := isClassification;
      this.exp := exp;
      shape := sh;
    }
  }


  /**
   * `DE(populationSize, trainingData, layers, isClassification)` (lines
   * 28-39): mutation rate 0.05, beta 0.1, crossover probability 0.5 and
   * `populationSize` new nets; net i draws its initial weights from
   * `draws(i)`.
   */
  method NewDE(populationSize: nat, trainingData: seq<Sample>, layers: seq<nat>, isClassification: bool,
               exp: real -> real, draws: nat -> (nat, nat, nat) -> real) returns (de: DE)
    requires Trainable(trainingData, layers, isClassification) && ExpLike(exp)
    requires forall i, k, r, c :: UnitDraw(draws(i)(k, r, c))
    ensures de.Valid() && fresh(de) && fresh(de.population) && de.population.Length == populationSize
    ensures de.mutationRate == 0.05 && de.beta == 0.1 && de.crossoverProb == 0.5
    ensures de.data == trainingData && de.isClassification == isClassification && de.exp == exp
    ensures Built(de.population[..], trainingData, layers, isClassification, exp, draws)
  {
    var sh := Layout(layers, |trainingData[0].features|);
    LayoutScorable(trainingData, layers, isClassification, exp);
    var nets := BuildNets(populationSize, trainingData, layers, isClassification, exp, draws);
    var pop := NetArray(nets, Footprint(nets));
    de := new DE.Of(pop, trainingData, isClassification, exp, sh, Footprint(nets));
  }
}
