/**
 * What differential evolution and the particle swarm share: a population
 * of FeedForwardNet objects built from the same layer sizes and data set.
 * Every net is valid, scores the same data and has the same shape; no two
 * nets share a Layer object, so writing one net's layers leaves the
 * others as they were.
 */
module Populations {
  import opened Basics
  import opened WeightVectors
  import opened NetworkMath
  import opened NetworkState
  import opened FeedForward

  /** Java's `(int)(r * m)` for a `Math.random()` draw `r` and `m >= -1`: an index below `m`, or 0 when `m` is at most 0. */
  function DrawIndex(r: real, m: int): (k: nat)
    requires UnitDraw(r) && m >= -1
    ensures m >= 1 ==> k < m
    ensures m <= 0 ==> k == 0
  {
    var x := r * m as real;
    if m >= 1 then
      ScaledDraw(r, m as real);
      TruncateToInt(x)
    else
      assert x == if m == 0 then 0.0 else -r by {
        if m == 0 {
          assert x == r * 0.0;
        } else {
          assert x == r * -1.0;
        }
      }
      TruncateToInt(x)
  }

  /** A draw in [0, 1) scaled by a positive m lands in [0, m). */
  lemma ScaledDraw(r: real, m: real)
    requires UnitDraw(r) && m > 0.0
    ensures 0.0 <= r * m < m
  {
    ProductOfPositives(1.0 - r, m);
    assert (1.0 - r) * m == m - r * m;
    if r > 0.0 {
      ProductOfPositives(r, m);
    }
  }

  /** The weight vector of zeros shaped like every net built from layer sizes `sizes` for inputs of `width` features. */
  function Layout(sizes: seq<nat>, width: nat): (ws: WeightVector)
    requires |sizes| >= 2
    ensures |ws| == |sizes| - 1
  {
    seq(|sizes| - 1, k requires 0 <= k < |sizes| - 1 =>
      seq(sizes[k + 1], _ => Zeros(if k == 0 then width + 1 else sizes[k] + 1)))
  }

  /**
   * The data set can train nets of these layer sizes: every sample has at
   * least the first sample's features, and every label has a target of the
   * output width.
   */
  predicate Trainable(data: seq<Sample>, sizes: seq<nat>, isClassification: bool)
  {
    && |data| > 0 && |sizes| >= 2 && (forall k :: 1 <= k < |sizes| ==> sizes[k] > 0)
    && (forall s :: s in data ==> |s.features| >= |data[0].features|)
    && WellLabelled(data, sizes[|sizes| - 1], isClassification)
  }

  /** Nets of the layout can score the whole data set. */
  lemma LayoutScorable(data: seq<Sample>, sizes: seq<nat>, isClassification: bool, exp: real -> real)
    requires Trainable(data, sizes, isClassification) && ExpLike(exp)
    ensures Scorable(Layout(sizes, |data[0].features|), data, isClassification, exp)
  {
    var ws := Layout(sizes, |data[0].features|);
    forall k | 0 <= k < |ws|
      ensures IsLayerMatrix(ws[k])
    {
      assert ws[k][0] == ws[k][|ws[k]| - 1];
    }
    assert sizes[1] > 0 && ws[0][0] == Zeros(|data[0].features| + 1);
  }

  /** A freshly built net is shaped like the layout of its sizes. */
  lemma InitialisedLayout(ws: WeightVector, x: seq<real>, sizes: seq<nat>, draw: (nat, nat, nat) -> real)
    requires Initialised(ws, x, sizes, draw) && |ws| == |sizes| - 1 && |sizes| >= 2
    requires forall k :: 1 <= k < |sizes| ==> sizes[k] > 0
    ensures SameShape(ws, Layout(sizes, |x|))
  {
    var l := Layout(sizes, |x|);
    forall z | 0 <= z < |ws|
      ensures SameDims(ws[z], l[z])
    {
      assert l[z][0] == l[z][|l[z]| - 1];
      if z > 0 {
        assert Cols(ws[z]) == Rows(ws[z - 1]) + 1;
      }
    }
  }

  /** `n` and `m` are two nets, and no Layer object belongs to both. */
  predicate Apart(n: FeedForwardNet, m: FeedForwardNet)
  {
    n != m && forall x, y :: 0 <= x < |n.network| && 0 <= y < |m.network| ==> n.network[x] != m.network[y]
  }

  /** No two entries of `s` share a Layer object (nor are they the same net). */
  predicate AllApart(s: seq<FeedForwardNet>)
  {
    forall a, b :: 0 <= a < |s| && 0 <= b < |s| && a != b ==> Apart(s[a], s[b])
  }

  /** Adding a net that shares no Layer with the others keeps the nets apart. */
  lemma AllApartAppend(s: seq<FeedForwardNet>, n: FeedForwardNet)
    requires AllApart(s) && n !in s
    requires forall a, x, y :: 0 <= a < |s| && 0 <= x < |n.network| && 0 <= y < |s[a].network| ==> n.network[x] != s[a].network[y]
    ensures AllApart(s + [n])
  {
    var t := s + [n];
    forall a, b | 0 <= a < |t| && 0 <= b < |t| && a != b
      ensures Apart(t[a], t[b])
    {
      if a == |s| {
        assert t[b] == s[b];
      } else if b == |s| {
        assert t[a] == s[a];
      } else {
        assert t[a] == s[a] && t[b] == s[b];
      }
    }
  }

  /** Exchanging two entries keeps the nets apart. */
  lemma AllApartSwap(s: seq<FeedForwardNet>, i: nat, j: nat)
    requires AllApart(s) && i < |s| && j < |s|
    ensures AllApart(s[i := s[j]][j := s[i]])
  {
    var t := s[i := s[j]][j := s[i]];
    forall a, b | 0 <= a < |t| && 0 <= b < |t| && a != b
      ensures Apart(t[a], t[b])
    {
      var a' := if a == i then j else if a == j then i else a;
      var b' := if b == i then j else if b == j then i else b;
      assert t[a] == s[a'] && t[b] == s[b'];
    }
  }

  /** `n` belongs to a population on `data` whose nets are shaped like `shape`. */
  ghost predicate Member(n: FeedForwardNet, data: seq<Sample>, isClassification: bool, exp: real -> real, shape: WeightVector)
    reads n.network
  {
    && n.Valid() && n.data == data && n.isClassification == isClassification && n.exp == exp
    && SameShape(n.Weights(), shape)
  }

  /** A member can score the data set when the shape can. */
  lemma MemberScorable(n: FeedForwardNet, data: seq<Sample>, isClassification: bool, exp: real -> real, shape: WeightVector)
    requires Member(n, data, isClassification, exp, shape) && Scorable(shape, data, isClassification, exp)
    ensures Scorable(n.Weights(), data, isClassification, exp)
  {
    ScorableTransfer(shape, n.Weights(), data, data, isClassification, exp);
  }

  /** The nets of `s` and their Layer objects. */
  ghost function Footprint(s: seq<FeedForwardNet>): set<object>
  {
    (set k, j | 0 <= k < |s| && 0 <= j < |s[k].network| :: s[k].network[j] as object) + (set k | 0 <= k < |s| :: s[k] as object)
  }

  /** The Layer objects of the nets of `s`. */
  ghost function Layers(s: seq<FeedForwardNet>): set<object>
  {
    set k, j | 0 <= k < |s| && 0 <= j < |s[k].network| :: s[k].network[j] as object
  }

  /** The same nets in another order own the same Layers. */
  lemma LayersOfPermutation(s: seq<FeedForwardNet>, t: seq<FeedForwardNet>)
    requires multiset(s) == multiset(t)
    ensures Layers(s) == Layers(t) && Footprint(s) == Footprint(t)
    ensures forall n :: n in t ==> n in s
  {
    forall n | n in t
      ensures n in s
    {
      assert n in multiset(t);
    }
    forall s': seq<FeedForwardNet>, t': seq<FeedForwardNet> | multiset(s') == multiset(t')
      ensures Layers(s') <= Layers(t') && Footprint(s') <= Footprint(t')
    {
      forall k | 0 <= k < |s'|
        ensures s'[k] in Footprint(t') && forall j :: 0 <= j < |s'[k].network| ==> s'[k].network[j] in Layers(t')
      {
        assert s'[k] in multiset(t');
        var k' :| 0 <= k' < |t'| && t'[k'] == s'[k];
        assert forall j :: 0 <= j < |t'[k'].network| ==> t'[k'].network[j] in Layers(t');
      }
    }
  }

  /**
   * The fitness updateFitness records for weights `w` on `data`.  Weights
   * the data set cannot score never arise, since every net keeps the shape
   * of its population; they are given 0.
   */
  ghost function ScoreOn(w: WeightVector, data: seq<Sample>, isClassification: bool, exp: real -> real): (f: real)
    ensures f >= 0.0
    ensures Scorable(w, data, isClassification, exp) && |data| > 0 ==> f == Fitness(w, data, isClassification, exp)
  {
    if Scorable(w, data, isClassification, exp) && |data| > 0 then Fitness(w, data, isClassification, exp) else 0.0
  }

  /** Every net of `s` is a member of the population on `data` shaped like `shape`. */
  ghost predicate Members(s: seq<FeedForwardNet>, data: seq<Sample>, isClassification: bool, exp: real -> real,
                          shape: WeightVector)
    reads Footprint(s)
  {
    forall k :: 0 <= k < |s| ==> Member(s[k], data, isClassification, exp, shape)
  }

  /**
   * `new FeedForwardNet(data, layers, isClassification)`: a fresh member
   * of the population of the layout, unscored, with weights drawn from
   * `draw`.  `others` are objects that exist already: the new net and its
   * layers are none of them, and they are left as they were.
   */
  method NewMember(trainingData: seq<Sample>, layers: seq<nat>, isClassification: bool,
                   exp: real -> real, draw: (nat, nat, nat) -> real, ghost others: set<object>) returns (net: FeedForwardNet)
    requires Trainable(trainingData, layers, isClassification) && ExpLike(exp)
    requires forall k, r, c :: UnitDraw(draw(k, r, c))
    ensures net !in others && net.fitness == 0.0 && forall j :: 0 <= j < |net.network| ==> net.network[j] !in others
    ensures unchanged(others)
    ensures Member(net, trainingData, isClassification, exp, Layout(layers, |trainingData[0].features|))
    ensures Initialised(net.Weights(), trainingData[0].features, layers, draw)
  {
    net := new FeedForwardNet(trainingData, layers, isClassification, exp, draw);
    InitialisedLayout(net.Weights(), trainingData[0].features, layers, draw);
  }

  /** Net k of `nets` is a member of the population on `data`, unscored, with the initial weights drawn from `draws(k)`. */
  ghost predicate Built(nets: seq<FeedForwardNet>, data: seq<Sample>, layers: seq<nat>, isClassification: bool,
                        exp: real -> real, draws: nat -> (nat, nat, nat) -> real)
    requires Trainable(data, layers, isClassification)
    reads Footprint(nets)
  {
    && Members(nets, data, isClassification, exp, Layout(layers, |data[0].features|))
    && forall k :: 0 <= k < |nets| ==>
         nets[k].fitness == 0.0 && Initialised(nets[k].Weights(), data[0].features, layers, draws(k))
  }

  /** A new unscored member drawn from `draws(|nets|)` extends the built nets. */
  lemma BuiltAppend(nets: seq<FeedForwardNet>, net: FeedForwardNet, data: seq<Sample>, layers: seq<nat>,
                    isClassification: bool, exp: real -> real, draws: nat -> (nat, nat, nat) -> real)
    requires Trainable(data, layers, isClassification)
    requires Built(nets, data, layers, isClassification, exp, draws)
    requires net.fitness == 0.0 && Member(net, data, isClassification, exp, Layout(layers, |data[0].features|))
    requires Initialised(net.Weights(), data[0].features, layers, draws(|nets|))
    ensures Built(nets + [net], data, layers, isClassification, exp, draws)
  {
    var t := nets + [net];
    forall k | 0 <= k < |t|
      ensures t[k].fitness == 0.0 && Member(t[k], data, isClassification, exp, Layout(layers, |data[0].features|))
      ensures Initialised(t[k].Weights(), data[0].features, layers, draws(k))
    {
      if k < |nets| {
        assert t[k] == nets[k];
      }
    }
  }

  /**
   * The loop that builds a population (DE.java:36-38, and the lBest slots
   * of ParticleSwarm.java:119-121): `count` new nets, net k drawing its
   * initial weights from `draws(k)`, none sharing a Layer with another.
   */
  method BuildNets(count: nat, trainingData: seq<Sample>, layers: seq<nat>, isClassification: bool,
                   exp: real -> real, draws: nat -> (nat, nat, nat) -> real) returns (nets: seq<FeedForwardNet>)
    requires Trainable(trainingData, layers, isClassification) && ExpLike(exp)
    requires forall i, k, r, c :: UnitDraw(draws(i)(k, r, c))
    ensures |nets| == count && AllApart(nets)
    ensures Built(nets, trainingData, layers, isClassification, exp, draws)
  {
    nets := [];
    var i := 0;
    while i < count
      invariant 0 <= i <= count && |nets| == i && AllApart(nets)
      invariant Built(nets, trainingData, layers, isClassification, exp, draws)
    {
      ghost var held := Footprint(nets);
      var net := NewMember(trainingData, layers, isClassification, exp, draws(i), held);
      assert forall a, x, y :: 0 <= a < |nets| && 0 <= x < |net.network| && 0 <= y < |nets[a].network| ==>
        net.network[x] != nets[a].network[y];
      AllApartAppend(nets, net);
      BuiltAppend(nets, net, trainingData, layers, isClassification, exp, draws);
      nets := nets + [net];
      i := i + 1;
    }
  }

  /** The nets of `s` in a new array; `others`, objects that exist already, are left as they were. */
  method NetArray(s: seq<FeedForwardNet>, ghost others: set<object>) returns (a: array<FeedForwardNet>)
    ensures fresh(a) && a[..] == s && unchanged(others) && forall o :: o in others ==> allocated(o)
  {
    a := new FeedForwardNet[|s|](k requires 0 <= k < |s| => s[k]);
  }

  /** Every net of `s` but net `i`, and their Layer objects. */
  ghost function FootprintExcept(s: seq<FeedForwardNet>, i: nat): set<object>
  {
    (set k, j | 0 <= k < |s| && k != i && 0 <= j < |s[k].network| :: s[k].network[j] as object)
    + (set k | 0 <= k < |s| && k != i :: s[k] as object)
  }

  /** Every net of `s` but nets `a` and `b`, and their Layer objects. */
  ghost function FootprintOutside(s: seq<FeedForwardNet>, a: nat, b: nat): set<object>
  {
    (set k, j | 0 <= k < |s| && k != a && k != b && 0 <= j < |s[k].network| :: s[k].network[j] as object)
    + (set k | 0 <= k < |s| && k != a && k != b :: s[k] as object)
  }

  /** Neither net `a` nor net `b`, nor any of their Layers, belongs to the rest of the nets. */
  lemma ApartFromOthers(s: seq<FeedForwardNet>, a: nat, b: nat)
    requires AllApart(s) && a < |s| && b < |s|
    ensures s[a] !in FootprintOutside(s, a, b) && s[b] !in FootprintOutside(s, a, b)
    ensures forall j :: 0 <= j < |s[a].network| ==> s[a].network[j] !in FootprintOutside(s, a, b)
    ensures forall j :: 0 <= j < |s[b].network| ==> s[b].network[j] !in FootprintOutside(s, a, b)
  {
    forall i, k | i in {a, b} && 0 <= k < |s| && k != a && k != b
      ensures Apart(s[i], s[k])
    {
    }
  }

  /** Every net of `s` but net `i` is a member. */
  ghost predicate MembersExcept(s: seq<FeedForwardNet>, i: nat, data: seq<Sample>, isClassification: bool,
                                exp: real -> real, shape: WeightVector)
    reads FootprintExcept(s, i)
  {
    forall k :: 0 <= k < |s| && k != i ==> Member(s[k], data, isClassification, exp, shape)
  }

  /** All nets are members exactly when net `i` is one and so are the rest. */
  lemma MembersSplit(s: seq<FeedForwardNet>, i: nat, data: seq<Sample>, isClassification: bool, exp: real -> real,
                     shape: WeightVector)
    requires i < |s|
    ensures Members(s, data, isClassification, exp, shape) <==>
            MembersExcept(s, i, data, isClassification, exp, shape) && Member(s[i], data, isClassification, exp, shape)
  {
  }

  /** Neither net `i` nor any of its Layers belongs to the rest of the population. */
  lemma ApartFromRest(s: seq<FeedForwardNet>, i: nat)
    requires AllApart(s) && i < |s|
    ensures s[i] !in FootprintExcept(s, i)
    ensures forall j :: 0 <= j < |s[i].network| ==> s[i].network[j] !in FootprintExcept(s, i)
  {
    forall k | 0 <= k < |s| && k != i
      ensures s[i] != s[k]
    {
      assert Apart(s[i], s[k]);
    }
    forall j | 0 <= j < |s[i].network|
      ensures s[i].network[j] !in FootprintExcept(s, i)
    {
      forall k, y | 0 <= k < |s| && k != i && 0 <= y < |s[k].network|
        ensures s[i].network[j] != s[k].network[y]
      {
        assert Apart(s[i], s[k]);
      }
    }
  }

  /** Exchanging two entries gives the same nets in another order. */
  lemma SwapPermutes<T>(s: seq<T>, i: nat, j: nat)
    requires i < |s| && j < |s|
    ensures multiset(s[i := s[j]][j := s[i]]) == multiset(s)
  {
    var t := s[i := s[j]];
    assert multiset(t) == multiset(s) - multiset{s[i]} + multiset{s[j]};
    assert multiset(t[j := s[i]]) == multiset(t) - multiset{t[j]} + multiset{s[i]};
  }

  /** Entry k of `s` is entry `os[k]` of `s0`. */
  predicate Traced<T(==)>(s0: seq<T>, s: seq<T>, os: seq<nat>)
  {
    |os| == |s| && forall k :: 0 <= k < |s| ==> os[k] < |s0| && s[k] == s0[os[k]]
  }

  /**
   * `s` is `s0` sorted stably on `keys` (the keys of `s`): every entry comes
   * from its own place `os[k]` of `s0`, and entries with equal keys keep the
   * order they had in `s0`.
   */
  predicate SortedStably<T(==), K(==)>(s0: seq<T>, s: seq<T>, keys: seq<K>, os: seq<nat>)
  {
    && |keys| == |s| && IsPermutation(os, |s0|) && Traced(s0, s, os)
    && forall a, b :: 0 <= a < b < |keys| && keys[a] == keys[b] ==> os[a] < os[b]
  }

  /**
   * Origins after i passes of an insertion sort: the first i places hold
   * entries from the first i places, those with equal keys in their old
   * order, and the places from i on are untouched.
   */
  predicate Inserted<K(==)>(keys: seq<K>, os: seq<nat>, i: nat)
  {
    && i <= |keys| == |os|
    && (forall a, b :: 0 <= a < b < |os| ==> os[a] != os[b])
    && (forall k :: 0 <= k < i ==> os[k] < i)
    && (forall k :: i <= k < |os| ==> os[k] == k)
    && (forall a, b :: 0 <= a < b < i && keys[a] == keys[b] ==> os[a] < os[b])
  }

  /**
   * Pass i of an insertion sort under way, the entry from place i now at j:
   * the others in the first i + 1 places came from the first i and keep
   * their old order among equal keys.
   */
  predicate Inserting<K(==)>(keys: seq<K>, os: seq<nat>, i: nat, j: nat)
  {
    && j <= i < |keys| == |os|
    && (forall a, b :: 0 <= a < b < |os| ==> os[a] != os[b])
    && os[j] == i
    && (forall k :: 0 <= k <= i && k != j ==> os[k] < i)
    && (forall k :: i < k < |os| ==> os[k] == k)
    && (forall a, b :: 0 <= a < b <= i && a != j && b != j && keys[a] == keys[b] ==> os[a] < os[b])
  }

  /** Before the first pass every entry is where it started. */
  lemma InsertedNone<K>(keys: seq<K>, os: seq<nat>)
    requires |os| == |keys| && forall k :: 0 <= k < |os| ==> os[k] == k
    ensures Inserted(keys, os, 0)
  {
  }

  /** A pass starts with the entry from place i at i. */
  lemma InsertingStart<K>(keys: seq<K>, os: seq<nat>, i: nat)
    requires Inserted(keys, os, i) && i < |keys|
    ensures Inserting(keys, os, i, i)
  {
  }

  /** Exchanging the moving entry with its left neighbour keeps the others' order. */
  lemma InsertingStep<K>(keys: seq<K>, os: seq<nat>, i: nat, j: nat)
    requires Inserting(keys, os, i, j) && 0 < j
    ensures Inserting(keys[j - 1 := keys[j]][j := keys[j - 1]], os[j - 1 := os[j]][j := os[j - 1]], i, j - 1)
  {
  }

  /**
   * A pass ends stably when the moving entry has passed no entry with its
   * own key: the entries before it with that key came from earlier places.
   */
  lemma InsertingEnd<K>(keys: seq<K>, os: seq<nat>, i: nat, j: nat)
    requires Inserting(keys, os, i, j) && forall b :: j < b <= i ==> keys[b] != keys[j]
    ensures Inserted(keys, os, i + 1)
  {
  }

  /** Every entry where it started traces to its own place. */
  lemma TracedSelf<T>(s: seq<T>, os: seq<nat>)
    requires |os| == |s| && forall k :: 0 <= k < |os| ==> os[k] == k
    ensures Traced(s, s, os)
  {
  }

  /** Exchanging two entries and their origins keeps the trace. */
  lemma TracedSwap<T>(s0: seq<T>, s: seq<T>, os: seq<nat>, a: nat, b: nat)
    requires Traced(s0, s, os) && a < |s| && b < |s|
    ensures Traced(s0, s[a := s[b]][b := s[a]], os[a := os[b]][b := os[a]])
  {
  }

  /** After the last pass the trace is a stable sort. */
  lemma InsertedAll<T, K>(s0: seq<T>, s: seq<T>, keys: seq<K>, os: seq<nat>)
    requires Inserted(keys, os, |keys|) && Traced(s0, s, os) && |s| == |s0|
    ensures SortedStably(s0, s, keys, os)
  {
  }

  /** The same nets in another order are members alike. */
  lemma MembersPermutation(s: seq<FeedForwardNet>, t: seq<FeedForwardNet>, data: seq<Sample>, isClassification: bool,
                           exp: real -> real, shape: WeightVector)
    requires multiset(s) == multiset(t) && Members(s, data, isClassification, exp, shape)
    ensures Members(t, data, isClassification, exp, shape)
  {
    forall k | 0 <= k < |t|
      ensures Member(t[k], data, isClassification, exp, shape)
    {
      assert t[k] in multiset(s);
    }
  }

  /** Exchanging two nets keeps every net a member. */
  lemma MembersSwap(s: seq<FeedForwardNet>, i: nat, j: nat, data: seq<Sample>, isClassification: bool,
                    exp: real -> real, shape: WeightVector)
    requires Members(s, data, isClassification, exp, shape) && i < |s| && j < |s|
    ensures Members(s[i := s[j]][j := s[i]], data, isClassification, exp, shape)
  {
    var t := s[i := s[j]][j := s[i]];
    forall k | 0 <= k < |t|
      ensures Member(t[k], data, isClassification, exp, shape)
    {
      assert t[k] in s;
    }
  }

  /** setWeights on `n`, leaving `others`, which hold none of its Layers, as they were. */
  method Reweigh(n: FeedForwardNet, ws: WeightVector, ghost others: set<object>)
    requires n.Valid() && SameShape(ws, n.Weights())
    requires forall j :: 0 <= j < |n.network| ==> n.network[j] !in others
    modifies n.network
    ensures n.Valid() && n.Weights() == ws && unchanged(others)
  {
    n.SetWeights(ws);
  }

  /** updateFitness on `n`, leaving `others`, which hold neither `n` nor its Layers, as they were. */
  method Rescore(n: FeedForwardNet, ghost others: set<object>)
    requires n.Valid() && Scorable(n.Weights(), n.data, n.isClassification, n.exp)
    requires n !in others && forall j :: 0 <= j < |n.network| ==> n.network[j] !in others
    modifies n`fitness, n.network
    ensures n.Valid() && n.Weights() == old(n.Weights()) && unchanged(others)
    ensures n.fitness == Fitness(old(n.Weights()), n.data, n.isClassification, n.exp)
  {
    n.UpdateFitness();
  }

  /**
   * The copy constructor `new FeedForwardNet(n)`: a new net with `n`'s
   * Layers (the same objects, not copies), data, rate, task and fitness.
   * `others`, objects that exist already, are left as they were.
   */
  method Copy(n: FeedForwardNet, ghost others: set<object>) returns (c: FeedForwardNet)
    ensures fresh(c) && c !in others && unchanged(others)
    ensures c.network == n.network && c.data == n.data && c.eta == n.eta
    ensures c.isClassification == n.isClassification && c.exp == n.exp && c.fitness == n.fitness
  {
    c := new FeedForwardNet.Clone(n);
  }
}
