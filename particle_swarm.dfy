/**
 * Particle swarm optimisation over FeedForwardNet weights
 * (neural-nets/ParticleSwarm.java).  Each particle owns two nets, its
 * position and its personal best, and a velocity; the swarm owns the
 * particles and an array of lBest slots, nets that hold a neighbourhood's
 * best weights.  Every particle is given the same slot, drawn once.
 *
 * The value model comes first: what one generation does to the weights,
 * fitnesses and errors, stated as functions with their properties.  The
 * classes follow, their methods proved to do what the functions say.
 */
module ParticleSwarmOptimization {
  import opened Basics
  import opened WeightVectors
  import opened NetworkMath
  import opened NetworkState
  import opened FeedForward
  import opened Populations

  /** The inertia weight `w` and the coefficients `c1`, `c2` the swarm hands every particle (lines 114-116). */
  const Inertia: real := 0.1
  const Cognitive: real := 3.0
  const Social: real := 1.5

  /** The run stops after a generation whose best personal error is below this (line 202). */
  const GoalError: real := 0.01

  // ---------------------------------------------------------------- the swarm as values

  /** A particle as the model reads it: position weights and fitness, velocity, personal best weights and error. */
  datatype ParticleState = ParticleState(position: WeightVector, fitness: real, velocity: WeightVector,
                                         pBest: WeightVector, pBestError: ExtReal)

  /** An lBest slot: a net's weights and its recorded fitness. */
  datatype Slot = Slot(weights: WeightVector, fitness: real)

  /** The swarm: its particles in array order, its lBest slots, and gBestError. */
  datatype SwarmState = SwarmState(particles: seq<ParticleState>, slots: seq<Slot>, gBestError: ExtReal)

  /** Every vector of the swarm has the shape `shape`. */
  predicate Coherent(sw: SwarmState, shape: WeightVector)
  {
    && (forall k :: 0 <= k < |sw.particles| ==>
          && SameShape(sw.particles[k].position, shape) && SameShape(sw.particles[k].velocity, shape)
          && SameShape(sw.particles[k].pBest, shape))
    && SlotsShaped(sw.slots, shape)
  }

  /** Every slot's weights have the shape `shape`. */
  predicate SlotsShaped(slots: seq<Slot>, shape: WeightVector)
  {
    forall j :: 0 <= j < |slots| ==> SameShape(slots[j].weights, shape)
  }

  /** Every particle can reach slot `local`: there is no particle, or the slot exists. */
  predicate Follows(sw: SwarmState, local: nat)
  {
    |sw.particles| == 0 || local < |sw.slots|
  }

  /** A personal best error that is the score of the personal best weights, or +infinity before there is one. */
  predicate Truthful(p: ParticleState, score: WeightVector -> real)
  {
    p.pBestError.Finite? ==> p.pBestError.value == score(p.pBest)
  }

  /**
   * The slots hold the best they claim: no slot's recorded fitness is below
   * the score of its weights, and every particle is truthful.
   */
  predicate Honest(sw: SwarmState, score: WeightVector -> real)
  {
    && (forall k :: 0 <= k < |sw.particles| ==> Truthful(sw.particles[k], score))
    && SlotsHonest(sw.slots, score)
  }

  /** No slot's recorded fitness is below the score of its weights. */
  predicate SlotsHonest(slots: seq<Slot>, score: WeightVector -> real)
  {
    forall j :: 0 <= j < |slots| ==> score(slots[j].weights) <= slots[j].fitness
  }

  /** No slot of `a` has a higher fitness than the same slot of `b`. */
  predicate NoHigher(a: seq<Slot>, b: seq<Slot>)
  {
    |a| == |b| && forall j :: 0 <= j < |a| ==> a[j].fitness <= b[j].fitness
  }

  /** The fitness of slot `local` is no higher than the best error of particles 0 .. n-1. */
  predicate FitnessBelow(sw: SwarmState, local: nat, n: nat)
    requires local < |sw.slots| && n <= |sw.particles|
  {
    forall k :: 0 <= k < n ==> LessEq(Finite(sw.slots[local].fitness), sw.particles[k].pBestError)
  }

  /**
   * updateVelocity (lines 44-70) on values: the velocity becomes
   * NextVelocity toward the personal best and the slot weights `g`, with
   * the draws `r1` and `r2`; it keeps the shape.  Nothing else changes.
   */
  function Steered(p: ParticleState, g: WeightVector, w: real, c1: real, c2: real, shape: WeightVector,
                   r1: (nat, nat, nat) -> real, r2: (nat, nat, nat) -> real): (q: ParticleState)
    requires SameShape(p.position, shape) && SameShape(p.velocity, shape) && SameShape(p.pBest, shape)
    requires SameShape(g, shape)
    ensures SameShape(q.velocity, shape) && q == p.(velocity := q.velocity)
  {
    var v := NextVelocity(p.velocity, p.pBest, p.position, g, w, c1, c2, r1, r2);
    SameShapeTransitive(v, p.velocity, shape);
    p.(velocity := v)
  }

  /** Line 132 on values: particle k steers toward slot `local` with the draws `r1`, `r2`; no other particle and no slot changes. */
  function SteeredAt(sw: SwarmState, k: nat, local: nat, shape: WeightVector,
                     r1: (nat, nat, nat) -> real, r2: (nat, nat, nat) -> real): (r: SwarmState)
    requires Coherent(sw, shape) && k < |sw.particles| && local < |sw.slots|
    ensures Coherent(r, shape) && r.slots == sw.slots && r.gBestError == sw.gBestError && |r.particles| == |sw.particles|
  {
    sw.(particles := sw.particles[k := Steered(sw.particles[k], sw.slots[local].weights, Inertia, Cognitive, Social, shape, r1, r2)])
  }

  /**
   * The loop of updateVelocities (lines 130-134) after its first n rounds:
   * particles 0 to n-1 have steered toward slot `local`, particle k with the
   * draws `r1s(k)`, `r2s(k)`; the others are as they were.
   */
  function SteeredUpTo(sw: SwarmState, local: nat, shape: WeightVector,
                       r1s: nat -> (nat, nat, nat) -> real, r2s: nat -> (nat, nat, nat) -> real, n: nat): (r: SwarmState)
    requires Coherent(sw, shape) && Follows(sw, local) && n <= |sw.particles|
    ensures Coherent(r, shape) && r.slots == sw.slots && r.gBestError == sw.gBestError && |r.particles| == |sw.particles|
    ensures forall k :: 0 <= k < |r.particles| ==> r.particles[k] == sw.particles[k].(velocity := r.particles[k].velocity)
  {
    var ps := sw.particles;
    var g := if local < |sw.slots| then sw.slots[local].weights else shape;
    var qs := seq(|ps|, k requires 0 <= k < |ps| =>
      if k < n then Steered(ps[k], g, Inertia, Cognitive, Social, shape, r1s(k), r2s(k)) else ps[k]);
    assert forall k :: 0 <= k < |ps| ==>
      qs[k] == if k < n then Steered(ps[k], g, Inertia, Cognitive, Social, shape, r1s(k), r2s(k)) else ps[k];
    sw.(particles := qs)
  }

  /** Before the first round nothing has steered. */
  lemma SteeredNone(sw: SwarmState, local: nat, shape: WeightVector,
                    r1s: nat -> (nat, nat, nat) -> real, r2s: nat -> (nat, nat, nat) -> real)
    requires Coherent(sw, shape) && Follows(sw, local)
    ensures SteeredUpTo(sw, local, shape, r1s, r2s, 0) == sw
  {
    assert SteeredUpTo(sw, local, shape, r1s, r2s, 0).particles == sw.particles;
  }

  /** Round n of the loop, which leaves m = n + 1 rounds done, steers particle n of the swarm the first n rounds left, and nothing else. */
  lemma SteeredNext(sw: SwarmState, local: nat, shape: WeightVector,
                    r1s: nat -> (nat, nat, nat) -> real, r2s: nat -> (nat, nat, nat) -> real, n: nat, m: nat)
    requires Coherent(sw, shape) && n < |sw.particles| && local < |sw.slots| && m == n + 1
    ensures SteeredUpTo(sw, local, shape, r1s, r2s, m)
            == SteeredAt(SteeredUpTo(sw, local, shape, r1s, r2s, n), n, local, shape, r1s(n), r2s(n))
  {
    var a := SteeredUpTo(sw, local, shape, r1s, r2s, m);
    var b := SteeredAt(SteeredUpTo(sw, local, shape, r1s, r2s, n), n, local, shape, r1s(n), r2s(n));
    assert a.particles == b.particles;
  }

  /** Steering the particles one after the other, as the loop does, is steering them all from the same slot: no round changes the slots. */
  lemma SequentialSteering(sw: SwarmState, local: nat, shape: WeightVector,
                           r1s: nat -> (nat, nat, nat) -> real, r2s: nat -> (nat, nat, nat) -> real)
    requires Coherent(sw, shape) && Follows(sw, local)
    ensures SteeredUpTo(sw, local, shape, r1s, r2s, |sw.particles|) == Accelerated(sw, local, shape, r1s, r2s)
  {
    assert SteeredUpTo(sw, local, shape, r1s, r2s, |sw.particles|).particles == Accelerated(sw, local, shape, r1s, r2s).particles;
  }

  /** updateVelocities (lines 130-134) on values: particle k steers toward slot `local` with the draws `r1s(k)`, `r2s(k)`. */
  function Accelerated(sw: SwarmState, local: nat, shape: WeightVector,
                       r1s: nat -> (nat, nat, nat) -> real, r2s: nat -> (nat, nat, nat) -> real): (r: SwarmState)
    requires Coherent(sw, shape) && Follows(sw, local)
    ensures Coherent(r, shape) && r.slots == sw.slots && r.gBestError == sw.gBestError && |r.particles| == |sw.particles|
    ensures forall k :: 0 <= k < |r.particles| ==> r.particles[k] == sw.particles[k].(velocity := r.particles[k].velocity)
  {
    var ps := sw.particles;
    var g := if local < |sw.slots| then sw.slots[local].weights else shape;
    var qs := seq(|ps|, k requires 0 <= k < |ps| => Steered(ps[k], g, Inertia, Cognitive, Social, shape, r1s(k), r2s(k)));
    assert forall k :: 0 <= k < |ps| ==> qs[k] == Steered(ps[k], g, Inertia, Cognitive, Social, shape, r1s(k), r2s(k));
    sw.(particles := qs)
  }

  /**
   * updatePosition (lines 76-100) on values: the position moves by the
   * velocity and is rescored; the personal best takes the new position when
   * its fitness is strictly below the best error so far.
   */
  function Moved(p: ParticleState, score: WeightVector -> real): (q: ParticleState)
    requires SameShape(p.position, p.velocity)
    ensures q.velocity == p.velocity && SameShape(q.position, p.position) && q.fitness == score(q.position)
    ensures LessEq(q.pBestError, p.pBestError)
  {
    var x := Displace(p.position, p.velocity);
    var f := score(x);
    if Less(Finite(f), p.pBestError) then ParticleState(x, f, p.velocity, x, Finite(f))
    else ParticleState(x, f, p.velocity, p.pBest, p.pBestError)
  }

  /** updatePosition keeps the particle's shape: the position is the old one plus the velocity. */
  lemma MovedShape(p: ParticleState, shape: WeightVector, score: WeightVector -> real)
    requires SameShape(p.position, shape) && SameShape(p.velocity, shape) && SameShape(p.pBest, shape)
    ensures var q := Moved(p, score);
            && q.position == Displace(p.position, p.velocity) && q.velocity == p.velocity
            && SameShape(q.position, shape) && SameShape(q.velocity, shape) && SameShape(q.pBest, shape)
  {
    var x := Displace(p.position, p.velocity);
    SameShapeTransitive(x, p.position, shape);
  }

  /**
   * What updatePosition promises of the personal best: its error never
   * rises and is never above the new fitness; it changes only for a
   * strictly lower fitness; and a truthful particle stays truthful.
   */
  lemma MovedBest(p: ParticleState, score: WeightVector -> real)
    requires SameShape(p.position, p.velocity)
    ensures var q := Moved(p, score);
            && LessEq(q.pBestError, p.pBestError) && LessEq(q.pBestError, Finite(q.fitness))
            && (q.pBest != p.pBest || q.pBestError != p.pBestError ==> Less(Finite(q.fitness), p.pBestError))
            && (Truthful(p, score) ==> Truthful(q, score))
  {
  }

  /**
   * The lBest check of updatePositions (lines 144-148) for a particle that
   * has just moved: when its best error is strictly below the fitness of
   * slot `local`, gBestError takes that error and the slot takes its
   * personal best, rescored.
   */
  function Visit(sw: SwarmState, q: ParticleState, local: nat, score: WeightVector -> real): (r: SwarmState)
    requires local < |sw.slots|
    ensures |r.slots| == |sw.slots| && r.particles == sw.particles
    ensures forall j :: 0 <= j < |sw.slots| && j != local ==> r.slots[j] == sw.slots[j]
    ensures r == sw || (r.slots[local] == Slot(q.pBest, score(q.pBest)) && r.gBestError == q.pBestError)
  {
    if Less(q.pBestError, Finite(sw.slots[local].fitness)) then
      sw.(slots := sw.slots[local := Slot(q.pBest, score(q.pBest))], gBestError := q.pBestError)
    else sw
  }

  /**
   * The particle loop of updatePositions (lines 141-149) over particles
   * 0 .. n-1, in order: each moves, then checks slot `local`.
   */
  function Flown(sw: SwarmState, local: nat, n: nat, shape: WeightVector, score: WeightVector -> real): (r: SwarmState)
    requires Coherent(sw, shape) && Follows(sw, local) && n <= |sw.particles|
    ensures |r.particles| == |sw.particles| && |r.slots| == |sw.slots|
    ensures forall k :: 0 <= k < |sw.particles| ==>
              r.particles[k] == if k < n then Moved(sw.particles[k], score) else sw.particles[k]
  {
    if n == 0 then sw
    else
      var prev := Flown(sw, local, n - 1, shape, score);
      var q := Moved(sw.particles[n - 1], score);
      Visit(prev.(particles := prev.particles[n - 1 := q]), q, local, score)
  }

  /**
   * Step i of the ring loop of updatePositions (lines 152-156): slot i
   * copies the weights of slot (i + 1) mod n when that slot's fitness is
   * strictly lower.  No fitness changes.
   */
  function RingStep(slots: seq<Slot>, i: nat): (r: seq<Slot>)
    requires i < |slots|
  {
    var next := slots[(i + 1) % |slots|];
    if next.fitness < slots[i].fitness then slots[i := Slot(next.weights, slots[i].fitness)] else slots
  }

  /** The first n steps of the ring loop, slot 0 first. */
  function Ringed(slots: seq<Slot>, n: nat): (r: seq<Slot>)
    requires n <= |slots|
    ensures |r| == |slots|
  {
    if n == 0 then slots else RingStep(Ringed(slots, n - 1), n - 1)
  }

  /** updatePositions (lines 140-157) on values: the particle loop, then the ring loop over every slot. */
  function Repositioned(sw: SwarmState, local: nat, shape: WeightVector, score: WeightVector -> real): (r: SwarmState)
    requires Coherent(sw, shape) && Follows(sw, local)
    ensures |r.particles| == |sw.particles| && |r.slots| == |sw.slots|
    ensures forall k :: 0 <= k < |sw.particles| ==>
              SameShape(sw.particles[k].position, sw.particles[k].velocity) && r.particles[k] == Moved(sw.particles[k], score)
  {
    var f := Flown(sw, local, |sw.particles|, shape, score);
    f.(slots := Ringed(f.slots, |f.slots|))
  }

  /** Line 142 on values: particle k moves; no other particle and no slot changes. */
  function MovedAt(sw: SwarmState, k: nat, shape: WeightVector, score: WeightVector -> real): (r: SwarmState)
    requires Coherent(sw, shape) && k < |sw.particles|
    ensures Coherent(r, shape) && r.slots == sw.slots && r.gBestError == sw.gBestError && |r.particles| == |sw.particles|
  {
    MovedShape(sw.particles[k], shape, score);
    sw.(particles := sw.particles[k := Moved(sw.particles[k], score)])
  }

  /**
   * Round n of the particle loop, which leaves m = n + 1 rounds done:
   * particle n of the swarm the first n rounds left moves, then checks
   * slot `local`.
   */
  lemma FlownNext(sw: SwarmState, local: nat, shape: WeightVector, score: WeightVector -> real, n: nat, m: nat)
    requires Coherent(sw, shape) && Follows(sw, local) && n < |sw.particles| && m == n + 1
    ensures local < |sw.slots| && Coherent(Flown(sw, local, n, shape, score), shape)
    ensures var mid := MovedAt(Flown(sw, local, n, shape, score), n, shape, score);
            Flown(sw, local, m, shape, score) == Visit(mid, mid.particles[n], local, score)
  {
    FlownShape(sw, local, n, shape, score);
  }

  /** Step n of the ring loop, which leaves m = n + 1 steps done. */
  lemma RingedNext(slots: seq<Slot>, n: nat, m: nat)
    requires n < |slots| && m == n + 1
    ensures Ringed(slots, m) == RingStep(Ringed(slots, n), n)
  {
  }

  /** Slot `local` leads the swarm: the score of its weights is no higher than any particle's best error. */
  predicate Leads(sw: SwarmState, local: nat, score: WeightVector -> real)
    requires local < |sw.slots|
  {
    forall k :: 0 <= k < |sw.particles| ==>
      LessEq(Finite(score(sw.slots[local].weights)), sw.particles[k].pBestError)
  }

  /**
   * A visit changes no other slot, and a slot whose fitness is at least the
   * score of its weights stays so.  When the particle is truthful the
   * slot's fitness never rises and ends no higher than the particle's
   * best error.
   */
  lemma VisitKeepsBest(sw: SwarmState, q: ParticleState, local: nat, score: WeightVector -> real)
    requires local < |sw.slots|
    ensures var r := Visit(sw, q, local, score);
            && |r.slots| == |sw.slots| && r.particles == sw.particles
            && (forall j :: 0 <= j < |sw.slots| && j != local ==> r.slots[j] == sw.slots[j])
            && (r.slots[local] == sw.slots[local] || r.slots[local].weights == q.pBest)
            && (score(sw.slots[local].weights) <= sw.slots[local].fitness ==>
                  score(r.slots[local].weights) <= r.slots[local].fitness)
            && (Truthful(q, score) ==>
                  r.slots[local].fitness <= sw.slots[local].fitness && LessEq(Finite(r.slots[local].fitness), q.pBestError))
  {
  }

  /** The particle loop over particles 0 .. n-1 leaves every slot's weights in the swarm's shape. */
  lemma {:induction false} FlownSlotsShaped(sw: SwarmState, local: nat, n: nat, shape: WeightVector, score: WeightVector -> real)
    requires Coherent(sw, shape) && Follows(sw, local) && n <= |sw.particles|
    ensures SlotsShaped(Flown(sw, local, n, shape, score).slots, shape)
  {
    if n > 0 {
      FlownSlotsShaped(sw, local, n - 1, shape, score);
      var prev := Flown(sw, local, n - 1, shape, score);
      var p := sw.particles[n - 1];
      MovedShape(p, shape, score);
      var q := Moved(p, score);
      var mid := prev.(particles := prev.particles[n - 1 := q]);
      VisitKeepsBest(mid, q, local, score);
      var r := Visit(mid, q, local, score);
      assert Flown(sw, local, n, shape, score) == r;
      assert mid.slots == prev.slots;
      forall j | 0 <= j < |r.slots|
        ensures SameShape(r.slots[j].weights, shape)
      {
        if r.slots[j] != prev.slots[j] {
          assert j == local && r.slots[j].weights == q.pBest;
        }
      }
    }
  }

  /** The particle loop over particles 0 .. n-1 keeps every vector's shape. */
  lemma FlownShape(sw: SwarmState, local: nat, n: nat, shape: WeightVector, score: WeightVector -> real)
    requires Coherent(sw, shape) && Follows(sw, local) && n <= |sw.particles|
    ensures Coherent(Flown(sw, local, n, shape, score), shape)
  {
    FlownSlotsShaped(sw, local, n, shape, score);
    var r := Flown(sw, local, n, shape, score);
    forall k | 0 <= k < |r.particles|
      ensures SameShape(r.particles[k].position, shape) && SameShape(r.particles[k].velocity, shape)
      ensures SameShape(r.particles[k].pBest, shape)
    {
      if k < n {
        MovedShape(sw.particles[k], shape, score);
      }
    }
  }

  /** In the particle loop no best error rises. */
  lemma FlownErrors(sw: SwarmState, local: nat, n: nat, shape: WeightVector, score: WeightVector -> real)
    requires Coherent(sw, shape) && Follows(sw, local) && n <= |sw.particles|
    ensures var r := Flown(sw, local, n, shape, score);
            forall k :: 0 <= k < |sw.particles| ==> LessEq(r.particles[k].pBestError, sw.particles[k].pBestError)
  {
    var r := Flown(sw, local, n, shape, score);
    forall k | 0 <= k < |sw.particles|
      ensures LessEq(r.particles[k].pBestError, sw.particles[k].pBestError)
    {
      if k < n {
        MovedBest(sw.particles[k], score);
      }
    }
  }

  /**
   * In an honest swarm the particle loop over particles 0 .. n-1 keeps the
   * swarm honest, raises no slot's fitness, and leaves the fitness of slot
   * `local` no higher than the best error of any particle that has moved.
   */
  lemma {:induction false} FlownHonest(sw: SwarmState, local: nat, n: nat, shape: WeightVector, score: WeightVector -> real)
    requires Coherent(sw, shape) && local < |sw.slots| && n <= |sw.particles|
    requires Honest(sw, score)
    ensures var r := Flown(sw, local, n, shape, score);
            Honest(r, score) && NoHigher(r.slots, sw.slots) && FitnessBelow(r, local, n)
  {
    if n > 0 {
      FlownHonest(sw, local, n - 1, shape, score);
      var prev := Flown(sw, local, n - 1, shape, score);
      var p := sw.particles[n - 1];
      assert Truthful(p, score);
      MovedBest(p, score);
      var q := Moved(p, score);
      var mid := prev.(particles := prev.particles[n - 1 := q]);
      VisitKeepsBest(mid, q, local, score);
      var r := Visit(mid, q, local, score);
      assert Flown(sw, local, n, shape, score) == r;
      assert r.particles == prev.particles[n - 1 := q];
      forall k | 0 <= k < |r.particles|
        ensures Truthful(r.particles[k], score)
      {
        if k != n - 1 {
          assert r.particles[k] == prev.particles[k];
        }
      }
      assert SlotsHonest(r.slots, score) by {
        forall j | 0 <= j < |r.slots|
          ensures score(r.slots[j].weights) <= r.slots[j].fitness
        {
          if j != local {
            assert r.slots[j] == prev.slots[j];
          }
        }
      }
      assert NoHigher(r.slots, sw.slots) by {
        forall j | 0 <= j < |r.slots|
          ensures r.slots[j].fitness <= sw.slots[j].fitness
        {
          assert r.slots[j].fitness <= prev.slots[j].fitness;
        }
      }
      assert FitnessBelow(r, local, n) by {
        forall k | 0 <= k < n
          ensures LessEq(Finite(r.slots[local].fitness), r.particles[k].pBestError)
        {
          if k < n - 1 {
            assert r.particles[k] == prev.particles[k];
            LessEqTransitive(Finite(r.slots[local].fitness), Finite(prev.slots[local].fitness), prev.particles[k].pBestError);
          }
        }
      }
    }
  }

  /** The ring loop changes no slot's fitness. */
  lemma {:induction false} RingedFitness(slots: seq<Slot>, n: nat)
    requires n <= |slots|
    ensures forall j :: 0 <= j < |slots| ==> Ringed(slots, n)[j].fitness == slots[j].fitness
  {
    if n > 0 {
      RingedFitness(slots, n - 1);
    }
  }

  /** Before step i of the ring loop, slots i .. n-1 are as they were. */
  lemma {:induction false} RingedAhead(slots: seq<Slot>, n: nat)
    requires n <= |slots|
    ensures forall j :: n <= j < |slots| ==> Ringed(slots, n)[j] == slots[j]
  {
    if n > 0 {
      RingedAhead(slots, n - 1);
    }
  }

  /** The ring's successor index, without the division. */
  lemma Successor(i: nat, n: nat)
    requires i < n
    ensures (i + 1) % n == if i + 1 < n then i + 1 else 0
  {
  }

  /** Slot i, below the last, ends with the weights of slot i + 1 when that slot's fitness is strictly lower. */
  lemma RingedAt(slots: seq<Slot>, i: nat)
    requires i + 1 < |slots|
    ensures Ringed(slots, |slots|)[i].weights ==
              if slots[i + 1].fitness < slots[i].fitness then slots[i + 1].weights else slots[i].weights
  {
    var m := |slots|;
    RingedSettled(slots, i + 1, m, i);
    RingedAhead(slots, i);
    var before := Ringed(slots, i);
    Successor(i, m);
    assert before[i] == slots[i] && before[i + 1] == slots[i + 1];
  }

  /** The last slot looks at slot 0 as the loop has already left it. */
  lemma RingedLast(slots: seq<Slot>)
    requires 0 < |slots|
    ensures var r := Ringed(slots, |slots|);
            var last := |slots| - 1;
            r[last].weights == if slots[0].fitness < slots[last].fitness then r[0].weights else slots[last].weights
  {
    var last := |slots| - 1;
    var before := Ringed(slots, last);
    RingStepLast(before);
    RingedAhead(slots, last);
    if 0 < last {
      RingedFitness(slots, last);
      RingedSettled(slots, 1, |slots|, 0);
      RingedSettled(slots, 1, last, 0);
    }
  }

  /** The last step of the ring loop compares the last slot with slot 0. */
  lemma RingStepLast(slots: seq<Slot>)
    requires 0 < |slots|
    ensures var last := |slots| - 1;
            RingStep(slots, last)[last].weights ==
              if slots[0].fitness < slots[last].fitness then slots[0].weights else slots[last].weights
  {
    Successor(|slots| - 1, |slots|);
  }

  /**
   * What the ring loop leaves: slot i holds the weights of slot i + 1 when
   * that slot's fitness is strictly lower, its own otherwise; the last slot
   * looks at slot 0 as the loop has already left it.
   */
  lemma RingedWeights(slots: seq<Slot>)
    ensures var r := Ringed(slots, |slots|);
            && (forall i :: 0 <= i < |slots| - 1 ==>
                  r[i].weights == if slots[i + 1].fitness < slots[i].fitness then slots[i + 1].weights else slots[i].weights)
            && (0 < |slots| ==>
                  var last := |slots| - 1;
                  r[last].weights == if slots[0].fitness < slots[last].fitness then r[0].weights else slots[last].weights)
  {
    forall i | 0 <= i < |slots| - 1
      ensures Ringed(slots, |slots|)[i].weights ==
                if slots[i + 1].fitness < slots[i].fitness then slots[i + 1].weights else slots[i].weights
    {
      RingedAt(slots, i);
    }
    if 0 < |slots| {
      RingedLast(slots);
    }
  }

  /** Step j of the ring loop writes slot j only: once step i has run, slot i is settled. */
  lemma {:induction false} RingedSettled(slots: seq<Slot>, n: nat, m: nat, i: nat)
    requires i < n <= m <= |slots|
    ensures Ringed(slots, m)[i] == Ringed(slots, n)[i]
    decreases m - n
  {
    if m > n {
      RingedSettled(slots, n, m - 1, i);
    }
  }

  /**
   * The ring loop keeps the slots honest: a slot only ever takes the
   * weights of a neighbour whose recorded fitness is strictly lower than
   * its own, and keeps its own fitness.
   */
  lemma {:induction false} RingedHonest(slots: seq<Slot>, n: nat, score: WeightVector -> real)
    requires n <= |slots| && SlotsHonest(slots, score)
    ensures SlotsHonest(Ringed(slots, n), score)
  {
    if n > 0 {
      RingedHonest(slots, n - 1, score);
      var prev := Ringed(slots, n - 1);
      var i := n - 1;
      var next := prev[(i + 1) % |prev|];
      assert score(next.weights) <= next.fitness;
      var r := RingStep(prev, i);
      forall j | 0 <= j < |r|
        ensures score(r[j].weights) <= r[j].fitness
      {
        if j != i {
          assert r[j] == prev[j];
        }
      }
    }
  }

  /** updatePositions keeps every vector's shape. */
  lemma RepositionedShape(sw: SwarmState, local: nat, shape: WeightVector, score: WeightVector -> real)
    requires Coherent(sw, shape) && Follows(sw, local)
    ensures var r := Repositioned(sw, local, shape, score);
            Coherent(r, shape) && |r.particles| == |sw.particles| && |r.slots| == |sw.slots|
  {
    var f := Flown(sw, local, |sw.particles|, shape, score);
    FlownShape(sw, local, |sw.particles|, shape, score);
    var ring := Ringed(f.slots, |f.slots|);
    RingedShape(f.slots, |f.slots|, shape);
  }

  /** The ring loop keeps every slot's shape. */
  lemma {:induction false} RingedShape(slots: seq<Slot>, n: nat, shape: WeightVector)
    requires n <= |slots| && SlotsShaped(slots, shape)
    ensures SlotsShaped(Ringed(slots, n), shape)
  {
    if n > 0 {
      RingedShape(slots, n - 1, shape);
      var prev := Ringed(slots, n - 1);
      var r := RingStep(prev, n - 1);
      forall j | 0 <= j < |r|
        ensures SameShape(r[j].weights, shape)
      {
        if j != n - 1 {
          assert r[j] == prev[j];
        }
      }
    }
  }

  /**
   * updatePositions moves every particle once, in array order, and no
   * particle's best error rises.
   */
  lemma RepositionedErrors(sw: SwarmState, local: nat, shape: WeightVector, score: WeightVector -> real)
    requires Coherent(sw, shape) && Follows(sw, local)
    ensures var r := Repositioned(sw, local, shape, score);
            && |r.particles| == |sw.particles|
            && (forall k :: 0 <= k < |sw.particles| ==> r.particles[k] == Moved(sw.particles[k], score))
            && (forall k :: 0 <= k < |sw.particles| ==> LessEq(r.particles[k].pBestError, sw.particles[k].pBestError))
  {
    FlownErrors(sw, local, |sw.particles|, shape, score);
  }

  /**
   * In an honest swarm, updatePositions keeps the swarm honest, and leaves
   * slot `local` leading: the score of its weights is no higher than any
   * particle's best error, so the velocity update that follows steers
   * every particle toward weights at least as good as its own best.
   */
  lemma RepositionedLeads(sw: SwarmState, local: nat, shape: WeightVector, score: WeightVector -> real)
    requires Coherent(sw, shape) && local < |sw.slots| && Honest(sw, score)
    ensures var r := Repositioned(sw, local, shape, score);
            Honest(r, score) && Leads(r, local, score)
  {
    var n := |sw.particles|;
    FlownHonest(sw, local, n, shape, score);
    var f := Flown(sw, local, n, shape, score);
    var ring := Ringed(f.slots, |f.slots|);
    RingedHonest(f.slots, |f.slots|, score);
    RingedFitness(f.slots, |f.slots|);
    var r := Repositioned(sw, local, shape, score);
    assert r.particles == f.particles && r.slots == ring;
    forall k | 0 <= k < |r.particles|
      ensures LessEq(Finite(score(r.slots[local].weights)), r.particles[k].pBestError)
    {
      assert score(ring[local].weights) <= ring[local].fitness == f.slots[local].fitness;
      LessEqTransitive(Finite(score(ring[local].weights)), Finite(f.slots[local].fitness), f.particles[k].pBestError);
    }
  }

  /**
   * As written, the lBest slots start with a recorded fitness of 0 (line
   * 120 builds them unscored) and no error is negative, so no particle's
   * best error is ever strictly below a slot's fitness: updatePositions
   * never writes a slot, nor gBestError, and the ring loop never copies.
   */
  lemma InertSlots(sw: SwarmState, local: nat, shape: WeightVector, score: WeightVector -> real)
    requires Coherent(sw, shape) && Follows(sw, local)
    requires forall j :: 0 <= j < |sw.slots| ==> sw.slots[j].fitness == 0.0
    requires forall k :: 0 <= k < |sw.particles| ==> NonNegative(sw.particles[k].pBestError)
    requires forall w :: score(w) >= 0.0
    ensures var r := Repositioned(sw, local, shape, score);
            r.slots == sw.slots && r.gBestError == sw.gBestError
  {
    InertFlight(sw, local, |sw.particles|, shape, score);
    RingedStill(sw.slots, |sw.slots|);
  }

  /** With every slot at fitness 0 and no negative error, the particle loop leaves slots and gBestError alone. */
  lemma {:induction false} InertFlight(sw: SwarmState, local: nat, n: nat, shape: WeightVector, score: WeightVector -> real)
    requires Coherent(sw, shape) && Follows(sw, local) && n <= |sw.particles|
    requires forall j :: 0 <= j < |sw.slots| ==> sw.slots[j].fitness == 0.0
    requires forall k :: 0 <= k < |sw.particles| ==> NonNegative(sw.particles[k].pBestError)
    requires forall w :: score(w) >= 0.0
    ensures var r := Flown(sw, local, n, shape, score);
            r.slots == sw.slots && r.gBestError == sw.gBestError
  {
    if n > 0 {
      InertFlight(sw, local, n - 1, shape, score);
      var p := sw.particles[n - 1];
      var q := Moved(p, score);
      assert NonNegative(q.pBestError);
    }
  }

  /** When no slot's neighbour has a strictly lower fitness, the ring loop copies nothing. */
  lemma {:induction false} RingedStill(slots: seq<Slot>, n: nat)
    requires n <= |slots| && forall j :: 0 <= j < |slots| ==> slots[j].fitness == 0.0
    ensures Ringed(slots, n) == slots
  {
    if n > 0 {
      RingedStill(slots, n - 1);
    }
  }

  // ---------------------------------------------------------------- the element loops

  /** Layer `z` of the new velocity, filled element by element as updateVelocity's inner loops do (lines 52-63). */
  method VelocityLayer(v: WeightVector, pBest: WeightVector, pos: WeightVector, lBest: WeightVector,
                       w: real, c1: real, c2: real, r1: (nat, nat, nat) -> real, r2: (nat, nat, nat) -> real, z: nat)
    returns (m: Matrix)
    requires SameShape(v, pBest) && SameShape(v, pos) && SameShape(v, lBest) && z < |v|
    ensures m == NextVelocity(v, pBest, pos, lBest, w, c1, c2, r1, r2)[z]
  {
    ghost var spec := NextVelocity(v, pBest, pos, lBest, w, c1, c2, r1, r2)[z];
    var layer := v[z];
    m := [];
    var i := 0;
    while i < |layer|
      invariant 0 <= i <= |layer| && m == spec[..i]
    {
      var row: seq<real> := [];
      var j := 0;
      while j < |layer[0]|
        invariant 0 <= j <= |layer[0]| && row == spec[i][..j]
      {
        var a := r1(z, i, j);
        var b := r2(z, i, j);
        var e := w * v[z][i][j] + c1 * a * (pBest[z][i][j] - pos[z][i][j]) + c2 * b * (lBest[z][i][j] - pos[z][i][j]);
        assert |spec[i]| == |layer[0]| && spec[i][j] == e;
        row := row + [e];
        j := j + 1;
      }
      assert row == spec[i];
      m := m + [row];
      i := i + 1;
    }
    assert m == spec;
  }

  /** The new velocity, one fresh matrix per layer of the old one (lines 48-69). */
  method VelocityOf(v: WeightVector, pBest: WeightVector, pos: WeightVector, lBest: WeightVector,
                    w: real, c1: real, c2: real, r1: (nat, nat, nat) -> real, r2: (nat, nat, nat) -> real)
    returns (nv: WeightVector)
    requires SameShape(v, pBest) && SameShape(v, pos) && SameShape(v, lBest)
    ensures nv == NextVelocity(v, pBest, pos, lBest, w, c1, c2, r1, r2)
  {
    nv := [];
    var z := 0;
    while z < |v|
      invariant 0 <= z <= |v| && nv == NextVelocity(v, pBest, pos, lBest, w, c1, c2, r1, r2)[..z]
    {
      var layer := VelocityLayer(v, pBest, pos, lBest, w, c1, c2, r1, r2, z);
      nv := nv + [layer];
      z := z + 1;
    }
  }

  /** Layer `z` of the new position, filled element by element as updatePosition's inner loops do (lines 81-87). */
  method DisplaceLayer(x: WeightVector, v: WeightVector, z: nat) returns (m: Matrix)
    requires SameShape(x, v) && z < |x|
    ensures m == Displace(x, v)[z]
  {
    ghost var spec := Displace(x, v)[z];
    var layer := x[z];
    m := [];
    var i := 0;
    while i < |layer|
      invariant 0 <= i <= |layer| && m == spec[..i]
    {
      var row: seq<real> := [];
      var j := 0;
      while j < |layer[0]|
        invariant 0 <= j <= |layer[0]| && row == spec[i][..j]
      {
        assert |spec[i]| == |layer[0]| && spec[i][j] == layer[i][j] + v[z][i][j];
        row := row + [layer[i][j] + v[z][i][j]];
        j := j + 1;
      }
      assert row == spec[i];
      m := m + [row];
      i := i + 1;
    }
    assert m == spec;
  }

  /** The position plus the velocity, one fresh matrix per layer (lines 77-91). */
  method DisplaceOf(x: WeightVector, v: WeightVector) returns (y: WeightVector)
    requires SameShape(x, v)
    ensures y == Displace(x, v)
  {
    y := [];
    var z := 0;
    while z < |x|
      invariant 0 <= z <= |x| && y == Displace(x, v)[..z]
    {
      var layer := DisplaceLayer(x, v, z);
      y := y + [layer];
      z := z + 1;
    }
  }

  /** VelocityOf for vectors all shaped like `shape`: the new velocity has that shape too. */
  method Steer(v: WeightVector, pBest: WeightVector, pos: WeightVector, lBest: WeightVector,
               w: real, c1: real, c2: real, r1: (nat, nat, nat) -> real, r2: (nat, nat, nat) -> real,
               ghost shape: WeightVector)
    returns (nv: WeightVector)
    requires SameShape(v, shape) && SameShape(pBest, shape) && SameShape(pos, shape) && SameShape(lBest, shape)
    ensures nv == NextVelocity(v, pBest, pos, lBest, w, c1, c2, r1, r2) && SameShape(nv, shape)
  {
    SameShapeSymmetric(pBest, shape);
    SameShapeSymmetric(pos, shape);
    SameShapeSymmetric(lBest, shape);
    SameShapeTransitive(v, shape, pBest);
    SameShapeTransitive(v, shape, pos);
    SameShapeTransitive(v, shape, lBest);
    nv := VelocityOf(v, pBest, pos, lBest, w, c1, c2, r1, r2);
    SameShapeTransitive(nv, v, shape);
  }

  // ---------------------------------------------------------------- Particle

  /** The error the swarm scores weights by: ScoreOn over the data set, task and `Math.exp` of its nets. */
  ghost function Scorer(data: seq<Sample>, isClassification: bool, exp: real -> real): WeightVector -> real
  {
    w => ScoreOn(w, data, isClassification, exp)
  }

  /**
   * Particle (lines 20-102): two nets of its own, the position and the
   * personal best, the velocity as a weight vector, the personal best
   * error, the coefficients and the index of the lBest slot it follows.
   */
  class Particle {
    const position: FeedForwardNet
    var velocity: WeightVector
    const pBest: FeedForwardNet
    var pBestError: ExtReal
    const w: real
    const c1: real
    const c2: real
    const local: nat

    /** Both nets are members shaped like `shape` on `data`, they share no Layer, and the velocity has the same shape. */
    ghost predicate Valid(data: seq<Sample>, isClassification: bool, exp: real -> real, shape: WeightVector)
      reads this, position.network, pBest.network
    {
      NetsValid(data, isClassification, exp, shape) && SameShape(velocity, shape)
    }

    /** The nets part of Valid: both nets are members that share no Layer, on a data set the shape can score. */
    ghost predicate NetsValid(data: seq<Sample>, isClassification: bool, exp: real -> real, shape: WeightVector)
      reads position.network, pBest.network
    {
      && Member(position, data, isClassification, exp, shape) && Member(pBest, data, isClassification, exp, shape)
      && Apart(position, pBest) && Scorable(shape, data, isClassification, exp) && |data| > 0
    }

    /** updatePosition's outcome: valid before and after, and the particle moved as the value model says. */
    twostate predicate Stepped(data: seq<Sample>, isClassification: bool, exp: real -> real, shape: WeightVector)
      reads this, position, pBest, position.network, pBest.network
    {
      && old(Valid(data, isClassification, exp, shape)) && Valid(data, isClassification, exp, shape)
      && State() == Moved(old(State()), Scorer(data, isClassification, exp))
    }

    /** The particle as the value model reads it. */
    ghost function State(): ParticleState
      reads this, position, pBest, position.network, pBest.network
      requires |position.network| >= 1 && |pBest.network| >= 1
    {
      ParticleState(position.Weights(), position.fitness, velocity, pBest.Weights(), pBestError)
    }

    /**
     * updateVelocity (lines 44-70): the velocity becomes
     * `w*v + c1*r1*(pBest - position) + c2*r2*(gBest - position)`, element
     * by element, with the draws `r1(z, i, j)` and `r2(z, i, j)`; nothing
     * else changes.
     */
    method UpdateVelocity(gBest: WeightVector, r1: (nat, nat, nat) -> real, r2: (nat, nat, nat) -> real,
                          ghost data: seq<Sample>, ghost isClassification: bool, ghost exp: real -> real,
                          ghost shape: WeightVector)
      requires Valid(data, isClassification, exp, shape) && SameShape(gBest, shape)
      modifies this`velocity
      ensures Valid(data, isClassification, exp, shape)
      ensures State() == Steered(old(State()), gBest, w, c1, c2, shape, r1, r2)
    {
      var newVelocity := NewVelocity(gBest, r1, r2, data, isClassification, exp, shape);
      SetVelocity(newVelocity, data, isClassification, exp, shape);
    }

    /** The loops of updateVelocity (lines 46-67): the new velocity, computed without changing anything. */
    method NewVelocity(gBest: WeightVector, r1: (nat, nat, nat) -> real, r2: (nat, nat, nat) -> real,
                       ghost data: seq<Sample>, ghost isClassification: bool, ghost exp: real -> real,
                       ghost shape: WeightVector) returns (newVelocity: WeightVector)
      requires Valid(data, isClassification, exp, shape) && SameShape(gBest, shape)
      ensures newVelocity == Steered(State(), gBest, w, c1, c2, shape, r1, r2).velocity
      ensures SameShape(newVelocity, shape)
    {
      var pBestWeights := pBest.GetWeights();
      var pWeights := position.GetWeights();
      newVelocity := Steer(velocity, pBestWeights, pWeights, gBest, w, c1, c2, r1, r2, shape);
    }

    /** `velocity = newVelocity` (line 69): the only field that changes. */
    method SetVelocity(newVelocity: WeightVector, ghost data: seq<Sample>, ghost isClassification: bool,
                       ghost exp: real -> real, ghost shape: WeightVector)
      requires Valid(data, isClassification, exp, shape) && SameShape(newVelocity, shape)
      modifies this`velocity
      ensures Valid(data, isClassification, exp, shape) && State() == old(State()).(velocity := newVelocity)
    {
      velocity := newVelocity;
    }

    /** Neither the particle nor its nets nor any of their Layers is among `others`. */
    predicate Outside(others: set<object>)
    {
      && this !in others && position !in others && pBest !in others
      && (forall j :: 0 <= j < |position.network| ==> position.network[j] !in others)
      && (forall j :: 0 <= j < |pBest.network| ==> pBest.network[j] !in others)
    }

    /** The personal best net and its Layers. */
    ghost function BestFootprint(): set<object>
    {
      {pBest as object} + set j | 0 <= j < |pBest.network| :: pBest.network[j] as object
    }

    /** The position net and its Layers. */
    ghost function PositionFootprint(): set<object>
    {
      {position as object} + set j | 0 <= j < |position.network| :: position.network[j] as object
    }

    /** The particle, its two nets and their Layers: all that its fields and its nets' state are read from. */
    ghost function Own(): set<object>
    {
      {this as object} + PositionFootprint() + BestFootprint()
    }

    /** Neither the particle nor its nets nor their Layers changed since the old state. */
    twostate predicate Untouched()
      reads this, position, pBest, position.network, pBest.network
    {
      unchanged(this, position, pBest) && unchanged(position.network) && unchanged(pBest.network)
    }

    /** A particle valid before, none of whose objects changed, is valid and in the same state. */
    twostate lemma Kept(data: seq<Sample>, isClassification: bool, exp: real -> real, shape: WeightVector)
      requires old(Valid(data, isClassification, exp, shape)) && Untouched()
      ensures Valid(data, isClassification, exp, shape) && State() == old(State())
    {
    }

    /**
     * updatePosition (lines 76-100): the position moves by the velocity
     * and is rescored; when its fitness is strictly below the personal
     * best error, the error takes that fitness and the personal best net
     * the position's weights.  `others` are left as they were.
     */
    method UpdatePosition(ghost data: seq<Sample>, ghost isClassification: bool, ghost exp: real -> real,
                          ghost shape: WeightVector, ghost others: set<object>)
      requires Valid(data, isClassification, exp, shape) && Outside(others)
      modifies this`pBestError, position, position.network, pBest.network
      ensures Valid(data, isClassification, exp, shape) && unchanged(others)
      ensures State() == Moved(old(State()), Scorer(data, isClassification, exp))
    {
      var newWeights := Displacement(data, isClassification, exp, shape);
      SetPosition(newWeights, data, isClassification, exp, shape, others);
      RescorePosition(data, isClassification, exp, shape, others);
      if Less(Finite(position.fitness), pBestError) {
        TakeBest(data, isClassification, exp, shape, others);
      }
    }

    /** The loops of updatePosition (lines 77-91): the position plus the velocity, computed without changing anything. */
    method Displacement(ghost data: seq<Sample>, ghost isClassification: bool, ghost exp: real -> real,
                        ghost shape: WeightVector) returns (newWeights: WeightVector)
      requires Valid(data, isClassification, exp, shape)
      ensures SameShape(position.Weights(), velocity) && newWeights == Displace(position.Weights(), velocity)
      ensures SameShape(newWeights, shape)
    {
      var x := position.GetWeights();
      SameShapeSymmetric(velocity, shape);
      SameShapeTransitive(x, shape, velocity);
      newWeights := DisplaceOf(x, velocity);
      SameShapeTransitive(newWeights, x, shape);
    }

    /** `position.setWeights(newWeights)` (line 93): only the position's weights change. */
    method SetPosition(newWeights: WeightVector, ghost data: seq<Sample>, ghost isClassification: bool,
                       ghost exp: real -> real, ghost shape: WeightVector, ghost others: set<object>)
      requires Valid(data, isClassification, exp, shape) && Outside(others) && SameShape(newWeights, shape)
      modifies position.network
      ensures Valid(data, isClassification, exp, shape) && unchanged(others)
      ensures State() == old(State()).(position := newWeights)
    {
      SameShapeSymmetric(position.Weights(), shape);
      SameShapeTransitive(newWeights, shape, position.Weights());
      Reweigh(position, newWeights, others + {this} + BestFootprint());
    }

    /** `position.updateFitness()` (line 94): the position's fitness becomes the score of its weights. */
    method RescorePosition(ghost data: seq<Sample>, ghost isClassification: bool, ghost exp: real -> real,
                           ghost shape: WeightVector, ghost others: set<object>)
      requires Valid(data, isClassification, exp, shape) && Outside(others)
      modifies position, position.network
      ensures Valid(data, isClassification, exp, shape) && unchanged(others)
      ensures State() == old(State()).(fitness := ScoreOn(old(State()).position, data, isClassification, exp))
    {
      MemberScorable(position, data, isClassification, exp, shape);
      Rescore(position, others + {this} + BestFootprint());
    }

    /** Lines 97-98: the personal best error takes the position's fitness, the personal best net its weights. */
    method TakeBest(ghost data: seq<Sample>, ghost isClassification: bool, ghost exp: real -> real,
                    ghost shape: WeightVector, ghost others: set<object>)
      requires Valid(data, isClassification, exp, shape) && Outside(others)
      modifies this`pBestError, pBest.network
      ensures Valid(data, isClassification, exp, shape) && unchanged(others)
      ensures var p := old(State()); State() == p.(pBest := p.position, pBestError := Finite(p.fitness))
    {
      SetBestError(Finite(position.fitness), data, isClassification, exp, shape);
      var positionWeights := position.GetWeights();
      SetBest(positionWeights, data, isClassification, exp, shape, others);
    }

    /** `pBestError = position.fitness` (line 97): the only field that changes. */
    method SetBestError(e: ExtReal, ghost data: seq<Sample>, ghost isClassification: bool, ghost exp: real -> real,
                        ghost shape: WeightVector)
      requires Valid(data, isClassification, exp, shape)
      modifies this`pBestError
      ensures Valid(data, isClassification, exp, shape) && State() == old(State()).(pBestError := e)
    {
      pBestError := e;
    }

    /** `pBest.setWeights(...)` (line 98): only the personal best's weights change. */
    method SetBest(newWeights: WeightVector, ghost data: seq<Sample>, ghost isClassification: bool,
                   ghost exp: real -> real, ghost shape: WeightVector, ghost others: set<object>)
      requires Valid(data, isClassification, exp, shape) && Outside(others) && SameShape(newWeights, shape)
      modifies pBest.network
      ensures Valid(data, isClassification, exp, shape) && unchanged(others)
      ensures State() == old(State()).(pBest := newWeights)
    {
      SameShapeSymmetric(pBest.Weights(), shape);
      SameShapeTransitive(newWeights, shape, pBest.Weights());
      Reweigh(pBest, newWeights, others + {this} + PositionFootprint());
    }

    /** Stores the fields of a new particle: the two nets, the velocity, the coefficients and the slot; the error is +infinity. */
    constructor Of(position: FeedForwardNet, pBest: FeedForwardNet, velocity: WeightVector, w: real, c1: real, c2: real,
                   local: nat, ghost data: seq<Sample>, ghost isClassification: bool, ghost exp: real -> real,
                   ghost shape: WeightVector)
      requires Member(position, data, isClassification, exp, shape) && Member(pBest, data, isClassification, exp, shape)
      requires Apart(position, pBest) && SameShape(velocity, shape) && Scorable(shape, data, isClassification, exp)
      requires |data| > 0
      ensures Valid(data, isClassification, exp, shape)
      ensures State() == ParticleState(position.Weights(), position.fitness, velocity, pBest.Weights(), PosInf)
      ensures this.position == position && this.pBest == pBest
      ensures this.w == w && this.c1 == c1 && this.c2 == c2 && this.local == local
    {
      this.position := position;
      this.pBest := pBest;
      this.velocity := velocity;
      pBestError := PosInf;
      this.w := w;
      this.c1 := c1;
      this.c2 := c2;
      this.local := local;
    }
  }

  /**
   * The two nets of a new particle (lines 30 and 32): fresh members of the
   * layout drawn from `drawPosition` and `drawBest`, sharing no Layer with
   * each other nor with `others`, which are left as they were.
   */
  method NewNets(trainingData: seq<Sample>, layers: seq<nat>, isClassification: bool, exp: real -> real,
                 drawPosition: (nat, nat, nat) -> real, drawBest: (nat, nat, nat) -> real, ghost others: set<object>)
    returns (position: FeedForwardNet, pBest: FeedForwardNet)
    requires Trainable(trainingData, layers, isClassification) && ExpLike(exp)
    requires forall k, r, c :: UnitDraw(drawPosition(k, r, c)) && UnitDraw(drawBest(k, r, c))
    ensures unchanged(others) && position.fitness == 0.0 && Apart(position, pBest)
    ensures Member(position, trainingData, isClassification, exp, Layout(layers, |trainingData[0].features|))
    ensures Member(pBest, trainingData, isClassification, exp, Layout(layers, |trainingData[0].features|))
    ensures Initialised(position.Weights(), trainingData[0].features, layers, drawPosition)
    ensures Initialised(pBest.Weights(), trainingData[0].features, layers, drawBest)
    ensures position !in others && pBest !in others
    ensures forall j :: 0 <= j < |position.network| ==> position.network[j] !in others
    ensures forall j :: 0 <= j < |pBest.network| ==> pBest.network[j] !in others
  {
    position := NewMember(trainingData, layers, isClassification, exp, drawPosition, others);
    ghost var mine := {position as object} + set j | 0 <= j < |position.network| :: position.network[j] as object;
    pBest := NewMember(trainingData, layers, isClassification, exp, drawBest, others + mine);
  }

  /**
   * `new Particle(...)` (lines 29-38): a fresh position net and a fresh
   * personal best net, drawn from `drawPosition` and `drawBest`, a
   * personal best error of +infinity, and a velocity equal to the
   * position's weights.  `others`, objects that exist already, hold
   * neither net nor any of their Layers and are left as they were.
   */
  method NewParticle(trainingData: seq<Sample>, layers: seq<nat>, isClassification: bool, exp: real -> real,
                     w: real, c1: real, c2: real, local: nat,
                     drawPosition: (nat, nat, nat) -> real, drawBest: (nat, nat, nat) -> real, ghost others: set<object>)
    returns (p: Particle)
    requires Trainable(trainingData, layers, isClassification) && ExpLike(exp)
    requires forall k, r, c :: UnitDraw(drawPosition(k, r, c)) && UnitDraw(drawBest(k, r, c))
    ensures fresh(p) && unchanged(others)
    ensures p.Valid(trainingData, isClassification, exp, Layout(layers, |trainingData[0].features|))
    ensures p.State() == ParticleState(p.position.Weights(), 0.0, p.position.Weights(), p.pBest.Weights(), PosInf)
    ensures p.w == w && p.c1 == c1 && p.c2 == c2 && p.local == local
    ensures Initialised(p.position.Weights(), trainingData[0].features, layers, drawPosition)
    ensures Initialised(p.pBest.Weights(), trainingData[0].features, layers, drawBest)
    ensures p.position !in others && p.pBest !in others
    ensures forall j :: 0 <= j < |p.position.network| ==> p.position.network[j] !in others
    ensures forall j :: 0 <= j < |p.pBest.network| ==> p.pBest.network[j] !in others
  {
    var pos, best := NewNets(trainingData, layers, isClassification, exp, drawPosition, drawBest, others);
    LayoutScorable(trainingData, layers, isClassification, exp);
    ghost var shape := Layout(layers, |trainingData[0].features|);
    ghost var pw, bw := pos.Weights(), best.Weights();
    p := Assemble(pos, best, w, c1, c2, local, trainingData, isClassification, exp, shape);
    assert p.position.Weights() == pw && p.pBest.Weights() == bw;
  }

  /** The particle around two fresh nets: its velocity starts as the position's weights and its best error as +infinity. */
  method Assemble(pos: FeedForwardNet, best: FeedForwardNet, w: real, c1: real, c2: real, local: nat,
                ghost data: seq<Sample>, ghost isClassification: bool, ghost exp: real -> real, ghost shape: WeightVector)
    returns (p: Particle)
    requires Member(pos, data, isClassification, exp, shape) && Member(best, data, isClassification, exp, shape)
    requires Apart(pos, best) && Scorable(shape, data, isClassification, exp) && |data| > 0 && pos.fitness == 0.0
    ensures fresh(p) && p.position == pos && p.pBest == best
    ensures p.Valid(data, isClassification, exp, shape)
    ensures p.State() == ParticleState(pos.Weights(), 0.0, pos.Weights(), best.Weights(), PosInf)
    ensures p.w == w && p.c1 == c1 && p.c2 == c2 && p.local == local
  {
    var v := pos.GetWeights();
    SameShapeSymmetric(pos.Weights(), shape);
    p := new Particle.Of(pos, best, v, w, c1, c2, local, data, isClassification, exp, shape);
  }

  /** updatePosition on `p` beside the nets `nets`, none of which shares a Layer with `p`'s nets: they stay as they were. */
  method MoveBeside(p: Particle, ghost nets: seq<FeedForwardNet>, ghost data: seq<Sample>, ghost isClassification: bool,
                    ghost exp: real -> real, ghost shape: WeightVector)
    requires p.Valid(data, isClassification, exp, shape)
    requires forall i :: 0 <= i < |nets| ==> Apart(nets[i], p.position) && Apart(nets[i], p.pBest)
    modifies p, p.position, p.position.network, p.pBest.network
    ensures p.Stepped(data, isClassification, exp, shape)
    ensures forall i :: 0 <= i < |nets| ==> nets[i].Untouched()
  {
    p.UpdatePosition(data, isClassification, exp, shape, {});
  }

  /**
   * updatePosition on `p` among the slots `nets` and the particles of
   * `peers`: nothing of the slots nor of the other particles changes, since
   * none of them shares a Layer with `p`'s nets.
   */
  method MoveAmong(p: Particle, ghost nets: seq<FeedForwardNet>, ghost peers: seq<Particle>, ghost data: seq<Sample>,
                   ghost isClassification: bool, ghost exp: real -> real, ghost shape: WeightVector)
    requires p.Valid(data, isClassification, exp, shape)
    requires forall i :: 0 <= i < |nets| ==> Apart(nets[i], p.position) && Apart(nets[i], p.pBest)
    requires forall i :: 0 <= i < |peers| && peers[i] != p ==>
               && Apart(peers[i].position, p.position) && Apart(peers[i].position, p.pBest)
               && Apart(peers[i].pBest, p.position) && Apart(peers[i].pBest, p.pBest)
    modifies p, p.position, p.position.network, p.pBest.network
    ensures p.Stepped(data, isClassification, exp, shape)
    ensures forall i :: 0 <= i < |nets| ==> nets[i].Untouched()
    ensures forall i :: 0 <= i < |peers| && peers[i] != p ==> peers[i].Untouched()
  {
    MoveBeside(p, nets, data, isClassification, exp, shape);
  }

  /** A swarm, an array of particles and the particles in it are not Layers of a net. */
  lemma NoLayer(owner: ParticleSwarm, crowd: array<Particle>, n: FeedForwardNet)
    ensures forall i :: 0 <= i < |n.network| ==> n.network[i] as object != owner && n.network[i] as object != crowd
    ensures forall i, k :: 0 <= i < |n.network| && 0 <= k < crowd.Length ==> n.network[i] as object != crowd[k]
  {
  }

  /**
   * `n.setWeights(src.getWeights())` on slot `n`, entry j of `nets`, beside
   * the particles of `crowd`: `n` takes the weights of `src`, and neither
   * the other slots, nor the particles, nor the swarm change.
   */
  method ReweighSlot(n: FeedForwardNet, src: FeedForwardNet, ghost j: nat, ghost nets: seq<FeedForwardNet>,
                     ghost crowd: array<Particle>, ghost owner: ParticleSwarm, ghost data: seq<Sample>,
                     ghost isClassification: bool, ghost exp: real -> real, ghost shape: WeightVector)
    requires j < |nets| && nets[j] == n && Member(n, data, isClassification, exp, shape)
    requires |src.network| >= 1 && SameShape(src.Weights(), shape)
    requires forall i :: 0 <= i < |nets| && i != j ==> Apart(nets[i], n)
    requires forall k :: 0 <= k < crowd.Length ==> Apart(crowd[k].position, n) && Apart(crowd[k].pBest, n)
    modifies n.network
    ensures unchanged(owner, crowd) && unchanged(n)
    ensures Member(n, data, isClassification, exp, shape) && n.Weights() == old(src.Weights())
    ensures forall i :: 0 <= i < |nets| && i != j ==> nets[i].Untouched()
    ensures forall k :: 0 <= k < crowd.Length ==> crowd[k].Untouched()
  {
    var ws := src.GetWeights();
    NoLayer(owner, crowd, n);
    SameShapeSymmetric(n.Weights(), shape);
    SameShapeTransitive(ws, shape, n.Weights());
    Reweigh(n, ws, {});
  }

  /**
   * updateFitness on slot `n`, entry j of `nets`, beside the particles of
   * `crowd`: its fitness becomes the error of its weights, and nothing else
   * changes.
   */
  method RescoreSlot(n: FeedForwardNet, ghost j: nat, ghost nets: seq<FeedForwardNet>, ghost crowd: array<Particle>,
                     ghost owner: ParticleSwarm, ghost data: seq<Sample>, ghost isClassification: bool,
                     ghost exp: real -> real, ghost shape: WeightVector)
    requires j < |nets| && nets[j] == n && Member(n, data, isClassification, exp, shape)
    requires Scorable(shape, data, isClassification, exp) && |data| > 0
    requires forall i :: 0 <= i < |nets| && i != j ==> Apart(nets[i], n)
    requires forall k :: 0 <= k < crowd.Length ==> Apart(crowd[k].position, n) && Apart(crowd[k].pBest, n)
    modifies n`fitness, n.network
    ensures unchanged(owner, crowd)
    ensures Member(n, data, isClassification, exp, shape) && n.Weights() == old(n.Weights())
    ensures n.fitness == Scorer(data, isClassification, exp)(n.Weights())
    ensures forall i :: 0 <= i < |nets| && i != j ==> nets[i].Untouched()
    ensures forall k :: 0 <= k < crowd.Length ==> crowd[k].Untouched()
  {
    NoLayer(owner, crowd, n);
    MemberScorable(n, data, isClassification, exp, shape);
    Rescore(n, {});
  }

  /** updateVelocity on particle k of `crowd`, toward `gBest`: no other particle, no net of `nets` and not the swarm change. */
  method SteerAt(ghost owner: ParticleSwarm, crowd: array<Particle>, k: nat, ghost nets: seq<FeedForwardNet>,
                 gBest: WeightVector, r1: (nat, nat, nat) -> real, r2: (nat, nat, nat) -> real, ghost data: seq<Sample>,
                 ghost isClassification: bool, ghost exp: real -> real, ghost shape: WeightVector)
    requires k < crowd.Length && SameShape(gBest, shape) && crowd[k].Valid(data, isClassification, exp, shape)
    requires forall j :: 0 <= j < crowd.Length && j != k ==> crowd[j] != crowd[k]
    modifies crowd[k]
    ensures unchanged(owner, crowd) && crowd[k].Valid(data, isClassification, exp, shape)
    ensures var p := crowd[k]; p.State() == Steered(old(p.State()), gBest, p.w, p.c1, p.c2, shape, r1, r2)
    ensures forall j :: 0 <= j < |nets| ==> nets[j].Untouched()
    ensures forall j :: 0 <= j < crowd.Length && j != k ==> crowd[j].Untouched()
  {
    crowd[k].UpdateVelocity(gBest, r1, r2, data, isClassification, exp, shape);
  }

  /** updatePosition on particle k of `crowd` among the slots `nets`: nothing of the slots nor of the other particles changes. */
  method MoveAt(ghost owner: ParticleSwarm, crowd: array<Particle>, k: nat, ghost nets: seq<FeedForwardNet>, ghost data: seq<Sample>,
                ghost isClassification: bool, ghost exp: real -> real, ghost shape: WeightVector)
    requires k < crowd.Length && crowd[k].Valid(data, isClassification, exp, shape)
    requires var p := crowd[k]; forall i :: 0 <= i < |nets| ==> Apart(nets[i], p.position) && Apart(nets[i], p.pBest)
    requires var p := crowd[k];
             forall j :: 0 <= j < crowd.Length && crowd[j] != p ==>
               && Apart(crowd[j].position, p.position) && Apart(crowd[j].position, p.pBest)
               && Apart(crowd[j].pBest, p.position) && Apart(crowd[j].pBest, p.pBest)
    modifies crowd[k], crowd[k].position, crowd[k].position.network, crowd[k].pBest.network
    ensures unchanged(owner, crowd) && crowd[k].Stepped(data, isClassification, exp, shape)
    ensures forall i :: 0 <= i < |nets| ==> nets[i].Untouched()
    ensures forall j :: 0 <= j < crowd.Length && crowd[j] != crowd[k] ==> crowd[j].Untouched()
  {
    ghost var peers := crowd[..];
    assert forall j :: 0 <= j < crowd.Length ==> peers[j] == crowd[j];
    var p := crowd[k];
    NoLayer(owner, crowd, p.position);
    NoLayer(owner, crowd, p.pBest);
    MoveAmong(p, nets, peers, data, isClassification, exp, shape);
    assert unchanged(owner, crowd);
  }

  // ---------------------------------------------------------------- building a swarm

  /** The particles of `ps`, their nets and those nets' Layers. */
  ghost function Owned(ps: seq<Particle>): set<object>
  {
    (set k | 0 <= k < |ps| :: ps[k] as object)
    + (set k | 0 <= k < |ps| :: ps[k].position as object) + (set k | 0 <= k < |ps| :: ps[k].pBest as object)
    + (set k, j | 0 <= k < |ps| && 0 <= j < |ps[k].position.network| :: ps[k].position.network[j] as object)
    + (set k, j | 0 <= k < |ps| && 0 <= j < |ps[k].pBest.network| :: ps[k].pBest.network[j] as object)
  }

  /**
   * Particle `p` as the swarm's constructor leaves it (lines 29-38 and
   * 125): a valid particle with w = 0.1, c1 = 3, c2 = 1.5 and slot `local`,
   * its position and personal best drawn from `drawPosition` and
   * `drawBest`, the position unscored, the velocity the position's weights
   * and the best error +infinity.
   */
  ghost predicate Recruit(p: Particle, data: seq<Sample>, layers: seq<nat>, isClassification: bool, exp: real -> real,
                          local: nat, drawPosition: (nat, nat, nat) -> real, drawBest: (nat, nat, nat) -> real)
    requires Trainable(data, layers, isClassification)
    reads p, p.position, p.pBest, p.position.network, p.pBest.network
  {
    && p.Valid(data, isClassification, exp, Layout(layers, |data[0].features|))
    && p.w == Inertia && p.c1 == Cognitive && p.c2 == Social && p.local == local
    && p.State() == ParticleState(p.position.Weights(), 0.0, p.position.Weights(), p.pBest.Weights(), PosInf)
    && Initialised(p.position.Weights(), data[0].features, layers, drawPosition)
    && Initialised(p.pBest.Weights(), data[0].features, layers, drawBest)
  }

  /** The particles of `ps` are distinct, and particle k is a recruit drawn from `positionDraws(k)` and `bestDraws(k)`. */
  ghost predicate Recruited(ps: seq<Particle>, data: seq<Sample>, layers: seq<nat>, isClassification: bool,
                            exp: real -> real, local: nat, positionDraws: nat -> (nat, nat, nat) -> real,
                            bestDraws: nat -> (nat, nat, nat) -> real)
    requires Trainable(data, layers, isClassification)
    reads Owned(ps)
  {
    && (forall a, b :: 0 <= a < b < |ps| ==> ps[a] != ps[b])
    && forall k :: 0 <= k < |ps| ==>
         Recruit(ps[k], data, layers, isClassification, exp, local, positionDraws(k), bestDraws(k))
  }

  /** The nets of particles `ps` and of `slots`, and their Layers, are objects of the slots or of the particles. */
  lemma NetsOfHeld(ps: seq<Particle>, slots: seq<FeedForwardNet>)
    ensures Footprint(NetsOf(ps, slots)) <= Footprint(slots) + Owned(ps)
  {
    var s, n := NetsOf(ps, slots), |ps|;
    var held := Footprint(slots) + Owned(ps);
    forall k | 0 <= k < |s|
      ensures s[k] in held && forall j :: 0 <= j < |s[k].network| ==> s[k].network[j] in held
    {
      if k < n {
        assert s[k] == ps[k].position;
      } else if k < 2 * n {
        assert s[k] == ps[k - n].pBest;
      } else {
        assert s[k] == slots[k - 2 * n];
      }
    }
  }

  /** A net none of whose objects is among `held` is apart from every net whose objects all are. */
  lemma FreshApart(s: seq<FeedForwardNet>, m: FeedForwardNet, held: set<object>)
    requires Footprint(s) <= held && m !in held && forall x :: 0 <= x < |m.network| ==> m.network[x] !in held
    ensures forall a :: 0 <= a < |s| ==> Apart(s[a], m) && Apart(m, s[a])
  {
    forall a | 0 <= a < |s|
      ensures Apart(s[a], m) && Apart(m, s[a])
    {
      assert s[a] in Footprint(s);
      assert forall y :: 0 <= y < |s[a].network| ==> s[a].network[y] in Footprint(s);
    }
  }

  /** A particle whose two nets are apart from each other and from every net of a swarm can join it. */
  lemma NetsOfAppend(ps: seq<Particle>, p: Particle, slots: seq<FeedForwardNet>)
    requires AllApart(NetsOf(ps, slots)) && Apart(p.position, p.pBest) && Apart(p.pBest, p.position)
    requires forall a :: 0 <= a < |NetsOf(ps, slots)| ==>
               && Apart(NetsOf(ps, slots)[a], p.position) && Apart(p.position, NetsOf(ps, slots)[a])
               && Apart(NetsOf(ps, slots)[a], p.pBest) && Apart(p.pBest, NetsOf(ps, slots)[a])
    ensures AllApart(NetsOf(ps + [p], slots))
  {
    var s, t, n := NetsOf(ps, slots), NetsOf(ps + [p], slots), |ps|;
    forall a | 0 <= a < |t|
      ensures a == n ==> t[a] == p.position
      ensures a == 2 * n + 1 ==> t[a] == p.pBest
      ensures a != n && a != 2 * n + 1 ==> t[a] == s[Origin(n, a)]
    {
    }
    forall a, b | 0 <= a < |t| && 0 <= b < |t| && a != b
      ensures Apart(t[a], t[b])
    {
      if a != n && a != 2 * n + 1 && b != n && b != 2 * n + 1 {
        assert Origin(n, a) != Origin(n, b);
      }
    }
  }

  /** Where entry a of the nets of a swarm with one particle more than n was before the particle joined. */
  function Origin(n: nat, a: nat): nat
    requires a != n && a != 2 * n + 1
  {
    if a < n then a else if a < 2 * n + 1 then a - 1 else a - 2
  }

  /**
   * The particle loop of the swarm's constructor (lines 124-126): `count`
   * new recruits following slot `local`, particle k drawn from
   * `positionDraws(k)` and `bestDraws(k)`.  No two of their nets nor any
   * of `slots` share a Layer.
   */
  method BuildParticles(count: nat, trainingData: seq<Sample>, layers: seq<nat>, isClassification: bool,
                        exp: real -> real, local: nat, positionDraws: nat -> (nat, nat, nat) -> real,
                        bestDraws: nat -> (nat, nat, nat) -> real, slots: seq<FeedForwardNet>) returns (ps: seq<Particle>)
    requires Trainable(trainingData, layers, isClassification) && ExpLike(exp) && AllApart(slots)
    requires forall i, k, r, c :: UnitDraw(positionDraws(i)(k, r, c)) && UnitDraw(bestDraws(i)(k, r, c))
    ensures |ps| == count && AllApart(NetsOf(ps, slots)) && unchanged(Footprint(slots))
    ensures Recruited(ps, trainingData, layers, isClassification, exp, local, positionDraws, bestDraws)
  {
    ps := [];
    var i := 0;
    while i < count
      invariant i <= count && |ps| == i && AllApart(NetsOf(ps, slots))
      invariant Recruited(ps, trainingData, layers, isClassification, exp, local, positionDraws, bestDraws)
    {
      ps := Enlist(ps, trainingData, layers, isClassification, exp, local, positionDraws, bestDraws, slots);
      i := i + 1;
    }
  }

  /** One turn of the constructor's particle loop: a new recruit joins `ps`. */
  method Enlist(ps: seq<Particle>, trainingData: seq<Sample>, layers: seq<nat>, isClassification: bool,
                exp: real -> real, local: nat, positionDraws: nat -> (nat, nat, nat) -> real,
                bestDraws: nat -> (nat, nat, nat) -> real, slots: seq<FeedForwardNet>) returns (ps': seq<Particle>)
    requires Trainable(trainingData, layers, isClassification) && ExpLike(exp) && AllApart(NetsOf(ps, slots))
    requires forall i, k, r, c :: UnitDraw(positionDraws(i)(k, r, c)) && UnitDraw(bestDraws(i)(k, r, c))
    requires Recruited(ps, trainingData, layers, isClassification, exp, local, positionDraws, bestDraws)
    ensures |ps'| == |ps| + 1 && AllApart(NetsOf(ps', slots))
    ensures Recruited(ps', trainingData, layers, isClassification, exp, local, positionDraws, bestDraws)
  {
    ghost var held := Footprint(slots) + Owned(ps);
    var p := NewParticle(trainingData, layers, isClassification, exp, Inertia, Cognitive, Social, local,
                         positionDraws(|ps|), bestDraws(|ps|), held);
    NetsOfHeld(ps, slots);
    FreshApart(NetsOf(ps, slots), p.position, held);
    FreshApart(NetsOf(ps, slots), p.pBest, held);
    NetsOfAppend(ps, p, slots);
    RecruitedAppend(ps, p, trainingData, layers, isClassification, exp, local, positionDraws, bestDraws);
    ps' := ps + [p];
  }

  /** A new recruit drawn from the next draws extends the recruited particles. */
  lemma RecruitedAppend(ps: seq<Particle>, p: Particle, data: seq<Sample>, layers: seq<nat>, isClassification: bool,
                        exp: real -> real, local: nat, positionDraws: nat -> (nat, nat, nat) -> real,
                        bestDraws: nat -> (nat, nat, nat) -> real)
    requires Trainable(data, layers, isClassification) && p !in ps
    requires Recruited(ps, data, layers, isClassification, exp, local, positionDraws, bestDraws)
    requires Recruit(p, data, layers, isClassification, exp, local, positionDraws(|ps|), bestDraws(|ps|))
    ensures Recruited(ps + [p], data, layers, isClassification, exp, local, positionDraws, bestDraws)
  {
    var t := ps + [p];
    forall k | 0 <= k < |t|
      ensures Recruit(t[k], data, layers, isClassification, exp, local, positionDraws(k), bestDraws(k))
    {
      if k < |ps| {
        assert t[k] == ps[k];
      }
    }
  }

  /** The particles of `ps` in a new array (line 112); `others` are left as they were. */
  method ParticleArray(ps: seq<Particle>, ghost others: set<object>) returns (a: array<Particle>)
    ensures fresh(a) && a[..] == ps && unchanged(others)
  {
    a := new Particle[|ps|](k requires 0 <= k < |ps| => ps[k]);
  }

  // ---------------------------------------------------------------- sorting by best error

  /** The best errors of the particles `ps`, in order. */
  ghost function BestErrors(ps: seq<Particle>): (es: seq<ExtReal>)
    reads ps
    ensures |es| == |ps| && forall k :: 0 <= k < |ps| ==> es[k] == ps[k].pBestError
  {
    seq(|ps|, k requires 0 <= k < |ps| reads ps => ps[k].pBestError)
  }

  /** The errors ascend, lowest first. */
  predicate InOrder(es: seq<ExtReal>)
  {
    forall a, b :: 0 <= a < b < |es| ==> LessEq(es[a], es[b])
  }

  /**
   * Insertion of entry i under way, the entry now at j: apart from it the
   * first i + 1 errors ascend, and it is strictly below every error it has
   * passed.
   */
  predicate Settling(es: seq<ExtReal>, i: nat, j: nat)
  {
    && j <= i < |es|
    && (forall a, b :: 0 <= a < b <= i && a != j && b != j ==> LessEq(es[a], es[b]))
    && (forall b :: j < b <= i ==> Less(es[j], es[b]))
  }

  /** Insertion starts with the first i errors in order. */
  lemma SettlingStart(es: seq<ExtReal>, i: nat)
    requires i < |es| && InOrder(es[..i])
    ensures Settling(es, i, i)
  {
    forall a, b | 0 <= a < b < i
      ensures LessEq(es[a], es[b])
    {
      assert es[..i][a] == es[a] && es[..i][b] == es[b];
    }
  }

  /** Exchanging the entry with a strictly higher left neighbour moves the insertion one place left. */
  lemma SettlingStep(es: seq<ExtReal>, i: nat, j: nat)
    requires Settling(es, i, j) && 0 < j && Less(es[j], es[j - 1])
    ensures Settling(es[j - 1 := es[j]][j := es[j - 1]], i, j - 1)
  {
    var t := es[j - 1 := es[j]][j := es[j - 1]];
    forall b | j - 1 < b <= i
      ensures Less(t[j - 1], t[b])
    {
      if b > j {
        assert LessEq(es[j - 1], es[b]);
      }
    }
  }

  /** The moving entry is strictly below every entry it has passed, so equal to none of them. */
  lemma SettledApart(es: seq<ExtReal>, i: nat, j: nat)
    requires Settling(es, i, j)
    ensures forall b :: j < b <= i ==> es[b] != es[j]
  {
  }

  /** Insertion ends in order when the left neighbour is no higher, or there is none. */
  lemma SettlingEnd(es: seq<ExtReal>, i: nat, j: nat)
    requires Settling(es, i, j) && (j == 0 || !Less(es[j], es[j - 1]))
    ensures InOrder(es[..i + 1])
  {
    forall a, b | 0 <= a < b <= i
      ensures LessEq(es[a], es[b])
    {
      if b == j && a < j - 1 {
        LessEqTotal(es[j - 1], es[j]);
        LessEqTransitive(es[a], es[j - 1], es[j]);
      } else if b == j {
        LessEqTotal(es[j - 1], es[j]);
      } else if a == j {
        assert Less(es[j], es[b]);
      }
    }
    assert forall a, b :: 0 <= a < b < |es[..i + 1]| ==> es[..i + 1][a] == es[a] && es[..i + 1][b] == es[b];
  }

  /** Where entry k was before entries j-1 and j changed places. */
  function Partner(j: nat, k: nat): (k': nat)
    requires 0 < j
    ensures k' == if k == j - 1 then j else if k == j then j - 1 else k
  {
    if k == j - 1 then j else if k == j then j - 1 else k
  }

  /** The nets of particles `ps`: their positions, then their personal bests, then the slots. */
  function NetsOf(ps: seq<Particle>, slots: seq<FeedForwardNet>): (s: seq<FeedForwardNet>)
    ensures |s| == 2 * |ps| + |slots|
  {
    seq(|ps|, k requires 0 <= k < |ps| => ps[k].position) + seq(|ps|, k requires 0 <= k < |ps| => ps[k].pBest) + slots
  }

  /** Exchanging two particles keeps the nets of a swarm apart. */
  lemma NetsOfSwap(ps: seq<Particle>, slots: seq<FeedForwardNet>, i: nat, j: nat)
    requires AllApart(NetsOf(ps, slots)) && i < |ps| && j < |ps|
    ensures AllApart(NetsOf(ps[i := ps[j]][j := ps[i]], slots))
  {
    var n := |ps|;
    var s := NetsOf(ps, slots);
    var t := s[i := s[j]][j := s[i]];
    AllApartSwap(s, i, j);
    AllApartSwap(t, n + i, n + j);
    assert NetsOf(ps[i := ps[j]][j := ps[i]], slots) == t[n + i := t[n + j]][n + j := t[n + i]];
  }

  // ---------------------------------------------------------------- ParticleSwarm

  /**
   * ParticleSwarm (lines 105-208): the particles, in an array evaluate
   * sorts in place, the lBest slots and gBestError.  The data set, task
   * flag, `Math.exp` and shape are those every net was built with, and
   * `local` the slot every particle was given.
   */
  class ParticleSwarm {
    const particles: array<Particle>
    const lBest: seq<FeedForwardNet>
    var gBestError: ExtReal
    ghost const data: seq<Sample>
    ghost const isClassification: bool
    ghost const exp: real -> real
    ghost const shape: WeightVector
    ghost const local: nat
    ghost const crew: set<Particle>

    /** Every net of the swarm: the particles' positions, then their personal bests, then the lBest slots. */
    ghost function Nets(): (s: seq<FeedForwardNet>)
      reads particles
      ensures |s| == 2 * particles.Length + |lBest|
      ensures forall k {:trigger s[k]} :: 0 <= k < particles.Length ==> s[k] == particles[k].position
      ensures forall k {:trigger s[particles.Length + k]} :: 0 <= k < particles.Length ==> s[particles.Length + k] == particles[k].pBest
      ensures forall j {:trigger s[2 * particles.Length + j]} :: 0 <= j < |lBest| ==> s[2 * particles.Length + j] == lBest[j]
    {
      var n := particles.Length;
      seq(2 * n + |lBest|, i requires 0 <= i < 2 * n + |lBest| reads particles =>
        if i < n then particles[i].position else if i < 2 * n then particles[i - n].pBest else lBest[i - 2 * n])
    }

    /** The particles, their nets, the slots, and every Layer of them. */
    ghost function Repr(): set<object>
      reads particles
    {
      (set k | 0 <= k < particles.Length :: particles[k] as object)
      + (set k | 0 <= k < particles.Length :: particles[k].position as object)
      + (set k | 0 <= k < particles.Length :: particles[k].pBest as object)
      + (set k, i | 0 <= k < particles.Length && 0 <= i < |particles[k].position.network| ::
           particles[k].position.network[i] as object)
      + (set k, i | 0 <= k < particles.Length && 0 <= i < |particles[k].pBest.network| ::
           particles[k].pBest.network[i] as object)
      + Footprint(lBest)
    }

    /** A particle of this swarm: the coefficients of line 125, the swarm's slot, and two nets with layers. */
    ghost predicate Enlisted(p: Particle)
    {
      && p.w == Inertia && p.c1 == Cognitive && p.c2 == Social && p.local == local
      && |p.position.network| >= 2 && |p.pBest.network| >= 2
    }

    /** The particles are distinct objects, each enlisted. */
    ghost predicate Crew()
      reads particles
    {
      && (forall a, b :: 0 <= a < b < particles.Length ==> particles[a] != particles[b])
      && (forall k :: 0 <= k < particles.Length ==> particles[k] in crew)
      && forall k :: 0 <= k < particles.Length ==> Enlisted(particles[k])
    }

    /**
     * There are populationSize/2 slots (line 118), each with layers, and
     * when there is one the shared slot `local` is one of them.
     */
    ghost predicate Sized()
    {
      && |lBest| == particles.Length / 2 && (|lBest| > 0 ==> local < |lBest|)
      && forall j :: 0 <= j < |lBest| ==> |lBest[j].network| >= 2
    }

    /** Every slot is a member of the population, and every particle is valid. */
    ghost predicate Sound()
      reads particles, Repr()
    {
      && Members(lBest, data, isClassification, exp, shape)
      && forall k :: 0 <= k < particles.Length ==> particles[k].Valid(data, isClassification, exp, shape)
    }

    /** The swarm as the constructor leaves it and every operation keeps it. */
    ghost predicate Valid()
      reads particles, Repr()
    {
      && Scorable(shape, data, isClassification, exp) && |data| > 0
      && Sized() && Crew() && AllApart(Nets()) && Sound()
    }

    /** The swarm itself is none of the particles, nets and Layers it is made of, so writing gBestError keeps them. */
    lemma Outsider()
      ensures forall k :: 0 <= k < particles.Length ==>
                particles[k] as object != this && particles[k].position as object != this && particles[k].pBest as object != this
      ensures forall j :: 0 <= j < |lBest| ==> lBest[j] as object != this
      ensures forall k, i :: 0 <= k < particles.Length && 0 <= i < |particles[k].position.network| ==>
                particles[k].position.network[i] as object != this
      ensures forall k, i :: 0 <= k < particles.Length && 0 <= i < |particles[k].pBest.network| ==>
                particles[k].pBest.network[i] as object != this
      ensures forall j, i :: 0 <= j < |lBest| && 0 <= i < |lBest[j].network| ==> lBest[j].network[i] as object != this
    {
    }

    /** The particles as values, in array order. */
    ghost function States(): (ps: seq<ParticleState>)
      reads particles, Repr()
      requires Crew()
      ensures |ps| == particles.Length && forall k :: 0 <= k < particles.Length ==> ps[k] == particles[k].State()
    {
      seq(particles.Length, k requires 0 <= k < particles.Length && Crew() reads particles, Repr() =>
        particles[k].State())
    }

    /** The slots as values: each one's weights and recorded fitness. */
    ghost function Slots(): (ss: seq<Slot>)
      reads Footprint(lBest)
      requires Sized()
      ensures |ss| == |lBest|
      ensures forall j :: 0 <= j < |lBest| ==> ss[j] == Slot(lBest[j].Weights(), lBest[j].fitness)
    {
      seq(|lBest|, j requires 0 <= j < |lBest| && Sized() reads Footprint(lBest) =>
        Slot(lBest[j].Weights(), lBest[j].fitness))
    }

    /** The whole swarm as a value. */
    ghost function Image(): SwarmState
      reads this, particles, Repr()
      requires Crew() && Sized()
    {
      SwarmState(States(), Slots(), gBestError)
    }

    /** The fitness the swarm's nets record for weights. */
    ghost function Score(): WeightVector -> real
    {
      Scorer(data, isClassification, exp)
    }

    /** A valid swarm's image is coherent, and every particle can reach the shared slot once there are two particles. */
    lemma ImageCoherent()
      requires Valid()
      ensures Coherent(Image(), shape)
      ensures particles.Length >= 2 ==> Follows(Image(), local)
    {
      forall j | 0 <= j < |lBest|
        ensures SameShape(Slots()[j].weights, shape)
      {
        assert Member(lBest[j], data, isClassification, exp, shape);
      }
      forall k | 0 <= k < particles.Length
        ensures var p := States()[k];
                SameShape(p.position, shape) && SameShape(p.velocity, shape) && SameShape(p.pBest, shape)
      {
        assert particles[k].Valid(data, isClassification, exp, shape);
      }
    }
  
    /** Slot j is a member shaped like the swarm. */
    lemma SlotShaped(j: nat)
      requires Valid() && j < |lBest|
      ensures Member(lBest[j], data, isClassification, exp, shape) && SameShape(lBest[j].Weights(), shape)
    {
    }

    /** What updateVelocities makes of the swarm as it stands. */
    ghost function Accelerating(r1s: nat -> (nat, nat, nat) -> real, r2s: nat -> (nat, nat, nat) -> real): SwarmState
      reads this, particles, Repr()
      requires Valid() && particles.Length != 1
    {
      ImageCoherent();
      Accelerated(Image(), local, shape, r1s, r2s)
    }

    /**
     * updateVelocities (lines 130-134): every particle, in array order,
     * steers toward the weights of its slot, particle k with the draws
     * `r1s(k)` and `r2s(k)`.  A single particle has no slot to steer
     * toward (there are populationSize/2 of them), where ParticleSwarm.java
     * indexes past the end of lBest.
     */
    method UpdateVelocities(r1s: nat -> (nat, nat, nat) -> real, r2s: nat -> (nat, nat, nat) -> real)
      requires Valid() && particles.Length != 1
      modifies crew
      ensures Valid() && Image() == old(Accelerating(r1s, r2s))
    {
      ImageCoherent();
      ghost var before := Image();
      SteeredNone(before, local, shape, r1s, r2s);
      var k := 0;
      while k < particles.Length
        invariant Midway(before, r1s, r2s, k)
      {
        k := AccelerateNext(k, r1s, r2s, before);
      }
      SequentialSteering(before, local, shape, r1s, r2s);
    }

    /**
     * The swarm after k turns of the loop of updateVelocities: valid, and
     * its image is `before` with the first k particles steered.
     */
    ghost predicate Midway(before: SwarmState,
                           r1s: nat -> (nat, nat, nat) -> real, r2s: nat -> (nat, nat, nat) -> real, k: nat)
      reads this, particles, Repr()
    {
      && Valid() && k <= particles.Length && particles.Length != 1
      && Coherent(before, shape) && Follows(before, local) && |before.particles| == particles.Length
      && Image() == SteeredUpTo(before, local, shape, r1s, r2s, k)
    }

    /** The turn of the loop of updateVelocities for particle k. */
    method AccelerateNext(k: nat, r1s: nat -> (nat, nat, nat) -> real, r2s: nat -> (nat, nat, nat) -> real,
                          ghost before: SwarmState) returns (next: nat)
      requires Midway(before, r1s, r2s, k) && k < particles.Length
      modifies particles[k]
      ensures next == k + 1 && Midway(before, r1s, r2s, next)
    {
      next := k + 1;
      Accelerate(k, r1s(k), r2s(k));
      SteeredNext(before, local, shape, r1s, r2s, k, next);
    }

    /** Line 132 for particle k: it steers toward the weights of slot `local`; no other particle changes. */
    method Accelerate(k: nat, r1: (nat, nat, nat) -> real, r2: (nat, nat, nat) -> real)
      requires Valid() && k < particles.Length && local < |lBest|
      modifies particles[k]
      ensures Valid() && Image() == old(Steering(k, r1, r2))
    {
      SlotShaped(local);
      var particle := particles[k];
      ghost var target := Steered(particle.State(), lBest[local].Weights(), particle.w, particle.c1, particle.c2, shape, r1, r2);
      var g := lBest[particle.local].Weights();
      SteerParticle(k, g, r1, r2);
      ParticleWritten(k);
      assert States() == old(States())[k := target];
    }

    /** updateVelocity (line 132) for particle k, toward `gBest`: no other particle and no slot changes. */
    method SteerParticle(k: nat, gBest: WeightVector, r1: (nat, nat, nat) -> real, r2: (nat, nat, nat) -> real)
      requires k < particles.Length && SameShape(gBest, shape)
      requires forall j :: 0 <= j < particles.Length && j != k ==> particles[j] != particles[k]
      requires particles[k].Valid(data, isClassification, exp, shape)
      modifies particles[k]
      ensures unchanged(this, particles) && particles[k].Valid(data, isClassification, exp, shape)
      ensures var p := particles[k]; p.State() == Steered(old(p.State()), gBest, p.w, p.c1, p.c2, shape, r1, r2)
      ensures forall j :: 0 <= j < |lBest| ==> lBest[j].Untouched()
      ensures forall j :: 0 <= j < particles.Length && j != k ==> particles[j].Untouched()
    {
      SteerAt(this, particles, k, lBest, gBest, r1, r2, data, isClassification, exp, shape);
    }

    /** What line 132 makes of the swarm as it stands, for particle k. */
    ghost function Steering(k: nat, r1: (nat, nat, nat) -> real, r2: (nat, nat, nat) -> real): SwarmState
      reads this, particles, Repr()
      requires Valid() && k < particles.Length && local < |lBest|
    {
      ImageCoherent();
      SteeredAt(Image(), k, local, shape, r1, r2)
    }

    /** None of the slots' objects changed: they are members as they were. */
    twostate lemma SlotsKept(rest: set<object>)
      requires Sized() && old(Sound())
      requires Footprint(lBest) <= rest && unchanged(rest)
      ensures Members(lBest, data, isClassification, exp, shape) && Slots() == old(Slots())
    {
    }

    /** Particle j, valid before, none of whose objects changed, is valid and in the same state. */
    twostate lemma ParticleKept(j: nat)
      requires j < particles.Length && unchanged(particles) && old(particles[j].Valid(data, isClassification, exp, shape))
      requires particles[j].Untouched()
      ensures particles[j].Valid(data, isClassification, exp, shape) && particles[j].State() == old(particles[j].State())
    {
    }

    /** Only particle k's state may differ: the states are the old ones with entry k replaced. */
    twostate lemma StatesWritten(k: nat)
      requires Crew() && k < particles.Length && unchanged(particles) && old(Crew())
      requires forall j :: 0 <= j < particles.Length && j != k ==> particles[j].State() == old(particles[j].State())
      ensures States() == old(States())[k := particles[k].State()]
    {
      ghost var s := old(States())[k := particles[k].State()];
      forall j | 0 <= j < particles.Length
        ensures States()[j] == s[j]
      {
      }
    }

    /** Particle k changed only itself and is still valid: the swarm is valid, and only entry k of its states differs. */
    twostate lemma ParticleWritten(k: nat)
      requires old(Valid()) && k < particles.Length && unchanged(this, particles)
      requires forall j :: 0 <= j < |lBest| ==> lBest[j].Untouched()
      requires forall j :: 0 <= j < particles.Length && j != k ==> particles[j].Untouched()
      requires particles[k].Valid(data, isClassification, exp, shape)
      ensures Valid() && Slots() == old(Slots()) && States() == old(States())[k := particles[k].State()]
    {
      assert Nets() == old(Nets());
      SlotsKept(Footprint(lBest));
      forall j | 0 <= j < particles.Length && j != k
        ensures particles[j].Valid(data, isClassification, exp, shape) && particles[j].State() == old(particles[j].State())
      {
        ParticleKept(j);
      }
      StatesWritten(k);
    }

    // ------------------------------------------------------------ updatePositions

    /** Every object a particle of the crew or a slot is made of: what updatePositions may change, besides the swarm. */
    ghost function Objects(): set<object>
    {
      (set p, o | p in crew && o in p.Own() :: o) + Footprint(lBest)
    }

    /** Particle k and its nets and Layers are among the swarm's objects. */
    lemma ParticleWithin(k: nat)
      requires Crew() && k < particles.Length
      ensures var p := particles[k];
              && p in Objects() && p.position in Objects()
              && (forall i :: 0 <= i < |p.position.network| ==> p.position.network[i] in Objects())
              && (forall i :: 0 <= i < |p.pBest.network| ==> p.pBest.network[i] in Objects())
    {
      var p := particles[k];
      assert p in p.Own() && p.position in p.Own();
      forall i | 0 <= i < |p.position.network|
        ensures p.position.network[i] in Objects()
      {
        assert p.position.network[i] in p.PositionFootprint();
      }
      forall i | 0 <= i < |p.pBest.network|
        ensures p.pBest.network[i] in Objects()
      {
        assert p.pBest.network[i] in p.BestFootprint();
      }
    }

    /** Slot j and its Layers are among the swarm's objects. */
    lemma SlotWithin(j: nat)
      requires j < |lBest|
      ensures lBest[j] in Objects() && forall i :: 0 <= i < |lBest[j].network| ==> lBest[j].network[i] in Objects()
    {
    }

    /** Slot j shares no Layer with another slot nor with a particle's nets. */
    ghost predicate SlotAlone(j: nat)
      reads particles
      requires j < |lBest|
    {
      && (forall i :: 0 <= i < |lBest| && i != j ==> Apart(lBest[i], lBest[j]))
      && forall k :: 0 <= k < particles.Length ==> Apart(particles[k].position, lBest[j]) && Apart(particles[k].pBest, lBest[j])
    }

    /** In a valid swarm particle k's nets share no Layer with another particle's nets nor with a slot. */
    lemma Separated(k: nat)
      requires Crew() && AllApart(Nets()) && k < particles.Length
      ensures var p := particles[k];
              forall j :: 0 <= j < |lBest| ==> Apart(lBest[j], p.position) && Apart(lBest[j], p.pBest)
      ensures var p := particles[k];
              forall j :: 0 <= j < particles.Length && particles[j] != p ==>
                && Apart(particles[j].position, p.position) && Apart(particles[j].position, p.pBest)
                && Apart(particles[j].pBest, p.position) && Apart(particles[j].pBest, p.pBest)
    {
      var s, n := Nets(), particles.Length;
      assert s[k] == particles[k].position && s[n + k] == particles[k].pBest;
      forall j | 0 <= j < |lBest|
        ensures Apart(lBest[j], particles[k].position) && Apart(lBest[j], particles[k].pBest)
      {
        assert s[2 * n + j] == lBest[j];
      }
      forall j | 0 <= j < n && particles[j] != particles[k]
        ensures Apart(particles[j].position, particles[k].position) && Apart(particles[j].position, particles[k].pBest)
        ensures Apart(particles[j].pBest, particles[k].position) && Apart(particles[j].pBest, particles[k].pBest)
      {
        assert s[j] == particles[j].position && s[n + j] == particles[j].pBest;
      }
    }

    /** In a valid swarm every slot is alone. */
    lemma SlotSeparated(j: nat)
      requires AllApart(Nets()) && j < |lBest|
      ensures SlotAlone(j)
    {
      var n := particles.Length;
      var s := Nets();
      forall i | 0 <= i < |lBest| && i != j
        ensures Apart(lBest[i], lBest[j])
      {
        assert Apart(s[2 * n + i], s[2 * n + j]);
      }
      forall k | 0 <= k < n
        ensures Apart(particles[k].position, lBest[j]) && Apart(particles[k].pBest, lBest[j])
      {
        assert Apart(s[k], s[2 * n + j]) && Apart(s[n + k], s[2 * n + j]);
      }
    }

    /**
     * updatePositions (lines 140-157): every particle in array order moves
     * and checks slot `local`, then every slot in turn looks at the next
     * one round the ring.  The swarm ends as Repositioned says.  A single
     * particle has no slot to check, where ParticleSwarm.java indexes past
     * the end of lBest.
     */
    method UpdatePositions()
      requires Valid() && particles.Length != 1
      modifies this, Objects()
      ensures Valid() && Image() == old(Repositioning())
    {
      ghost var before := FlyAll();
      ghost var flown := Image();
      RingAll(flown);
    }

    /** The particle loop of updatePositions (lines 141-149): every particle in turn moves, then checks slot `local`. */
    method FlyAll() returns (ghost before: SwarmState)
      requires Valid() && particles.Length != 1
      modifies this, Objects()
      ensures before == old(Image()) && Flying(before, particles.Length)
    {
      ImageCoherent();
      before := Image();
      var k := 0;
      while k < particles.Length
        invariant Flying(before, k)
      {
        ParticleWithin(k);
        SlotWithin(local);
        k := FlyNext(k, before);
      }
    }

    /** The ring loop of updatePositions (lines 151-157), over every slot in order. */
    method RingAll(ghost flown: SwarmState)
      requires Valid() && Image() == flown
      modifies Objects()
      ensures Ringing(flown, |lBest|)
    {
      var i := 0;
      while i < |lBest|
        invariant Ringing(flown, i)
      {
        SlotWithin(i);
        i := RingNext(i, flown);
      }
    }

    /** What updatePositions makes of the swarm as it stands. */
    ghost function Repositioning(): SwarmState
      reads this, particles, Repr()
      requires Valid() && particles.Length != 1
    {
      ImageCoherent();
      Repositioned(Image(), local, shape, Score())
    }

    /** Lines 196-198 on values: the image after updateVelocities and then updatePositions. */
    ghost function Flight(r1s: nat -> (nat, nat, nat) -> real, r2s: nat -> (nat, nat, nat) -> real): SwarmState
      reads this, particles, Repr()
      requires Valid() && particles.Length != 1
    {
      ImageCoherent();
      Repositioned(Accelerating(r1s, r2s), local, shape, Score())
    }

    /** The swarm after k rounds of the particle loop: valid, and its image `before` with k particles flown. */
    ghost predicate Flying(before: SwarmState, k: nat)
      reads this, particles, Repr()
    {
      && Valid() && k <= particles.Length && particles.Length != 1
      && Coherent(before, shape) && Follows(before, local) && |before.particles| == particles.Length
      && Image() == Flown(before, local, k, shape, Score())
    }

    /** The round of the particle loop for particle k: it moves, then checks slot `local`. */
    method FlyNext(k: nat, ghost before: SwarmState) returns (next: nat)
      requires Flying(before, k) && k < particles.Length
      modifies this, particles[k], particles[k].position, particles[k].position.network, particles[k].pBest.network
      modifies lBest[local], lBest[local].network
      ensures next == k + 1 && Flying(before, next)
    {
      next := k + 1;
      Move(k);
      Check(k);
      FlownNext(before, local, shape, Score(), k, next);
    }

    /** What line 142 makes of the swarm as it stands, for particle k. */
    ghost function Moving(k: nat): SwarmState
      reads this, particles, Repr()
      requires Valid() && k < particles.Length
    {
      ImageCoherent();
      MovedAt(Image(), k, shape, Score())
    }

    /** Line 142 for particle k: it moves; no other particle and no slot changes. */
    method Move(k: nat)
      requires Valid() && k < particles.Length
      modifies particles[k], particles[k].position, particles[k].position.network, particles[k].pBest.network
      ensures Valid() && Image() == old(Moving(k))
    {
      ghost var target := Moved(particles[k].State(), Score());
      Separated(k);
      MoveParticle(k);
      ParticleMoved(k);
      assert States() == old(States())[k := target];
    }

    /** After updatePosition on particle k alone, the swarm is valid and only particle k's state has changed. */
    twostate lemma ParticleMoved(k: nat)
      requires old(Valid()) && k < particles.Length && unchanged(this, particles)
      requires particles[k].Stepped(data, isClassification, exp, shape)
      requires forall j :: 0 <= j < |lBest| ==> lBest[j].Untouched()
      requires forall j :: 0 <= j < particles.Length && particles[j] != particles[k] ==> particles[j].Untouched()
      ensures Valid() && Slots() == old(Slots()) && States() == old(States())[k := particles[k].State()]
      ensures particles[k].State() == Moved(old(particles[k].State()), Score())
    {
      forall j | 0 <= j < particles.Length && j != k
        ensures particles[j].Untouched()
      {
        assert particles[j] != particles[k];
      }
      ParticleWritten(k);
    }

    /** updatePosition (line 142) for particle k, whose nets share no Layer with the others: no other particle and no slot changes. */
    method MoveParticle(k: nat)
      requires k < particles.Length && particles[k].Valid(data, isClassification, exp, shape)
      requires var p := particles[k];
               forall j :: 0 <= j < |lBest| ==> Apart(lBest[j], p.position) && Apart(lBest[j], p.pBest)
      requires var p := particles[k];
               forall j :: 0 <= j < particles.Length && particles[j] != p ==>
                 && Apart(particles[j].position, p.position) && Apart(particles[j].position, p.pBest)
                 && Apart(particles[j].pBest, p.position) && Apart(particles[j].pBest, p.pBest)
      modifies particles[k], particles[k].position, particles[k].position.network, particles[k].pBest.network
      ensures unchanged(this, particles) && particles[k].Stepped(data, isClassification, exp, shape)
      ensures forall j :: 0 <= j < |lBest| ==> lBest[j].Untouched()
      ensures forall j :: 0 <= j < particles.Length && particles[j] != particles[k] ==> particles[j].Untouched()
    {
      MoveAt(this, particles, k, lBest, data, isClassification, exp, shape);
    }

    /** What lines 144-148 make of the swarm as it stands, for particle k. */
    ghost function Visiting(k: nat): SwarmState
      reads this, particles, Repr()
      requires Valid() && k < particles.Length && local < |lBest|
    {
      var sw := Image();
      Visit(sw, sw.particles[k], local, Score())
    }

    /**
     * Lines 144-148 for particle k: when its best error is strictly below
     * the fitness of slot `local`, gBestError takes that error and the slot
     * the personal best's weights, rescored.
     */
    method Check(k: nat)
      requires Valid() && k < particles.Length && local < |lBest|
      modifies this, lBest[local], lBest[local].network
      ensures Valid() && Image() == old(Visiting(k))
    {
      var particle := particles[k];
      var slot := lBest[particle.local];
      if Less(particle.pBestError, Finite(slot.fitness)) {
        Take(k);
      }
    }

    /** Lines 145-147: gBestError takes particle k's best error, slot `local` its personal best's weights, rescored. */
    method Take(k: nat)
      requires Valid() && k < particles.Length && local < |lBest|
      modifies this`gBestError, lBest[local], lBest[local].network
      ensures var q := old(Image()).particles[k];
              Valid() && Image() == old(Image()).(slots := old(Slots())[local := Slot(q.pBest, Score()(q.pBest))], gBestError := q.pBestError)
    {
      var particle := particles[k];
      Claim(k);
      Record(particle.pBestError);
    }

    /** `gBestError = ...` (line 145): only the global best error changes. */
    method Record(e: ExtReal)
      requires Valid()
      modifies this`gBestError
      ensures Valid() && Image() == old(Image()).(gBestError := e)
    {
      Outsider();
      gBestError := e;
      SwarmKept();
    }

    /** No particle and no slot changed: the swarm stays valid, with the same particle states and slots. */
    twostate lemma SwarmKept()
      requires old(Valid()) && unchanged(particles)
      requires forall j :: 0 <= j < |lBest| ==> lBest[j].Untouched()
      requires forall k :: 0 <= k < particles.Length ==> particles[k].Untouched()
      ensures Valid() && States() == old(States()) && Slots() == old(Slots())
    {
      assert Nets() == old(Nets());
      SlotsKept(Footprint(lBest));
      forall k | 0 <= k < particles.Length
        ensures particles[k].Valid(data, isClassification, exp, shape) && particles[k].State() == old(particles[k].State())
      {
        ParticleKept(k);
      }
    }

    /** Lines 146-147: slot `local` takes particle k's personal best weights and is rescored; nothing else changes. */
    method Claim(k: nat)
      requires Valid() && k < particles.Length && local < |lBest|
      modifies lBest[local], lBest[local].network
      ensures var ws := old(particles[k].pBest.Weights());
              Valid() && Image() == old(Image()).(slots := old(Slots())[local := Slot(ws, Score()(ws))])
    {
      var particle := particles[k];
      assert particle.Valid(data, isClassification, exp, shape);
      var j := particle.local;
      assert j == local;
      SlotSeparated(j);
      SlotShaped(j);
      Retake(j, particle.pBest);
      SlotWritten(j);
    }

    /** `setWeights` then `updateFitness` on slot j (lines 146-147): no other slot and no particle changes. */
    method Retake(j: nat, src: FeedForwardNet)
      requires j < |lBest| && SlotAlone(j) && Member(lBest[j], data, isClassification, exp, shape)
      requires |src.network| >= 1 && SameShape(src.Weights(), shape) && Scorable(shape, data, isClassification, exp) && |data| > 0
      modifies lBest[j], lBest[j].network
      ensures unchanged(this, particles) && Member(lBest[j], data, isClassification, exp, shape)
      ensures var ws := old(src.Weights()); lBest[j].Weights() == ws && lBest[j].fitness == Score()(ws)
      ensures forall i :: 0 <= i < |lBest| && i != j ==> lBest[i].Untouched()
      ensures forall k :: 0 <= k < particles.Length ==> particles[k].Untouched()
    {
      ReweighSlot(lBest[j], src, j, lBest, particles, this, data, isClassification, exp, shape);
      RescoreSlot(lBest[j], j, lBest, particles, this, data, isClassification, exp, shape);
    }

    /** `setWeights` on slot j (lines 146 and 154): only its weights change. */
    method Reweighed(j: nat, src: FeedForwardNet)
      requires j < |lBest| && SlotAlone(j) && Member(lBest[j], data, isClassification, exp, shape)
      requires |src.network| >= 1 && SameShape(src.Weights(), shape)
      modifies lBest[j].network
      ensures unchanged(this, particles) && Member(lBest[j], data, isClassification, exp, shape)
      ensures lBest[j].Weights() == old(src.Weights()) && lBest[j].fitness == old(lBest[j].fitness)
      ensures forall i :: 0 <= i < |lBest| && i != j ==> lBest[i].Untouched()
      ensures forall k :: 0 <= k < particles.Length ==> particles[k].Untouched()
    {
      ReweighSlot(lBest[j], src, j, lBest, particles, this, data, isClassification, exp, shape);
    }

    /** Slot j changed only itself and is still a member: the swarm is valid, and only entry j of its slots differs. */
    twostate lemma SlotWritten(j: nat)
      requires old(Valid()) && j < |lBest| && unchanged(particles)
      requires forall i :: 0 <= i < |lBest| && i != j ==> lBest[i].Untouched()
      requires forall k :: 0 <= k < particles.Length ==> particles[k].Untouched()
      requires Member(lBest[j], data, isClassification, exp, shape)
      ensures Valid() && States() == old(States()) && Slots() == old(Slots())[j := Slot(lBest[j].Weights(), lBest[j].fitness)]
    {
      assert Nets() == old(Nets());
      forall k | 0 <= k < particles.Length
        ensures particles[k].Valid(data, isClassification, exp, shape) && particles[k].State() == old(particles[k].State())
      {
        ParticleKept(k);
      }
      assert Members(lBest, data, isClassification, exp, shape) by {
        forall i | 0 <= i < |lBest| && i != j
          ensures Member(lBest[i], data, isClassification, exp, shape)
        {
          assert old(Member(lBest[i], data, isClassification, exp, shape));
        }
      }
      assert Slots() == old(Slots())[j := Slot(lBest[j].Weights(), lBest[j].fitness)];
    }

    /** The swarm after i steps of the ring loop: valid, and its image `flown` with the first i slots looked at. */
    ghost predicate Ringing(flown: SwarmState, i: nat)
      reads this, particles, Repr()
    {
      && Valid() && i <= |lBest| && |flown.slots| == |lBest|
      && Image() == flown.(slots := Ringed(flown.slots, i))
    }

    /** Step i of the ring loop (lines 152-156): slot i takes the weights of the next slot when that one's fitness is strictly lower. */
    method RingNext(i: nat, ghost flown: SwarmState) returns (next: nat)
      requires Ringing(flown, i) && i < |lBest|
      modifies lBest[i].network
      ensures next == i + 1 && Ringing(flown, next)
    {
      next := i + 1;
      Ring(i);
      RingedNext(flown.slots, i, next);
    }

    /** Lines 152-156 for slot i: it takes the weights of the next slot round the ring when that one's fitness is strictly lower. */
    method Ring(i: nat)
      requires Valid() && i < |lBest|
      modifies lBest[i].network
      ensures Valid() && Image() == old(Image()).(slots := RingStep(old(Slots()), i))
    {
      var j := (i + 1) % |lBest|;
      ghost var before := Slots();
      if lBest[j].fitness < lBest[i].fitness {
        Pass(i, j);
      }
      assert Slots() == RingStep(before, i);
    }

    /** `lBest[i].setWeights(lBest[j].getWeights())` (line 154): slot i takes slot j's weights and keeps its fitness. */
    method Pass(i: nat, j: nat)
      requires Valid() && i < |lBest| && j < |lBest| && i != j
      modifies lBest[i].network
      ensures Valid() && States() == old(States())
      ensures Slots() == old(Slots())[i := Slot(old(Slots())[j].weights, old(Slots())[i].fitness)]
    {
      SlotShaped(j);
      SlotShaped(i);
      SlotSeparated(i);
      Reweighed(i, lBest[j]);
      SlotWritten(i);
    }

    // ------------------------------------------------------------ construction

    /**
     * The fields the constructor fills (lines 111-127): the particles,
     * the slots, the shared slot, and gBestError +infinity; every object
     * of `others` is left as it was, so whatever held of the particles and
     * the slots still holds.
     */
    constructor Of(ps: array<Particle>, slots: seq<FeedForwardNet>, trainingData: seq<Sample>, layers: seq<nat>,
                   isClassification: bool, exp: real -> real, local: nat, ghost slotDraws: nat -> (nat, nat, nat) -> real,
                   ghost positionDraws: nat -> (nat, nat, nat) -> real, ghost bestDraws: nat -> (nat, nat, nat) -> real,
                   ghost others: set<object>)
      requires Trainable(trainingData, layers, isClassification)
      requires Footprint(slots) + Owned(ps[..]) <= others
      ensures particles == ps && lBest == slots && gBestError == PosInf && this.local == local
      ensures data == trainingData && this.isClassification == isClassification && this.exp == exp
      ensures shape == Layout(layers, |trainingData[0].features|) && crew == set k | 0 <= k < ps.Length :: ps[k]
      ensures unchanged(ps) && particles[..] == old(ps[..])
      ensures Built(lBest, data, layers, isClassification, exp, slotDraws)
          == old(Built(slots, trainingData, layers, isClassification, exp, slotDraws))
      ensures Recruited(particles[..], data, layers, isClassification, exp, local, positionDraws, bestDraws)
          == old(Recruited(ps[..], trainingData, layers, isClassification, exp, local, positionDraws, bestDraws))
      ensures AllApart(NetsOf(particles[..], lBest)) == old(AllApart(NetsOf(ps[..], slots)))
    {
      particles := ps;
      lBest := slots;
      gBestError := PosInf;
      data := trainingData;
      this.isClassification := isClassification;
      this.exp := exp;
      shape := Layout(layers, |trainingData[0].features|);
      this.local := local;
      crew := set k | 0 <= k < ps.Length :: ps[k];
      new;
      assert this !in others;
      assert unchanged(others);
    }

    /** Slots built from `slotDraws` and recruits drawn from `positionDraws` and `bestDraws`, all apart, make a valid swarm. */
    lemma Assembled(layers: seq<nat>, slotDraws: nat -> (nat, nat, nat) -> real,
                    positionDraws: nat -> (nat, nat, nat) -> real, bestDraws: nat -> (nat, nat, nat) -> real)
      requires Trainable(data, layers, isClassification) && ExpLike(exp) && shape == Layout(layers, |data[0].features|)
      requires |lBest| == particles.Length / 2 && (|lBest| > 0 ==> local < |lBest|)
      requires crew == set k | 0 <= k < particles.Length :: particles[k]
      requires Built(lBest, data, layers, isClassification, exp, slotDraws)
      requires Recruited(particles[..], data, layers, isClassification, exp, local, positionDraws, bestDraws)
      requires AllApart(NetsOf(particles[..], lBest))
      ensures Valid()
    {
      LayoutScorable(data, layers, isClassification, exp);
      var ps := particles[..];
      forall k | 0 <= k < particles.Length
        ensures particles[k] in crew && Enlisted(particles[k]) && particles[k].Valid(data, isClassification, exp, shape)
      {
        assert ps[k] == particles[k];
        assert Recruit(ps[k], data, layers, isClassification, exp, local, positionDraws(k), bestDraws(k));
      }
      forall a, b | 0 <= a < b < particles.Length
        ensures particles[a] != particles[b]
      {
        assert ps[a] == particles[a] && ps[b] == particles[b];
      }
      forall j | 0 <= j < |lBest|
        ensures |lBest[j].network| >= 2
      {
        assert Member(lBest[j], data, isClassification, exp, shape);
      }
      NetsAre();
    }

    // ------------------------------------------------------------ evaluate

    /** The particles' best errors, in array order. */
    ghost function Errors(): (es: seq<ExtReal>)
      reads particles, particles[..]
      ensures |es| == particles.Length && forall k :: 0 <= k < particles.Length ==> es[k] == particles[k].pBestError
    {
      BestErrors(particles[..])
    }

    /** The nets of the swarm are those of its particles, in array order, then the slots. */
    lemma NetsAre()
      ensures Nets() == NetsOf(particles[..], lBest)
    {
    }

    /**
     * evaluate (lines 163-183): `Arrays.sort` orders the particles in place
     * by best error, lowest first, as `Double.compareTo` compares them, and
     * stably, as that sort is: particles of equal error keep their order,
     * `os` giving each one's old place.  The array holds the same
     * particles; no particle, net or slot changes.
     */
    method Evaluate() returns (ghost os: seq<nat>)
      requires Valid()
      modifies particles
      ensures Valid() && Slots() == old(Slots()) && InOrder(Errors())
      ensures multiset(particles[..]) == old(multiset(particles[..]))
      ensures SortedStably(old(particles[..]), particles[..], Errors(), os)
      ensures forall k :: 0 <= k < particles.Length ==> particles[k].Untouched()
    {
      os := Sort();
      Rearranged();
    }

    /** The sort proper: the array keeps its particles, distinct, their nets apart, and ends stably in order of best error. */
    method Sort() returns (ghost os: seq<nat>)
      requires Crew() && AllApart(Nets())
      modifies particles
      ensures Crew() && AllApart(Nets()) && InOrder(Errors())
      ensures multiset(particles[..]) == old(multiset(particles[..]))
      ensures SortedStably(old(particles[..]), particles[..], Errors(), os)
      ensures unchanged(Footprint(lBest)) && forall k :: 0 <= k < particles.Length ==> particles[k].Untouched()
    {
      ghost var p0 := particles[..];
      os := Turns(p0);
      assert Errors()[..particles.Length] == Errors();
      InsertedAll(p0, particles[..], Errors(), os);
    }

    /** The turns of the sort, from the array `p0`. */
    method Turns(ghost p0: seq<Particle>) returns (ghost os: seq<nat>)
      requires Crew() && AllApart(Nets()) && p0 == particles[..]
      modifies particles
      ensures Ordered(particles.Length, multiset(p0), p0, os)
    {
      ghost var s0 := multiset(p0);
      os := seq(particles.Length, k => k);
      OrderedNone(p0, os);
      var i := 0;
      while i < particles.Length
        invariant i <= particles.Length && Ordered(i, s0, p0, os)
      {
        os := Insert(i, s0, p0, os);
        i := i + 1;
      }
    }

    /** Before the first turn every particle is in its own place. */
    lemma OrderedNone(p0: seq<Particle>, os: seq<nat>)
      requires Crew() && AllApart(Nets()) && p0 == particles[..]
      requires |os| == particles.Length && forall k :: 0 <= k < |os| ==> os[k] == k
      ensures Ordered(0, multiset(p0), p0, os)
    {
      InsertedNone(Errors(), os);
      TracedSelf(p0, os);
    }

    /** The sort after i turns, with `os` tracing each particle to its place in `p0`, equal errors in their old order. */
    ghost predicate Ordered(i: nat, s0: multiset<Particle>, p0: seq<Particle>, os: seq<nat>)
      reads particles, particles[..]
    {
      Arranged(i, s0) && Inserted(Errors(), os, i) && Traced(p0, particles[..], os)
    }

    /** The sort after i turns: the particles `s0`, distinct, their nets apart, the first i in order. */
    ghost predicate Arranged(i: nat, s0: multiset<Particle>)
      reads particles, particles[..]
    {
      && Crew() && AllApart(Nets()) && multiset(particles[..]) == s0
      && i <= particles.Length && InOrder(Errors()[..i])
    }

    /** The sorted array holds the particles of the valid swarm it started from, none of them changed: it is valid. */
    twostate lemma Rearranged()
      requires old(Valid()) && Crew() && AllApart(Nets()) && multiset(particles[..]) == old(multiset(particles[..]))
      requires unchanged(Footprint(lBest)) && forall k :: 0 <= k < particles.Length ==> particles[k].Untouched()
      ensures Valid() && Slots() == old(Slots())
    {
      SlotsKept(Footprint(lBest));
      forall k | 0 <= k < particles.Length
        ensures particles[k].Valid(data, isClassification, exp, shape)
      {
        assert particles[k] in multiset(particles[..]);
        assert particles[k] in old(particles[..]);
      }
    }

    /**
     * One turn of the sort: particle i moves down past every particle
     * before it whose best error is strictly larger, so particles with
     * equal errors keep their order, as in the stable `Arrays.sort`.
     */
    method Insert(i: nat, ghost s0: multiset<Particle>, ghost p0: seq<Particle>, ghost os: seq<nat>) returns (ghost os': seq<nat>)
      requires Ordered(i, s0, p0, os) && i < particles.Length
      modifies particles
      ensures Ordered(i + 1, s0, p0, os')
    {
      ghost var es := Errors();
      SettlingStart(es, i);
      InsertingStart(es, os, i);
      os' := os;
      var j: nat := i;
      while j > 0 && Less(particles[j].pBestError, particles[j - 1].pBestError)
        invariant Sinks(i, j, es, s0, p0, os')
      {
        es, os' := SinkOnce(i, j, es, s0, p0, os');
        j := j - 1;
      }
      TurnEnd(i, j, es, s0, p0, os');
    }

    /** The insertion stops where particle i is no better than its left neighbour: one more turn is done. */
    lemma TurnEnd(i: nat, j: nat, es: seq<ExtReal>, s0: multiset<Particle>, p0: seq<Particle>, os: seq<nat>)
      requires Sinks(i, j, es, s0, p0, os) && (j == 0 || !Less(particles[j].pBestError, particles[j - 1].pBestError))
      ensures Ordered(i + 1, s0, p0, os)
    {
      SettlingEnd(es, i, j);
      SettledApart(es, i, j);
      InsertingEnd(es, os, i, j);
    }

    /** Insertion of particle i under way, the particle now at j, `os` tracing each particle to its place in `p0`. */
    ghost predicate Sinks(i: nat, j: nat, es: seq<ExtReal>, s0: multiset<Particle>, p0: seq<Particle>, os: seq<nat>)
      reads particles, particles[..]
    {
      && Crew() && AllApart(Nets()) && multiset(particles[..]) == s0
      && es == Errors() && Settling(es, i, j) && Inserting(es, os, i, j) && Traced(p0, particles[..], os)
    }

    /** One step of the insertion: the particle at j changes places with its strictly worse left neighbour. */
    method SinkOnce(i: nat, j: nat, ghost es: seq<ExtReal>, ghost s0: multiset<Particle>, ghost p0: seq<Particle>,
                    ghost os: seq<nat>) returns (ghost es': seq<ExtReal>, ghost os': seq<nat>)
      requires Sinks(i, j, es, s0, p0, os) && 0 < j && Less(particles[j].pBestError, particles[j - 1].pBestError)
      modifies particles
      ensures Sinks(i, j - 1, es', s0, p0, os') && forall k :: 0 <= k < particles.Length ==> particles[k].Untouched()
    {
      SettlingStep(es, i, j);
      InsertingStep(es, os, i, j);
      TracedSwap(p0, particles[..], os, j - 1, j);
      os' := os[j - 1 := os[j]][j := os[j - 1]];
      ghost var ps := particles[..];
      Swap(j);
      SwappedCrew(j);
      SwappedErrors(j);
      SwapPermutes(ps, j - 1, j);
      es' := es[j - 1 := es[j]][j := es[j - 1]];
    }

    /** The exchange inside the sort: `particles[j-1]` and `particles[j]` trade places, and their nets stay apart. */
    method Swap(j: nat)
      requires 0 < j < particles.Length && AllApart(Nets())
      modifies particles
      ensures particles[..] == old(particles[..])[j - 1 := old(particles[j])][j := old(particles[j - 1])]
      ensures AllApart(Nets()) && forall k :: 0 <= k < particles.Length ==> particles[k].Untouched()
    {
      NetsAre();
      NetsOfSwap(particles[..], lBest, j - 1, j);
      particles[j - 1], particles[j] := particles[j], particles[j - 1];
      NetsAre();
    }

    /** Exchanging two particles keeps them distinct and enlisted. */
    twostate lemma SwappedCrew(j: nat)
      requires old(Crew()) && 0 < j < particles.Length
      requires particles[..] == old(particles[..])[j - 1 := old(particles[j])][j := old(particles[j - 1])]
      ensures Crew()
    {
      var ps := old(particles[..]);
      forall a, b | 0 <= a < b < particles.Length
        ensures particles[a] != particles[b]
      {
        var a', b' := Partner(j, a), Partner(j, b);
        assert particles[a] == ps[a'] && particles[b] == ps[b'];
        if a' < b' {
          assert old(particles[a'] != particles[b']);
        } else {
          assert old(particles[b'] != particles[a']);
        }
      }
      forall k | 0 <= k < particles.Length
        ensures particles[k] in crew && Enlisted(particles[k])
      {
        assert particles[k] == ps[Partner(j, k)];
      }
    }

    /** Exchanging two particles, none of which changed, exchanges their best errors. */
    twostate lemma SwappedErrors(j: nat)
      requires 0 < j < particles.Length
      requires particles[..] == old(particles[..])[j - 1 := old(particles[j])][j := old(particles[j - 1])]
      requires forall k :: 0 <= k < particles.Length ==> particles[k].Untouched()
      ensures Errors() == old(Errors())[j - 1 := old(Errors())[j]][j := old(Errors())[j - 1]]
    {
      var ps := old(particles[..]);
      forall k | 0 <= k < particles.Length
        ensures Errors()[k] == old(Errors())[j - 1 := old(Errors())[j]][j := old(Errors())[j - 1]][k]
      {
        assert particles[k] == ps[Partner(j, k)];
      }
    }

    // ------------------------------------------------------------ PSO

    /** The crew is among the objects a flight may change, and the particle array is not, so flying keeps its order. */
    lemma ArrayApart()
      ensures crew <= Objects() && particles !in Objects()
    {
      forall p | p in crew
        ensures p in p.Own() && particles !in p.Own()
      {
      }
    }

    /**
     * Lines 196-198: every particle accelerates towards its slot, then every
     * particle moves and the slots are settled: the swarm becomes its
     * Flight.  The array keeps its order and no particle's best error rises.
     */
    method Fly(r1s: nat -> (nat, nat, nat) -> real, r2s: nat -> (nat, nat, nat) -> real)
      requires Valid() && particles.Length != 1
      modifies this, Objects()
      ensures Valid() && particles[..] == old(particles[..]) && Image() == old(Flight(r1s, r2s))
      ensures forall k :: 0 <= k < particles.Length ==> LessEq(particles[k].pBestError, old(particles[k].pBestError))
    {
      ArrayApart();
      Steer(r1s, r2s);
      Reposition();
    }

    /** updateVelocities, seen from the swarm's run: the swarm accelerates, the array's order and every best error stay. */
    method Steer(r1s: nat -> (nat, nat, nat) -> real, r2s: nat -> (nat, nat, nat) -> real)
      requires Valid() && particles.Length != 1 && crew <= Objects() && particles !in Objects()
      modifies Objects()
      ensures Valid() && particles[..] == old(particles[..]) && Image() == old(Accelerating(r1s, r2s))
      ensures forall k :: 0 <= k < particles.Length ==> particles[k].pBestError == old(particles[k].pBestError)
    {
      ImageCoherent();
      ImageErrors();
      ghost var before := Image();
      UpdateVelocities(r1s, r2s);
      ImageErrors();
      forall k | 0 <= k < particles.Length
        ensures particles[k].pBestError == old(particles[k].pBestError)
      {
        assert Image().particles[k] == Accelerated(before, local, shape, r1s, r2s).particles[k];
      }
    }

    /** updatePositions, seen from the swarm's run: the swarm is repositioned, the array's order stays and no best error rises. */
    method Reposition()
      requires Valid() && particles.Length != 1 && particles !in Objects()
      modifies this, Objects()
      ensures Valid() && particles[..] == old(particles[..]) && Image() == old(Repositioning())
      ensures forall k :: 0 <= k < particles.Length ==> LessEq(particles[k].pBestError, old(particles[k].pBestError))
    {
      ImageCoherent();
      UpdatePositions();
      MovingLowersErrors();
    }

    /** The image records each particle's best error. */
    lemma ImageErrors()
      requires Crew() && Sized()
      ensures |Image().particles| == particles.Length
      ensures forall k :: 0 <= k < particles.Length ==> Image().particles[k].pBestError == particles[k].pBestError
    {
      forall k | 0 <= k < particles.Length
        ensures Image().particles[k].pBestError == particles[k].pBestError
      {
        assert Image().particles[k] == States()[k];
      }
    }

    /** Moving the particles lowers no best error. */
    twostate lemma MovingLowersErrors()
      requires old(Valid()) && particles.Length != 1 && Crew() && Sized()
      requires Coherent(old(Image()), shape) && Follows(old(Image()), local)
      requires particles[..] == old(particles[..]) && Image() == old(Repositioning())
      ensures forall k :: 0 <= k < particles.Length ==> LessEq(particles[k].pBestError, old(particles[k].pBestError))
    {
      var before := old(Image());
      RepositionedErrors(before, local, shape, Score());
      forall k | 0 <= k < particles.Length
        ensures LessEq(particles[k].pBestError, old(particles[k].pBestError))
      {
        assert Image().particles[k] == States()[k];
        assert before.particles[k] == old(States()[k]);
      }
    }

    /**
     * One generation of PSO (lines 196-200): fly, then sort.  The swarm's
     * image is its Flight with the particles stably reordered by best error
     * (`os` giving each one's place after flying).  No particle's best
     * error rises, and `best`, the first particle's, is the lowest.
     */
    method Generation(r1s: nat -> (nat, nat, nat) -> real, r2s: nat -> (nat, nat, nat) -> real)
      returns (best: ExtReal, ghost os: seq<nat>)
      requires Valid() && particles.Length >= 2
      modifies this, particles, Objects()
      ensures Valid() && InOrder(Errors()) && multiset(particles[..]) == old(multiset(particles[..]))
      ensures var flown := old(Flight(r1s, r2s));
              && SortedStably(flown.particles, Image().particles, Errors(), os)
              && Image().slots == flown.slots && Image().gBestError == flown.gBestError
      ensures best == particles[0].pBestError && forall k :: 0 <= k < particles.Length ==> LessEq(best, particles[k].pBestError)
      ensures forall k :: 0 <= k < particles.Length ==> LessEq(old(particles[..])[k].pBestError, old(Errors())[k])
      ensures LessEq(best, old(particles[0].pBestError))
    {
      Fly(r1s, r2s);
      best, os := Settle(Image(), old(particles[..]), old(Errors()));
    }

    /**
     * Line 200 after the flight: the swarm, whose image is `flown`, whose
     * array is `p0` and whose best errors are at most `e0`, is sorted;
     * `best` is the lowest error, and no particle of `p0` has an error
     * above its entry in `e0`.
     */
    method Settle(ghost flown: SwarmState, ghost p0: seq<Particle>, ghost e0: seq<ExtReal>) returns (best: ExtReal, ghost os: seq<nat>)
      requires Valid() && particles.Length >= 2 && Image() == flown && p0 == particles[..]
      requires |e0| == particles.Length && forall k :: 0 <= k < particles.Length ==> LessEq(particles[k].pBestError, e0[k])
      modifies particles
      ensures Valid() && InOrder(Errors()) && multiset(particles[..]) == old(multiset(particles[..]))
      ensures SortedStably(flown.particles, Image().particles, Errors(), os)
      ensures Image().slots == flown.slots && Image().gBestError == flown.gBestError
      ensures best == particles[0].pBestError && forall k :: 0 <= k < particles.Length ==> LessEq(best, particles[k].pBestError)
      ensures forall k :: 0 <= k < |p0| ==> LessEq(p0[k].pBestError, e0[k])
      ensures LessEq(best, e0[0])
    {
      assert p0[0] in p0;
      os := Reorder(flown.particles);
      ErrorsKept(p0);
      best := particles[0].pBestError;
      LessEqTransitive(best, p0[0].pBestError, e0[0]);
      forall k | 0 <= k < |p0|
        ensures LessEq(p0[k].pBestError, e0[k])
      {
        assert p0[k] in p0;
      }
    }

    /** Particles sorted in order of best error, none of them touched: each keeps its error, and the first holds the lowest. */
    twostate lemma ErrorsKept(p0: seq<Particle>)
      requires multiset(particles[..]) == multiset(p0) && InOrder(Errors())
      requires forall k :: 0 <= k < particles.Length ==> particles[k] in p0 && particles[k].Untouched()
      ensures 0 < particles.Length ==> forall k :: 0 <= k < particles.Length ==> LessEq(particles[0].pBestError, particles[k].pBestError)
      ensures forall p :: p in p0 ==> p.pBestError == old(p.pBestError)
      ensures 0 < particles.Length ==> forall p :: p in p0 ==> LessEq(particles[0].pBestError, p.pBestError)
    {
      forall p | p in p0
        ensures p.pBestError == old(p.pBestError) && LessEq(particles[0].pBestError, p.pBestError)
      {
        assert p in multiset(particles[..]);
        var k :| 0 <= k < particles.Length && particles[k] == p;
        assert Errors()[0] == particles[0].pBestError && Errors()[k] == particles[k].pBestError;
      }
      forall k | 0 < k < particles.Length
        ensures LessEq(particles[0].pBestError, particles[k].pBestError)
      {
        assert Errors()[0] == particles[0].pBestError && Errors()[k] == particles[k].pBestError;
      }
    }

    /** evaluate on the swarm's states: `before`, the states beforehand, stably reordered by best error; the slots stay. */
    method Reorder(ghost before: seq<ParticleState>) returns (ghost os: seq<nat>)
      requires Valid() && before == States()
      modifies particles
      ensures Valid() && InOrder(Errors()) && multiset(particles[..]) == old(multiset(particles[..]))
      ensures SortedStably(before, States(), Errors(), os) && Slots() == old(Slots())
      ensures forall k :: 0 <= k < particles.Length ==> particles[k] in old(particles[..]) && particles[k].Untouched()
    {
      os := Evaluate();
      forall k | 0 <= k < particles.Length
        ensures States()[k] == before[os[k]] && particles[k] in old(particles[..])
      {
        assert particles[k] == old(particles[os[k]]);
      }
    }

    /**
     * PSO (lines 192-206): up to `generations` generations, stopping after
     * the first whose lowest best error is below 0.01.  `bests` records the
     * first particle's best error after each generation, which never
     * rises; generation g draws its coefficients from `r1s(g)` and `r2s(g)`.
     */
    method PSO(generations: nat, r1s: nat -> nat -> (nat, nat, nat) -> real, r2s: nat -> nat -> (nat, nat, nat) -> real)
      returns (bests: seq<ExtReal>)
      requires Valid() && (generations == 0 || particles.Length >= 2)
      modifies this, particles, Objects()
      ensures Valid() && multiset(particles[..]) == old(multiset(particles[..]))
      ensures Ran(bests, generations) && Leading(bests)
    {
      bests := [];
      var stop := false;
      while |bests| < generations && !stop
        invariant Valid() && multiset(particles[..]) == old(multiset(particles[..]))
        invariant Progress(bests, |bests|, generations, stop) && Leading(bests)
        decreases generations - |bests|
      {
        bests, stop := Round(bests, generations, r1s, r2s);
      }
      ProgressEnd(bests, |bests|, generations, stop);
    }

    /** After some generations, the particles are in order and the last best recorded is the first particle's. */
    ghost predicate Leading(bests: seq<ExtReal>)
      reads particles, particles[..]
    {
      0 < |bests| ==> InOrder(Errors()) && 0 < particles.Length && bests[|bests| - 1] == particles[0].pBestError
    }

    /** One turn of PSO's loop: a generation, its best recorded, and the stop test of line 202. */
    method Round(bests: seq<ExtReal>, generations: nat, r1s: nat -> nat -> (nat, nat, nat) -> real,
                 r2s: nat -> nat -> (nat, nat, nat) -> real) returns (bests': seq<ExtReal>, stop: bool)
      requires Valid() && particles.Length >= 2 && |bests| < generations
      requires Progress(bests, |bests|, generations, false) && Leading(bests)
      modifies this, particles, Objects()
      ensures Valid() && multiset(particles[..]) == old(multiset(particles[..]))
      ensures Progress(bests', |bests'|, generations, stop) && |bests'| == |bests| + 1 && Leading(bests')
    {
      var best;
      ghost var os;
      best, os := Generation(r1s(|bests|), r2s(|bests|));
      ProgressStep(bests, |bests|, generations, best);
      bests' := bests + [best];
      stop := Below(best, GoalError);
    }
  }

  /**
   * `new ParticleSwarm(populationSize, trainingData, layers,
   * isClassification)` (lines 111-127): populationSize / 2 unscored slots,
   * slot j drawn from `slotDraws(j)`; the shared slot `local` drawn once
   * from `localDraw` over lBest.length - 1, so never the last slot when
   * there are two or more; then populationSize recruits with w = 0.1,
   * c1 = 3 and c2 = 1.5, particle k drawn from `positionDraws(k)` and
   * `bestDraws(k)`; gBestError +infinity.
   */
  method NewSwarm(populationSize: nat, trainingData: seq<Sample>, layers: seq<nat>, isClassification: bool,
                  exp: real -> real, slotDraws: nat -> (nat, nat, nat) -> real, localDraw: real,
                  positionDraws: nat -> (nat, nat, nat) -> real, bestDraws: nat -> (nat, nat, nat) -> real)
    returns (swarm: ParticleSwarm)
    requires Trainable(trainingData, layers, isClassification) && ExpLike(exp) && UnitDraw(localDraw)
    requires forall i, k, r, c :: UnitDraw(slotDraws(i)(k, r, c))
    requires forall i, k, r, c :: UnitDraw(positionDraws(i)(k, r, c)) && UnitDraw(bestDraws(i)(k, r, c))
    ensures fresh(swarm) && fresh(swarm.particles) && swarm.Valid() && swarm.gBestError == PosInf
    ensures swarm.particles.Length == populationSize && |swarm.lBest| == populationSize / 2
    ensures swarm.data == trainingData && swarm.isClassification == isClassification && swarm.exp == exp
    ensures swarm.local == DrawIndex(localDraw, populationSize / 2 - 1)
    ensures |swarm.lBest| >= 2 ==> swarm.local < |swarm.lBest| - 1
    ensures Built(swarm.lBest, trainingData, layers, isClassification, exp, slotDraws)
    ensures Recruited(swarm.particles[..], trainingData, layers, isClassification, exp, swarm.local, positionDraws, bestDraws)
  {
    var slots := BuildNets(populationSize / 2, trainingData, layers, isClassification, exp, slotDraws);
    var local := DrawIndex(localDraw, |slots| - 1);
    swarm := Launch(populationSize, slots, trainingData, layers, isClassification, exp, local, slotDraws, positionDraws,
                    bestDraws);
  }

  /** The rest of the constructor (lines 112-127) once the slots exist: the particles, then the swarm over both. */
  method Launch(count: nat, slots: seq<FeedForwardNet>, trainingData: seq<Sample>, layers: seq<nat>,
                isClassification: bool, exp: real -> real, local: nat, ghost slotDraws: nat -> (nat, nat, nat) -> real,
                positionDraws: nat -> (nat, nat, nat) -> real, bestDraws: nat -> (nat, nat, nat) -> real)
    returns (swarm: ParticleSwarm)
    requires Trainable(trainingData, layers, isClassification) && ExpLike(exp) && AllApart(slots)
    requires |slots| == count / 2 && (|slots| > 0 ==> local < |slots|)
    requires forall i, k, r, c :: UnitDraw(positionDraws(i)(k, r, c)) && UnitDraw(bestDraws(i)(k, r, c))
    requires Built(slots, trainingData, layers, isClassification, exp, slotDraws)
    ensures fresh(swarm) && fresh(swarm.particles) && swarm.particles.Length == count
    ensures swarm.lBest == slots && swarm.local == local
    ensures swarm.Valid() && swarm.gBestError == PosInf
    ensures swarm.data == trainingData && swarm.isClassification == isClassification && swarm.exp == exp
    ensures Built(swarm.lBest, trainingData, layers, isClassification, exp, slotDraws)
    ensures Recruited(swarm.particles[..], trainingData, layers, isClassification, exp, local, positionDraws, bestDraws)
  {
    var arr := Crowd(count, trainingData, layers, isClassification, exp, local, positionDraws, bestDraws, slots, slotDraws);
    swarm := new ParticleSwarm.Of(arr, slots, trainingData, layers, isClassification, exp, local, slotDraws,
                                  positionDraws, bestDraws, Footprint(slots) + Owned(arr[..]));
    swarm.Assembled(layers, slotDraws, positionDraws, bestDraws);
  }

  /** The particle loop of the constructor (lines 124-126) and the new array: the slots built before stay as they were. */
  method Crowd(count: nat, trainingData: seq<Sample>, layers: seq<nat>, isClassification: bool,
               exp: real -> real, local: nat, positionDraws: nat -> (nat, nat, nat) -> real,
               bestDraws: nat -> (nat, nat, nat) -> real, slots: seq<FeedForwardNet>,
               ghost slotDraws: nat -> (nat, nat, nat) -> real) returns (arr: array<Particle>)
    requires Trainable(trainingData, layers, isClassification) && ExpLike(exp) && AllApart(slots)
    requires forall i, k, r, c :: UnitDraw(positionDraws(i)(k, r, c)) && UnitDraw(bestDraws(i)(k, r, c))
    requires Built(slots, trainingData, layers, isClassification, exp, slotDraws)
    ensures fresh(arr) && arr.Length == count && AllApart(NetsOf(arr[..], slots))
    ensures Recruited(arr[..], trainingData, layers, isClassification, exp, local, positionDraws, bestDraws)
    ensures Built(slots, trainingData, layers, isClassification, exp, slotDraws)
  {
    var ps := BuildParticles(count, trainingData, layers, isClassification, exp, local, positionDraws, bestDraws, slots);
    arr := ParticleArray(ps, Footprint(slots) + Owned(ps));
  }

  // ---------------------------------------------------------------- the run

  /** The recorded errors never rise. */
  predicate Descending(es: seq<ExtReal>)
  {
    forall a, b :: 0 <= a < b < |es| ==> LessEq(es[b], es[a])
  }

  /**
   * PSO's bookkeeping after g generations: one best per generation, never
   * rising, none but the last below 0.01, and `stop` set exactly when the
   * last is.
   */
  predicate Progress(bests: seq<ExtReal>, g: nat, generations: nat, stop: bool)
  {
    && |bests| == g <= generations && Descending(bests)
    && (forall i :: 0 <= i < g - 1 ==> !Below(bests[i], GoalError))
    && (stop <==> 0 < g && Below(bests[g - 1], GoalError))
  }

  /** A generation whose best is no higher than the last keeps the books. */
  lemma ProgressStep(bests: seq<ExtReal>, g: nat, generations: nat, best: ExtReal)
    requires Progress(bests, g, generations, false) && g < generations
    requires 0 < g ==> LessEq(best, bests[g - 1])
    ensures Progress(bests + [best], g + 1, generations, Below(best, GoalError))
  {
    var t := bests + [best];
    forall a, b | 0 <= a < b < |t|
      ensures LessEq(t[b], t[a])
    {
      if b == g && a < g - 1 {
        LessEqTransitive(best, bests[g - 1], bests[a]);
      }
    }
  }

  /**
   * A whole run: at most `generations` bests, never rising, none but the
   * last below 0.01, and either every generation used or the last best
   * below 0.01.
   */
  predicate Ran(bests: seq<ExtReal>, generations: nat)
  {
    && |bests| <= generations && Descending(bests)
    && (forall i :: 0 <= i < |bests| - 1 ==> !Below(bests[i], GoalError))
    && (|bests| == generations || (0 < |bests| && Below(bests[|bests| - 1], GoalError)))
  }

  /** When the loop ends the books describe a whole run. */
  lemma ProgressEnd(bests: seq<ExtReal>, g: nat, generations: nat, stop: bool)
    requires Progress(bests, g, generations, stop) && !(g < generations && !stop)
    ensures Ran(bests, generations)
  {
  }
}
