# Neural-net training by backpropagation, differential evolution and particle swarms

This project models, in Dafny, the training core of the `neural-nets`
package of a small machine-learning repository:

- `FeedForwardNet` — a fully connected feed-forward network made of
  `Layer` objects (weights, a bias, a node buffer and an output buffer),
  its forward pass, its error and delta, its fitness on a data set, and
  mini-batch backpropagation;
- `DE` — differential evolution over a population of such networks:
  donor search, mutation `X1 + beta * (X2 - X3)`, binomial crossover,
  greedy selection, evaluation (rescore and sort) and the generation loop;
- `ParticleSwarm` — particle-swarm optimisation: particles with a
  position net, a personal-best net and a velocity, the ring of local-best
  slots (`lBest`), velocity and position updates, the sort by best error
  and the generation loop.

The model keeps the Java program's form. `Layer`, `FeedForwardNet`, `DE`,
`Particle` and `ParticleSwarm` are classes whose methods change their
fields in place, with `modifies` frames. The Java arrays of nets and
particles are Dafny arrays, sorted in place by insertion. Every loop of
the Java code is a `while` loop with invariants. Each method is proved
against a pure specification function on values (`Forward`, `ApplyUpdate`,
`BackUpdate`, `MiniBatchUpdate`, `Train`, `Fitness`, `Generated`,
`Repositioned`, ...). The properties the code promises are lemmas about
those functions: error zero exactly on a perfect fit, a fitted mini-batch
is a fixed point of backprop, crossover of a vector with itself is the
vector, selection never makes a member worse, a sort keeps the population
and orders it, the ring update keeps the slots honest, the best of a run
never rises, and so on.

`Math.random()` and `Collections.shuffle` become explicit inputs: draw
functions indexed by layer, row and column, draw streams for the donor
search, and permutations for the shuffles. `Math.exp` becomes a parameter
`exp` of which only `exp(z) >= 0` is assumed.

Modules and files:

| file | module | contents |
|---|---|---|
| basics.dfy | Basics | Option, extended reals (+infinity), Java's `(int)` cast, zero arrays |
| weight_vectors.dfy | WeightVectors | weight vectors (a matrix per layer), DE's trial and crossover, PSO's velocity and displacement on values |
| network_math.dfy | NetworkMath | the forward pass, error, delta, targets, fitness, backprop's update vectors, mini-batch and epoch updates as functions |
| network_state.dfy | NetworkState | the fields of every Layer as values, and what init, feedForward, setWeights and updateMiniBatch do to them |
| feed_forward_net.dfy | FeedForward | the classes `Layer` and `FeedForwardNet` |
| population.dfy | Populations | building nets, footprints of nets that share no Layer, index draws |
| diff_evolution.dfy | DifferentialEvolution | the class `DE`, both as written and with the corrected step |
| particle_swarm.dfy | ParticleSwarmOptimization | the classes `Particle` and `ParticleSwarm`, and the swarm on values |

## Model

| member | source | states |
|---|---|---|
| Basics.TruncateToInt | neural-nets/DE.java:53 | `(int) x` rounds toward zero: for x >= 0, r <= x < r + 1; for x < 0, r - 1 < x <= r |
| Basics.Zeros | neural-nets/FeedForwardNet.java:107 | a fresh `double[n]`: length n, every entry 0.0 |
| WeightVectors.BinomialCrossover | neural-nets/DE.java:100-117 | element (z, i, j) is the target's when its draw is at most `p`, otherwise the trial's; shaped like the target |
| WeightVectors.CrossoverSelf | neural-nets/DE.java:100-117 | crossing a vector with itself gives it back, whatever the draws |
| WeightVectors.CrossoverKeepsTarget | neural-nets/DE.java:104-114 | when every draw is at most `p` the offspring is the target |
| WeightVectors.CrossoverTakesTrial | neural-nets/DE.java:104-114 | when every draw exceeds `p` the offspring is the trial |
| WeightVectors.Trial | neural-nets/DE.java:63-76 | the trial `X1 + beta*(X2 - X3)` of three same-shaped vectors has their shape |
| WeightVectors.NextVelocity | neural-nets/ParticleSwarm.java:44-70 | the new velocity `w*v + c1*r1*(pBest - x) + c2*r2*(lBest - x)` has the velocity's shape |
| WeightVectors.Displace | neural-nets/ParticleSwarm.java:76-91 | the new position `x + v` has the position's shape |
| WeightVectors.TrialEqualDonors | neural-nets/DE.java:65-76 | with X2 equal to X3 the trial is X1 |
| WeightVectors.VelocityAtBest | neural-nets/ParticleSwarm.java:54-62 | a particle at its personal best and at its slot's weights keeps only the inertia term: every new velocity entry is `w*v`, whatever the draws |
| WeightVectors.AtRestStaysAtRest | neural-nets/ParticleSwarm.java:44-70 | a zero velocity at the personal and local best stays zero |
| WeightVectors.DisplaceStill | neural-nets/ParticleSwarm.java:76-91 | a zero velocity leaves the position where it is |
| NetworkMath.Sigmoid | neural-nets/FeedForwardNet.java:140-142 | `1 / (1 + exp(-z))` lies in (0, 1] when `exp` is never negative |
| NetworkMath.LayerOutput | neural-nets/FeedForwardNet.java:60-83 | one entry per weight row; with more than one row every entry is a sigmoid value in (0, 1]; with a single row the output is the plain affine value, with no activation |
| NetworkMath.ChainedSameShape | neural-nets/FeedForwardNet.java:206-218 | weights shaped like a chain of layers form a chain too and accept the same inputs |
| NetworkMath.PassAt | neural-nets/FeedForwardNet.java:206-218 | layer k of a pass reads activation k and writes activation k + 1 |
| NetworkMath.PassExtend | neural-nets/FeedForwardNet.java:206-218 | one more layer keeps the earlier buffers, and the new layer reads the old result |
| NetworkMath.Forward | neural-nets/FeedForwardNet.java:206-218 | feedForward's output has one value per row of the last weight matrix |
| NetworkMath.ActivationPrefix | neural-nets/FeedForwardNet.java:206-218 | appending layers does not change what the earlier layers compute |
| NetworkMath.HalfSquaredError | neural-nets/FeedForwardNet.java:410-418 | error: half the sum of squared differences; never negative |
| NetworkMath.ErrorZeroIff | neural-nets/FeedForwardNet.java:410-418 | the error is zero exactly when output and target are equal |
| NetworkMath.Delta | neural-nets/FeedForwardNet.java:423-431 | `target[i] - output[i]` per output; adding it to the output gives the target |
| NetworkMath.Target | neural-nets/FeedForwardNet.java:456-468 | classification: one-hot at `label - 1`, defined exactly when the label is an integer in 1..width; regression: the label in slot 0, defined exactly when the width is at least 1 |
| NetworkMath.ClassTargetOneHot | neural-nets/FeedForwardNet.java:456-462 | a classification target has a single 1.0, at `label - 1`, and sums to 1 |
| NetworkMath.SampleError | neural-nets/FeedForwardNet.java:452-470 | the error of one sample's pass against its target; never negative |
| NetworkMath.TotalError | neural-nets/FeedForwardNet.java:451-472 | `totalError` over the first n samples, in order; never negative |
| NetworkMath.TotalErrorStep | neural-nets/FeedForwardNet.java:451-472 | one more sample adds its own error to the total |
| NetworkMath.Fitness | neural-nets/FeedForwardNet.java:448-477 | the mean error over the data set; never negative |
| NetworkMath.TotalErrorZeroIff | neural-nets/FeedForwardNet.java:451-472 | the total over n samples is zero exactly when the net reproduces each of their targets |
| NetworkMath.FitnessZeroIff | neural-nets/FeedForwardNet.java:448-477 | fitness is zero exactly when the net reproduces every target of its data set |
| NetworkMath.BackUpdate | neural-nets/FeedForwardNet.java:106-125 | getWeightUpdates: entry j < n is the column-weighted update times `nodes[j] * (1 - nodes[j])`; the last entry is the last update times the sum of the last weight row |
| NetworkMath.ScaledRowSumFactors | neural-nets/FeedForwardNet.java:115-117 | the bias loop's running sum equals the last update times the sum of the last weight row |
| NetworkMath.ApplyUpdate | neural-nets/FeedForwardNet.java:90-101 | updateWeights: cell (i, j), j not the bias column, moves by `eta * u[i] * nodes[j]`; then every cell of the last row moves by `eta * u[last]`; the other rows' bias cells stay |
| NetworkMath.UpdateFor | neural-nets/FeedForwardNet.java:289-297 | the update vector for layer k covers every row of layer k's matrix |
| NetworkMath.MiniBatchUpdate | neural-nets/FeedForwardNet.java:287-304 | updateMiniBatch's new weights keep the net's shape and stay chained |
| NetworkMath.UpdateCollectedAt | neural-nets/FeedForwardNet.java:289-297 | the c-th vector the first loop of updateMiniBatch collects belongs to layer n-1-c |
| NetworkMath.PermutationOnto | neural-nets/FeedForwardNet.java:235-236 | a shuffle outcome (n distinct positions below n) takes every position below n |
| NetworkMath.ReindexedMultiset | neural-nets/FeedForwardNet.java:235-236 | reading a sequence through a shuffle outcome gives the same elements, each as often |
| NetworkMath.Permute | neural-nets/FeedForwardNet.java:235-236 | `s` rearranged by a permutation: same length and the same multiset of elements |
| NetworkMath.Shuffled | neural-nets/FeedForwardNet.java:232-236 | the training array after the shuffles of the first n epochs: same length and the same multiset of samples |
| NetworkMath.DeltaSum | neural-nets/FeedForwardNet.java:241-267 | the summed deltas of a mini-batch have one entry per output |
| NetworkMath.DeltaSumStep | neural-nets/FeedForwardNet.java:262-267 | one more sample adds its own delta |
| NetworkMath.Average | neural-nets/FeedForwardNet.java:272-274 | every entry divided by the batch size |
| NetworkMath.ScorableTransfer | neural-nets/FeedForwardNet.java:241-259 | samples drawn from a scorable data set are scorable by any net of the same shape |
| NetworkMath.EpochUpdate | neural-nets/FeedForwardNet.java:232-276 | one epoch on a mini-batch keeps the net's shape and stays chained |
| NetworkMath.Train | neural-nets/FeedForwardNet.java:224-280 | any number of epochs keeps the net's shape and stays chained |
| NetworkMath.TrainStep | neural-nets/FeedForwardNet.java:232-276 | one more epoch is one more shuffle and one more EpochUpdate |
| NetworkMath.BackUpdateZero | neural-nets/FeedForwardNet.java:106-125 | a zero update vector propagates back as zeros |
| NetworkMath.UpdateForZero | neural-nets/FeedForwardNet.java:289-297 | with a zero output update every layer's update vector is zero |
| NetworkMath.ApplyUpdateZero | neural-nets/FeedForwardNet.java:90-101 | a zero update leaves a matrix as it was |
| NetworkMath.MiniBatchUpdateZero | neural-nets/FeedForwardNet.java:287-304 | updateMiniBatch with a zero output update changes no layer |
| NetworkMath.DeltaSumZero | neural-nets/FeedForwardNet.java:241-267 | a batch the net reproduces exactly sums to zero deltas |
| NetworkMath.FittedBatchFixedPoint | neural-nets/FeedForwardNet.java:232-276 | an epoch on a mini-batch the net already reproduces exactly leaves every weight as it was |
| NetworkState.InitialWeight | neural-nets/FeedForwardNet.java:44 | `r * 0.02 - 0.01` lies in [-0.01, 0.01) for a draw r in [0, 1) |
| NetworkState.WeightsOf | neural-nets/FeedForwardNet.java:433-440 | getWeights' view: the matrices of every layer but the output layer, in order |
| NetworkState.Blank | neural-nets/FeedForwardNet.java:161-170 | the layers as allocated: `layers[k]` zero nodes each |
| NetworkState.ReweightedViews | neural-nets/FeedForwardNet.java:442-446 | with every weighted layer reweighted, getWeights returns `ws` and every other field is as it was |
| NetworkState.ReweightedReady | neural-nets/FeedForwardNet.java:442-446 | matrices of the same shape keep a net ready for a pass |
| NetworkState.FedViews | neural-nets/FeedForwardNet.java:188-218 | a state fed through every weighted layer is ready, and its buffers are the pass's |
| NetworkState.AfterPassViews | neural-nets/FeedForwardNet.java:206-218 | after a pass the net is ready, getWeights is unchanged, the buffers are the pass's, the output layer untouched |
| NetworkState.AfterPassTwice | neural-nets/FeedForwardNet.java:206-218 | a pass overwrites every buffer of the pass before: only the last input counts |
| NetworkState.InitialisedExtend | neural-nets/FeedForwardNet.java:193-196 | init's loop step extends the initialised prefix and the state the pass leaves |
| NetworkState.DrawnExtend | neural-nets/FeedForwardNet.java:42-46 | a matrix of initial weights from layer k's draws extends what is drawn |
| NetworkState.PassFrom | neural-nets/FeedForwardNet.java:206-218 | a pass does not depend on the buffers the weighted layers held before |
| NetworkState.MiniBatchStep | neural-nets/FeedForwardNet.java:300-303 | one step of updateMiniBatch's second loop extends the updated range by one layer |
| NetworkState.CollectStep | neural-nets/FeedForwardNet.java:292-296 | one step of the first loop: layer i hands back the vector for layer i-1 |
| NetworkState.EpochState | neural-nets/FeedForwardNet.java:232-276 | an epoch on the layers' values: buffers of the batch's last pass, then updateMiniBatch with the averaged deltas |
| FeedForward.Layer.constructor | neural-nets/FeedForwardNet.java:25-27 | `Layer(size)`: a node buffer of `size` zeros |
| FeedForward.Layer.Init | neural-nets/FeedForwardNet.java:34-52 | with a next layer: a `next x (|input|+1)` matrix of initial weights from the draws, bias 1.0, then the first pass; for the output layer the input is handed back and nothing changes |
| FeedForward.Layer.FeedForward | neural-nets/FeedForwardNet.java:60-83 | the node buffer becomes the input and the output buffer LayerOutput of the weights; the result is the output |
| FeedForward.Layer.MultiplyInto | neural-nets/FeedForwardNet.java:64-69 | `[output] += [weights] * [input]`, bias column left out |
| FeedForward.Layer.AddBias | neural-nets/FeedForwardNet.java:71-74 | every row adds its last weight times the bias |
| FeedForward.Layer.Activate | neural-nets/FeedForwardNet.java:77-81 | the sigmoid of every entry |
| FeedForward.Layer.UpdateWeights | neural-nets/FeedForwardNet.java:90-101 | the weights become ApplyUpdate of the old ones; nothing else changes |
| FeedForward.Layer.GetWeightUpdates | neural-nets/FeedForwardNet.java:106-125 | the result is BackUpdate of the layer's weights and nodes; the layer is unchanged |
| FeedForward.Layer.SetWeights | neural-nets/FeedForwardNet.java:135 | the matrix is replaced; nothing else changes |
| FeedForward.FeedForwardNet.constructor | neural-nets/FeedForwardNet.java:161-174 | eta 0.5, fitness 0, one fresh Layer per size, then init: the weights are the drawn initial weights and the net is ready |
| FeedForward.FeedForwardNet.NewLayers | neural-nets/FeedForwardNet.java:166-169 | one fresh, distinct Layer per entry of `layers`, `layers[k]` zero nodes each |
| FeedForward.FeedForwardNet.Clone | neural-nets/FeedForwardNet.java:176-182 | the copy shares the very same Layer objects, data, rate, task and fitness |
| FeedForward.FeedForwardNet.Init | neural-nets/FeedForwardNet.java:188-200 | every weighted layer initialised from the previous output and the next width; the state is the pass of the first sample's features over the drawn weights |
| FeedForward.FeedForwardNet.InitLayers | neural-nets/FeedForwardNet.java:193-196 | the loop of init: the drawn matrices so far, and the state their pass leaves |
| FeedForward.FeedForwardNet.InitLayer | neural-nets/FeedForwardNet.java:194-195 | layer i initialised with `input` and the next layer's width; the other layers unchanged |
| FeedForward.FeedForwardNet.InitOutputLayer | neural-nets/FeedForwardNet.java:198-199 | the output layer, handed width 0, changes nothing |
| FeedForward.FeedForwardNet.FeedForward | neural-nets/FeedForwardNet.java:206-218 | the result is Forward of the weights; the state is AfterPass; weights unchanged |
| FeedForward.FeedForwardNet.FeedLayer | neural-nets/FeedForwardNet.java:211-214 | layer i reads `input`; only its node and output buffers change |
| FeedForward.FeedForwardNet.GetWeights | neural-nets/FeedForwardNet.java:433-440 | the result is the matrices of the weighted layers in order; nothing changes |
| FeedForward.FeedForwardNet.SetWeights | neural-nets/FeedForwardNet.java:442-446 | layer k takes matrix k; buffers, biases and the output layer are untouched |
| FeedForward.FeedForwardNet.WriteLayers | neural-nets/FeedForwardNet.java:443-445 | the loop of setWeights, layer by layer, against Reweighted |
| FeedForward.FeedForwardNet.SetLayer | neural-nets/FeedForwardNet.java:444 | layer i takes matrix `m`; nothing else changes |
| FeedForward.FeedForwardNet.Error | neural-nets/FeedForwardNet.java:410-418 | returns HalfSquaredError of output and target |
| FeedForward.FeedForwardNet.Delta | neural-nets/FeedForwardNet.java:423-431 | returns Delta of output and target |
| FeedForward.FeedForwardNet.UpdateFitness | neural-nets/FeedForwardNet.java:448-477 | fitness becomes Fitness of the weights on `data`; weights unchanged; the layers hold the last sample's pass |
| FeedForward.FeedForwardNet.SumErrors | neural-nets/FeedForwardNet.java:451-472 | the loop's total is TotalError over all samples |
| FeedForward.FeedForwardNet.ScoreNext | neural-nets/FeedForwardNet.java:452-471 | one turn adds sample i's error to the total |
| FeedForward.FeedForwardNet.ScoreLast | neural-nets/FeedForwardNet.java:452-471 | the last turn, whose pass the layers keep |
| FeedForward.FeedForwardNet.SamplePass | neural-nets/FeedForwardNet.java:452-469 | the forward pass of a sample and its Target |
| FeedForward.FeedForwardNet.UpdateMiniBatch | neural-nets/FeedForwardNet.java:287-304 | the weights become MiniBatchUpdate of the old ones; only the matrices change |
| FeedForward.FeedForwardNet.CollectUpdates | neural-nets/FeedForwardNet.java:289-297 | `updates[c]` is UpdateFor layer n-2-c; no layer changes |
| FeedForward.FeedForwardNet.ApplyUpdates | neural-nets/FeedForwardNet.java:300-303 | layers n-2 down to 0 each take their vector; the result is MiniBatchUpdate |
| FeedForward.FeedForwardNet.StepLayers | neural-nets/FeedForwardNet.java:300-303 | the loop, against the updated range of Reweighted states |
| FeedForward.FeedForwardNet.StepLayer | neural-nets/FeedForwardNet.java:301-302 | with layers i+1.. updated, layer i takes its own update |
| FeedForward.FeedForwardNet.UpdateLayer | neural-nets/FeedForwardNet.java:302 | layer i's matrix moves by ApplyUpdate; nothing else changes |
| FeedForward.FeedForwardNet.Backprop | neural-nets/FeedForwardNet.java:224-280 | the array ends as Shuffled by the epochs' permutations, holding the same samples, and the weights as Train of the old ones |
| FeedForward.FeedForwardNet.EpochTurn | neural-nets/FeedForwardNet.java:232-276 | epoch i extends Shuffled and Train by one epoch |
| FeedForward.FeedForwardNet.BackpropEpoch | neural-nets/FeedForwardNet.java:232-276 | one epoch: the array permuted, the weights EpochUpdate on its first `miniBatchSize` samples |
| FeedForward.FeedForwardNet.Shuffle | neural-nets/FeedForwardNet.java:235-236 | the array becomes Permute of the old one, with the same samples |
| FeedForward.FeedForwardNet.TrainEpoch | neural-nets/FeedForwardNet.java:238-276 | the weights become EpochUpdate on the batch |
| FeedForward.FeedForwardNet.AveragedDeltas | neural-nets/FeedForwardNet.java:241-274 | the result is Average of DeltaSum over the batch |
| FeedForward.FeedForwardNet.SumDeltas | neural-nets/FeedForwardNet.java:241-268 | `weightUpdate` ends as DeltaSum over the batch |
| FeedForward.FeedForwardNet.DeltaNext | neural-nets/FeedForwardNet.java:242-267 | one turn adds sample i's delta |
| FeedForward.FeedForwardNet.SampleDelta | neural-nets/FeedForwardNet.java:242-262 | the pass of one sample and its Delta against the Target |
| FeedForward.FeedForwardNet.DeltaLast | neural-nets/FeedForwardNet.java:242-267 | the last turn, whose pass the layers keep |
| FeedForward.FeedForwardNet.AddInto | neural-nets/FeedForwardNet.java:265-267 | `weightUpdate[j] += deltas[j]` for every j |
| FeedForward.FeedForwardNet.AverageInto | neural-nets/FeedForwardNet.java:272-274 | every entry divided by the batch size |
| Populations.DrawIndex | neural-nets/DE.java:53 | `(int)(r * m)` for r in [0, 1): an index below m, or 0 when m is at most 0 |
| Populations.InitialisedLayout | neural-nets/FeedForwardNet.java:161-200 | a freshly built net is shaped like the layout |
| Populations.ScoreOn | neural-nets/FeedForwardNet.java:448-477 | the fitness updateFitness records for a weight vector; never negative |
| Populations.NewMember | neural-nets/DE.java:37 | a fresh net of the layout, fitness 0, weights drawn from `draw`, sharing nothing with existing objects |
| Populations.BuiltAppend | neural-nets/DE.java:36-38 | one more fresh member extends the built nets |
| Populations.BuildNets | neural-nets/DE.java:36-38 | `count` fresh nets, net k drawn from `draws(k)`, no two sharing a Layer |
| Populations.NetArray | neural-nets/DE.java:29 | a new array holding the nets in order |
| Populations.LayersOfPermutation | neural-nets/DE.java:130-137 | the same nets in another order own the same Layers |
| Populations.Reweigh | neural-nets/FeedForwardNet.java:442-446 | setWeights on one net; nets that share none of its Layers are unchanged |
| Populations.Rescore | neural-nets/FeedForwardNet.java:448-477 | updateFitness on one net; everything else unchanged |
| Populations.Copy | neural-nets/FeedForwardNet.java:176-182 | the copy constructor: a new net with the same Layer objects and fields |
| DifferentialEvolution.Picked | neural-nets/DE.java:50-54 | the donor indexes after n draws: distinct, in [0, len-2], in order of first draw, at most three |
| DifferentialEvolution.PickedSettled | neural-nets/DE.java:52 | once three donors are held, later draws change nothing |
| DifferentialEvolution.DonorsOf | neural-nets/DE.java:50-57 | the search finds three distinct donors in [0, len-2], or runs out of draws |
| DifferentialEvolution.DrawDonors | neural-nets/DE.java:50-57 | the loop of the donor search returns DonorsOf its draws |
| DifferentialEvolution.PickedAmong | neural-nets/DE.java:50-54 | the intended search: each draw names `(int)(r * len)`; at most three distinct indexes, each below len |
| DifferentialEvolution.IntendedDonorsOf | neural-nets/DE.java:50-57 | the intended search finds three distinct members below len, and only when len is at least 3 |
| DifferentialEvolution.DrawAt | neural-nets/DE.java:53 | the draw k/len is a `Math.random()` value and names member k |
| DifferentialEvolution.IntendedDonorsFound | neural-nets/DE.java:50-57 | in any population of three or more, some draw stream gives the intended search donors 0, 1 and 2 |
| DifferentialEvolution.PickedFirstThree | neural-nets/DE.java:50-57 | three draws naming members 0, 1 and 2 in turn make the intended search hold exactly those donors |
| DifferentialEvolution.TrialLayer | neural-nets/DE.java:67-73 | layer z of the trial, row by row, equals TrialMatrix |
| DifferentialEvolution.TrialWeights | neural-nets/DE.java:63-76 | the trial, one fresh matrix per layer, equals Trial |
| DifferentialEvolution.CrossoverLayer | neural-nets/DE.java:104-114 | layer z of the offspring equals CrossoverMatrix |
| DifferentialEvolution.CrossoverWeights | neural-nets/DE.java:100-117 | the offspring equals BinomialCrossover |
| DifferentialEvolution.NonRisingOrdered | neural-nets/DE.java:182-184 | in a non-rising record no best is higher than an earlier one |
| DifferentialEvolution.NonRisingAppend | neural-nets/DE.java:182-184 | a best no higher than the last keeps the record non-rising |
| DifferentialEvolution.LedgerStep | neural-nets/DE.java:158-185 | one more pass keeps the run's books: a stall records nothing, any other pass records its best and the stop test |
| DifferentialEvolution.LedgerEnd | neural-nets/DE.java:158-185 | when the loop ends: at most `generations` bests, all before the last at least 0.008, and either every generation ran or the last best is below 0.008 |
| DifferentialEvolution.BooksStep | neural-nets/DE.java:158-185 | LedgerStep with the bests non-rising |
| DifferentialEvolution.BooksEnd | neural-nets/DE.java:158-185 | LedgerEnd with the bests non-rising |
| DifferentialEvolution.DE.PopulationWeights | neural-nets/DE.java:20 | every member's weights in order, all shaped alike |
| DifferentialEvolution.DE.Mutation | neural-nets/DE.java:42-81 | donors are DonorsOf the draws; with donors, the target's weights become their Trial; only the target's Layers are written |
| DifferentialEvolution.DE.WriteTrial | neural-nets/DE.java:59-79 | the trial of three distinct donors is written into the target |
| DifferentialEvolution.DE.Crossover | neural-nets/DE.java:83-121 | the target's weights become BinomialCrossover of target and trial, also when both are one net |
| DifferentialEvolution.DE.EvolveIndividual | neural-nets/DE.java:160-179 | as written: member i's weights become its trial (Mutated), fitnesses and every other member unchanged |
| DifferentialEvolution.DE.BreedMember | neural-nets/DE.java:163-179 | as written, on member i alone: it holds its trial; no other object changes |
| DifferentialEvolution.DE.Breed | neural-nets/DE.java:163-179 | clone, mutation, crossover and selection leave `member` holding the trial |
| DifferentialEvolution.DE.MutateAndSelect | neural-nets/DE.java:166-179 | given the aliased clone, the member ends with the trial |
| DifferentialEvolution.DE.SelectAsWritten | neural-nets/DE.java:172-179 | crossover of the trial with itself is the trial; selection writes the member's own weights back |
| DifferentialEvolution.DE.Mutated | neural-nets/DE.java:163-179 | member i's weights after the step as written keep its shape in a population of one shape; with no donors found they are its own |
| DifferentialEvolution.DE.GeneratedAsWritten | neural-nets/DE.java:160-181 | a generation as written: each member takes its trial; defined exactly when every donor search succeeds |
| DifferentialEvolution.DE.GeneratedAsWrittenNext | neural-nets/DE.java:160-181 | the step of member i continues or ends a generation as written |
| DifferentialEvolution.DE.GeneratedAsWrittenFirst | neural-nets/DE.java:161-179 | member 0 ends a generation as written with its trial |
| DifferentialEvolution.DE.AsWrittenGenerationDiffers | neural-nets/DE.java:163-179 | in the first generation, with equal donors x2 and x3 and x1 unlike member 0, the corrected generation keeps member 0 while the one as written gives it x1 |
| DifferentialEvolution.DE.Score | neural-nets/FeedForwardNet.java:448-477 | the fitness of a weight vector on the run's data; never negative |
| DifferentialEvolution.DE.Child | neural-nets/DE.java:163-172 | the intended offspring, crossover of the member with its donors' trial, is shaped like the member |
| DifferentialEvolution.DE.Selected | neural-nets/DE.java:173-179 | the child when it scores strictly below the member's recorded fitness, the member otherwise; shape kept |
| DifferentialEvolution.DE.Generated | neural-nets/DE.java:160-181 | a corrected generation: defined exactly when every donor search succeeds; members not yet reached unchanged |
| DifferentialEvolution.DE.GeneratedStep | neural-nets/DE.java:161-181 | the last step of a completed generation prefix |
| DifferentialEvolution.DE.GeneratedNoWorse | neural-nets/DE.java:173-179 | a corrected generation never leaves a member scoring above its recorded fitness |
| DifferentialEvolution.DE.GeneratedNoRise | neural-nets/DE.java:160-182 | with recorded fitnesses up to date, a corrected generation raises no member's score |
| DifferentialEvolution.DE.GeneratedNext | neural-nets/DE.java:161-181 | the step of member i continues or ends a corrected generation |
| DifferentialEvolution.DE.FewerThanFourStall | neural-nets/DE.java:52-54 | with fewer than four members no donor search succeeds, so no generation completes |
| DifferentialEvolution.DE.UnscoredKept | neural-nets/DE.java:173-179 | with recorded fitness 0 the corrected step keeps the member |
| DifferentialEvolution.DE.FirstGenerationKeeps | neural-nets/DE.java:160-181 | a first corrected generation, every fitness 0, keeps every member |
| DifferentialEvolution.DE.AliasedTrialDiffers | neural-nets/DE.java:163-179 | with equal donors x2 and x3 and x1 unlike member i, the step as written gives x1 where the corrected step keeps member i |
| DifferentialEvolution.DE.Fitnesses | neural-nets/DE.java:20 | the recorded fitnesses, in population order |
| DifferentialEvolution.DE.GreedyStep | neural-nets/DE.java:163-179 | corrected step: member i's weights become Selected; others and fitnesses unchanged |
| DifferentialEvolution.DE.Replace | neural-nets/DE.java:178 | setWeights on member i; the rest unchanged |
| DifferentialEvolution.DE.Advance | neural-nets/DE.java:161-181 | the corrected step of member i carries Generated forward by one |
| DifferentialEvolution.DE.Generation | neural-nets/DE.java:160-181 | the population's weights become Generated; stalled exactly when it is undefined; fitnesses unchanged |
| DifferentialEvolution.DE.Steps | neural-nets/DE.java:161-181 | the loop of Generation against Generated |
| DifferentialEvolution.DE.AdvanceAsWritten | neural-nets/DE.java:161-181 | the step as written carries GeneratedAsWritten forward by one |
| DifferentialEvolution.DE.GenerationAsWritten | neural-nets/DE.java:160-181 | the weights become GeneratedAsWritten; stalled exactly when it is undefined |
| DifferentialEvolution.DE.StepsAsWritten | neural-nets/DE.java:161-181 | the loop of GenerationAsWritten against GeneratedAsWritten |
| DifferentialEvolution.DE.RescoreMember | neural-nets/DE.java:126 | member i's fitness becomes the Score of its weights; nothing else changes |
| DifferentialEvolution.DE.RefreshFitness | neural-nets/DE.java:124-127 | every member rescored; weights and order unchanged |
| DifferentialEvolution.DE.Swap | neural-nets/DE.java:130-137 | entries a and b exchanged; the nets untouched |
| DifferentialEvolution.DE.SwappedFitnesses | neural-nets/DE.java:130-137 | exchanging two nets exchanges their fitnesses |
| DifferentialEvolution.DE.SortByFitness | neural-nets/DE.java:130-137 | the array ends ordered by fitness, lowest first, holding the same nets, sorted stably: members of equal fitness keep their order, as `Arrays.sort` guarantees |
| DifferentialEvolution.DE.Order | neural-nets/DE.java:130-137 | the insertion passes: ordered by fitness, stable, the nets untouched |
| DifferentialEvolution.DE.Sink | neural-nets/DE.java:130-137 | one insertion pass keeps the multiset, extends the ordered prefix, and keeps equal fitnesses in their old order |
| DifferentialEvolution.DE.Evaluate | neural-nets/DE.java:123-144 | every member rescored, then sorted stably by fitness; same nets, same weights |
| DifferentialEvolution.DE.SortScored | neural-nets/DE.java:130-137 | the rescored array sorted stably; every net still rated and with its weights |
| DifferentialEvolution.DE.BestBelow | neural-nets/DE.java:123-137 | after evaluate member 0's fitness is no higher than any member's score |
| DifferentialEvolution.DE.Epoch | neural-nets/DE.java:158-182 | a corrected generation and evaluate: each net holds Generated at its old place, and the best never rises |
| DifferentialEvolution.DE.Pass | neural-nets/DE.java:160-182 | Epoch, then `best` is member 0's fitness, no higher than the previous best |
| DifferentialEvolution.DE.PassWithin | neural-nets/DE.java:160-182 | Pass within the frame of the original population |
| DifferentialEvolution.DE.DiffEvolution | neural-nets/DE.java:146-187 | corrected run: at most `generations` bests, non-rising, all but the last at least 0.008; it ran every generation or the last best is below 0.008, unless a donor search stalled; the same nets |
| DifferentialEvolution.DE.Run | neural-nets/DE.java:158-185 | the corrected outer loop: the run ends as DiffEvolution promises, bests non-rising, the population valid, a reordering of the nets it started with, and settled at the last best unless a search stalled |
| DifferentialEvolution.DE.Turn | neural-nets/DE.java:158-185 | one turn of the corrected outer loop keeps the books |
| DifferentialEvolution.DE.EpochAsWritten | neural-nets/DE.java:160-182 | a generation as written, then evaluate: it stalls exactly when GeneratedAsWritten has no value, and otherwise every net holds GeneratedAsWritten's weights for its old place, the same nets are sorted and scored, and `best` is member 0's fitness |
| DifferentialEvolution.DE.PassAsWritten | neural-nets/DE.java:160-182 | EpochAsWritten within the frame of the original population, with the same statement of the new weights and of when it stalls |
| DifferentialEvolution.DE.DiffEvolutionAsWritten | neural-nets/DE.java:146-187 | run as written: at most `generations` bests, all but the last at least 0.008, ran every generation or stopped below 0.008 unless stalled; no claim that the best never rises |
| DifferentialEvolution.DE.Of | neural-nets/DE.java:28-35 | stores the population and the constants |
| DifferentialEvolution.NewDE | neural-nets/DE.java:28-39 | mutation rate 0.05, beta 0.1, crossover probability 0.5, `populationSize` fresh unscored nets from the draws, no two sharing a Layer |
| ParticleSwarmOptimization.Steered | neural-nets/ParticleSwarm.java:44-70 | only the particle's velocity changes, and it keeps the swarm's shape |
| ParticleSwarmOptimization.SteeredAt | neural-nets/ParticleSwarm.java:132 | particle k steers toward slot `local`; no other particle and no slot changes |
| ParticleSwarmOptimization.SteeredUpTo | neural-nets/ParticleSwarm.java:130-134 | after n rounds particles 0..n-1 have steered, the others are as they were |
| ParticleSwarmOptimization.SteeredNext | neural-nets/ParticleSwarm.java:131-133 | round n steers particle n and nothing else |
| ParticleSwarmOptimization.SequentialSteering | neural-nets/ParticleSwarm.java:130-134 | steering one after the other equals steering all from the same slots |
| ParticleSwarmOptimization.Accelerated | neural-nets/ParticleSwarm.java:130-134 | updateVelocities on values: every particle steered, slots unchanged |
| ParticleSwarmOptimization.Moved | neural-nets/ParticleSwarm.java:76-100 | updatePosition keeps the velocity and the position's shape, records the new position's score as its fitness, and never raises the best error |
| ParticleSwarmOptimization.MovedShape | neural-nets/ParticleSwarm.java:76-100 | updatePosition keeps the particle's shape |
| ParticleSwarmOptimization.MovedBest | neural-nets/ParticleSwarm.java:93-99 | the personal best error never rises, is never above the new fitness, changes only on a strictly lower fitness, and stays truthful |
| ParticleSwarmOptimization.Flown | neural-nets/ParticleSwarm.java:141-149 | the particle loop on values: each particle moves, then checks slot `local` |
| ParticleSwarmOptimization.FlownNext | neural-nets/ParticleSwarm.java:141-149 | round n of the particle loop moves particle n, then checks the slot |
| ParticleSwarmOptimization.RingedNext | neural-nets/ParticleSwarm.java:152-156 | step n of the ring loop |
| ParticleSwarmOptimization.Visit | neural-nets/ParticleSwarm.java:144-148 | the check changes no particle and no other slot; either nothing changes, or slot local takes the personal best with its score and gBestError the best error |
| ParticleSwarmOptimization.VisitKeepsBest | neural-nets/ParticleSwarm.java:144-148 | a check changes no other slot; with a truthful particle the slot's fitness never rises and ends no higher than its best error |
| ParticleSwarmOptimization.FlownShape | neural-nets/ParticleSwarm.java:141-149 | the particle loop keeps every shape |
| ParticleSwarmOptimization.FlownErrors | neural-nets/ParticleSwarm.java:141-149 | in the particle loop no best error rises |
| ParticleSwarmOptimization.FlownHonest | neural-nets/ParticleSwarm.java:141-149 | the particle loop keeps an honest swarm honest, raises no slot fitness, and leaves slot `local` no higher than any moved particle's best error |
| ParticleSwarmOptimization.Ringed | neural-nets/ParticleSwarm.java:151-156 | the first n steps of the ring loop keep the number of slots (RingedFitness adds that no fitness changes) |
| ParticleSwarmOptimization.RingedFitness | neural-nets/ParticleSwarm.java:152-156 | the ring loop changes no slot's fitness |
| ParticleSwarmOptimization.RingedWeights | neural-nets/ParticleSwarm.java:152-156 | slot i holds slot i+1's weights when that slot's fitness is strictly lower, its own otherwise; the last slot looks at slot 0 as already updated |
| ParticleSwarmOptimization.RingedHonest | neural-nets/ParticleSwarm.java:152-156 | a slot only takes the weights of a neighbour with strictly lower fitness, so honest slots stay honest |
| ParticleSwarmOptimization.Repositioned | neural-nets/ParticleSwarm.java:140-157 | updatePositions keeps the numbers of particles and slots and moves every particle exactly once |
| ParticleSwarmOptimization.RepositionedShape | neural-nets/ParticleSwarm.java:140-157 | updatePositions keeps every shape |
| ParticleSwarmOptimization.RepositionedErrors | neural-nets/ParticleSwarm.java:140-157 | updatePositions raises no particle's best error |
| ParticleSwarmOptimization.RepositionedLeads | neural-nets/ParticleSwarm.java:140-157 | in an honest swarm slot `local` ends with a score no higher than any particle's best error |
| ParticleSwarmOptimization.InertSlots | neural-nets/ParticleSwarm.java:118-121 | as written, slots at fitness 0 and no negative error: updatePositions writes no slot nor gBestError |
| ParticleSwarmOptimization.InertFlight | neural-nets/ParticleSwarm.java:141-149 | with slots at fitness 0 the particle loop leaves slots and gBestError alone |
| ParticleSwarmOptimization.RingedStill | neural-nets/ParticleSwarm.java:152-156 | when no neighbour is strictly lower the ring loop copies nothing |
| ParticleSwarmOptimization.VelocityLayer | neural-nets/ParticleSwarm.java:52-63 | layer z of the new velocity equals VelocityMatrix |
| ParticleSwarmOptimization.VelocityOf | neural-nets/ParticleSwarm.java:46-67 | the new velocity equals NextVelocity |
| ParticleSwarmOptimization.DisplaceLayer | neural-nets/ParticleSwarm.java:81-87 | layer z of the new position equals DisplaceMatrix |
| ParticleSwarmOptimization.DisplaceOf | neural-nets/ParticleSwarm.java:77-91 | the new position equals Displace |
| ParticleSwarmOptimization.Particle.UpdateVelocity | neural-nets/ParticleSwarm.java:44-70 | the particle's state becomes Steered; nothing else changes |
| ParticleSwarmOptimization.Particle.NewVelocity | neural-nets/ParticleSwarm.java:46-67 | the new velocity, nothing changed |
| ParticleSwarmOptimization.Particle.SetVelocity | neural-nets/ParticleSwarm.java:69 | only the velocity changes |
| ParticleSwarmOptimization.Particle.UpdatePosition | neural-nets/ParticleSwarm.java:76-100 | position moved by the velocity and rescored; on a strictly lower fitness the best error and best net take it |
| ParticleSwarmOptimization.Particle.Displacement | neural-nets/ParticleSwarm.java:77-91 | the displaced position, nothing changed |
| ParticleSwarmOptimization.Particle.SetPosition | neural-nets/ParticleSwarm.java:93 | only the position's weights change |
| ParticleSwarmOptimization.Particle.RescorePosition | neural-nets/ParticleSwarm.java:94 | the position's fitness becomes its score |
| ParticleSwarmOptimization.Particle.TakeBest | neural-nets/ParticleSwarm.java:97-98 | best error and best net take the position's fitness and weights |
| ParticleSwarmOptimization.Particle.SetBestError | neural-nets/ParticleSwarm.java:97 | only the best error changes |
| ParticleSwarmOptimization.Particle.SetBest | neural-nets/ParticleSwarm.java:98 | only the best net's weights change |
| ParticleSwarmOptimization.Particle.Of | neural-nets/ParticleSwarm.java:29-38 | stores the nets, velocity, coefficients and slot; best error +infinity |
| ParticleSwarmOptimization.NewNets | neural-nets/ParticleSwarm.java:30-32 | two fresh nets of the layout from the draws, apart from each other and from existing objects |
| ParticleSwarmOptimization.NewParticle | neural-nets/ParticleSwarm.java:29-38 | a fresh particle: drawn nets, best error +infinity, velocity the position's weights, the given coefficients |
| ParticleSwarmOptimization.Assemble | neural-nets/ParticleSwarm.java:31-37 | around two member nets, the particle's state is velocity = position's weights and best error +infinity, with the given coefficients |
| ParticleSwarmOptimization.MoveBeside | neural-nets/ParticleSwarm.java:142 | updatePosition leaves the nets apart from the particle unchanged |
| ParticleSwarmOptimization.MoveAmong | neural-nets/ParticleSwarm.java:142 | updatePosition leaves the slots and the other particles unchanged |
| ParticleSwarmOptimization.ReweighSlot | neural-nets/ParticleSwarm.java:146 | a slot takes another net's weights; other slots, particles and swarm unchanged |
| ParticleSwarmOptimization.RescoreSlot | neural-nets/ParticleSwarm.java:147 | a slot's fitness becomes its score; nothing else changes |
| ParticleSwarmOptimization.SteerAt | neural-nets/ParticleSwarm.java:132 | updateVelocity on particle k; no other particle, slot or the swarm changes |
| ParticleSwarmOptimization.MoveAt | neural-nets/ParticleSwarm.java:142 | updatePosition on particle k; no slot nor other particle changes |
| ParticleSwarmOptimization.BuildParticles | neural-nets/ParticleSwarm.java:124-126 | `count` fresh particles following slot `local`, no two sharing a Layer, none sharing with the slots |
| ParticleSwarmOptimization.Enlist | neural-nets/ParticleSwarm.java:125 | one more fresh particle joins the recruits |
| ParticleSwarmOptimization.RecruitedAppend | neural-nets/ParticleSwarm.java:124-126 | a new recruit extends the recruited particles |
| ParticleSwarmOptimization.ParticleArray | neural-nets/ParticleSwarm.java:112 | a new array holding the particles in order |
| ParticleSwarmOptimization.ParticleSwarm.UpdateVelocities | neural-nets/ParticleSwarm.java:130-134 | the swarm becomes Accelerated: every particle steered toward its slot; slots and gBestError unchanged |
| ParticleSwarmOptimization.ParticleSwarm.AccelerateNext | neural-nets/ParticleSwarm.java:131-133 | the turn for particle k extends SteeredUpTo |
| ParticleSwarmOptimization.ParticleSwarm.Accelerate | neural-nets/ParticleSwarm.java:132 | particle k steers toward slot `local`; nothing else changes |
| ParticleSwarmOptimization.ParticleSwarm.SteerParticle | neural-nets/ParticleSwarm.java:132 | updateVelocity for particle k; no other particle and no slot changes |
| ParticleSwarmOptimization.ParticleSwarm.UpdatePositions | neural-nets/ParticleSwarm.java:140-157 | the swarm becomes Repositioned: the particle loop, then the ring loop |
| ParticleSwarmOptimization.ParticleSwarm.FlyAll | neural-nets/ParticleSwarm.java:141-149 | the particle loop against Flown |
| ParticleSwarmOptimization.ParticleSwarm.RingAll | neural-nets/ParticleSwarm.java:151-157 | the ring loop against Ringed |
| ParticleSwarmOptimization.ParticleSwarm.FlyNext | neural-nets/ParticleSwarm.java:142-148 | particle k moves, then checks the slot: one more round of Flown |
| ParticleSwarmOptimization.ParticleSwarm.Move | neural-nets/ParticleSwarm.java:142 | particle k moves; no other particle and no slot changes |
| ParticleSwarmOptimization.ParticleSwarm.Check | neural-nets/ParticleSwarm.java:144-148 | when particle k's best error is strictly below the slot's fitness, gBestError and the slot take it |
| ParticleSwarmOptimization.ParticleSwarm.Take | neural-nets/ParticleSwarm.java:145-147 | gBestError takes the best error; the slot the best weights, rescored |
| ParticleSwarmOptimization.ParticleSwarm.Record | neural-nets/ParticleSwarm.java:145 | only gBestError changes |
| ParticleSwarmOptimization.ParticleSwarm.Claim | neural-nets/ParticleSwarm.java:146-147 | the slot takes the best weights and is rescored; nothing else changes |
| ParticleSwarmOptimization.ParticleSwarm.Retake | neural-nets/ParticleSwarm.java:146-147 | setWeights and updateFitness on slot j; no other slot nor particle changes |
| ParticleSwarmOptimization.ParticleSwarm.Reweighed | neural-nets/ParticleSwarm.java:154 | only slot j's weights change |
| ParticleSwarmOptimization.ParticleSwarm.RingNext | neural-nets/ParticleSwarm.java:152-156 | step i of the ring loop: one more step of Ringed |
| ParticleSwarmOptimization.ParticleSwarm.Ring | neural-nets/ParticleSwarm.java:153-155 | slot i takes the next slot's weights when its fitness is strictly lower |
| ParticleSwarmOptimization.ParticleSwarm.Pass | neural-nets/ParticleSwarm.java:154 | slot i takes slot j's weights and keeps its fitness |
| ParticleSwarmOptimization.ParticleSwarm.Of | neural-nets/ParticleSwarm.java:111-127 | stores particles, slots and the shared slot; gBestError +infinity |
| ParticleSwarmOptimization.ParticleSwarm.Assembled | neural-nets/ParticleSwarm.java:111-127 | slots and recruits built apart make a valid swarm |
| ParticleSwarmOptimization.ParticleSwarm.Evaluate | neural-nets/ParticleSwarm.java:163-183 | the particles sorted by best error, lowest first, as a permutation and stably (equal errors keep their order, as `Arrays.sort` guarantees); no particle, net or slot changes |
| ParticleSwarmOptimization.ParticleSwarm.Sort | neural-nets/ParticleSwarm.java:175-182 | the array keeps its particles and ends stably in order of best error |
| ParticleSwarmOptimization.ParticleSwarm.Turns | neural-nets/ParticleSwarm.java:175-182 | all insertion turns: ordered, each particle traced to its old place, equal errors in their old order |
| ParticleSwarmOptimization.ParticleSwarm.Insert | neural-nets/ParticleSwarm.java:175-182 | one insertion turn: the prefix grows in order, equal errors keep their order |
| ParticleSwarmOptimization.ParticleSwarm.OrderedNone | neural-nets/ParticleSwarm.java:175-182 | before the first turn every particle is in its own place |
| ParticleSwarmOptimization.ParticleSwarm.TurnEnd | neural-nets/ParticleSwarm.java:175-182 | a turn that stops at a no-better neighbour leaves one more place in order, stably |
| ParticleSwarmOptimization.SettledApart | neural-nets/ParticleSwarm.java:175-182 | the moving particle's error equals none of the errors it has passed |
| Populations.InsertingStep | neural-nets/ParticleSwarm.java:175-182 | an exchange with the left neighbour keeps the other entries' order among equal keys |
| Populations.InsertingEnd | neural-nets/ParticleSwarm.java:175-182 | a pass that passed no equal key leaves the first i + 1 places stably ordered |
| Populations.InsertedAll | neural-nets/DE.java:130-137 | after the last pass the entries are a stable reordering of the array: a permutation of places, equal keys in their old order |
| Populations.TracedSwap | neural-nets/DE.java:130-137 | exchanging two entries and their origins keeps each traced to its old place |
| ParticleSwarmOptimization.ParticleSwarm.SinkOnce | neural-nets/ParticleSwarm.java:175-182 | the particle at j passes its strictly worse left neighbour |
| ParticleSwarmOptimization.ParticleSwarm.Swap | neural-nets/ParticleSwarm.java:175-182 | two particles trade places; nets stay apart |
| ParticleSwarmOptimization.ParticleSwarm.Fly | neural-nets/ParticleSwarm.java:196-198 | updateVelocities then updatePositions: the swarm's image becomes its Flight (Repositioned of the accelerated image), the array's order is kept and no best error rises |
| ParticleSwarmOptimization.ParticleSwarm.Steer | neural-nets/ParticleSwarm.java:196 | updateVelocities: the image becomes the accelerated image (every velocity by NextVelocity towards the shared slot), the order and every best error kept |
| ParticleSwarmOptimization.ParticleSwarm.Reposition | neural-nets/ParticleSwarm.java:198 | updatePositions: the image becomes Repositioned of the image before (moves, slot updates, ring step), the order kept, no best error raised |
| ParticleSwarmOptimization.ParticleSwarm.Generation | neural-nets/ParticleSwarm.java:196-200 | fly, then sort: the particle states are those of the Flight, stably reordered by best error, with the Flight's slots and gBestError; no particle's best error rises, and `best`, the first particle's, is the lowest |
| ParticleSwarmOptimization.ParticleSwarm.Settle | neural-nets/ParticleSwarm.java:200 | the flown swarm sorted: its states a stable reordering of the flown states, slots kept, `best` the lowest error, each particle's error still at most its bound |
| ParticleSwarmOptimization.ParticleSwarm.Reorder | neural-nets/ParticleSwarm.java:163-183 | evaluate on states: the states before, stably reordered by best error; the slots kept; the same particles, none touched |
| ParticleSwarmOptimization.ParticleSwarm.ErrorsKept | neural-nets/ParticleSwarm.java:163-183 | sorted untouched particles keep their best errors, and the first holds the lowest |
| ParticleSwarmOptimization.ParticleSwarm.PSO | neural-nets/ParticleSwarm.java:192-206 | at most `generations` bests, non-rising, none before the last below 0.01; it ran every generation or the last best is below 0.01; the same particles |
| ParticleSwarmOptimization.ParticleSwarm.Round | neural-nets/ParticleSwarm.java:194-203 | one turn of PSO's loop keeps the books |
| ParticleSwarmOptimization.NewSwarm | neural-nets/ParticleSwarm.java:111-127 | populationSize/2 fresh unscored slots, `local` drawn over lBest.length-1 (below the last slot when there are two or more), populationSize particles with w 0.1, c1 3, c2 1.5; gBestError +infinity |
| ParticleSwarmOptimization.Launch | neural-nets/ParticleSwarm.java:112-127 | the particles, then the swarm over the slots |
| ParticleSwarmOptimization.Crowd | neural-nets/ParticleSwarm.java:124-126 | the particle loop and the new array; the slots unchanged |
| ParticleSwarmOptimization.ProgressStep | neural-nets/ParticleSwarm.java:194-203 | a generation whose best is no higher than the last keeps the run's books |
| ParticleSwarmOptimization.ProgressEnd | neural-nets/ParticleSwarm.java:194-204 | when the loop ends the books describe a whole run |

## Left out

- `FeedForwardNet.evaluate` (FeedForwardNet.java:311-405) and `FeedForwardNet.main` (FeedForwardNet.java:482-538): cross-validation printing and data-set loading, outside the training core. Main.java is not part of this model either: it is a console menu that loads files.
- All console output (`System.out` in backprop and in both `evaluate` methods).
- Randomness: `Math.random()` and `Collections.shuffle` are explicit inputs (draw functions and permutations); the model makes no claim about their distributions.
- Floating point: doubles are modelled as reals, with no NaN, infinity (apart from the +infinity of the best errors) or rounding. `Math.exp` is a parameter of which only `exp(z) >= 0` is assumed (ExpLike). No claim is made about convergence or accuracy.
- Weight matrices, node buffers and outputs are values (sequences). `Layer.setWeights` stores the caller's array reference (FeedForwardNet.java:135), and a layer's node buffer is the previous layer's output array. No Java path writes into such a shared array in a way that is read later, so the sharing itself is not modelled.
- Labels: a sample's label is already decoded (an integer or a real). The Java code parses it with `Integer.parseInt`/`Double.parseDouble` inside `DataC`, which is not part of this model.
- FeedForward.FeedForwardNet.Backprop: requires `1 <= BatchSize() <= trainingData.Length`. For regression with fewer than 10 samples the Java batch size `data.length/10` is 0, so the averaging at FeedForwardNet.java:269-273 divides by zero and every weight becomes NaN. For classification with fewer than 4 samples, `subList(0, 4)` throws at line 238. Neither case is modelled.
- Populations.Trainable, required by Populations.NewMember, Populations.BuildNets, DifferentialEvolution.NewDE and ParticleSwarmOptimization.NewSwarm, asks four things when the nets are built:
  - at least one sample;
  - at least two layers, every layer after the input layer with at least one node;
  - every sample with at least as many features as `data[0]`;
  - every label decoding to a target of the output width.
  The Java code checks none of these when it builds a net. A short sample makes Layer.feedForward throw once updateFitness or backprop reaches it (FeedForwardNet.java:67). A bad label throws at FeedForwardNet.java:248-257 or 456-468. The model does not describe a run that reaches such a sample.
- FeedForward.FeedForwardNet.constructor: requires `|layers| >= 2`, `layers[k] > 0` for every k >= 1 and `|trainingData| > 0`. With fewer than two layers or no samples, init throws at FeedForwardNet.java:191. With a zero-width layer after the input layer, the Java code builds a net whose later passes the model does not describe.
- ParticleSwarmOptimization.ParticleSwarm.UpdateVelocities: requires `particles.Length != 1`. With a single particle there is no slot (`1/2 == 0`), and ParticleSwarm.java:132 throws ArrayIndexOutOfBoundsException.
- ParticleSwarmOptimization.ParticleSwarm.UpdatePositions: requires `particles.Length != 1`, for the same reason (line 144).
- ParticleSwarmOptimization.ParticleSwarm.PSO: requires `generations == 0 || particles.Length >= 2`, for the same exception, and because an empty swarm has no `particles[0]` at line 202.
- ParticleSwarmOptimization.ParticleSwarm.PSO: the loop's contract states the recorded bests and that the array keeps its particles, not the swarm's image after several generations; each generation's image is stated by ParticleSwarm.Generation, which the loop calls once per turn.
- DifferentialEvolution.DE.DiffEvolution: requires `population.Length >= 1`. An empty population throws at DE.java:184 (`population[0]`). The same holds for DiffEvolutionAsWritten.
- DifferentialEvolution.IntendedDonorsOf: the corrected donor search of the third finding is stated and proved on its own; both runs, the corrected one included, use the donor search as written (DonorsOf), so that they differ from the Java code only in the step.
- DifferentialEvolution.DonorsOf: the donor search draws from a finite stream and reports `Stalled` when it runs out. With fewer than four members the Java loop at DE.java:52-54 never ends (see Findings); with four or more it ends with probability 1, which the model does not capture.
- DifferentialEvolution.DonorsOf: X1, X2 and X3 are taken in order of first draw. Java takes them in HashSet iteration order (DE.java:50-61), which depends on identity hash codes. Any order is reachable by reordering the draws, but the model does not pick the Java one, and the trial depends on which donor is X1.
- DifferentialEvolution.DE.Mutation: the `mutationRate` field (0.05) is stored but never read by the Java code, so it plays no part.
- Aliasing between Main.java's data array and the array backprop shuffles: the net's `data` is a value that is separate from the shuffled array, so a shuffle does not reorder the samples that updateFitness later reads.
- DifferentialEvolution.DE.Generation and the rest of the corrected run (GreedyStep, Epoch, Pass, DiffEvolution): these model the step that DiffEvolution's comments describe, which takes two changes to the Java code: the target is a copy of member i, and mutation builds the trial in a fresh net instead of writing it into the target it is handed and returning that (DE.java:79-80). A copy alone would still cross the trial with itself. The step as the code performs it is modelled separately by EvolveIndividual, GenerationAsWritten and DiffEvolutionAsWritten (see Findings).

## Findings

| source | as written | input that shows it | evidently intended | confidence | as-written member | corrected member |
|---|---|---|---|---|---|---|
| neural-nets/DE.java:163-179 | `new FeedForwardNet(population[i])` shares member i's Layer array, so mutation writes the trial into member i itself. Crossover then crosses the trial with itself, and member i keeps the trial whether or not it scores better | first generation, every fitness 0, member i's donors x2 and x3 with equal weights and x1 unlike member i: member i becomes x1 although the child scores no better than 0 | the child crosses member i's own weights with a trial built apart from them (a copy as the target, and a fresh net for the trial), and member i takes the child only when it scores strictly lower; otherwise it keeps its weights, so no member gets worse | not executed | DifferentialEvolution.DE.AsWrittenGenerationDiffers | DifferentialEvolution.DE.GeneratedNoWorse |
| neural-nets/ParticleSwarm.java:118-121 | the lBest slots are built unscored, with fitness 0, and no error is negative, so `particle.pBestError < lBest[local].fitness` at line 144 is never true. Slots are never written, gBestError stays +infinity, and the ring loop never copies | any swarm: every slot at fitness 0 and every error at least 0 | the slots are scored when built, so that the local best follows the best particle | not executed | ParticleSwarmOptimization.InertSlots | ParticleSwarmOptimization.RepositionedLeads |
| neural-nets/DE.java:52-54 | the donor loop draws `(int)(Math.random() * (len - 1))`, which has only len-1 values, until three distinct nets are held | a population of 3: only indexes 0 and 1 can be drawn, so the loop never ends | the loop draws `(int)(Math.random() * len)` over all len members, so any population of three or more finds its donors | not executed | DifferentialEvolution.DE.FewerThanFourStall | DifferentialEvolution.IntendedDonorsFound |
