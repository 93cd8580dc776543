# Particle filter localiser — Dafny model

This project models the bookkeeping of a particle-filter localiser (`ParticleFilter` in
`src/particle_filter.cpp`). The filter keeps a population of pose hypotheses
(particles). Each step moves every particle, scores it against landmark observations and
resamples the population. The model covers:

- **initialisation**: 100 particles with sequential ids and weight 1;
- **prediction**: straight or arc motion followed by Gaussian perturbation;
- **nearest-neighbour data association**: strict `<`, so the first candidate wins ties;
- **the loops of the weight update**: candidate selection by sensor range, transformation
  into the map frame, association, mean lookup with its carried-over mean, and the product
  of Gaussian terms;
- **weight normalisation**, skipped when the total is at most machine epsilon;
- **resampling**: the population is replaced by copies at drawn indices;
- **the diagnostic accessors** `SetAssociations` and `getAssociations`.

Layout, one module per component:

- `types.dfy` (`Types`): particles, observations, map landmarks, the constants
  `numeric_limits<double>::epsilon()` and `::max()`, and the signatures of the routines
  that stay outside the model.
- `association.dfy` (`Association`): `dataAssociation`.
- `weight_update.dfy` (`WeightUpdate`): the per-particle loops of `updateWeights` and the
  normalisation.
- `diagnostics.dfy` (`Diagnostics`): `SetAssociations` and `getAssociations`, with a reader
  for the association text.
- `filter.dfy` (`Filter`): class `ParticleFilter`, whose field `particles` (a `seq`) is
  updated in place by `Init`, `Prediction`, `UpdateWeights` and `Resample`. It also holds the
  specification functions those methods are proved against.

Everything random or transcendental is a parameter:

- `dist` is the Euclidean distance helper.
- `sin` and `cos` are the trigonometric functions.
- `gaussian(k, mean, std)` is the k-th normal draw of a call.
- `density` is the bivariate Gaussian term.
- `sample(weights, k)` is the k-th `discrete_distribution` draw.

Doubles are modelled as `real`.

One might expect every observation that matches no candidate to be scored against the
mean `(0, 0)`. The code declares `muX`/`muY` once, before the observation
loop, and never resets them. An unmatched observation therefore reuses the mean of the
previous observation, and only the first observation falls back to `(0, 0)`. The model
follows the code (`WeightUpdate.Means`, `WeightUpdate.MeansLookup`).

## Model

| member | source | states |
|---|---|---|
| `Association.ScanIsFirstNearest` | src/particle_filter.cpp:83-90 | The strict-`<` scan starting from DBL_MAX picks the first candidate at minimal distance; it picks none exactly when every distance is at least DBL_MAX |
| `Association.FirstNearestUnique` | src/particle_filter.cpp:86-89 | The first-minimum tie-break determines a single candidate |
| `Association.AssociateOneNearest` | src/particle_filter.cpp:82-91 | An observation's new id is the id of the first nearest candidate; with no candidates (or none closer than DBL_MAX) the observation is unchanged |
| `Association.Associated` | src/particle_filter.cpp:82-91 | Association keeps the number of observations and every x/y; with an empty candidate list it changes nothing |
| `Association.DataAssociation` | src/particle_filter.cpp:76-92 | The in-place nested loop leaves the observation array equal to the association of its old contents |
| `WeightUpdate.CandidatesAppend` | src/particle_filter.cpp:110-118 | Candidate selection distributes over concatenation of the map, i.e. it keeps map order |
| `WeightUpdate.CandidatesSingle` | src/particle_filter.cpp:112-117 | A landmark becomes a candidate, with its id and coordinates copied, exactly when distance minus range is below epsilon |
| `WeightUpdate.CandidatesMembership` | src/particle_filter.cpp:110-118 | A candidate is present iff some map landmark with that id and those coordinates passes the range test |
| `WeightUpdate.SelectCandidates` | src/particle_filter.cpp:109-118 | The selection loop yields exactly the filtered candidates, never more than there are landmarks |
| `WeightUpdate.TransformObservations` | src/particle_filter.cpp:120-127 | Each observation is rotated by the particle's heading and translated by its position, one output per input, in order |
| `WeightUpdate.TransformRoundTrip` | src/particle_filter.cpp:124-125 | When sin²+cos² = 1 the transform is rigid: the inverse transform recovers the local coordinates |
| `WeightUpdate.LastMatchIsLast` | src/particle_filter.cpp:133-138 | The mean becomes the coordinates of the last candidate with the observation's id; with no such candidate the carried mean is kept |
| `WeightUpdate.MeansAt` | src/particle_filter.cpp:131-138 | One mean per observation; each lookup starts from the previous observation's mean, and from (0, 0) for the first |
| `WeightUpdate.MeansLookup` | src/particle_filter.cpp:131-138 | An observation's mean is its last matching candidate's coordinates; an unmatched observation reuses the previous observation's mean, or (0, 0) if it is the first |
| `WeightUpdate.LikelihoodNonNegative` | src/particle_filter.cpp:130-143 | When every Gaussian term is non-negative, the product over the observations is non-negative, whatever the means |
| `WeightUpdate.ParticleLikelihood` | src/particle_filter.cpp:131-144 | The observation loop returns the product of the Gaussian terms, each evaluated at that observation's looked-up mean |
| `WeightUpdate.TotalWeight` | src/particle_filter.cpp:150-152 | The summing loop returns the sum of all weights |
| `WeightUpdate.SumScaled` | src/particle_filter.cpp:155-156 | Dividing every weight by the total divides the sum by the total |
| `WeightUpdate.NormalizedSumsToOne` | src/particle_filter.cpp:150-157 | Normalisation changes only weights; above epsilon the weights then sum to 1, otherwise the population is unchanged |
| `WeightUpdate.NormalizedWeightsBounded` | src/particle_filter.cpp:154-157 | With non-negative weights and a total above epsilon, every normalised weight lies in [0, 1] |
| `Diagnostics.SetAssociations` | src/particle_filter.cpp:178-191 | The particle gets the three diagnostic fields; id, pose and weight are unchanged |
| `Diagnostics.IntDecimalRoundTrip` | src/particle_filter.cpp:197 | The decimal text written for an int reads back as that int |
| `Diagnostics.GetAssociations` | src/particle_filter.cpp:193-201 | The stream of "id " texts with its last character cut off (the empty stream staying empty through the npos wrap) is the ids joined by single spaces |
| `Diagnostics.AssociationsRoundTrip` | src/particle_filter.cpp:193-201 | The text determines the list: splitting at spaces and parsing gives back the ids in order, and the text is empty exactly for the empty list |
| `Filter.InitialPopulation` | src/particle_filter.cpp:30-44 | Init creates 100 particles whose ids are 0..99, with weight 1 and empty diagnostics |
| `Filter.StraightLineMotion` | src/particle_filter.cpp:56-58 | With zero yaw rate and noise-free draws a particle moves by v·cos θ·dt and v·sin θ·dt and keeps its heading |
| `Filter.WeightUpdateOnlyReweights` | src/particle_filter.cpp:107-157 | The weight update keeps the population size and every field but the weight, and leaves weights summing to 1 when the total exceeds epsilon |
| `Filter.UpdatedWeightsBounded` | src/particle_filter.cpp:130-157 | With a non-negative density every weight is non-negative after scoring and after normalisation, and at most 1 when the scored total exceeds epsilon |
| `Filter.ResampledFromPopulation` | src/particle_filter.cpp:165-175 | Resampling yields num_particles particles, each a copy of an old particle, and every drawn position survives |
| `Filter.ScoreParticle` | src/particle_filter.cpp:109-146 | The per-particle body of the weight update computes that particle's likelihood from candidates, transformed and associated observations |
| `Filter.ParticleFilter.Init` | src/particle_filter.cpp:24-46 | Appends the initial population to the existing particles, sets num_particles to 100 and the initialised flag |
| `Filter.ParticleFilter.Prediction` | src/particle_filter.cpp:48-74 | Every particle's pose is moved (straight below epsilon yaw rate, along an arc otherwise) and perturbed; count and other fields unchanged |
| `Filter.ParticleFilter.UpdateWeights` | src/particle_filter.cpp:94-158 | Every particle is scored, then the population is normalised; the population size is kept |
| `Filter.ParticleFilter.NormalizeWeights` | src/particle_filter.cpp:149-157 | Weights are divided by their sum when it exceeds epsilon and left alone otherwise; the population size still equals num_particles |
| `Filter.ParticleFilter.Resample` | src/particle_filter.cpp:160-176 | The population becomes num_particles copies of old particles at the drawn indices; afterwards its size equals num_particles |

## Left out

- Random draws (`normal_distribution`, `discrete_distribution` and the global engine) are
  parameters. `gaussian(k, mean, std)` and `sample(weights, k)` are the k-th values drawn
  in one call. That the draws follow their distributions is not modelled.
- `Filter.ParticleFilter.Resample`: it requires every drawn index to lie in
  `[0, |particles|)`. `discrete_distribution` guarantees this only when the weights are
  non-negative and their sum is positive. When every weight is zero its draw is undefined.
  That state is reachable: if every likelihood underflows to zero, normalisation is skipped
  (src/particle_filter.cpp:154) and resampling builds the distribution from zero weights
  (src/particle_filter.cpp:169). The requires excludes that case, so the model says nothing
  about it. That resampling picks particles in proportion to their weights is not stated.
- `sin`, `cos`, the distance helper `dist`, and the Gaussian density (`exp`, `pow`,
  `M_PI`) are parameters. Nothing is proved about their values, except where a lemma
  states an assumption: `TransformRoundTrip` assumes the Pythagorean identity,
  `StraightLineMotion` assumes noise-free draws, and `LikelihoodNonNegative` and
  `UpdatedWeightsBounded` assume a non-negative density (an `exp` divided by a positive
  denominator).
- Floating point: doubles are reals. The epsilon and DBL_MAX comparisons are exact, and
  rounding, overflow, underflow and NaN are not modelled. Over reals the normalised weights
  sum to exactly 1.
- `Filter.StraightLineMotion`: covers only the zero-yaw-rate branch. The arc branch is
  stated by `Filter.Moved` but not checked against numeric values of sin and cos.
- `getSenseX` and `getSenseY` (src/particle_filter.cpp:202-219) are left out: they format
  doubles through `ostream_iterator<float>`, and float-to-text conversion is out of reach.
- `particle_filter.h` and `helper_functions.h` are not part of this model. The
  `ParticleFilter` constructor starts from an empty population, `num_particles` 0 and not
  initialised, which is that header's usual default.
- The transformed observations in `updateWeights` are default-constructed, so their `id`
  is never set. The model gives all of them one unknown value, `unsetId`. It does not
  model each one holding a different indeterminate value.
- `Diagnostics.SetAssociations`: the source writes through a reference and returns a copy.
  The model returns the updated particle and leaves storing it to the caller, so aliasing
  is not modelled.
- C++ `int` and `size_t` widths: ids and counters are unbounded integers. `npos` is taken
  as 2^64 − 1, the 64-bit `size_t` maximum.
- The source never checks `is_initialized` before prediction, update or resampling, so the
  model does not require it either.
