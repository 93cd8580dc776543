/** Values the particle filter works on: particles, landmark observations,
    map landmarks, the floating-point constants the filter compares against,
    and the signatures of the numeric and random routines it calls. */
module Types {

  datatype Option<T> = None | Some(value: T)

  /** std::numeric_limits<double>::epsilon(), that is 2^-52. */
  const DoubleEpsilon: real := 1.0 / 4503599627370496.0

  /** std::numeric_limits<double>::max(), that is (2 - 2^-52) * 2^1023. */
  const DoubleMax: real := 179769313486231570814527423731704356798070567525844996598917476803157260780028538760589558632766878171540458953514382464234321326889464182768467546703537516986049910576551282076245490090389328944075868508455133942304583236903222948165808559332123348274797826204144723168738177180919299881250404026184124858368.0

  /** One pose hypothesis with its weight and its diagnostic bookkeeping. */
  datatype Particle = Particle(
    id: int,
    x: real,
    y: real,
    theta: real,
    weight: real,
    associations: seq<int>,
    senseX: seq<real>,
    senseY: seq<real>)

  /** A point with an identity: a raw or transformed observation, or a candidate landmark. */
  datatype LandmarkObs = LandmarkObs(id: int, x: real, y: real)

  /** One landmark of the map (its coordinates are floats in the source; the widening to double is exact). */
  datatype MapLandmark = MapLandmark(id: int, x: real, y: real)

  /** Euclidean distance between (x1, y1) and (x2, y2), computed by a helper outside the model. */
  type DistanceFn = (real, real, real, real) -> real

  /** sin or cos. */
  type TrigFn = real -> real

  /** Gaussian(k, mean, std): the k-th normal draw made during one call, centred on mean. */
  type GaussianDraw = (nat, real, real) -> real

  /** Density(ox, oy, muX, muY, stdX, stdY): the bivariate Gaussian term of one observation. */
  type DensityFn = (real, real, real, real, real, real) -> real

  /** Sample(weights, k): the k-th index drawn from std::discrete_distribution over weights. */
  type IndexDraw = (seq<real>, nat) -> int

  /** Weights of a population, in order. */
  function Weights(ps: seq<Particle>): (ws: seq<real>)
    ensures |ws| == |ps|
    ensures forall i :: 0 <= i < |ps| ==> ws[i] == ps[i].weight
  {
    if ps == [] then [] else Weights(ps[..|ps| - 1]) + [ps[|ps| - 1].weight]
  }

  /** Sum of a sequence of reals, added left to right. */
  function Sum(ws: seq<real>): real
  {
    if ws == [] then 0.0 else Sum(ws[..|ws| - 1]) + ws[|ws| - 1]
  }
}
