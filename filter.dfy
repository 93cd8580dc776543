/** The particle filter object: its population and the operations that update it in place
    (ParticleFilter::init, prediction, updateWeights and resample). */
module Filter {
  import opened Types
  import opened Association
  import opened WeightUpdate

  /** The population size init chooses. */
  const InitialParticleCount: nat := 100

  function Abs(r: real): real
  {
    if r < 0.0 then -r else r
  }

  // ---------------------------------------------------------------------------
  // Initialisation

  /** The i-th particle init creates: id i, weight 1, a pose drawn around the estimate. */
  function InitialParticle(i: nat, x: real, y: real, theta: real, std: seq<real>, gaussian: GaussianDraw): Particle
    requires |std| >= 3
  {
    Particle(i, gaussian(3 * i, x, std[0]), gaussian(3 * i + 1, y, std[1]), gaussian(3 * i + 2, theta, std[2]), 1.0, [], [], [])
  }

  /** The particles init appends, in order. */
  function InitialPopulation(x: real, y: real, theta: real, std: seq<real>, gaussian: GaussianDraw): (ps: seq<Particle>)
    requires |std| >= 3
    ensures |ps| == InitialParticleCount
    ensures forall i :: 0 <= i < |ps| ==>
              ps[i].id == i && ps[i].weight == 1.0 &&
              ps[i].associations == [] && ps[i].senseX == [] && ps[i].senseY == []
  {
    seq(InitialParticleCount, i requires 0 <= i < InitialParticleCount => InitialParticle(i, x, y, theta, std, gaussian))
  }

  // ---------------------------------------------------------------------------
  // Motion

  /** The noise-free motion of one pose over deltaT: a straight line when the yaw rate is below
      machine epsilon in magnitude, an arc otherwise. */
  function Moved(p: Particle, deltaT: real, velocity: real, yawRate: real, sin: TrigFn, cos: TrigFn): (real, real, real)
  {
    if Abs(yawRate) < DoubleEpsilon then
      (p.x + velocity * cos(p.theta) * deltaT, p.y + velocity * sin(p.theta) * deltaT, p.theta)
    else
      (p.x + (velocity / yawRate) * (sin(p.theta + yawRate * deltaT) - sin(p.theta)),
       p.y + (velocity / yawRate) * (cos(p.theta) - cos(p.theta + yawRate * deltaT)),
       p.theta + yawRate * deltaT)
  }

  /** The i-th particle after prediction: its moved pose perturbed by three draws centred on it. */
  function PredictedParticle(p: Particle, i: nat, deltaT: real, stdPos: seq<real>, velocity: real, yawRate: real,
                             sin: TrigFn, cos: TrigFn, gaussian: GaussianDraw): Particle
    requires |stdPos| >= 3
  {
    var m := Moved(p, deltaT, velocity, yawRate, sin, cos);
    p.(x := gaussian(3 * i, m.0, stdPos[0]), y := gaussian(3 * i + 1, m.1, stdPos[1]), theta := gaussian(3 * i + 2, m.2, stdPos[2]))
  }

  /** With zero yaw rate and noise-free draws, a particle moves in a straight line along its
      heading, which stays the same; nothing but the pose changes. */
  lemma StraightLineMotion(p: Particle, i: nat, deltaT: real, velocity: real, sin: TrigFn, cos: TrigFn, gaussian: GaussianDraw)
    requires forall k: nat, mean: real :: gaussian(k, mean, 0.0) == mean
    ensures PredictedParticle(p, i, deltaT, [0.0, 0.0, 0.0], velocity, 0.0, sin, cos, gaussian)
         == p.(x := p.x + velocity * cos(p.theta) * deltaT, y := p.y + velocity * sin(p.theta) * deltaT)
  {
    var stdPos := [0.0, 0.0, 0.0];
    assert stdPos[0] == 0.0 && stdPos[1] == 0.0 && stdPos[2] == 0.0;
    assert Abs(0.0) < DoubleEpsilon;
    var m := Moved(p, deltaT, velocity, 0.0, sin, cos);
    assert m.0 == p.x + velocity * cos(p.theta) * deltaT;
    assert m.1 == p.y + velocity * sin(p.theta) * deltaT;
    assert m.2 == p.theta;
    assert gaussian(3 * i, m.0, 0.0) == m.0;
    assert gaussian(3 * i + 1, m.1, 0.0) == m.1;
    assert gaussian(3 * i + 2, m.2, 0.0) == m.2;
  }

  // ---------------------------------------------------------------------------
  // Weight update and resampling, as functions of the population

  /** Every particle with its new, unnormalised weight. */
  function Scored(ps: seq<Particle>, observations: seq<LandmarkObs>, landmarks: seq<MapLandmark>,
                  sensorRange: real, stdX: real, stdY: real, dist: DistanceFn,
                  sin: TrigFn, cos: TrigFn, density: DensityFn, unsetId: int): (r: seq<Particle>)
    ensures |r| == |ps|
  {
    seq(|ps|, i requires 0 <= i < |ps| =>
      ps[i].(weight := ParticleWeight(ps[i], observations, landmarks, sensorRange, stdX, stdY, dist, sin, cos, density, unsetId)))
  }

  /** The weight update changes only weights, keeps the population size, and leaves weights
      summing to one whenever their unnormalised total exceeds machine epsilon. */
  lemma {:induction false} WeightUpdateOnlyReweights(ps: seq<Particle>, observations: seq<LandmarkObs>, landmarks: seq<MapLandmark>,
                                                     sensorRange: real, stdX: real, stdY: real, dist: DistanceFn,
                                                     sin: TrigFn, cos: TrigFn, density: DensityFn, unsetId: int)
    ensures var scored := Scored(ps, observations, landmarks, sensorRange, stdX, stdY, dist, sin, cos, density, unsetId);
            var r := Normalized(scored);
            |r| == |ps| &&
            (forall i :: 0 <= i < |ps| ==> r[i] == ps[i].(weight := r[i].weight)) &&
            (Sum(Weights(scored)) > DoubleEpsilon ==> Sum(Weights(r)) == 1.0)
  {
    var scored := Scored(ps, observations, landmarks, sensorRange, stdX, stdY, dist, sin, cos, density, unsetId);
    NormalizedSumsToOne(scored);
  }

  /** With a non-negative density, every weight the update leaves behind is non-negative,
      both before and after normalisation, and at most one when normalisation divides. */
  lemma UpdatedWeightsBounded(ps: seq<Particle>, observations: seq<LandmarkObs>, landmarks: seq<MapLandmark>,
                              sensorRange: real, stdX: real, stdY: real, dist: DistanceFn,
                              sin: TrigFn, cos: TrigFn, density: DensityFn, unsetId: int)
    requires forall a, b, c, d, e, f :: density(a, b, c, d, e, f) >= 0.0
    ensures var scored := Scored(ps, observations, landmarks, sensorRange, stdX, stdY, dist, sin, cos, density, unsetId);
            var r := Normalized(scored);
            (forall i :: 0 <= i < |ps| ==> scored[i].weight >= 0.0 && r[i].weight >= 0.0) &&
            (Sum(Weights(scored)) > DoubleEpsilon ==> forall i :: 0 <= i < |ps| ==> r[i].weight <= 1.0)
  {
    var scored := Scored(ps, observations, landmarks, sensorRange, stdX, stdY, dist, sin, cos, density, unsetId);
    forall i | 0 <= i < |ps|
      ensures scored[i].weight >= 0.0
    {
      var p := ps[i];
      var predicted := Candidates(p, landmarks, sensorRange, dist);
      var local := seq(|observations|, j requires 0 <= j < |observations| => ToMapFrame(p, observations[j], sin, cos, unsetId));
      var observed := Associated(predicted, local, dist);
      LikelihoodNonNegative(observed, Means(observed, predicted), stdX, stdY, density);
    }
    NormalizedSumsToOne(scored);
    if Sum(Weights(scored)) > DoubleEpsilon {
      NormalizedWeightsBounded(scored);
    }
  }

  /** The population resample builds: n copies of particles at the drawn indices. */
  function Resampled(ps: seq<Particle>, n: nat, sample: IndexDraw): (r: seq<Particle>)
    requires forall k :: 0 <= k < n ==> 0 <= sample(Weights(ps), k) < |ps|
    ensures |r| == n
  {
    seq(n, k requires 0 <= k < n => ps[sample(Weights(ps), k)])
  }

  /** Resampling yields exactly n particles, each a copy of a particle of the old population,
      and an old particle survives only if some draw picked its position. */
  lemma ResampledFromPopulation(ps: seq<Particle>, n: nat, sample: IndexDraw)
    requires forall k :: 0 <= k < n ==> 0 <= sample(Weights(ps), k) < |ps|
    ensures var r := Resampled(ps, n, sample);
            |r| == n && (forall q :: q in r ==> q in ps) &&
            forall j :: 0 <= j < |ps| && (exists k :: 0 <= k < n && sample(Weights(ps), k) == j) ==> ps[j] in r
  {
    var r := Resampled(ps, n, sample);
    forall j | 0 <= j < |ps| && (exists k :: 0 <= k < n && sample(Weights(ps), k) == j)
      ensures ps[j] in r
    {
      var k :| 0 <= k < n && sample(Weights(ps), k) == j;
      assert r[k] == ps[j];
    }
  }

  /** The body of the particle loop of updateWeights: select candidates, transform the
      observations into the map frame, associate them, and multiply the Gaussian terms. */
  method ScoreParticle(particle: Particle, observations: seq<LandmarkObs>, landmarks: seq<MapLandmark>,
                       sensorRange: real, stdX: real, stdY: real, dist: DistanceFn,
                       sin: TrigFn, cos: TrigFn, density: DensityFn, unsetId: int)
    returns (probabilityParticle: real)
    ensures probabilityParticle == ParticleWeight(particle, observations, landmarks, sensorRange, stdX, stdY, dist, sin, cos, density, unsetId)
  {
    var predicted := SelectCandidates(particle, landmarks, sensorRange, dist);
    var transformed := TransformObservations(particle, observations, sin, cos, unsetId);
    assert transformed == seq(|observations|, k requires 0 <= k < |observations| => ToMapFrame(particle, observations[k], sin, cos, unsetId));
    var observedLandmarks := new LandmarkObs[|transformed|](k requires 0 <= k < |transformed| => transformed[k]);
    assert observedLandmarks[..] == transformed;
    DataAssociation(predicted, observedLandmarks, dist);
    probabilityParticle := ParticleLikelihood(observedLandmarks[..], predicted, stdX, stdY, density);
  }

  // ---------------------------------------------------------------------------
  // The filter object

  class ParticleFilter {
    var numParticles: nat
    var isInitialized: bool
    var particles: seq<Particle>

    /** The population holds numParticles particles. */
    ghost predicate Valid()
      reads this
    {
      |particles| == numParticles
    }

    constructor ()
      ensures numParticles == 0 && !isInitialized && particles == []
      ensures Valid()
    {
      numParticles := 0;
      isInitialized := false;
      particles := [];
    }

    /** init: append InitialParticleCount particles drawn around (x, y, theta), with sequential
        ids and weight 1, and mark the filter initialised. */
    method Init(x: real, y: real, theta: real, std: seq<real>, gaussian: GaussianDraw)
      requires |std| >= 3
      modifies this
      ensures numParticles == InitialParticleCount && isInitialized
      ensures particles == old(particles) + InitialPopulation(x, y, theta, std, gaussian)
      ensures old(particles) == [] ==> Valid()
    {
      numParticles := InitialParticleCount;
      ghost var pop := InitialPopulation(x, y, theta, std, gaussian);
      var i := 0;
      while i < numParticles
        invariant 0 <= i <= numParticles == InitialParticleCount
        invariant particles == old(particles) + pop[..i]
      {
        var p := Particle(i, gaussian(3 * i, x, std[0]), gaussian(3 * i + 1, y, std[1]), gaussian(3 * i + 2, theta, std[2]), 1.0, [], [], []);
        assert pop[..i + 1] == pop[..i] + [p];
        particles := particles + [p];
        i := i + 1;
      }
      assert pop[..InitialParticleCount] == pop;
      isInitialized := true;
    }

    /** prediction: move every particle and perturb its pose; nothing else changes. */
    method Prediction(deltaT: real, stdPos: seq<real>, velocity: real, yawRate: real,
                      sin: TrigFn, cos: TrigFn, gaussian: GaussianDraw)
      requires |stdPos| >= 3
      modifies this
      ensures numParticles == old(numParticles) && isInitialized == old(isInitialized)
      ensures |particles| == |old(particles)|
      ensures forall i :: 0 <= i < |particles| ==>
                particles[i] == PredictedParticle(old(particles)[i], i, deltaT, stdPos, velocity, yawRate, sin, cos, gaussian)
      ensures old(Valid()) ==> Valid()
    {
      var i := 0;
      while i < |particles|
        invariant 0 <= i <= |particles| == |old(particles)|
        invariant forall j :: 0 <= j < i ==>
                    particles[j] == PredictedParticle(old(particles)[j], j, deltaT, stdPos, velocity, yawRate, sin, cos, gaussian)
        invariant forall j :: i <= j < |particles| ==> particles[j] == old(particles)[j]
        invariant numParticles == old(numParticles) && isInitialized == old(isInitialized)
      {
        var particle := particles[i];
        ghost var m := Moved(particle, deltaT, velocity, yawRate, sin, cos);
        if Abs(yawRate) < DoubleEpsilon {
          particle := particle.(x := particle.x + velocity * cos(particle.theta) * deltaT,
                                y := particle.y + velocity * sin(particle.theta) * deltaT);
        } else {
          particle := particle.(x := particle.x + (velocity / yawRate) * (sin(particle.theta + yawRate * deltaT) - sin(particle.theta)),
                                y := particle.y + (velocity / yawRate) * (cos(particle.theta) - cos(particle.theta + yawRate * deltaT)),
                                theta := particle.theta + yawRate * deltaT);
        }
        assert particle.x == m.0 && particle.y == m.1 && particle.theta == m.2;
        particle := particle.(x := gaussian(3 * i, particle.x, stdPos[0]),
                              y := gaussian(3 * i + 1, particle.y, stdPos[1]),
                              theta := gaussian(3 * i + 2, particle.theta, stdPos[2]));
        assert particle == PredictedParticle(old(particles)[i], i, deltaT, stdPos, velocity, yawRate, sin, cos, gaussian);
        particles := particles[i := particle];
        i := i + 1;
      }
    }

    /** updateWeights: give every particle the likelihood of the observations seen from its
        pose, then normalise. */
    method UpdateWeights(sensorRange: real, stdLandmark: seq<real>, observations: seq<LandmarkObs>,
                         landmarks: seq<MapLandmark>, dist: DistanceFn, sin: TrigFn, cos: TrigFn,
                         density: DensityFn, unsetId: int)
      requires |stdLandmark| >= 2
      modifies this
      ensures numParticles == old(numParticles) && isInitialized == old(isInitialized)
      ensures particles == Normalized(Scored(old(particles), observations, landmarks, sensorRange,
                                             stdLandmark[0], stdLandmark[1], dist, sin, cos, density, unsetId))
      ensures old(Valid()) ==> Valid()
    {
      ghost var scored := Scored(old(particles), observations, landmarks, sensorRange,
                                 stdLandmark[0], stdLandmark[1], dist, sin, cos, density, unsetId);
      var i := 0;
      while i < |particles|
        invariant 0 <= i <= |particles| == |old(particles)|
        invariant forall j :: 0 <= j < i ==> particles[j] == scored[j]
        invariant forall j :: i <= j < |particles| ==> particles[j] == old(particles)[j]
        invariant numParticles == old(numParticles) && isInitialized == old(isInitialized)
      {
        var particle := particles[i];
        var probabilityParticle := ScoreParticle(particle, observations, landmarks, sensorRange,
                                                 stdLandmark[0], stdLandmark[1], dist, sin, cos, density, unsetId);
        particles := particles[i := particle.(weight := probabilityParticle)];
        i := i + 1;
      }
      assert particles == scored;
      NormalizeWeights();
    }

    /** The normalisation at the end of updateWeights. */
    method NormalizeWeights()
      modifies this
      ensures numParticles == old(numParticles) && isInitialized == old(isInitialized)
      ensures particles == Normalized(old(particles))
      ensures old(Valid()) ==> Valid()
    {
      var sumWeights := TotalWeight(particles);
      if sumWeights > DoubleEpsilon {
        var i := 0;
        while i < |particles|
          invariant 0 <= i <= |particles| == |old(particles)|
          invariant forall j :: 0 <= j < i ==> particles[j] == old(particles)[j].(weight := old(particles)[j].weight / sumWeights)
          invariant forall j :: i <= j < |particles| ==> particles[j] == old(particles)[j]
          invariant numParticles == old(numParticles) && isInitialized == old(isInitialized)
        {
          particles := particles[i := particles[i].(weight := particles[i].weight / sumWeights)];
          i := i + 1;
        }
      }
    }

    /** resample: replace the population by numParticles copies of particles at the indices
        drawn from the weights. */
    method Resample(sample: IndexDraw)
      requires forall k :: 0 <= k < numParticles ==> 0 <= sample(Weights(particles), k) < |particles|
      modifies this
      ensures numParticles == old(numParticles) && isInitialized == old(isInitialized)
      ensures particles == Resampled(old(particles), numParticles, sample)
      ensures Valid()
    {
      var particleWeights := [];
      var i := 0;
      while i < |particles|
        invariant 0 <= i <= |particles|
        invariant particleWeights == Weights(particles[..i])
      {
        assert particles[..i + 1][..i] == particles[..i];
        particleWeights := particleWeights + [particles[i].weight];
        i := i + 1;
      }
      assert particles[..|particles|] == particles;
      var resampledParticles := [];
      var k := 0;
      while k < numParticles
        invariant 0 <= k <= numParticles
        invariant |resampledParticles| == k
        invariant forall j :: 0 <= j < k ==> resampledParticles[j] == particles[sample(particleWeights, j)]
      {
        resampledParticles := resampledParticles + [particles[sample(particleWeights, k)]];
        k := k + 1;
      }
      particles := resampledParticles;
    }
  }
}
