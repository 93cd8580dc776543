/** The loops inside ParticleFilter::updateWeights that work on one particle, and the
    weight normalisation that follows them. */
module WeightUpdate {
  import opened Types
  import opened Association

  // ---------------------------------------------------------------------------
  // Candidate landmarks

  /** The range test: distance minus sensor range is below machine epsilon. */
  predicate InRange(p: Particle, l: MapLandmark, sensorRange: real, dist: DistanceFn)
  {
    dist(p.x, p.y, l.x, l.y) - sensorRange < DoubleEpsilon
  }

  /** The candidate built from a map landmark: same id, same coordinates. */
  function AsCandidate(l: MapLandmark): LandmarkObs
  {
    LandmarkObs(l.id, l.x, l.y)
  }

  /** The map landmarks that pass the range test, in map order, as candidates. */
  function Candidates(p: Particle, landmarks: seq<MapLandmark>, sensorRange: real, dist: DistanceFn): seq<LandmarkObs>
  {
    if landmarks == [] then []
    else
      var init := Candidates(p, landmarks[..|landmarks| - 1], sensorRange, dist);
      var l := landmarks[|landmarks| - 1];
      if InRange(p, l, sensorRange, dist) then init + [AsCandidate(l)] else init
  }

  /** Filtering distributes over concatenation: candidates keep map order. */
  lemma {:induction false} CandidatesAppend(p: Particle, a: seq<MapLandmark>, b: seq<MapLandmark>, sensorRange: real, dist: DistanceFn)
    ensures Candidates(p, a + b, sensorRange, dist)
         == Candidates(p, a, sensorRange, dist) + Candidates(p, b, sensorRange, dist)
    decreases |b|
  {
    if b == [] {
      assert a + b == a;
    } else {
      var b' := b[..|b| - 1];
      CandidatesAppend(p, a, b', sensorRange, dist);
      assert (a + b)[..|a + b| - 1] == a + b';
    }
  }

  /** A single landmark is a candidate exactly when it passes the range test. */
  lemma CandidatesSingle(p: Particle, l: MapLandmark, sensorRange: real, dist: DistanceFn)
    ensures Candidates(p, [l], sensorRange, dist) == if InRange(p, l, sensorRange, dist) then [AsCandidate(l)] else []
  {
    assert [l][..0] == [];
  }

  /** A candidate is present exactly when some map landmark with its id and coordinates passes
      the range test. */
  lemma {:induction false} CandidatesMembership(p: Particle, landmarks: seq<MapLandmark>, sensorRange: real, dist: DistanceFn, c: LandmarkObs)
    ensures c in Candidates(p, landmarks, sensorRange, dist)
        <==> exists l :: l in landmarks && InRange(p, l, sensorRange, dist) && c == AsCandidate(l)
  {
    if landmarks != [] {
      var init := landmarks[..|landmarks| - 1];
      CandidatesMembership(p, init, sensorRange, dist, c);
      assert landmarks == init + [landmarks[|landmarks| - 1]];
    }
  }

  /** The candidate-selection loop of updateWeights. */
  method SelectCandidates(p: Particle, landmarks: seq<MapLandmark>, sensorRange: real, dist: DistanceFn)
    returns (predicted: seq<LandmarkObs>)
    ensures predicted == Candidates(p, landmarks, sensorRange, dist)
    ensures |predicted| <= |landmarks|
  {
    predicted := [];
    var i := 0;
    while i < |landmarks|
      invariant 0 <= i <= |landmarks|
      invariant predicted == Candidates(p, landmarks[..i], sensorRange, dist)
      invariant |predicted| <= i
    {
      assert landmarks[..i + 1][..i] == landmarks[..i];
      var l := landmarks[i];
      var particleLandmarkDistance := dist(p.x, p.y, l.x, l.y);
      if particleLandmarkDistance - sensorRange < DoubleEpsilon {
        predicted := predicted + [LandmarkObs(l.id, l.x, l.y)];
      }
      i := i + 1;
    }
    assert landmarks[..|landmarks|] == landmarks;
  }

  // ---------------------------------------------------------------------------
  // Vehicle frame to map frame

  /** Rotation by the particle's heading, then translation by its position. The id of the new
      observation is never set in the source; unsetId stands for that indeterminate value. */
  function ToMapFrame(p: Particle, o: LandmarkObs, sin: TrigFn, cos: TrigFn, unsetId: int): LandmarkObs
  {
    LandmarkObs(unsetId,
                cos(p.theta) * o.x - sin(p.theta) * o.y + p.x,
                sin(p.theta) * o.x + cos(p.theta) * o.y + p.y)
  }

  /** The inverse rigid transform: map frame back to the particle's frame. */
  function FromMapFrame(p: Particle, g: LandmarkObs, sin: TrigFn, cos: TrigFn): (real, real)
  {
    (cos(p.theta) * (g.x - p.x) + sin(p.theta) * (g.y - p.y),
     cos(p.theta) * (g.y - p.y) - sin(p.theta) * (g.x - p.x))
  }

  /** The transform is rigid: when sin and cos of the heading satisfy the Pythagorean identity,
      transforming to the map frame and back returns the original local coordinates. */
  lemma TransformRoundTrip(p: Particle, o: LandmarkObs, sin: TrigFn, cos: TrigFn, unsetId: int)
    requires sin(p.theta) * sin(p.theta) + cos(p.theta) * cos(p.theta) == 1.0
    ensures FromMapFrame(p, ToMapFrame(p, o, sin, cos, unsetId), sin, cos) == (o.x, o.y)
  {
    var s, c := sin(p.theta), cos(p.theta);
    var g := ToMapFrame(p, o, sin, cos, unsetId);
    var r := FromMapFrame(p, g, sin, cos);
    assert g.x - p.x == c * o.x - s * o.y && g.y - p.y == s * o.x + c * o.y;
    assert r.0 == c * (c * o.x - s * o.y) + s * (s * o.x + c * o.y) == (s * s + c * c) * o.x;
    assert r.1 == c * (s * o.x + c * o.y) - s * (c * o.x - s * o.y) == (s * s + c * c) * o.y;
    assert s * s + c * c == 1.0;
    assert r.0 == o.x && r.1 == o.y;
  }

  /** The transformation loop of updateWeights. */
  method TransformObservations(p: Particle, observations: seq<LandmarkObs>, sin: TrigFn, cos: TrigFn, unsetId: int)
    returns (observed: seq<LandmarkObs>)
    ensures |observed| == |observations|
    ensures forall i :: 0 <= i < |observations| ==> observed[i] == ToMapFrame(p, observations[i], sin, cos, unsetId)
  {
    observed := [];
    var i := 0;
    while i < |observations|
      invariant 0 <= i <= |observations|
      invariant |observed| == i
      invariant forall j :: 0 <= j < i ==> observed[j] == ToMapFrame(p, observations[j], sin, cos, unsetId)
    {
      var o := observations[i];
      var landmark := LandmarkObs(unsetId,
                                  cos(p.theta) * o.x - sin(p.theta) * o.y + p.x,
                                  sin(p.theta) * o.x + cos(p.theta) * o.y + p.y);
      observed := observed + [landmark];
      i := i + 1;
    }
  }

  // ---------------------------------------------------------------------------
  // Mean lookup

  /** The inner scan of the mean lookup: every candidate with the wanted id overwrites the mean. */
  function LastMatch(id: int, predicted: seq<LandmarkObs>, carried: (real, real)): (real, real)
  {
    if predicted == [] then carried
    else
      var last := predicted[|predicted| - 1];
      if last.id == id then (last.x, last.y) else LastMatch(id, predicted[..|predicted| - 1], carried)
  }

  /** The last candidate with the wanted id supplies the mean; with no such candidate the mean
      carried in is kept. */
  lemma {:induction false} LastMatchIsLast(id: int, predicted: seq<LandmarkObs>, carried: (real, real))
    ensures (forall k :: 0 <= k < |predicted| ==> predicted[k].id != id) ==> LastMatch(id, predicted, carried) == carried
    ensures forall k :: 0 <= k < |predicted| && predicted[k].id == id &&
                        (forall j :: k < j < |predicted| ==> predicted[j].id != id) ==>
              LastMatch(id, predicted, carried) == (predicted[k].x, predicted[k].y)
  {
    if predicted != [] {
      var n := |predicted| - 1;
      var init := predicted[..n];
      if predicted[n].id != id {
        LastMatchIsLast(id, init, carried);
        assert forall k :: 0 <= k < n ==> init[k] == predicted[k];
        assert LastMatch(id, predicted, carried) == LastMatch(id, init, carried);
      }
    }
  }

  /** The means the observation loop uses, one per observation: muX and muY start at (0, 0)
      and are never reset, so each lookup starts from the previous observation's mean. */
  function Means(observed: seq<LandmarkObs>, predicted: seq<LandmarkObs>): (mus: seq<(real, real)>)
    ensures |mus| == |observed|
  {
    if observed == [] then []
    else
      var n := |observed| - 1;
      var init := Means(observed[..n], predicted);
      var carried := if n == 0 then (0.0, 0.0) else init[n - 1];
      init + [LastMatch(observed[n].id, predicted, carried)]
  }

  /** Observation i is looked up starting from the mean of observation i - 1, or from (0, 0)
      for the first observation. */
  lemma {:induction false} MeansAt(observed: seq<LandmarkObs>, predicted: seq<LandmarkObs>, i: nat)
    requires i < |observed|
    ensures var mus := Means(observed, predicted);
            mus[i] == LastMatch(observed[i].id, predicted, if i == 0 then (0.0, 0.0) else mus[i - 1])
  {
    var n := |observed| - 1;
    var init := Means(observed[..n], predicted);
    assert Means(observed, predicted)[..n] == init;
    if i < n {
      MeansAt(observed[..n], predicted, i);
      assert observed[..n][i] == observed[i];
    }
  }

  /** The mean of observation i: the coordinates of the last candidate carrying its id, or,
      when no candidate does, the mean of the previous observation, and (0, 0) for the first. */
  lemma MeansLookup(observed: seq<LandmarkObs>, predicted: seq<LandmarkObs>, i: nat)
    requires i < |observed|
    ensures var mus := Means(observed, predicted);
            var carried := if i == 0 then (0.0, 0.0) else mus[i - 1];
            ((forall k :: 0 <= k < |predicted| ==> predicted[k].id != observed[i].id) ==> mus[i] == carried) &&
            (forall k :: 0 <= k < |predicted| && predicted[k].id == observed[i].id &&
                         (forall j :: k < j < |predicted| ==> predicted[j].id != observed[i].id) ==>
               mus[i] == (predicted[k].x, predicted[k].y))
  {
    var mus := Means(observed, predicted);
    MeansAt(observed, predicted, i);
    LastMatchIsLast(observed[i].id, predicted, if i == 0 then (0.0, 0.0) else mus[i - 1]);
  }

  /** The product of the Gaussian terms, left to right, each taken at its observation's mean. */
  function Likelihood(observed: seq<LandmarkObs>, mus: seq<(real, real)>, stdX: real, stdY: real, density: DensityFn): real
    requires |mus| == |observed|
  {
    if observed == [] then 1.0
    else
      var n := |observed| - 1;
      Likelihood(observed[..n], mus[..n], stdX, stdY, density)
        * density(observed[n].x, observed[n].y, mus[n].0, mus[n].1, stdX, stdY)
  }

  /** A product of non-negative Gaussian terms is non-negative, so every particle weight the
      update computes is, whatever the means. */
  lemma {:induction false} LikelihoodNonNegative(observed: seq<LandmarkObs>, mus: seq<(real, real)>, stdX: real, stdY: real, density: DensityFn)
    requires |mus| == |observed|
    requires forall a, b, c, d, e, f :: density(a, b, c, d, e, f) >= 0.0
    ensures Likelihood(observed, mus, stdX, stdY, density) >= 0.0
  {
    if observed != [] {
      var n := |observed| - 1;
      LikelihoodNonNegative(observed[..n], mus[..n], stdX, stdY, density);
      var term := density(observed[n].x, observed[n].y, mus[n].0, mus[n].1, stdX, stdY);
      assert term >= 0.0;
    }
  }

  /** The observation loop of updateWeights: the mean lookup for each observation followed by
      the product of the Gaussian terms. */
  method ParticleLikelihood(observed: seq<LandmarkObs>, predicted: seq<LandmarkObs>, stdX: real, stdY: real, density: DensityFn)
    returns (probabilityParticle: real)
    ensures probabilityParticle == Likelihood(observed, Means(observed, predicted), stdX, stdY, density)
  {
    ghost var mus := Means(observed, predicted);
    probabilityParticle := 1.0;
    var muX, muY := 0.0, 0.0;
    var i := 0;
    while i < |observed|
      invariant 0 <= i <= |observed|
      invariant i == 0 ==> muX == 0.0 && muY == 0.0
      invariant i > 0 ==> muX == mus[i - 1].0 && muY == mus[i - 1].1
      invariant probabilityParticle == Likelihood(observed[..i], mus[..i], stdX, stdY, density)
    {
      var o := observed[i];
      ghost var carried := if i == 0 then (0.0, 0.0) else mus[i - 1];
      assert muX == carried.0 && muY == carried.1;
      var k := 0;
      while k < |predicted|
        invariant 0 <= k <= |predicted|
        invariant muX == LastMatch(o.id, predicted[..k], carried).0
        invariant muY == LastMatch(o.id, predicted[..k], carried).1
      {
        assert predicted[..k + 1][..k] == predicted[..k];
        if o.id == predicted[k].id {
          muX := predicted[k].x;
          muY := predicted[k].y;
        }
        k := k + 1;
      }
      assert predicted[..|predicted|] == predicted;
      MeansAt(observed, predicted, i);
      assert mus[i] == LastMatch(o.id, predicted, carried);
      assert observed[..i + 1][..i] == observed[..i];
      assert mus[..i + 1][..i] == mus[..i];
      probabilityParticle := probabilityParticle * density(o.x, o.y, muX, muY, stdX, stdY);
      i := i + 1;
    }
    assert observed[..|observed|] == observed;
    assert mus[..|mus|] == mus;
  }

  /** The new, unnormalised weight of one particle: candidates, transformed observations,
      association, then the product over the observations. */
  function ParticleWeight(p: Particle, observations: seq<LandmarkObs>, landmarks: seq<MapLandmark>,
                          sensorRange: real, stdX: real, stdY: real, dist: DistanceFn,
                          sin: TrigFn, cos: TrigFn, density: DensityFn, unsetId: int): real
  {
    var predicted := Candidates(p, landmarks, sensorRange, dist);
    var local := seq(|observations|, i requires 0 <= i < |observations| => ToMapFrame(p, observations[i], sin, cos, unsetId));
    var observed := Associated(predicted, local, dist);
    Likelihood(observed, Means(observed, predicted), stdX, stdY, density)
  }

  // ---------------------------------------------------------------------------
  // Normalisation

  /** The population after normalisation: every weight divided by the total when the total
      exceeds machine epsilon, the population untouched otherwise. */
  function Normalized(ps: seq<Particle>): (r: seq<Particle>)
    ensures |r| == |ps|
  {
    var total := Sum(Weights(ps));
    if total > DoubleEpsilon then seq(|ps|, i requires 0 <= i < |ps| => ps[i].(weight := ps[i].weight / total))
    else ps
  }

  /** Dividing every element by s divides the sum by s. */
  lemma {:induction false} SumScaled(ws: seq<real>, vs: seq<real>, s: real)
    requires s != 0.0
    requires |vs| == |ws|
    requires forall i :: 0 <= i < |ws| ==> vs[i] == ws[i] / s
    ensures Sum(vs) == Sum(ws) / s
  {
    if ws != [] {
      var n := |ws| - 1;
      SumScaled(ws[..n], vs[..n], s);
      assert Sum(vs) == Sum(ws[..n]) / s + ws[n] / s;
    }
  }

  /** Normalisation changes nothing but weights, and when it divides, the weights sum to one. */
  lemma {:induction false} NormalizedSumsToOne(ps: seq<Particle>)
    ensures var r := Normalized(ps);
            forall i :: 0 <= i < |ps| ==> r[i] == ps[i].(weight := r[i].weight)
    ensures Sum(Weights(ps)) > DoubleEpsilon ==> Sum(Weights(Normalized(ps))) == 1.0
    ensures Sum(Weights(ps)) <= DoubleEpsilon ==> Normalized(ps) == ps
  {
    var total := Sum(Weights(ps));
    if total > DoubleEpsilon {
      assert total / total == 1.0;
      var ws, r := Weights(ps), Normalized(ps);
      var vs := Weights(r);
      assert forall i :: 0 <= i < |ps| ==> vs[i] == r[i].weight == ps[i].weight / total;
      SumScaled(ws, vs, total);
    }
  }

  /** Sum of non-negative reals is at least each of them. */
  lemma {:induction false} SumBoundsElements(ws: seq<real>, i: nat)
    requires forall j :: 0 <= j < |ws| ==> ws[j] >= 0.0
    requires i < |ws|
    ensures 0.0 <= ws[i] <= Sum(ws)
  {
    var n := |ws| - 1;
    if i < n {
      SumBoundsElements(ws[..n], i);
      assert ws[..n][i] == ws[i];
    }
    SumNonNegative(ws[..n]);
  }

  lemma {:induction false} SumNonNegative(ws: seq<real>)
    requires forall j :: 0 <= j < |ws| ==> ws[j] >= 0.0
    ensures Sum(ws) >= 0.0
  {
    if ws != [] {
      SumNonNegative(ws[..|ws| - 1]);
    }
  }

  /** With non-negative weights, normalisation leaves every weight in [0, 1]. */
  lemma {:induction false} NormalizedWeightsBounded(ps: seq<Particle>)
    requires forall j :: 0 <= j < |ps| ==> ps[j].weight >= 0.0
    requires Sum(Weights(ps)) > DoubleEpsilon
    ensures forall i :: 0 <= i < |ps| ==> 0.0 <= Normalized(ps)[i].weight <= 1.0
  {
    var total := Sum(Weights(ps));
    var ws, r := Weights(ps), Normalized(ps);
    forall i | 0 <= i < |ps|
      ensures 0.0 <= r[i].weight <= 1.0
    {
      var a := ws[i];
      SumBoundsElements(ws, i);
      var q := a / total;
      assert q * total == a;
      assert (1.0 - q) * total == total - a;
      assert q <= 1.0;
      assert r[i].weight == q;
    }
  }

  /** The summing loop of the normalisation. */
  method TotalWeight(ps: seq<Particle>) returns (sumWeights: real)
    ensures sumWeights == Sum(Weights(ps))
  {
    sumWeights := 0.0;
    var i := 0;
    while i < |ps|
      invariant 0 <= i <= |ps|
      invariant sumWeights == Sum(Weights(ps[..i]))
    {
      assert ps[..i + 1][..i] == ps[..i];
      sumWeights := sumWeights + ps[i].weight;
      i := i + 1;
    }
    assert ps[..|ps|] == ps;
  }
}
