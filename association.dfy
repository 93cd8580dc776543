/** Nearest-neighbour data association (ParticleFilter::dataAssociation). */
module Association {
  import opened Types

  /** Distance from an observation to each candidate, in candidate order. */
  function DistancesFrom(o: LandmarkObs, predicted: seq<LandmarkObs>, dist: DistanceFn): (ds: seq<real>)
    ensures |ds| == |predicted|
    ensures forall k :: 0 <= k < |predicted| ==> ds[k] == dist(o.x, o.y, predicted[k].x, predicted[k].y)
  {
    seq(|predicted|, k requires 0 <= k < |predicted| => dist(o.x, o.y, predicted[k].x, predicted[k].y))
  }

  /** The running minimum the scan holds: DoubleMax until some candidate improves on it. */
  function MinSoFar(ds: seq<real>, best: Option<nat>): real
  {
    match best
    case None => DoubleMax
    case Some(k) => if k < |ds| then ds[k] else DoubleMax
  }

  /** The scan of the inner loop over ds: the index of the last strict improvement of the
      running minimum, which starts at DoubleMax; None when no distance is below DoubleMax. */
  function Scan(ds: seq<real>): Option<nat>
  {
    if ds == [] then None
    else
      var prev := Scan(ds[..|ds| - 1]);
      if ds[|ds| - 1] < MinSoFar(ds, prev) then Some(|ds| - 1) else prev
  }

  /** k is the first index at which ds takes its minimum, and that minimum is below DoubleMax. */
  ghost predicate IsFirstNearest(ds: seq<real>, k: int)
  {
    0 <= k < |ds| && ds[k] < DoubleMax &&
    (forall j :: 0 <= j < |ds| ==> ds[k] <= ds[j]) &&
    (forall j :: 0 <= j < k ==> ds[k] < ds[j])
  }

  /** The scan picks the first candidate at minimal distance; it picks nothing exactly when
      no distance is below DoubleMax. */
  lemma {:induction false} ScanIsFirstNearest(ds: seq<real>)
    ensures Scan(ds).Some? ==> IsFirstNearest(ds, Scan(ds).value)
    ensures Scan(ds).None? <==> forall j :: 0 <= j < |ds| ==> ds[j] >= DoubleMax
  {
    if ds != [] {
      var init := ds[..|ds| - 1];
      ScanIsFirstNearest(init);
      var prev := Scan(init);
      assert forall j :: 0 <= j < |init| ==> init[j] == ds[j];
      assert MinSoFar(ds, prev) == MinSoFar(init, prev);
    }
  }

  /** At most one index is the first nearest one. */
  lemma FirstNearestUnique(ds: seq<real>, k1: int, k2: int)
    requires IsFirstNearest(ds, k1) && IsFirstNearest(ds, k2)
    ensures k1 == k2
  {
  }

  /** The observation carrying the id of the chosen candidate, or unchanged when none is chosen. */
  function Relabel(o: LandmarkObs, predicted: seq<LandmarkObs>, chosen: Option<nat>): LandmarkObs
  {
    match chosen
    case None => o
    case Some(k) => if k < |predicted| then o.(id := predicted[k].id) else o
  }

  /** The observation after the inner loop over the candidates. */
  function AssociateOne(predicted: seq<LandmarkObs>, o: LandmarkObs, dist: DistanceFn): (r: LandmarkObs)
    ensures r.x == o.x && r.y == o.y
  {
    Relabel(o, predicted, Scan(DistancesFrom(o, predicted, dist)))
  }

  /** Every observation associated independently with the same candidates. */
  function Associated(predicted: seq<LandmarkObs>, observations: seq<LandmarkObs>, dist: DistanceFn): (r: seq<LandmarkObs>)
    ensures |r| == |observations|
    ensures forall i :: 0 <= i < |r| ==> r[i].x == observations[i].x && r[i].y == observations[i].y
    ensures predicted == [] ==> r == observations
  {
    seq(|observations|, i requires 0 <= i < |observations| => AssociateOne(predicted, observations[i], dist))
  }

  /** What association promises for one observation: its new id is that of the first candidate
      at minimal distance, and when every distance is at least DoubleMax (in particular when
      there are no candidates) the observation is unchanged. */
  lemma AssociateOneNearest(predicted: seq<LandmarkObs>, o: LandmarkObs, dist: DistanceFn)
    ensures var ds := DistancesFrom(o, predicted, dist);
            var r := AssociateOne(predicted, o, dist);
            ((exists k :: IsFirstNearest(ds, k)) ==>
               exists k :: IsFirstNearest(ds, k) && r == o.(id := predicted[k].id)) &&
            ((forall j :: 0 <= j < |ds| ==> ds[j] >= DoubleMax) ==> r == o)
  {
    var ds := DistancesFrom(o, predicted, dist);
    ScanIsFirstNearest(ds);
    if s :| IsFirstNearest(ds, s) {
      assert Scan(ds).Some?;
      FirstNearestUnique(ds, s, Scan(ds).value);
    }
  }

  /** dataAssociation: overwrite the id of each observation with the id of the nearest
      candidate, the first one on ties; positions are never touched. */
  method DataAssociation(predicted: seq<LandmarkObs>, observations: array<LandmarkObs>, dist: DistanceFn)
    modifies observations
    ensures observations[..] == Associated(predicted, old(observations[..]), dist)
  {
    var i := 0;
    while i < observations.Length
      invariant 0 <= i <= observations.Length
      invariant forall j :: 0 <= j < i ==> observations[j] == AssociateOne(predicted, old(observations[j]), dist)
      invariant forall j :: i <= j < observations.Length ==> observations[j] == old(observations[j])
    {
      ghost var o := observations[i];
      ghost var ds := DistancesFrom(o, predicted, dist);
      var minDistance := DoubleMax;
      var k := 0;
      while k < |predicted|
        invariant 0 <= k <= |predicted|
        invariant minDistance == MinSoFar(ds[..k], Scan(ds[..k]))
        invariant observations[i] == Relabel(o, predicted, Scan(ds[..k]))
        invariant Scan(ds[..k]).Some? ==> Scan(ds[..k]).value < k
        invariant forall j :: 0 <= j < i ==> observations[j] == AssociateOne(predicted, old(observations[j]), dist)
        invariant forall j :: i < j < observations.Length ==> observations[j] == old(observations[j])
      {
        assert ds[..k + 1][..k] == ds[..k];
        var distance := dist(observations[i].x, observations[i].y, predicted[k].x, predicted[k].y);
        assert distance == ds[..k + 1][k];
        if distance < minDistance {
          minDistance := distance;
          observations[i] := observations[i].(id := predicted[k].id);
        }
        k := k + 1;
      }
      assert ds[..|predicted|] == ds;
      assert observations[i] == AssociateOne(predicted, old(observations[i]), dist);
      i := i + 1;
    }
  }
}
