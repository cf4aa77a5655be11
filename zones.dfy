/** Engagement zones and the hysteresis classifier of the proximity skill
    (`get_zone_with_hysteresis`). */
module Zones {
  import opened Actuators

  /** A classified zone; "no zone yet" is `None` of an `Option<Zone>`. */
  datatype Zone = Far | Medium | Near

  /** The range of distances over which a subject already in zone `z` stays in it. */
  predicate StayBand(z: Zone, d: real)
  {
    match z
    case Near => d <= 1.0
    case Medium => 0.6 <= d <= 1.7
    case Far => d >= 1.3
  }

  /** The zone a first reading yields, with no zone yet. */
  predicate EnterBand(z: Zone, d: real)
  {
    match z
    case Far => d > 1.5
    case Medium => 0.7 < d <= 1.5
    case Near => d <= 0.7
  }

  /** Classifies a distance in metres against the current zone. An absent reading keeps
      the current zone; otherwise the result is always some zone. */
  function Classify(dist: Option<real>, current: Option<Zone>): (r: Option<Zone>)
    ensures dist.None? ==> r == current
    ensures dist.Some? ==> r.Some?
    // first classification
    ensures dist.Some? && current.None? ==>
      forall z: Zone :: r == Some(z) <==> EnterBand(z, dist.value)
    // leaving NEAR needs more than 1.0 m; from there the first-classification far threshold applies
    ensures dist.Some? && current == Some(Near) ==>
      && (r == Some(Near) <==> dist.value <= 1.0)
      && (r == Some(Medium) <==> 1.0 < dist.value <= 1.5)
      && (r == Some(Far) <==> dist.value > 1.5)
    ensures dist.Some? && current == Some(Medium) ==>
      && (r == Some(Near) <==> dist.value < 0.6)
      && (r == Some(Medium) <==> 0.6 <= dist.value <= 1.7)
      && (r == Some(Far) <==> dist.value > 1.7)
    // leaving FAR needs less than 1.3 m; from there the near threshold is 0.7 m
    ensures dist.Some? && current == Some(Far) ==>
      && (r == Some(Near) <==> dist.value < 0.7)
      && (r == Some(Medium) <==> 0.7 <= dist.value < 1.3)
      && (r == Some(Far) <==> dist.value >= 1.3)
  {
    if dist.None? then current
    else
      var d := dist.value;
      match current
      case None =>
        if d > 1.5 then Some(Far)
        else if d > 0.7 then Some(Medium)
        else Some(Near)
      case Some(Near) =>
        if d > 1.0 then (if d > 1.5 then Some(Far) else Some(Medium))
        else Some(Near)
      case Some(Medium) =>
        if d < 0.6 then Some(Near)
        else if d > 1.7 then Some(Far)
        else Some(Medium)
      case Some(Far) =>
        if d < 1.3 then (if d < 0.7 then Some(Near) else Some(Medium))
        else Some(Far)
  }

  /** A subject stays in its zone exactly while the reading is inside that zone's stay band. */
  lemma StaysExactlyInBand(z: Zone, d: real)
    ensures Classify(Some(d), Some(z)) == Some(z) <==> StayBand(z, d)
  {
  }

  /** Hysteresis: every band a first reading enters lies inside the band that keeps the
      subject there, and is strictly narrower on every side that borders another zone. */
  lemma EnterBandInsideStayBand(z: Zone, d: real)
    ensures EnterBand(z, d) ==> StayBand(z, d)
    ensures z == Near ==> StayBand(z, 0.9) && !EnterBand(z, 0.9)
    ensures z == Far ==> StayBand(z, 1.4) && !EnterBand(z, 1.4)
    ensures z == Medium ==> StayBand(z, 0.65) && !EnterBand(z, 0.65)
    ensures z == Medium ==> StayBand(z, 1.6) && !EnterBand(z, 1.6)
  {
  }

  /** Feeding the same reading twice never changes the zone the second time. */
  lemma ClassifyIdempotent(dist: Option<real>, current: Option<Zone>)
    ensures Classify(dist, Classify(dist, current)) == Classify(dist, current)
  {
  }

  /** The zone after a whole series of readings, each classified against the last result. */
  function ClassifyAll(current: Option<Zone>, dists: seq<Option<real>>): (r: Option<Zone>)
    decreases |dists|
  {
    if dists == [] then current
    else ClassifyAll(Classify(dists[0], current), dists[1..])
  }

  /** Readings that are absent or inside zone `z`'s stay band. */
  predicate AllInStayBand(z: Zone, dists: seq<Option<real>>)
  {
    forall i :: 0 <= i < |dists| && dists[i].Some? ==> StayBand(z, dists[i].value)
  }

  /** Hysteresis stability: a subject oscillating inside its zone's stay band never leaves it. */
  lemma {:induction false} StableInsideStayBand(z: Zone, dists: seq<Option<real>>)
    requires AllInStayBand(z, dists)
    ensures ClassifyAll(Some(z), dists) == Some(z)
    decreases |dists|
  {
    if dists != [] {
      if dists[0].Some? {
        StaysExactlyInBand(z, dists[0].value);
      }
      assert AllInStayBand(z, dists[1..]) by {
        forall i | 0 <= i < |dists[1..]| && dists[1..][i].Some?
          ensures StayBand(z, dists[1..][i].value)
        {
          assert dists[1..][i] == dists[i + 1];
        }
      }
      StableInsideStayBand(z, dists[1..]);
    }
  }

  /** Conversely, one reading outside the stay band is enough to leave the zone. */
  lemma LeavesOutsideStayBand(z: Zone, d: real)
    requires !StayBand(z, d)
    ensures ClassifyAll(Some(z), [Some(d)]) != Some(z)
  {
    StaysExactlyInBand(z, d);
    assert [Some(d)][1..] == [];
  }
}
