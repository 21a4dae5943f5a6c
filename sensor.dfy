/**
 * The generic bounded sensor (sensor.h) and the clamped accumulation that the
 * light and food sensors perform on it.
 */
module Sensors {
  import opened Params
  import opened Geometry
  import opened Numerics

  /** sensor.h:55-63: a reading is clamped to [MIN_READING, MAX_READING] on every write. */
  function ClampReading(r: real): (c: real)
    ensures MIN_READING <= c <= MAX_READING
  {
    if r >= MAX_READING then MAX_READING
    else if r <= MIN_READING then MIN_READING
    else r
  }

  /** At or above the maximum the stored reading is the maximum, at or below the minimum it is the minimum, and in between it is the value itself. */
  lemma ClampReadingExact(r: real)
    ensures r >= MAX_READING ==> ClampReading(r) == MAX_READING
    ensures r <= MIN_READING ==> ClampReading(r) == MIN_READING
    ensures MIN_READING < r < MAX_READING ==> ClampReading(r) == r
  {
  }

  /** Clamping a reading that is already in range changes nothing, so clamping twice is clamping once. */
  lemma ClampReadingIdempotent(r: real)
    ensures MIN_READING <= r <= MAX_READING ==> ClampReading(r) == r
    ensures ClampReading(ClampReading(r)) == ClampReading(r)
  {
  }

  /** The reading after one notification that contributes `c`: the sum, clamped. */
  function AccumulateReading(r: real, c: real): real
  {
    ClampReading(r + c)
  }

  /** One notification keeps the reading in range and, when c > 0, never lowers it. */
  lemma AccumulateNeverDecreases(r: real, c: real)
    requires MIN_READING <= r <= MAX_READING && c > 0.0
    ensures r <= AccumulateReading(r, c) <= MAX_READING
    ensures AccumulateReading(r, c) == if r + c >= MAX_READING then MAX_READING else r + c
  {
  }

  /** A contribution that alone reaches the maximum (1200 in particular) saturates the reading. */
  lemma AccumulateSaturates(r: real, c: real)
    requires r >= MIN_READING && c >= MAX_READING
    ensures AccumulateReading(r, c) == MAX_READING
  {
  }

  /** A larger contribution never gives a smaller reading. */
  lemma AccumulateMonotone(r: real, c1: real, c2: real)
    requires c1 <= c2
    ensures AccumulateReading(r, c1) <= AccumulateReading(r, c2)
  {
  }

  function Min(a: real, b: real): real { if a <= b then a else b }

  /** Two notifications a then b give min(MAX, r + a + b), whichever comes first. */
  lemma AccumulateTwice(r: real, a: real, b: real)
    requires MIN_READING <= r <= MAX_READING && a > 0.0 && b > 0.0
    ensures AccumulateReading(AccumulateReading(r, a), b) == Min(MAX_READING, r + a + b)
    ensures AccumulateReading(AccumulateReading(r, a), b) == AccumulateReading(AccumulateReading(r, b), a)
  {
  }

  /** The reading after a sequence of notifications, delivered left to right. */
  function AccumulateAll(r: real, cs: seq<real>): real
    decreases |cs|
  {
    if cs == [] then r else AccumulateAll(AccumulateReading(r, cs[0]), cs[1..])
  }

  /** Delivering one more notification after a sequence of them. */
  lemma {:induction false} AccumulateAllSnoc(r: real, cs: seq<real>, c: real)
    ensures AccumulateAll(r, cs + [c]) == AccumulateReading(AccumulateAll(r, cs), c)
    decreases |cs|
  {
    if cs == [] {
      assert cs + [c] == [c];
      assert [c][1..] == [];
    } else {
      assert (cs + [c])[1..] == cs[1..] + [c];
      AccumulateAllSnoc(AccumulateReading(r, cs[0]), cs[1..], c);
    }
  }

  function Sum(cs: seq<real>): real
    decreases |cs|
  {
    if cs == [] then 0.0 else cs[0] + Sum(cs[1..])
  }

  predicate AllPositive(cs: seq<real>)
  {
    forall i :: 0 <= i < |cs| ==> cs[i] > 0.0
  }

  /** Any number of positive contributions give the clamped sum min(MAX, r + sum). */
  lemma {:induction false} AccumulateAllIsClampedSum(r: real, cs: seq<real>)
    requires MIN_READING <= r <= MAX_READING && AllPositive(cs)
    ensures AccumulateAll(r, cs) == Min(MAX_READING, r + Sum(cs))
    decreases |cs|
  {
    if cs != [] {
      var r1 := AccumulateReading(r, cs[0]);
      assert AllPositive(cs[1..]) by {
        forall i | 0 <= i < |cs[1..]| ensures cs[1..][i] > 0.0 { assert cs[1..][i] == cs[i + 1]; }
      }
      AccumulateAllIsClampedSum(r1, cs[1..]);
      SumNonNegative(cs[1..]);
    }
  }

  lemma {:induction false} SumNonNegative(cs: seq<real>)
    requires AllPositive(cs)
    ensures Sum(cs) >= 0.0
    decreases |cs|
  {
    if cs != [] {
      assert AllPositive(cs[1..]) by {
        forall i | 0 <= i < |cs[1..]| ensures cs[1..][i] > 0.0 { assert cs[1..][i] == cs[i + 1]; }
      }
      SumNonNegative(cs[1..]);
    }
  }

  lemma {:induction false} SumAppend(a: seq<real>, b: seq<real>)
    ensures Sum(a + b) == Sum(a) + Sum(b)
    decreases |a|
  {
    if a == [] {
      assert a + b == b;
    } else {
      assert (a + b)[1..] == a[1..] + b;
      SumAppend(a[1..], b);
    }
  }

  /** Sum depends only on the multiset of contributions. */
  lemma {:induction false} SumPermutation(a: seq<real>, b: seq<real>)
    requires multiset(a) == multiset(b)
    ensures Sum(a) == Sum(b)
    decreases |a|
  {
    if a != [] {
      assert a[0] in multiset(b);
      var i :| 0 <= i < |b| && b[i] == a[0];
      var rest := b[..i] + b[i + 1..];
      RemoveAtMultiset(b, i);
      assert multiset(a[1..]) == multiset(a) - multiset{a[0]} by {
        assert a == [a[0]] + a[1..];
      }
      SumPermutation(a[1..], rest);
      SumRemoveAt(b, i);
    }
  }

  lemma RemoveAtMultiset(b: seq<real>, i: nat)
    requires i < |b|
    ensures multiset(b[..i] + b[i + 1..]) == multiset(b) - multiset{b[i]}
  {
    assert b == b[..i] + [b[i]] + b[i + 1..];
    assert multiset(b) == multiset(b[..i]) + multiset{b[i]} + multiset(b[i + 1..]);
  }

  lemma SumRemoveAt(b: seq<real>, i: nat)
    requires i < |b|
    ensures Sum(b) == b[i] + Sum(b[..i] + b[i + 1..])
  {
    assert b == b[..i] + ([b[i]] + b[i + 1..]);
    SumAppend(b[..i], [b[i]] + b[i + 1..]);
    SumAppend([b[i]], b[i + 1..]);
    SumAppend(b[..i], b[i + 1..]);
    assert Sum([b[i]]) == b[i] by { assert [b[i]][1..] == []; }
  }

  /** The order in which the sources notify a sensor does not matter. */
  lemma AccumulateOrderIndependent(r: real, cs: seq<real>, ds: seq<real>)
    requires MIN_READING <= r <= MAX_READING && AllPositive(cs) && multiset(cs) == multiset(ds)
    ensures AccumulateAll(r, cs) == AccumulateAll(r, ds)
  {
    assert AllPositive(ds) by {
      forall j | 0 <= j < |ds| ensures ds[j] > 0.0 {
        assert ds[j] in multiset(cs);
      }
    }
    AccumulateAllIsClampedSum(r, cs);
    AccumulateAllIsClampedSum(r, ds);
    SumPermutation(cs, ds);
  }

  /**
   * The term a source centred at `source` with radius `radius` adds to a sensor
   * at `at` whose falloff base is `b`: 1200 / b^d with d the distance to the
   * source's edge, floored at 0 (light_sensor.cc:32-41, food_sensor.cc:30-38).
   */
  function Contribution(ph: Physics, b: real, source: Pose, radius: real, at: Pose): real
  {
    ph.falloff(b, EffectiveDistance(ph.dist(at, source), radius))
  }

  /** Every source adds something positive to a sensor with a positive base. */
  lemma ContributionPositive(ph: Physics, b: real, source: Pose, radius: real, at: Pose)
    requires Sound(ph) && 0.0 < b
    ensures Contribution(ph, b, source, radius, at) > 0.0
  {
  }

  /** A sensor point inside the source (effective distance 0) receives exactly 1200. */
  lemma ContributionInside(ph: Physics, b: real, source: Pose, radius: real, at: Pose)
    requires Sound(ph) && WithinDistance(at, source, radius)
    ensures EffectiveDistance(ph.dist(at, source), radius) == 0.0
    ensures Contribution(ph, b, source, radius, at) == 1200.0
  {
    WithinDistanceIsDistanceComparison(at, source, radius, ph.dist(at, source));
  }

  /** A sensor farther from the source receives no more (for a base above 1). */
  lemma ContributionFallsWithDistance(ph: Physics, b: real, source: Pose, radius: real, near: Pose, far: Pose)
    requires Sound(ph) && 1.0 < b && ph.dist(near, source) <= ph.dist(far, source)
    ensures Contribution(ph, b, source, radius, far) <= Contribution(ph, b, source, radius, near)
  {
    var d1 := EffectiveDistance(ph.dist(near, source), radius);
    var d2 := EffectiveDistance(ph.dist(far, source), radius);
    assert 0.0 <= d1 <= d2;
  }

  /** Hence the reading after a notification is monotonically decreasing in distance. */
  lemma ReadingFallsWithDistance(ph: Physics, r: real, b: real, source: Pose, radius: real, near: Pose, far: Pose)
    requires Sound(ph) && 1.0 < b && ph.dist(near, source) <= ph.dist(far, source)
    ensures AccumulateReading(r, Contribution(ph, b, source, radius, far))
         <= AccumulateReading(r, Contribution(ph, b, source, radius, near))
  {
    ContributionFallsWithDistance(ph, b, source, radius, near, far);
    AccumulateMonotone(r, Contribution(ph, b, source, radius, far), Contribution(ph, b, source, radius, near));
  }

  /** sensor.h: a reading within [0, 1000] and a sensor type. */
  class Sensor {
    var sensorType: SensorType
    var reading: real

    ghost predicate Valid()
      reads this
    {
      MIN_READING <= reading <= MAX_READING
    }

    /** sensor.h:45-47, 85-87: a new sensor is a light sensor reading 0. */
    constructor ()
      ensures Valid() && reading == 0.0 && sensorType == LightSensorKind
    {
      sensorType := LightSensorKind;
      new;
      ZeroReading();
    }

    /** sensor.h:55-63 */
    method SetReading(r: real)
      modifies this`reading
      ensures Valid()
      ensures reading == ClampReading(r)
    {
      if r >= MAX_READING {
        reading := MAX_READING;
      } else if r <= MIN_READING {
        reading := MIN_READING;
      } else {
        reading := r;
      }
    }

    /** sensor.h:69 */
    method GetReading() returns (r: real)
      ensures r == reading
    {
      r := reading;
    }

    /** sensor.h:75 */
    method SetSensorType(t: SensorType)
      modifies this`sensorType
      ensures sensorType == t
    {
      sensorType := t;
    }

    /** sensor.h:81 */
    method GetSensorType() returns (t: SensorType)
      ensures t == sensorType
    {
      t := sensorType;
    }

    /** sensor.h:85 */
    method ZeroReading()
      modifies this`reading
      ensures Valid() && reading == 0.0
    {
      reading := 0.0;
    }
  }
}
