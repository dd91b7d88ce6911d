/**
 * The matching engine of the driver-location relay (`findNearbyDrivers` in
 * socket/server.js): take the registry's entries, keep those within the
 * distance bound of the query point, annotate each with its distance and sort
 * the result ascending by distance.
 *
 * The geodesic distance (`geolib.getDistance`, whole metres) is a parameter of
 * type `Metric`; nothing is assumed about it.
 */
module Nearby {

  /** A registry value: the last reported position of one driver. */
  datatype Pos = Pos(latitude: real, longitude: real, timestamp: int)

  /** One element of `Object.entries(drivers)`: a driver id and its position. */
  datatype Entry = Entry(id: string, pos: Pos)

  /** One element of a `nearbyDrivers` reply: the entry spread out, plus its distance. */
  datatype NearbyDriver = NearbyDriver(id: string, latitude: real, longitude: real, timestamp: int, distance: nat)

  /** `geolib.getDistance(from, to)` in whole metres, for (lat1, lon1, lat2, lon2). */
  type Metric = (real, real, real, real) -> nat

  /** The bound used when the environment does not set MAX_DISTANCE. */
  const DefaultMaxDistance: nat := 5000

  function DistanceTo(lat: real, lon: real, p: Pos, dist: Metric): nat
  {
    dist(lat, lon, p.latitude, p.longitude)
  }

  predicate Within(lat: real, lon: real, maxDistance: nat, dist: Metric, e: Entry)
  {
    DistanceTo(lat, lon, e.pos, dist) <= maxDistance
  }

  /** The object built by the `.map` step: `{ id, ...location, distance }`. */
  function Annotate(lat: real, lon: real, dist: Metric, e: Entry): NearbyDriver
  {
    NearbyDriver(e.id, e.pos.latitude, e.pos.longitude, e.pos.timestamp, DistanceTo(lat, lon, e.pos, dist))
  }

  // ---------------------------------------------------------------------------
  // The registry as a sequence of entries

  predicate DistinctIds(es: seq<Entry>)
  {
    forall i, j :: 0 <= i < j < |es| ==> es[i].id != es[j].id
  }

  /** `es` lists every key of `m` exactly once, with its value (in some order). */
  ghost predicate IsEntries(m: map<string, Pos>, es: seq<Entry>)
  {
    && (forall i :: 0 <= i < |es| ==> es[i].id in m && m[es[i].id] == es[i].pos)
    && DistinctIds(es)
    && (forall k :: k in m ==> exists i :: 0 <= i < |es| && es[i].id == k)
  }

  /** `Object.entries(m)`: the order JavaScript would use is not modelled. */
  method Entries(m: map<string, Pos>) returns (es: seq<Entry>)
    ensures IsEntries(m, es)
  {
    es := [];
    var rest := m.Keys;
    while rest != {}
      invariant rest <= m.Keys
      invariant forall i :: 0 <= i < |es| ==> es[i].id in m && es[i].id !in rest && m[es[i].id] == es[i].pos
      invariant DistinctIds(es)
      invariant forall k :: k in m && k !in rest ==> exists i :: 0 <= i < |es| && es[i].id == k
      decreases rest
    {
      var k :| k in rest;
      ghost var before := es;
      es := es + [Entry(k, m[k])];
      rest := rest - {k};
      forall k' | k' in m && k' !in rest
        ensures exists i :: 0 <= i < |es| && es[i].id == k'
      {
        if k' == k {
          assert es[|before|].id == k';
        } else {
          var i :| 0 <= i < |before| && before[i].id == k';
          assert es[i].id == k';
        }
      }
    }
  }

  // ---------------------------------------------------------------------------
  // The filter, map and sort steps

  /** The `.filter` step: the entries within `maxDistance` (inclusive), in their order. */
  function WithinRange(lat: real, lon: real, maxDistance: nat, dist: Metric, es: seq<Entry>): (r: seq<Entry>)
    ensures |r| <= |es|
    ensures forall e :: e in r ==> e in es && Within(lat, lon, maxDistance, dist, e)
    ensures forall e :: e in es && Within(lat, lon, maxDistance, dist, e) ==> e in r
  {
    if es == [] then []
    else
      (if Within(lat, lon, maxDistance, dist, es[0]) then [es[0]] else [])
      + WithinRange(lat, lon, maxDistance, dist, es[1..])
  }

  /** The `.map` step: each entry keeps its id, coordinates and timestamp and gains its distance from the query point. */
  function AnnotateAll(lat: real, lon: real, dist: Metric, es: seq<Entry>): seq<NearbyDriver>
  {
    seq(|es|, i requires 0 <= i < |es| => Annotate(lat, lon, dist, es[i]))
  }

  lemma AnnotateAllFields(lat: real, lon: real, dist: Metric, es: seq<Entry>)
    ensures var r := AnnotateAll(lat, lon, dist, es);
      && |r| == |es|
      && forall i :: 0 <= i < |es| ==>
        && r[i].id == es[i].id
        && r[i].latitude == es[i].pos.latitude && r[i].longitude == es[i].pos.longitude
        && r[i].timestamp == es[i].pos.timestamp
        && r[i].distance == dist(lat, lon, es[i].pos.latitude, es[i].pos.longitude)
  {
  }

  predicate SortedByDistance(s: seq<NearbyDriver>)
  {
    forall i, j :: 0 <= i < j < |s| ==> s[i].distance <= s[j].distance
  }

  function Insert(x: NearbyDriver, s: seq<NearbyDriver>): (r: seq<NearbyDriver>)
    requires SortedByDistance(s)
    ensures SortedByDistance(r)
    ensures multiset(r) == multiset(s) + multiset{x}
    ensures |r| == |s| + 1 && (r[0] == x || (s != [] && r[0] == s[0]))
  {
    if s == [] then [x]
    else if x.distance <= s[0].distance then [x] + s
    else
      var t := Insert(x, s[1..]);
      assert s == [s[0]] + s[1..];
      [s[0]] + t
  }

  /** The `.sort((a, b) => a.distance - b.distance)` step. */
  function SortByDistance(s: seq<NearbyDriver>): (r: seq<NearbyDriver>)
    ensures SortedByDistance(r)
    ensures multiset(r) == multiset(s)
  {
    if s == [] then []
    else
      assert s == [s[0]] + s[1..];
      Insert(s[0], SortByDistance(s[1..]))
  }

  /** `findNearbyDrivers(userLat, userLon)` over the entries of the registry. */
  function FindNearby(lat: real, lon: real, maxDistance: nat, dist: Metric, es: seq<Entry>): (r: seq<NearbyDriver>)
    ensures SortedByDistance(r)
    ensures |r| <= |es|
    ensures forall x :: x in r ==> x.distance <= maxDistance
    ensures forall e :: e in es && Within(lat, lon, maxDistance, dist, e) ==> Annotate(lat, lon, dist, e) in r
  {
    var w := WithinRange(lat, lon, maxDistance, dist, es);
    var c := AnnotateAll(lat, lon, dist, w);
    var r := SortByDistance(c);
    assert |r| == |multiset(r)| == |multiset(c)| == |c|;
    forall x | x in r ensures x.distance <= maxDistance {
      assert x in multiset(c);
      var j :| 0 <= j < |c| && c[j] == x;
      assert w[j] in w;
    }
    forall e | e in es && Within(lat, lon, maxDistance, dist, e) ensures Annotate(lat, lon, dist, e) in r {
      var j :| 0 <= j < |w| && w[j] == e;
      assert c[j] in multiset(r);
    }
    r
  }

  // ---------------------------------------------------------------------------
  // Specification of a reply

  /** Every registry entry within `maxDistance`, annotated with its distance. */
  ghost function InRange(m: map<string, Pos>, lat: real, lon: real, maxDistance: nat, dist: Metric): set<NearbyDriver>
  {
    set k | k in m && DistanceTo(lat, lon, m[k], dist) <= maxDistance :: Annotate(lat, lon, dist, Entry(k, m[k]))
  }

  /** The ids of the registry entries within `maxDistance`. */
  ghost function InRangeIds(m: map<string, Pos>, lat: real, lon: real, maxDistance: nat, dist: Metric): set<string>
  {
    set k | k in m && DistanceTo(lat, lon, m[k], dist) <= maxDistance
  }

  /** A correct reply: exactly the in-range entries, each once, nearest first. */
  ghost predicate IsNearbyResult(m: map<string, Pos>, lat: real, lon: real, maxDistance: nat, dist: Metric, r: seq<NearbyDriver>)
  {
    SortedByDistance(r) && multiset(r) == multiset(InRange(m, lat, lon, maxDistance, dist))
  }

  // ---------------------------------------------------------------------------
  // The filter-map-sort chain meets its specification

  lemma AnnotateAllAppend(lat: real, lon: real, dist: Metric, a: seq<Entry>, b: seq<Entry>)
    ensures AnnotateAll(lat, lon, dist, a + b) == AnnotateAll(lat, lon, dist, a) + AnnotateAll(lat, lon, dist, b)
  {
  }

  /** Each in-range entry gives exactly one annotated candidate before sorting. */
  lemma {:induction false} CandidateCount(lat: real, lon: real, maxDistance: nat, dist: Metric, es: seq<Entry>, i: nat)
    requires DistinctIds(es) && i < |es| && Within(lat, lon, maxDistance, dist, es[i])
    ensures multiset(AnnotateAll(lat, lon, dist, WithinRange(lat, lon, maxDistance, dist, es)))[Annotate(lat, lon, dist, es[i])] == 1
  {
    var x := Annotate(lat, lon, dist, es[i]);
    var rest := es[1..];
    var pre := if Within(lat, lon, maxDistance, dist, es[0]) then [es[0]] else [];
    var w := WithinRange(lat, lon, maxDistance, dist, rest);
    AnnotateAllAppend(lat, lon, dist, pre, w);
    assert DistinctIds(rest);
    if i == 0 {
      assert x !in AnnotateAll(lat, lon, dist, w) by {
        forall j | 0 <= j < |w| ensures AnnotateAll(lat, lon, dist, w)[j] != x {
          assert w[j] in rest;
          var k :| 0 <= k < |rest| && rest[k] == w[j];
          assert es[k + 1] == w[j];
        }
      }
    } else {
      CandidateCount(lat, lon, maxDistance, dist, rest, i - 1);
      assert es[i] == rest[i - 1];
      assert es[0].id != es[i].id;
    }
  }

  /** `findNearbyDrivers` returns a correct reply for the registry it reads. */
  lemma FindNearbyCorrect(m: map<string, Pos>, lat: real, lon: real, maxDistance: nat, dist: Metric, es: seq<Entry>)
    requires IsEntries(m, es)
    ensures IsNearbyResult(m, lat, lon, maxDistance, dist, FindNearby(lat, lon, maxDistance, dist, es))
  {
    var w := WithinRange(lat, lon, maxDistance, dist, es);
    var c := AnnotateAll(lat, lon, dist, w);
    var target := InRange(m, lat, lon, maxDistance, dist);
    forall x ensures multiset(c)[x] == multiset(target)[x] {
      if x in target {
        var k :| k in m && DistanceTo(lat, lon, m[k], dist) <= maxDistance && x == Annotate(lat, lon, dist, Entry(k, m[k]));
        var i :| 0 <= i < |es| && es[i].id == k;
        assert es[i] == Entry(k, m[k]);
        CandidateCount(lat, lon, maxDistance, dist, es, i);
      } else {
        forall j | 0 <= j < |c| ensures c[j] in target {
          assert w[j] in es;
          assert Entry(w[j].id, m[w[j].id]) == w[j];
        }
      }
    }
    assert multiset(c) == multiset(target);
  }

  /** Every element of a reply is a registry entry within the bound, copied unchanged, with its own distance. */
  lemma NearbySound(m: map<string, Pos>, lat: real, lon: real, maxDistance: nat, dist: Metric, r: seq<NearbyDriver>)
    requires IsNearbyResult(m, lat, lon, maxDistance, dist, r)
    ensures forall i :: 0 <= i < |r| ==>
      && r[i].id in m
      && r[i] == Annotate(lat, lon, dist, Entry(r[i].id, m[r[i].id]))
      && r[i].distance <= maxDistance
  {
    forall i | 0 <= i < |r|
      ensures r[i].id in m && r[i] == Annotate(lat, lon, dist, Entry(r[i].id, m[r[i].id])) && r[i].distance <= maxDistance
    {
      assert r[i] in multiset(r);
      assert r[i] in InRange(m, lat, lon, maxDistance, dist);
    }
  }

  /** Every registry entry within the bound appears in a reply. */
  lemma NearbyComplete(m: map<string, Pos>, lat: real, lon: real, maxDistance: nat, dist: Metric, r: seq<NearbyDriver>)
    requires IsNearbyResult(m, lat, lon, maxDistance, dist, r)
    ensures forall k :: k in m && DistanceTo(lat, lon, m[k], dist) <= maxDistance ==>
      exists i :: 0 <= i < |r| && r[i] == Annotate(lat, lon, dist, Entry(k, m[k]))
  {
    forall k | k in m && DistanceTo(lat, lon, m[k], dist) <= maxDistance
      ensures exists i :: 0 <= i < |r| && r[i] == Annotate(lat, lon, dist, Entry(k, m[k]))
    {
      var x := Annotate(lat, lon, dist, Entry(k, m[k]));
      assert x in InRange(m, lat, lon, maxDistance, dist);
      assert x in multiset(r);
    }
  }

  lemma TwiceCounted<T>(s: seq<T>, i: nat, j: nat)
    requires i < j < |s| && s[i] == s[j]
    ensures multiset(s)[s[i]] >= 2
  {
    assert s == s[..i] + [s[i]] + s[i+1..j] + [s[j]] + s[j+1..];
  }

  /** No driver appears twice in a reply. */
  lemma NearbyOnce(m: map<string, Pos>, lat: real, lon: real, maxDistance: nat, dist: Metric, r: seq<NearbyDriver>)
    requires IsNearbyResult(m, lat, lon, maxDistance, dist, r)
    ensures forall i, j :: 0 <= i < j < |r| ==> r[i].id != r[j].id
  {
    NearbySound(m, lat, lon, maxDistance, dist, r);
    forall i, j | 0 <= i < j < |r| ensures r[i].id != r[j].id {
      if r[i].id == r[j].id {
        TwiceCounted(r, i, j);
        assert false;
      }
    }
  }

  /** Annotating distinct keys gives distinct records, since each record carries its key as `id`. */
  lemma {:induction false} AnnotatedSize(m: map<string, Pos>, lat: real, lon: real, dist: Metric, ks: set<string>)
    requires ks <= m.Keys
    ensures |(set k | k in ks :: Annotate(lat, lon, dist, Entry(k, m[k])))| == |ks|
  {
    if ks != {} {
      var k :| k in ks;
      var rest := ks - {k};
      AnnotatedSize(m, lat, lon, dist, rest);
      var x := Annotate(lat, lon, dist, Entry(k, m[k]));
      var image := set k' | k' in rest :: Annotate(lat, lon, dist, Entry(k', m[k']));
      assert (set k' | k' in ks :: Annotate(lat, lon, dist, Entry(k', m[k']))) == image + {x};
      assert x !in image;
    }
  }

  /**
   * The reply's length is the number of drivers within the bound; an empty
   * registry gives an empty reply.
   */
  lemma NearbyCount(m: map<string, Pos>, lat: real, lon: real, maxDistance: nat, dist: Metric, r: seq<NearbyDriver>)
    requires IsNearbyResult(m, lat, lon, maxDistance, dist, r)
    ensures |r| == |set k | k in m && DistanceTo(lat, lon, m[k], dist) <= maxDistance|
    ensures m == map[] ==> r == []
  {
    var ids := InRangeIds(m, lat, lon, maxDistance, dist);
    assert InRange(m, lat, lon, maxDistance, dist) == set k | k in ids :: Annotate(lat, lon, dist, Entry(k, m[k]));
    AnnotatedSize(m, lat, lon, dist, ids);
    assert |multiset(r)| == |r|;
  }
}
