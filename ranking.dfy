/**
 * Distance ranking of the feasible restaurants of an order
 * (foodcartapp/models.py:58-71): each candidate gets an optional distance in
 * tenths of a kilometre, and the list is sorted by the key
 * (distance is None, distance or inf).
 */
module Ranking {
  import opened Wrappers
  import opened Catalog
  import opened GeoModels
  import opened Geocoder

  datatype Candidate = Candidate(restaurant: RestaurantId, distance: Option<nat>)

  /** The second key component: a number, or float('inf'). */
  datatype Bound = Finite(n: nat) | Infinite

  datatype SortKey = SortKey(unknown: bool, magnitude: Bound)

  /**
   * `(d is None, d or inf)`. A distance of exactly 0.0 is falsy, so it gets
   * the magnitude inf just like an unknown distance.
   */
  function KeyOf(d: Option<nat>): SortKey
  {
    SortKey(d.None?, if d.Some? && d.value != 0 then Finite(d.value) else Infinite)
  }

  predicate BoundLe(a: Bound, b: Bound)
  {
    b.Infinite? || (a.Finite? && a.n <= b.n)
  }

  /** Python's tuple comparison on keys: False < True first, then the magnitude. */
  predicate KeyLe(a: SortKey, b: SortKey)
  {
    (!a.unknown && b.unknown) || (a.unknown == b.unknown && BoundLe(a.magnitude, b.magnitude))
  }

  predicate InOrder(a: Candidate, b: Candidate)
  {
    KeyLe(KeyOf(a.distance), KeyOf(b.distance))
  }

  predicate SortedByKey(s: seq<Candidate>)
  {
    forall i, j :: 0 <= i < j < |s| ==> InOrder(s[i], s[j])
  }

  /** Inserts `c` before the first element that is not strictly smaller, which keeps equal keys in input order. */
  function Insert(c: Candidate, s: seq<Candidate>): (r: seq<Candidate>)
    requires SortedByKey(s)
    ensures SortedByKey(r)
    ensures multiset(r) == multiset(s) + multiset{c}
    ensures |r| == |s| + 1
    ensures r[0] == c || (s != [] && r[0] == s[0])
  {
    if s == [] then [c]
    else if InOrder(c, s[0]) then [c] + s
    else
      var tail := Insert(c, s[1..]);
      assert s == [s[0]] + s[1..];
      assert InOrder(s[0], c);
      [s[0]] + tail
  }

  /**
   * `list.sort(key=...)`: a stable sort by the key (insertion sort stands in
   * for the library's algorithm; only its result matters).
   */
  function SortByDistance(s: seq<Candidate>): (r: seq<Candidate>)
    ensures SortedByKey(r)
    ensures multiset(r) == multiset(s)
    ensures |r| == |s|
  {
    if s == [] then []
    else
      assert s == [s[0]] + s[1..];
      Insert(s[0], SortByDistance(s[1..]))
  }

  /**
   * What a sorted list looks like: every known distance precedes every
   * unknown one, known non-zero distances ascend, and a distance of 0 comes
   * after every non-zero known distance but before the unknown ones.
   */
  lemma SortedLayout(s: seq<Candidate>, i: nat, j: nat)
    requires SortedByKey(s)
    requires i < j < |s|
    ensures s[i].distance.None? ==> s[j].distance.None?
    ensures s[i].distance.Some? && s[j].distance.Some? && s[j].distance.value != 0
            ==> s[i].distance.value != 0 && s[i].distance.value <= s[j].distance.value
    ensures s[i].distance == Some(0) ==> s[j].distance.None? || s[j].distance == Some(0)
  {
    assert InOrder(s[i], s[j]);
  }

  /** The example with distances 5.0, unknown and 1.2 sorts as 1.2, 5.0, unknown. */
  lemma UnknownSortsLast()
    ensures SortByDistance([Candidate(1, Some(50)), Candidate(2, None), Candidate(3, Some(12))])
         == [Candidate(3, Some(12)), Candidate(1, Some(50)), Candidate(2, None)]
  {
    var c1, c2, c3 := Candidate(1, Some(50)), Candidate(2, None), Candidate(3, Some(12));
    assert [c1, c2, c3][1..] == [c2, c3];
    assert [c2, c3][1..] == [c3];
    assert [c3][1..] == [];
    assert SortByDistance([c3]) == [c3];
    assert SortByDistance([c2, c3]) == [c3, c2];
    assert [c3, c2][1..] == [c2];
    assert Insert(c1, [c2]) == [c1, c2];
  }

  /** A distance of zero sorts after a positive one. */
  lemma ZeroSortsAfterPositive()
    ensures SortByDistance([Candidate(1, Some(0)), Candidate(2, Some(37))])
         == [Candidate(2, Some(37)), Candidate(1, Some(0))]
  {
    var c1, c2 := Candidate(1, Some(0)), Candidate(2, Some(37));
    assert [c1, c2][1..] == [c2];
    assert [c2][1..] == [];
    assert SortByDistance([c2]) == [c2];
    assert [c2][1..] == [];
  }

  /**
   * The distance for restaurant `r` (foodcartapp/models.py:60-61): looked up
   * with `restaurant_coords.get`, and unknown unless both the delivery
   * address and the restaurant resolved.
   */
  function DistanceTo(delivery: Option<LatLon>, coords: map<RestaurantId, Option<LatLon>>, r: RestaurantId,
                      geodesic: (LatLon, LatLon) -> Option<nat>): (d: Option<nat>)
    ensures d.Some? ==> delivery.Some? && r in coords && coords[r].Some? && d == geodesic(delivery.value, coords[r].value)
  {
    var restaurantCoords := if r in coords then coords[r] else None;
    if delivery.Some? && restaurantCoords.Some? then CalculateDistance(delivery, restaurantCoords, geodesic) else None
  }

  lemma UnknownWithoutCoordinates(delivery: Option<LatLon>, coords: map<RestaurantId, Option<LatLon>>, r: RestaurantId,
                                  geodesic: (LatLon, LatLon) -> Option<nat>)
    requires delivery.None? || r !in coords || coords[r].None?
    ensures DistanceTo(delivery, coords, r, geodesic) == None
  {
  }

  predicate DistinctRestaurants(s: seq<Candidate>)
  {
    forall i, j :: 0 <= i < j < |s| ==> s[i].restaurant != s[j].restaurant
  }

  lemma CountAtLeastTwo(s: seq<Candidate>, i: nat, j: nat)
    requires i < j < |s| && s[i] == s[j]
    ensures multiset(s)[s[i]] >= 2
  {
    assert s == s[..j] + [s[j]] + s[j + 1..];
    assert s[i] in s[..j];
  }

  lemma {:induction false} CountAtMostOne(s: seq<Candidate>, x: Candidate)
    requires DistinctRestaurants(s)
    ensures multiset(s)[x] <= 1
  {
    if s != [] {
      var init := s[..|s| - 1];
      assert s == init + [s[|s| - 1]];
      CountAtMostOne(init, x);
      if x == s[|s| - 1] {
        assert x !in init;
      }
    }
  }

  /**
   * `s` lists every restaurant of `feasible` exactly once, each with its
   * distance from the delivery address.
   */
  ghost predicate CandidatesFor(s: seq<Candidate>, feasible: set<RestaurantId>, delivery: Option<LatLon>,
                                coords: map<RestaurantId, Option<LatLon>>, geodesic: (LatLon, LatLon) -> Option<nat>)
  {
    && |s| == |feasible|
    && (forall i :: 0 <= i < |s| ==>
          s[i].restaurant in feasible && s[i].distance == DistanceTo(delivery, coords, s[i].restaurant, geodesic))
    && (forall r :: r in feasible ==> exists i :: 0 <= i < |s| && s[i].restaurant == r)
    && DistinctRestaurants(s)
  }

  /** `s` is a ranking of `feasible`: its candidates, each once with its distance, sorted by the key. */
  ghost predicate RankedFor(s: seq<Candidate>, feasible: set<RestaurantId>, delivery: Option<LatLon>,
                            coords: map<RestaurantId, Option<LatLon>>, geodesic: (LatLon, LatLon) -> Option<nat>)
  {
    CandidatesFor(s, feasible, delivery, coords, geodesic) && SortedByKey(s)
  }

  /** When the delivery address did not resolve, every candidate's distance is unknown. */
  lemma UnresolvedDeliveryUnknownDistances(s: seq<Candidate>, feasible: set<RestaurantId>,
                                           coords: map<RestaurantId, Option<LatLon>>, geodesic: (LatLon, LatLon) -> Option<nat>)
    requires CandidatesFor(s, feasible, None, coords, geodesic)
    ensures forall i :: 0 <= i < |s| ==> s[i].distance.None?
  {
  }

  /** Reordering a candidate list (as the sort does) keeps it a list of the feasible candidates. */
  lemma PermutationKeepsCandidates(s: seq<Candidate>, t: seq<Candidate>, feasible: set<RestaurantId>, delivery: Option<LatLon>,
                                   coords: map<RestaurantId, Option<LatLon>>, geodesic: (LatLon, LatLon) -> Option<nat>)
    requires CandidatesFor(s, feasible, delivery, coords, geodesic)
    requires multiset(t) == multiset(s)
    ensures CandidatesFor(t, feasible, delivery, coords, geodesic)
  {
    assert |t| == |multiset(t)| == |multiset(s)| == |s|;
    forall i | 0 <= i < |t|
      ensures t[i] in s
    {
      assert t[i] in multiset(t);
    }
    forall r | r in feasible
      ensures exists i :: 0 <= i < |t| && t[i].restaurant == r
    {
      var k :| 0 <= k < |s| && s[k].restaurant == r;
      assert s[k] in multiset(t);
      var i :| 0 <= i < |t| && t[i] == s[k];
    }
    forall i, j | 0 <= i < j < |t|
      ensures t[i].restaurant != t[j].restaurant
    {
      if t[i].restaurant == t[j].restaurant {
        assert t[i] in s && t[j] in s;
        CountAtLeastTwo(t, i, j);
        CountAtMostOne(s, t[i]);
        assert false;
      }
    }
  }

  /** Appending the candidate of a restaurant not yet listed extends the list to one more restaurant. */
  lemma CandidatesStep(s: seq<Candidate>, done: set<RestaurantId>, r: RestaurantId, delivery: Option<LatLon>,
                       coords: map<RestaurantId, Option<LatLon>>, geodesic: (LatLon, LatLon) -> Option<nat>)
    requires CandidatesFor(s, done, delivery, coords, geodesic)
    requires r !in done
    ensures CandidatesFor(s + [Candidate(r, DistanceTo(delivery, coords, r, geodesic))], done + {r}, delivery, coords, geodesic)
  {
    var t := s + [Candidate(r, DistanceTo(delivery, coords, r, geodesic))];
    forall x | x in done + {r}
      ensures exists i :: 0 <= i < |t| && t[i].restaurant == x
    {
      if x == r {
        assert t[|s|].restaurant == x;
      } else {
        var i :| 0 <= i < |s| && s[i].restaurant == x;
        assert t[i].restaurant == x;
      }
    }
  }

  /**
   * The loop of foodcartapp/models.py:58-66: one candidate per feasible
   * restaurant. The set's iteration order is arbitrary, so the loop picks
   * any remaining element.
   */
  method CollectCandidates(feasible: set<RestaurantId>, delivery: Option<LatLon>, coords: map<RestaurantId, Option<LatLon>>,
                           geodesic: (LatLon, LatLon) -> Option<nat>)
    returns (candidates: seq<Candidate>)
    ensures CandidatesFor(candidates, feasible, delivery, coords, geodesic)
  {
    var pending := feasible;
    ghost var done: set<RestaurantId> := {};
    candidates := [];
    while pending != {}
      invariant done + pending == feasible && done !! pending
      invariant CandidatesFor(candidates, done, delivery, coords, geodesic)
      decreases |pending|
    {
      var restaurant :| restaurant in pending;
      CandidatesStep(candidates, done, restaurant, delivery, coords, geodesic);
      candidates := candidates + [Candidate(restaurant, DistanceTo(delivery, coords, restaurant, geodesic))];
      done, pending := done + {restaurant}, pending - {restaurant};
    }
  }

  /**
   * foodcartapp/models.py:58-71 for a non-empty feasible set: the candidates
   * with their distances, sorted by the key.
   */
  method RankCandidates(feasible: set<RestaurantId>, delivery: Option<LatLon>, coords: map<RestaurantId, Option<LatLon>>,
                        geodesic: (LatLon, LatLon) -> Option<nat>)
    returns (ranked: seq<Candidate>)
    ensures |ranked| == |feasible|
    ensures forall i :: 0 <= i < |ranked| ==>
              ranked[i].restaurant in feasible && ranked[i].distance == DistanceTo(delivery, coords, ranked[i].restaurant, geodesic)
    ensures forall r :: r in feasible ==> exists i :: 0 <= i < |ranked| && ranked[i].restaurant == r
    ensures DistinctRestaurants(ranked)
    ensures SortedByKey(ranked)
    ensures RankedFor(ranked, feasible, delivery, coords, geodesic)
  {
    var candidates := CollectCandidates(feasible, delivery, coords, geodesic);
    ranked := SortByDistance(candidates);
    PermutationKeepsCandidates(candidates, ranked, feasible, delivery, coords, geodesic);
  }
}
