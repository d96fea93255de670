// travel/services/hotspot_detector.py: turning concurrent travellers into
// expiring activity hotspots, and notifying a traveller of the nearest one.
module Hotspots {
  import opened Common
  import opened Seqs
  import opened Text
  import opened TravelModels
  import InsightsModels
  import Accounts

  /** The detector's settings fallbacks. */
  const MinUsersForHotspot := 2
  const ClusterRadiusKm := 0.1
  const NotificationRadiusKm := 1.5
  const ActivityWindow := 30 * Minute
  const HotspotExpiry := 60 * Minute
  /** _match_place looks for catalog places this close to a cluster centre. */
  const PlaceSearchKm := 0.2
  /** A hotspot notification is not repeated within this window. */
  const NotificationDedup := 2 * Hour

  // ---------------------------------------------------------------------
  // Cleanup

  function LiveAt(now: int): Hotspot -> bool
  {
    (h: Hotspot) => Live(h, now)
  }

  function ExpiredAt(now: int): Hotspot -> bool
  {
    (h: Hotspot) => h.expiresAt < now
  }

  /** _cleanup_expired_hotspots: delete the rows with expires_at < now; exactly the live ones remain. */
  method CleanupExpiredHotspots(db: TravelDb, now: int) returns (removed: nat)
    requires db.Valid()
    modifies db
    ensures db.Valid()
    ensures db.hotspots == Filter(old(db.hotspots), LiveAt(now))
    ensures forall h :: h in db.hotspots ==> Live(h, now) && !IsExpired(h, now)
    ensures removed == Count(old(db.hotspots), ExpiredAt(now))
    ensures db.trips == old(db.trips) && db.matches == old(db.matches) && db.nextId == old(db.nextId)
    ensures db.samples == old(db.samples) && db.suggestions == old(db.suggestions)
  {
    FilterSplits(db.hotspots, ExpiredAt(now), LiveAt(now));
    var kept := Filter(db.hotspots, LiveAt(now));
    removed := |db.hotspots| - |kept|;
    db.hotspots := kept;
  }

  // ---------------------------------------------------------------------
  // The latest sample per user

  /** A sample the scan considers: recent, and of a user with an active trip covering today. */
  function Recent(trips: seq<Trip>, now: int): LocationSample -> bool
  {
    (s: LocationSample) => s.recordedAt >= now - ActivityWindow && ActiveTrip(trips, s.user, Today(now)).Some?
  }

  /** order_by("user_id", "-recorded_at"); the e-mail stands in for the user key. */
  function ByUserNewest(x: LocationSample, y: LocationSample): bool
  {
    (x.user != y.user && StrLe(x.user, y.user)) || (x.user == y.user && x.recordedAt >= y.recordedAt)
  }

  lemma ByUserNewestIsPreorder()
    ensures TotalPreorder(ByUserNewest)
  {
    forall a, b
      ensures ByUserNewest(a, b) || ByUserNewest(b, a)
    {
      StrLeTotal(a.user, b.user);
    }
    forall a, b, c | ByUserNewest(a, b) && ByUserNewest(b, c)
      ensures ByUserNewest(a, c)
    {
      if a.user != b.user && b.user != c.user {
        StrLeTransitive(a.user, b.user, c.user);
        if a.user == c.user {
          StrLeAntisymmetric(a.user, b.user);
        }
      }
    }
  }

  /** distinct("user_id") over an ordered list: the first row of each run of one user. */
  function FirstOfRuns(s: seq<LocationSample>, prev: Option<Email>): seq<LocationSample>
  {
    if s == [] then []
    else if prev == Some(s[0].user) then FirstOfRuns(s[1..], prev)
    else [s[0]] + FirstOfRuns(s[1..], Some(s[0].user))
  }

  function DifferentUsers(x: LocationSample, y: LocationSample): bool
  {
    x.user != y.user
  }

  /** prev, when given, comes no later than any user of s. */
  predicate UsersFrom(prev: Option<Email>, s: seq<LocationSample>)
  {
    prev.Some? ==> forall y :: y in s ==> StrLe(prev.value, y.user)
  }

  /** Every sample of r is the newest of its user's samples in s. */
  predicate NewestOf(r: seq<LocationSample>, s: seq<LocationSample>)
  {
    forall x, y :: x in r && y in s && y.user == x.user ==> x.recordedAt >= y.recordedAt
  }

  lemma OrderedTail(s: seq<LocationSample>)
    requires s != [] && Ordered(s, ByUserNewest)
    ensures Ordered(s[1..], ByUserNewest)
    ensures forall y :: y in s[1..] ==> ByUserNewest(s[0], y) && y in s
  {
    var t := s[1..];
    forall i, j | 0 <= i < j < |t|
      ensures ByUserNewest(t[i], t[j])
    {
      assert t[i] == s[i + 1] && t[j] == s[j + 1];
    }
    forall y | y in t
      ensures ByUserNewest(s[0], y)
    {
      var j :| 0 <= j < |t| && t[j] == y;
      assert s[j + 1] == y;
    }
  }

  lemma {:induction false} FirstOfRunsSubset(s: seq<LocationSample>, prev: Option<Email>)
    ensures forall x :: x in FirstOfRuns(s, prev) ==> x in s
  {
    if s != [] {
      assert forall y :: y in s[1..] ==> y in s;
      if prev == Some(s[0].user) {
        FirstOfRunsSubset(s[1..], prev);
      } else {
        FirstOfRunsSubset(s[1..], Some(s[0].user));
      }
    }
  }

  /** In user order, the first rows of the runs all have different users, none of them prev. */
  lemma {:induction false} FirstOfRunsDistinct(s: seq<LocationSample>, prev: Option<Email>)
    requires Ordered(s, ByUserNewest) && UsersFrom(prev, s)
    ensures Pairwise(FirstOfRuns(s, prev), DifferentUsers)
    ensures prev.Some? ==> forall x :: x in FirstOfRuns(s, prev) ==> x.user != prev.value
  {
    if s != [] {
      var t := s[1..];
      OrderedTail(s);
      if prev == Some(s[0].user) {
        FirstOfRunsDistinct(t, prev);
      } else {
        forall y | y in t
          ensures StrLe(s[0].user, y.user)
        {
          if y.user == s[0].user {
            StrLeTotal(y.user, y.user);
          }
        }
        FirstOfRunsDistinct(t, Some(s[0].user));
        FirstOfRunsSubset(t, Some(s[0].user));
        var rt := FirstOfRuns(t, Some(s[0].user));
        var r := [s[0]] + rt;
        forall i, j | 0 <= i < j < |r|
          ensures DifferentUsers(r[i], r[j])
        {
          if i == 0 {
            assert r[j] in rt;
          } else {
            assert r[i] == rt[i - 1] && r[j] == rt[j - 1];
          }
        }
        if prev.Some? {
          forall x | x in r
            ensures x.user != prev.value
          {
            if x != s[0] && x.user == prev.value {
              assert x in t;
              StrLeAntisymmetric(prev.value, s[0].user);
            }
          }
        }
      }
    }
  }

  /** The first row of a user's run is that user's newest. */
  lemma {:induction false} FirstOfRunsNewest(s: seq<LocationSample>, prev: Option<Email>)
    requires Ordered(s, ByUserNewest) && UsersFrom(prev, s)
    ensures NewestOf(FirstOfRuns(s, prev), s)
  {
    if s != [] {
      var t := s[1..];
      OrderedTail(s);
      if prev == Some(s[0].user) {
        FirstOfRunsNewest(t, prev);
        FirstOfRunsDistinct(t, prev);
      } else {
        forall y | y in t
          ensures StrLe(s[0].user, y.user)
        {
          if y.user == s[0].user {
            StrLeTotal(y.user, y.user);
          }
        }
        FirstOfRunsNewest(t, Some(s[0].user));
        FirstOfRunsDistinct(t, Some(s[0].user));
      }
    }
  }

  /** Every user of s other than prev has a row among the first rows of the runs. */
  lemma {:induction false} FirstOfRunsCovers(s: seq<LocationSample>, prev: Option<Email>)
    ensures forall y :: y in s ==> Some(y.user) == prev || exists x :: x in FirstOfRuns(s, prev) && x.user == y.user
  {
    if s != [] {
      assert forall y :: y in s ==> y == s[0] || y in s[1..];
      if prev == Some(s[0].user) {
        FirstOfRunsCovers(s[1..], prev);
      } else {
        FirstOfRunsCovers(s[1..], Some(s[0].user));
        assert s[0] in FirstOfRuns(s, prev);
      }
    }
  }

  /**
   * The input of the clustering: for every user with an active trip
   * covering today, the newest of their samples recorded within the
   * activity window, in user order.
   */
  function RecentPerUser(trips: seq<Trip>, samples: seq<LocationSample>, now: int): seq<LocationSample>
  {
    FirstOfRuns(Sort(Filter(samples, Recent(trips, now)), ByUserNewest), None)
  }

  /**
   * At most one sample per user; each is recent, belongs to a user with an
   * active trip, and is that user's newest such sample; and every user with
   * such a sample is represented.
   */
  lemma RecentPerUserSpec(trips: seq<Trip>, samples: seq<LocationSample>, now: int)
    ensures var r := RecentPerUser(trips, samples, now);
            Pairwise(r, DifferentUsers) &&
            (forall x :: x in r ==> x in samples && x.recordedAt >= now - ActivityWindow &&
                                    ActiveTrip(trips, x.user, Today(now)).Some?) &&
            NewestOf(r, Filter(samples, Recent(trips, now))) &&
            (forall y :: y in samples && Recent(trips, now)(y) ==> exists x :: x in r && x.user == y.user)
  {
    var f := Filter(samples, Recent(trips, now));
    var sorted := Sort(f, ByUserNewest);
    ByUserNewestIsPreorder();
    SortOrdered(f, ByUserNewest);
    SortMembers(f, ByUserNewest);
    FirstOfRunsSubset(sorted, None);
    FirstOfRunsDistinct(sorted, None);
    FirstOfRunsNewest(sorted, None);
    FirstOfRunsCovers(sorted, None);
  }

  // ---------------------------------------------------------------------
  // Matching a cluster centre to a catalog place

  /**
   * A catalog row as _match_place sees it. ThingToDo rows have no name
   * column (name is None); `caption` is the "<activity type> at <location>"
   * text the suggestion engine shows for them.
   */
  datatype Candidate = Candidate(name: Option<string>, caption: string, id: InsightsModels.RowId,
                                 latitude: Option<real>, longitude: Option<real>)

  /** The rows _match_place scans, in its order: MostFamousPlace, HiddenGem, TouristTrap, ThingToDo. */
  function PlaceCandidates(t: InsightsModels.Tables): seq<Candidate>
  {
    seq(|t.mostFamous|, i requires 0 <= i < |t.mostFamous| =>
      var r := t.mostFamous[i]; Candidate(Some(r.data.name), r.data.name, r.id, Some(r.data.latitude), Some(r.data.longitude))) +
    seq(|t.gems|, i requires 0 <= i < |t.gems| =>
      var r := t.gems[i]; Candidate(Some(r.data.name), r.data.name, r.id, r.data.latitude, r.data.longitude)) +
    seq(|t.traps|, i requires 0 <= i < |t.traps| =>
      var r := t.traps[i]; Candidate(Some(r.data.name), r.data.name, r.id, Some(r.data.latitude), Some(r.data.longitude))) +
    seq(|t.thingsToDo|, i requires 0 <= i < |t.thingsToDo| =>
      var r := t.thingsToDo[i];
      Candidate(None, r.data.activityType + " at " + r.data.location, r.id, r.data.latitude, r.data.longitude))
  }

  /** The name a matched row gives the hotspot. */
  function DisplayLabel(c: Candidate): string
  {
    if c.name.Some? then c.name.value else c.caption
  }

  /** A candidate with both coordinates within the search radius of the centre. */
  predicate NearPlace(c: Candidate, center: Point, dist: Metric)
  {
    InsightsModels.BothCoordinates(c.latitude, c.longitude).Some? &&
    dist(center, InsightsModels.BothCoordinates(c.latitude, c.longitude).value) <= PlaceSearchKm
  }

  /** _match_place: the first candidate near the centre gives (name, id); none gives ("", None). */
  function MatchPlace(cands: seq<Candidate>, center: Point, dist: Metric): (r: (string, Option<InsightsModels.RowId>))
  {
    if cands == [] then ("", None)
    else if NearPlace(cands[0], center, dist) then (DisplayLabel(cands[0]), Some(cands[0].id))
    else MatchPlace(cands[1..], center, dist)
  }

  /** A place is matched exactly when some candidate is near, and then it is the first near one. */
  lemma {:induction false} MatchPlaceSpec(cands: seq<Candidate>, center: Point, dist: Metric)
    ensures var r := MatchPlace(cands, center, dist);
            (r.1.None? <==> forall c :: c in cands ==> !NearPlace(c, center, dist)) &&
            (r.1.None? ==> r.0 == "") &&
            (r.1.Some? ==> exists k :: 0 <= k < |cands| && NearPlace(cands[k], center, dist) &&
                                       r == (DisplayLabel(cands[k]), Some(cands[k].id)) &&
                                       forall j :: 0 <= j < k ==> !NearPlace(cands[j], center, dist))
  {
    if cands != [] {
      assert forall c :: c in cands ==> c == cands[0] || c in cands[1..];
      if !NearPlace(cands[0], center, dist) {
        MatchPlaceSpec(cands[1..], center, dist);
        var r := MatchPlace(cands[1..], center, dist);
        if r.1.Some? {
          var k :| 0 <= k < |cands[1..]| && NearPlace(cands[1..][k], center, dist) &&
                   r == (DisplayLabel(cands[1..][k]), Some(cands[1..][k].id)) &&
                   forall j :: 0 <= j < k ==> !NearPlace(cands[1..][j], center, dist);
          assert forall j :: 0 <= j < k + 1 ==> !NearPlace(cands[j], center, dist) by {
            forall j | 0 <= j < k + 1
              ensures !NearPlace(cands[j], center, dist)
            {
              if j > 0 {
                assert cands[j] == cands[1..][j - 1];
              }
            }
          }
          assert cands[k + 1] == cands[1..][k];
        }
      } else {
        assert 0 < |cands|;
      }
    }
  }

  /** What the code as written does on one candidate list. */
  datatype PlaceScan = NoPlace | Matched(name: string, id: InsightsModels.RowId) | Crashed

  /**
   * _match_place as written: hasattr is true for every row, so a row with a
   * null coordinate makes float(None) raise, and a ThingToDo within the
   * radius has no name attribute to return.
   */
  function MatchPlaceAsWritten(cands: seq<Candidate>, center: Point, dist: Metric): PlaceScan
  {
    if cands == [] then NoPlace
    else if cands[0].latitude.None? || cands[0].longitude.None? then Crashed
    else if dist(center, Point(cands[0].latitude.value, cands[0].longitude.value)) <= PlaceSearchKm then
      (if cands[0].name.None? then Crashed else Matched(cands[0].name.value, cands[0].id))
    else MatchPlaceAsWritten(cands[1..], center, dist)
  }

  /**
   * Hidden gems are stored without coordinates by the insights cache, so
   * a single one in the catalog, with no famous place near the centre,
   * makes the scan raise.
   */
  lemma HiddenGemWithoutCoordinatesCrashes(dist: Metric, center: Point)
    ensures var t := InsightsModels.Tables([], [], [], [], [],
                                           [], [InsightsModels.Row(0, 0, InsightsModels.HiddenGem("Canal Saint-Martin", "", None, None))],
                                           [], []);
            MatchPlaceAsWritten(PlaceCandidates(t), center, dist) == Crashed &&
            MatchPlace(PlaceCandidates(t), center, dist) == ("", None)
  {
    var t := InsightsModels.Tables([], [], [], [], [],
                                   [], [InsightsModels.Row(0, 0, InsightsModels.HiddenGem("Canal Saint-Martin", "", None, None))],
                                   [], []);
    var c := PlaceCandidates(t);
    assert |c| == 1 && c[0].latitude.None?;
    assert c[1..] == [];
  }

  /** A thing to do right at the centre makes the scan as written raise; the model names it by its label. */
  lemma ThingToDoHasNoName(dist: Metric, center: Point)
    requires IsDistance(dist)
    ensures var t := InsightsModels.Tables([], [], [], [], [], [], [], [],
                                           [InsightsModels.Row(7, 0, InsightsModels.ThingToDo("Food tour", "Old Town", None,
                                                                                           Some(center.lat), Some(center.lng)))]);
            MatchPlaceAsWritten(PlaceCandidates(t), center, dist) == Crashed &&
            MatchPlace(PlaceCandidates(t), center, dist) == ("Food tour at Old Town", Some(7))
  {
    var t := InsightsModels.Tables([], [], [], [], [], [], [], [],
                                   [InsightsModels.Row(7, 0, InsightsModels.ThingToDo("Food tour", "Old Town", None,
                                                                                   Some(center.lat), Some(center.lng)))]);
    var c := PlaceCandidates(t);
    assert |c| == 1 && c[0].name.None? && c[0].caption == "Food tour at Old Town";
    assert Point(c[0].latitude.value, c[0].longitude.value) == center;
    assert dist(center, center) == 0.0;
  }

  /** The scan as written agrees with the model whenever every candidate has coordinates and a name. */
  lemma {:induction false} MatchPlaceAgrees(cands: seq<Candidate>, center: Point, dist: Metric)
    requires forall c :: c in cands ==> c.latitude.Some? && c.longitude.Some? && c.name.Some?
    ensures var r := MatchPlace(cands, center, dist);
            MatchPlaceAsWritten(cands, center, dist) == if r.1.Some? then Matched(r.0, r.1.value) else NoPlace
  {
    if cands != [] {
      assert forall c :: c in cands[1..] ==> c in cands;
      MatchPlaceAgrees(cands[1..], center, dist);
    }
  }

  /** _match_place's scan, stopping at the first candidate near the centre. */
  method MatchPlaceScan(cands: seq<Candidate>, center: Point, dist: Metric)
      returns (name: string, id: Option<InsightsModels.RowId>)
    ensures (name, id) == MatchPlace(cands, center, dist)
  {
    var i := 0;
    while i < |cands|
      invariant 0 <= i <= |cands|
      invariant MatchPlace(cands[i..], center, dist) == MatchPlace(cands, center, dist)
    {
      assert cands[i..][1..] == cands[i + 1..];
      if NearPlace(cands[i], center, dist) {
        return DisplayLabel(cands[i]), Some(cands[i].id);
      }
      i := i + 1;
    }
    return "", None;
  }

  // ---------------------------------------------------------------------
  // Greedy clustering

  /** One entry of the cluster list: centre, size, members' users in order, and the matched place. */
  datatype Cluster = Cluster(center: Point, userCount: nat, userIds: seq<Email>, placeName: string,
                             placeId: Option<InsightsModels.RowId>)

  function Users(s: seq<LocationSample>): (r: seq<Email>)
    ensures |r| == |s| && forall i :: 0 <= i < |s| ==> r[i] == s[i].user
  {
    seq(|s|, i requires 0 <= i < |s| => s[i].user)
  }

  /** sum(f(loc) for loc in s) for a coordinate f of the position. */
  function Sum(s: seq<LocationSample>, f: Point -> real): real
  {
    if s == [] then 0.0 else f(s[0].position) + Sum(s[1..], f)
  }

  function Lat(p: Point): real { p.lat }
  function Lng(p: Point): real { p.lng }

  /** The arithmetic mean of the members' coordinates. */
  function Center(s: seq<LocationSample>): Point
    requires s != []
  {
    Point(Sum(s, Lat) / |s| as real, Sum(s, Lng) / |s| as real)
  }

  lemma {:induction false} SumAtLeast(s: seq<LocationSample>, f: Point -> real, lo: real)
    requires forall x :: x in s ==> lo <= f(x.position)
    ensures |s| as real * lo <= Sum(s, f)
  {
    if s != [] {
      var t := s[1..];
      forall x | x in t
        ensures lo <= f(x.position)
      {
        assert x in s;
      }
      SumAtLeast(t, f, lo);
      var m := |t| as real;
      assert |s| as real == m + 1.0;
      assert (m + 1.0) * lo == m * lo + lo;
      assert Sum(s, f) == f(s[0].position) + Sum(t, f);
    }
  }

  lemma {:induction false} SumAtMost(s: seq<LocationSample>, f: Point -> real, hi: real)
    requires forall x :: x in s ==> f(x.position) <= hi
    ensures Sum(s, f) <= |s| as real * hi
  {
    if s != [] {
      var t := s[1..];
      forall x | x in t
        ensures f(x.position) <= hi
      {
        assert x in s;
      }
      SumAtMost(t, f, hi);
      var m := |t| as real;
      assert |s| as real == m + 1.0;
      assert (m + 1.0) * hi == m * hi + hi;
      assert Sum(s, f) == f(s[0].position) + Sum(t, f);
    }
  }

  /** The mean of values within [lo, hi] lies within [lo, hi]. */
  lemma MeanWithin(s: seq<LocationSample>, f: Point -> real, lo: real, hi: real)
    requires s != []
    requires forall x :: x in s ==> lo <= f(x.position) <= hi
    ensures lo <= Sum(s, f) / |s| as real <= hi
  {
    SumAtLeast(s, f, lo);
    SumAtMost(s, f, hi);
    var n := |s| as real;
    assert Sum(s, f) / n >= lo by { assert Sum(s, f) >= n * lo; }
    assert Sum(s, f) / n <= hi by { assert Sum(s, f) <= n * hi; }
  }

  /** The centre lies within any latitude/longitude box that holds every member. */
  lemma CenterWithinBox(s: seq<LocationSample>, south: real, north: real, west: real, east: real)
    requires s != []
    requires forall x :: x in s ==> south <= x.position.lat <= north && west <= x.position.lng <= east
    ensures south <= Center(s).lat <= north && west <= Center(s).lng <= east
  {
    MeanWithin(s, Lat, south, north);
    MeanWithin(s, Lng, west, east);
  }

  /**
   * The inner loop of _cluster_locations for one seed: every sample whose
   * user is not yet processed and that lies within the cluster radius of
   * the seed (inclusive) joins `nearby`, and its user becomes processed.
   */
  function Gather(seed: Point, rest: seq<LocationSample>, processed: set<Email>, nearby: seq<LocationSample>,
                  dist: Metric): (seq<LocationSample>, set<Email>)
  {
    if rest == [] then (nearby, processed)
    else if rest[0].user in processed then Gather(seed, rest[1..], processed, nearby, dist)
    else if dist(seed, rest[0].position) <= ClusterRadiusKm then
      Gather(seed, rest[1..], processed + {rest[0].user}, nearby + [rest[0]], dist)
    else Gather(seed, rest[1..], processed, nearby, dist)
  }

  function UserSet(s: seq<LocationSample>): set<Email>
  {
    set x | x in s :: x.user
  }

  /**
   * The samples gathered for a seed come from the list, lie within the
   * radius of the seed, belong to users not processed before and all
   * different; exactly their users become processed.
   */
  lemma {:induction false} GatherSpec(seed: Point, rest: seq<LocationSample>, processed: set<Email>,
                                      nearby: seq<LocationSample>, dist: Metric)
    requires Pairwise(nearby, DifferentUsers)
    requires forall x :: x in nearby ==> x.user in processed
    ensures var (n, p) := Gather(seed, rest, processed, nearby, dist);
            nearby <= n &&
            (forall x :: x in n[|nearby|..] ==> x in rest && x.user !in processed &&
                                                dist(seed, x.position) <= ClusterRadiusKm) &&
            Pairwise(n, DifferentUsers) &&
            p == processed + UserSet(n[|nearby|..])
  {
    if rest != [] {
      var t := rest[1..];
      assert forall x :: x in t ==> x in rest;
      if rest[0].user in processed || dist(seed, rest[0].position) > ClusterRadiusKm {
        GatherSpec(seed, t, processed, nearby, dist);
      } else {
        var x := rest[0];
        var nearby' := nearby + [x];
        PairwiseSnoc(nearby, x, DifferentUsers);
        GatherSpec(seed, t, processed + {x.user}, nearby', dist);
        var (n, p) := Gather(seed, t, processed + {x.user}, nearby', dist);
        assert n[|nearby|..] == [x] + n[|nearby'|..];
        assert UserSet(n[|nearby|..]) == {x.user} + UserSet(n[|nearby'|..]);
      }
    } else {
      var (n, p) := Gather(seed, rest, processed, nearby, dist);
      assert n[|nearby|..] == [];
    }
  }

  /** With at most one sample per user, an unprocessed seed from the list is always gathered into its own group. */
  lemma {:induction false} GatherIncludesSeed(seed: LocationSample, rest: seq<LocationSample>, processed: set<Email>,
                                              nearby: seq<LocationSample>, dist: Metric)
    requires IsDistance(dist)
    requires seed in rest && seed.user !in processed
    requires Pairwise(rest, DifferentUsers)
    ensures seed in Gather(seed.position, rest, processed, nearby, dist).0
  {
    if rest[0] == seed {
      assert dist(seed.position, seed.position) == 0.0;
      assert Gather(seed.position, rest, processed, nearby, dist) ==
             Gather(seed.position, rest[1..], processed + {seed.user}, nearby + [seed], dist);
      GatherKeeps(seed.position, rest[1..], processed + {seed.user}, nearby + [seed], dist);
      assert (nearby + [seed])[|nearby|] == seed;
    } else {
      assert seed in rest[1..];
      assert rest[0].user != seed.user by {
        var j :| 0 <= j < |rest| && rest[j] == seed;
      }
      assert Pairwise(rest[1..], DifferentUsers) by {
        forall i, j | 0 <= i < j < |rest[1..]|
          ensures DifferentUsers(rest[1..][i], rest[1..][j])
        {
          assert rest[1..][i] == rest[i + 1] && rest[1..][j] == rest[j + 1];
        }
      }
      if rest[0].user in processed || dist(seed.position, rest[0].position) > ClusterRadiusKm {
        GatherIncludesSeed(seed, rest[1..], processed, nearby, dist);
      } else {
        GatherIncludesSeed(seed, rest[1..], processed + {rest[0].user}, nearby + [rest[0]], dist);
      }
    }
  }

  /** Gathering only appends. */
  lemma {:induction false} GatherKeeps(seed: Point, rest: seq<LocationSample>, processed: set<Email>,
                                       nearby: seq<LocationSample>, dist: Metric)
    ensures nearby <= Gather(seed, rest, processed, nearby, dist).0
  {
    if rest != [] {
      if rest[0].user in processed || dist(seed, rest[0].position) > ClusterRadiusKm {
        GatherKeeps(seed, rest[1..], processed, nearby, dist);
      } else {
        GatherKeeps(seed, rest[1..], processed + {rest[0].user}, nearby + [rest[0]], dist);
      }
    }
  }

  /** The cluster an emitted group becomes. */
  function ClusterOf(nearby: seq<LocationSample>, cands: seq<Candidate>, dist: Metric): Cluster
    requires nearby != []
  {
    var c := Center(nearby);
    var place := MatchPlace(cands, c, dist);
    Cluster(c, |nearby|, Users(nearby), place.0, place.1)
  }

  /**
   * _cluster_locations: each sample whose user is still unprocessed seeds a
   * group; groups of at least MinUsersForHotspot become clusters.
   */
  function Scan(all: seq<LocationSample>, rest: seq<LocationSample>, processed: set<Email>, clusters: seq<Cluster>,
                cands: seq<Candidate>, dist: Metric): seq<Cluster>
  {
    if rest == [] then clusters
    else if rest[0].user in processed then Scan(all, rest[1..], processed, clusters, cands, dist)
    else
      var (nearby, p) := Gather(rest[0].position, all, processed, [], dist);
      Scan(all, rest[1..], p, if |nearby| >= MinUsersForHotspot then clusters + [ClusterOf(nearby, cands, dist)] else clusters,
           cands, dist)
  }

  function ClusterLocations(locs: seq<LocationSample>, cands: seq<Candidate>, dist: Metric): seq<Cluster>
  {
    Scan(locs, locs, {}, [], cands, dist)
  }

  /** A well-formed cluster: its size is its member count, at least the minimum, with distinct users. */
  predicate WellFormed(c: Cluster)
  {
    c.userCount == |c.userIds| >= MinUsersForHotspot &&
    forall i, j :: 0 <= i < j < |c.userIds| ==> c.userIds[i] != c.userIds[j]
  }

  predicate DisjointUsers(x: Cluster, y: Cluster)
  {
    forall u :: u in x.userIds ==> u !in y.userIds
  }

  /** The invariant of the scan: well-formed, disjoint clusters whose users are all processed and have a sample. */
  ghost predicate ScanInvariant(all: seq<LocationSample>, processed: set<Email>, clusters: seq<Cluster>)
  {
    (forall c :: c in clusters ==> WellFormed(c)) &&
    Pairwise(clusters, DisjointUsers) &&
    (forall c, u :: c in clusters && u in c.userIds ==> u in processed && u in UserSet(all))
  }

  /** Adding the cluster of a freshly gathered group keeps the scan invariant. */
  lemma AddCluster(all: seq<LocationSample>, processed: set<Email>, clusters: seq<Cluster>,
                   nearby: seq<LocationSample>, p: set<Email>, cands: seq<Candidate>, dist: Metric)
    requires ScanInvariant(all, processed, clusters)
    requires |nearby| >= MinUsersForHotspot
    requires Pairwise(nearby, DifferentUsers)
    requires forall x :: x in nearby ==> x in all && x.user !in processed
    requires p == processed + UserSet(nearby)
    ensures ScanInvariant(all, p, clusters + [ClusterOf(nearby, cands, dist)])
  {
    var c := ClusterOf(nearby, cands, dist);
    assert WellFormed(c) by {
      forall i, j | 0 <= i < j < |c.userIds|
        ensures c.userIds[i] != c.userIds[j]
      {
        assert DifferentUsers(nearby[i], nearby[j]);
      }
    }
    forall u | u in c.userIds
      ensures u in p && u in UserSet(all) && u !in processed
    {
      var k :| 0 <= k < |c.userIds| && c.userIds[k] == u;
      assert nearby[k] in nearby;
    }
    forall d | d in clusters
      ensures DisjointUsers(d, c)
    {
    }
    PairwiseSnoc(clusters, c, DisjointUsers);
  }

  lemma {:induction false} ScanSpec(all: seq<LocationSample>, rest: seq<LocationSample>, processed: set<Email>,
                                    clusters: seq<Cluster>, cands: seq<Candidate>, dist: Metric)
    requires ScanInvariant(all, processed, clusters)
    ensures ScanInvariant(all, processed + UserSet(all), Scan(all, rest, processed, clusters, cands, dist))
  {
    if rest == [] {
    } else if rest[0].user in processed {
      ScanSpec(all, rest[1..], processed, clusters, cands, dist);
    } else {
      var (nearby, p) := Gather(rest[0].position, all, processed, [], dist);
      GatherSpec(rest[0].position, all, processed, [], dist);
      assert nearby[0..] == nearby;
      assert p + UserSet(all) == processed + UserSet(all);
      if |nearby| >= MinUsersForHotspot {
        AddCluster(all, processed, clusters, nearby, p, cands, dist);
        ScanSpec(all, rest[1..], p, clusters + [ClusterOf(nearby, cands, dist)], cands, dist);
      } else {
        ScanSpec(all, rest[1..], p, clusters, cands, dist);
      }
    }
  }

  /**
   * Every cluster has at least MinUsersForHotspot members and counts them
   * exactly; no user is in two clusters, or twice in one; every clustered
   * user has a sample in the input.
   */
  lemma ClusterLocationsSpec(locs: seq<LocationSample>, cands: seq<Candidate>, dist: Metric)
    ensures var cs := ClusterLocations(locs, cands, dist);
            (forall c :: c in cs ==> WellFormed(c)) &&
            Pairwise(cs, DisjointUsers) &&
            (forall c, u :: c in cs && u in c.userIds ==> u in UserSet(locs))
  {
    ScanSpec(locs, locs, {}, [], cands, dist);
  }

  /** The inner loop of _cluster_locations. */
  method GatherNearby(seed: Point, locs: seq<LocationSample>, processed: set<Email>, dist: Metric)
      returns (nearby: seq<LocationSample>, processed': set<Email>)
    ensures (nearby, processed') == Gather(seed, locs, processed, [], dist)
  {
    nearby, processed' := [], processed;
    var j := 0;
    while j < |locs|
      invariant 0 <= j <= |locs|
      invariant Gather(seed, locs[j..], processed', nearby, dist) == Gather(seed, locs, processed, [], dist)
    {
      assert locs[j..][1..] == locs[j + 1..];
      var other := locs[j];
      if other.user !in processed' {
        if dist(seed, other.position) <= ClusterRadiusKm {
          nearby := nearby + [other];
          processed' := processed' + {other.user};
        }
      }
      j := j + 1;
    }
  }

  /** _cluster_locations, with its nested loops and processed set. */
  method ClusterScan(locs: seq<LocationSample>, cands: seq<Candidate>, dist: Metric) returns (clusters: seq<Cluster>)
    ensures clusters == ClusterLocations(locs, cands, dist)
  {
    clusters := [];
    var processed: set<Email> := {};
    var i := 0;
    while i < |locs|
      invariant 0 <= i <= |locs|
      invariant Scan(locs, locs[i..], processed, clusters, cands, dist) == ClusterLocations(locs, cands, dist)
    {
      assert locs[i..][1..] == locs[i + 1..];
      var location := locs[i];
      if location.user !in processed {
        var nearby;
        nearby, processed := GatherNearby(location.position, locs, processed, dist);
        if |nearby| >= MinUsersForHotspot {
          var center := Center(nearby);
          var name, id := MatchPlaceScan(cands, center, dist);
          clusters := clusters + [Cluster(center, |nearby|, Users(nearby), name, id)];
        }
      }
      i := i + 1;
    }
  }

  // ---------------------------------------------------------------------
  // Update or create

  /** A live hotspot within the cluster radius of the point. */
  predicate NearLive(h: Hotspot, at: Point, now: int, dist: Metric)
  {
    Live(h, now) && dist(at, h.position) <= ClusterRadiusKm
  }

  /** The position of the first live hotspot within the cluster radius, in table order. */
  function FirstNear(hs: seq<Hotspot>, at: Point, now: int, dist: Metric): (k: Option<nat>)
    ensures k.Some? ==> k.value < |hs| && NearLive(hs[k.value], at, now, dist) &&
                        forall j :: 0 <= j < k.value ==> !NearLive(hs[j], at, now, dist)
    ensures k.None? ==> forall h :: h in hs ==> !NearLive(h, at, now, dist)
  {
    if hs == [] then None
    else if NearLive(hs[0], at, now, dist) then Some(0)
    else
      var k := FirstNear(hs[1..], at, now, dist);
      assert forall h :: h in hs ==> h == hs[0] || h in hs[1..];
      if k.Some? then Some(k.value + 1) else None
  }

  /** An existing hotspot refreshed by a cluster; the place is overwritten only by a non-empty name. */
  function Refresh(h: Hotspot, c: Cluster, now: int): Hotspot
  {
    h.(userCount := c.userCount, activeUsers := c.userIds, lastActivity := now, expiresAt := now + HotspotExpiry,
       placeName := if c.placeName != "" then c.placeName else h.placeName,
       relatedPlaceId := if c.placeName != "" then c.placeId else h.relatedPlaceId)
  }

  /** The hotspot created for a cluster (the coordinates' decimal quantisation is not modelled). */
  function NewHotspot(c: Cluster, now: int): Hotspot
  {
    Hotspot(c.center, c.placeName, c.placeId, c.userCount, c.userIds, now, now, now + HotspotExpiry)
  }

  /**
   * _update_or_create_hotspot on the table in -last_activity order: the
   * touched row, whose last_activity becomes now, moves to the front.
   */
  function AbsorbOne(hs: seq<Hotspot>, c: Cluster, now: int, dist: Metric): seq<Hotspot>
  {
    var k := FirstNear(hs, c.center, now, dist);
    if k.Some? then [Refresh(hs[k.value], c, now)] + (hs[..k.value] + hs[k.value + 1..])
    else [NewHotspot(c, now)] + hs
  }

  /**
   * The front row carries the cluster's count and users, was touched now
   * and stays live for the expiry period. If a live hotspot lay within the
   * radius, the first such is the one refreshed: it keeps its position and
   * first detection, takes the cluster's place only when that is named, and
   * the other rows stay. Otherwise exactly one row is added, at the centre.
   */
  lemma AbsorbOneSpec(hs: seq<Hotspot>, c: Cluster, now: int, dist: Metric)
    ensures var r := AbsorbOne(hs, c, now, dist);
            r != [] &&
            r[0].userCount == c.userCount && r[0].activeUsers == c.userIds &&
            r[0].lastActivity == now && r[0].expiresAt == now + HotspotExpiry && Live(r[0], now)
    ensures var r := AbsorbOne(hs, c, now, dist);
            var k := FirstNear(hs, c.center, now, dist);
            k.Some? ==> |r| == |hs| &&
                        r[0].position == hs[k.value].position && r[0].firstDetected == hs[k.value].firstDetected &&
                        r[0].placeName == (if c.placeName != "" then c.placeName else hs[k.value].placeName) &&
                        multiset(r[1..]) == multiset(hs) - multiset{hs[k.value]}
    ensures var r := AbsorbOne(hs, c, now, dist);
            FirstNear(hs, c.center, now, dist).None? ==>
              (forall h :: h in hs ==> !NearLive(h, c.center, now, dist)) &&
              |r| == |hs| + 1 && r[1..] == hs &&
              r[0].position == c.center && r[0].placeName == c.placeName && r[0].relatedPlaceId == c.placeId &&
              r[0].firstDetected == now
  {
    var k := FirstNear(hs, c.center, now, dist);
    if k.Some? {
      var r := AbsorbOne(hs, c, now, dist);
      assert hs == hs[..k.value] + [hs[k.value]] + hs[k.value + 1..];
      assert r[1..] == hs[..k.value] + hs[k.value + 1..];
    }
  }

  /** The loop of _update_hotspots over the clusters. */
  function Absorb(hs: seq<Hotspot>, clusters: seq<Cluster>, now: int, dist: Metric): seq<Hotspot>
    decreases |clusters|
  {
    if clusters == [] then hs
    else Absorb(if clusters[0].userCount >= MinUsersForHotspot then AbsorbOne(hs, clusters[0], now, dist) else hs,
                clusters[1..], now, dist)
  }

  /** Absorbing clusters never deletes rows: the table grows by at most one row per cluster. */
  lemma {:induction false} AbsorbSize(hs: seq<Hotspot>, clusters: seq<Cluster>, now: int, dist: Metric)
    ensures |hs| <= |Absorb(hs, clusters, now, dist)| <= |hs| + |clusters|
    decreases |clusters|
  {
    if clusters != [] {
      var c := clusters[0];
      if c.userCount >= MinUsersForHotspot {
        AbsorbOneSpec(hs, c, now, dist);
        AbsorbSize(AbsorbOne(hs, c, now, dist), clusters[1..], now, dist);
      } else {
        AbsorbSize(hs, clusters[1..], now, dist);
      }
    }
  }

  /**
   * As written, a cluster's user ids are the samples' `user_id` values,
   * uuid.UUID objects, and active_users is a JSONField without an encoder:
   * json.dumps refuses every list that holds one, so the save succeeds
   * only for an empty list. The corrected table stores each id as its text.
   */
  predicate SerialisableAsWritten(ids: seq<Email>)
  {
    ids == []
  }

  /** The loop of _update_hotspots as written: None when a hotspot save raises TypeError, the table otherwise. */
  function AbsorbAsWritten(hs: seq<Hotspot>, clusters: seq<Cluster>, now: int, dist: Metric): Option<seq<Hotspot>>
    decreases |clusters|
  {
    if clusters == [] then Some(hs)
    else if clusters[0].userCount < MinUsersForHotspot then AbsorbAsWritten(hs, clusters[1..], now, dist)
    else if !SerialisableAsWritten(clusters[0].userIds) then None
    else AbsorbAsWritten(AbsorbOne(hs, clusters[0], now, dist), clusters[1..], now, dist)
  }

  /**
   * The loop as written raises exactly when some cluster of the minimum
   * size holds a user, and otherwise leaves the table the corrected loop
   * leaves.
   */
  lemma {:induction false} AbsorbAsWrittenSpec(hs: seq<Hotspot>, clusters: seq<Cluster>, now: int, dist: Metric)
    ensures AbsorbAsWritten(hs, clusters, now, dist).None? <==>
              exists i :: 0 <= i < |clusters| && clusters[i].userCount >= MinUsersForHotspot && clusters[i].userIds != []
    ensures AbsorbAsWritten(hs, clusters, now, dist).Some? ==> AbsorbAsWritten(hs, clusters, now, dist).value == Absorb(hs, clusters, now, dist)
    decreases |clusters|
  {
    if clusters != [] {
      var c := clusters[0];
      var next := if c.userCount >= MinUsersForHotspot then AbsorbOne(hs, c, now, dist) else hs;
      AbsorbAsWrittenSpec(next, clusters[1..], now, dist);
      forall i | 1 <= i < |clusters|
        ensures clusters[i] == clusters[1..][i - 1]
      {
      }
      if !(c.userCount >= MinUsersForHotspot && c.userIds != []) {
        if exists i :: 0 <= i < |clusters| && clusters[i].userCount >= MinUsersForHotspot && clusters[i].userIds != [] {
          var i :| 0 <= i < |clusters| && clusters[i].userCount >= MinUsersForHotspot && clusters[i].userIds != [];
          assert clusters[1..][i - 1] == clusters[i];
        }
      }
    }
  }

  /** _update_or_create_hotspot: refresh the first live hotspot within the radius, or create one. */
  method UpdateOrCreateHotspot(db: TravelDb, c: Cluster, now: int, dist: Metric)
    requires db.Valid()
    modifies db
    ensures db.Valid()
    ensures db.hotspots == AbsorbOne(old(db.hotspots), c, now, dist)
    ensures db.trips == old(db.trips) && db.matches == old(db.matches) && db.nextId == old(db.nextId)
    ensures db.samples == old(db.samples) && db.suggestions == old(db.suggestions)
  {
    var i := 0;
    while i < |db.hotspots|
      invariant 0 <= i <= |db.hotspots|
      invariant forall j :: 0 <= j < i ==> !NearLive(db.hotspots[j], c.center, now, dist)
    {
      var hotspot := db.hotspots[i];
      if Live(hotspot, now) && dist(c.center, hotspot.position) <= ClusterRadiusKm {
        FirstNearAt(db.hotspots, c.center, now, dist, i);
        db.hotspots := [Refresh(hotspot, c, now)] + (db.hotspots[..i] + db.hotspots[i + 1..]);
        return;
      }
      i := i + 1;
    }
    FirstNearNone(db.hotspots, c.center, now, dist);
    db.hotspots := [NewHotspot(c, now)] + db.hotspots;
  }

  lemma FirstNearAt(hs: seq<Hotspot>, at: Point, now: int, dist: Metric, i: nat)
    requires i < |hs| && NearLive(hs[i], at, now, dist)
    requires forall j :: 0 <= j < i ==> !NearLive(hs[j], at, now, dist)
    ensures FirstNear(hs, at, now, dist) == Some(i)
  {
  }

  lemma FirstNearNone(hs: seq<Hotspot>, at: Point, now: int, dist: Metric)
    requires forall j :: 0 <= j < |hs| ==> !NearLive(hs[j], at, now, dist)
    ensures FirstNear(hs, at, now, dist).None?
  {
  }

  /**
   * _update_hotspots: cluster the latest sample of each traveller on an
   * active trip, and absorb every cluster of at least the minimum size.
   */
  method UpdateHotspots(db: TravelDb, tables: InsightsModels.Tables, now: int, dist: Metric)
    requires db.Valid()
    modifies db
    ensures db.Valid()
    ensures db.hotspots == Absorb(old(db.hotspots),
                                  ClusterLocations(RecentPerUser(old(db.trips), old(db.samples), now), PlaceCandidates(tables), dist),
                                  now, dist)
    ensures db.trips == old(db.trips) && db.matches == old(db.matches) && db.nextId == old(db.nextId)
    ensures db.samples == old(db.samples) && db.suggestions == old(db.suggestions)
  {
    var recent := RecentPerUser(db.trips, db.samples, now);
    var clusters := ClusterScan(recent, PlaceCandidates(tables), dist);
    var i := 0;
    while i < |clusters|
      invariant 0 <= i <= |clusters|
      invariant db.Valid()
      invariant Absorb(db.hotspots, clusters[i..], now, dist) == Absorb(old(db.hotspots), clusters, now, dist)
      invariant db.trips == old(db.trips) && db.matches == old(db.matches) && db.nextId == old(db.nextId)
      invariant db.samples == old(db.samples) && db.suggestions == old(db.suggestions)
    {
      assert clusters[i..][1..] == clusters[i + 1..];
      if clusters[i].userCount >= MinUsersForHotspot {
        UpdateOrCreateHotspot(db, clusters[i], now, dist);
      }
      i := i + 1;
    }
  }

  // ---------------------------------------------------------------------
  // The nearest hotspot

  /** A hotspot _find_nearby_hotspot may return: live, big enough, and within the notification radius. */
  predicate Eligible(h: Hotspot, here: Point, now: int, dist: Metric)
  {
    Live(h, now) && h.userCount >= MinUsersForHotspot && dist(here, h.position) <= NotificationRadiusKm
  }

  /**
   * The running minimum of _find_nearby_hotspot from position i on, with the
   * closest so far kept by its position; only a strictly smaller distance
   * replaces it.
   */
  function NearestFrom(hs: seq<Hotspot>, i: nat, best: Option<nat>, here: Point, now: int, dist: Metric): Option<nat>
    requires i <= |hs| && (best.Some? ==> best.value < |hs|)
    decreases |hs| - i
  {
    if i == |hs| then best
    else if Eligible(hs[i], here, now, dist) &&
            (best.None? || dist(here, hs[i].position) < dist(here, hs[best.value].position)) then
      NearestFrom(hs, i + 1, Some(i), here, now, dist)
    else NearestFrom(hs, i + 1, best, here, now, dist)
  }

  /** best is the closest eligible hotspot among the first i, and the first of those at that distance. */
  predicate BestSoFar(hs: seq<Hotspot>, i: nat, best: Option<nat>, here: Point, now: int, dist: Metric)
    requires i <= |hs|
  {
    (best.None? ==> forall j :: 0 <= j < i ==> !Eligible(hs[j], here, now, dist)) &&
    (best.Some? ==>
       best.value < i && Eligible(hs[best.value], here, now, dist) &&
       (forall j :: 0 <= j < i && Eligible(hs[j], here, now, dist) ==>
          dist(here, hs[best.value].position) <= dist(here, hs[j].position)) &&
       (forall j :: 0 <= j < best.value && Eligible(hs[j], here, now, dist) ==>
          dist(here, hs[j].position) > dist(here, hs[best.value].position)))
  }

  lemma {:induction false} NearestFromSpec(hs: seq<Hotspot>, i: nat, best: Option<nat>, here: Point, now: int, dist: Metric)
    requires i <= |hs| && BestSoFar(hs, i, best, here, now, dist)
    ensures var r := NearestFrom(hs, i, best, here, now, dist);
            (r.Some? ==> r.value < |hs|) && BestSoFar(hs, |hs|, r, here, now, dist)
    decreases |hs| - i
  {
    if i < |hs| {
      if Eligible(hs[i], here, now, dist) &&
         (best.None? || dist(here, hs[i].position) < dist(here, hs[best.value].position)) {
        NearestFromSpec(hs, i + 1, Some(i), here, now, dist);
      } else {
        NearestFromSpec(hs, i + 1, best, here, now, dist);
      }
    }
  }

  function NearestHotspot(hs: seq<Hotspot>, here: Point, now: int, dist: Metric): Option<Hotspot>
  {
    var k := NearestFrom(hs, 0, None, here, now, dist);
    if k.Some? && k.value < |hs| then Some(hs[k.value]) else None
  }

  /**
   * None exactly when no hotspot is eligible; otherwise an eligible hotspot
   * at the smallest distance, and no eligible hotspot before it is as close.
   */
  lemma NearestHotspotSpec(hs: seq<Hotspot>, here: Point, now: int, dist: Metric)
    ensures var r := NearestHotspot(hs, here, now, dist);
            (r.None? <==> forall h :: h in hs ==> !Eligible(h, here, now, dist)) &&
            (r.Some? ==> exists k :: 0 <= k < |hs| && hs[k] == r.value && Eligible(r.value, here, now, dist) &&
                          (forall h :: h in hs && Eligible(h, here, now, dist) ==>
                                       dist(here, r.value.position) <= dist(here, h.position)) &&
                          (forall j :: 0 <= j < k && Eligible(hs[j], here, now, dist) ==>
                                       dist(here, hs[j].position) > dist(here, r.value.position)))
  {
    NearestFromSpec(hs, 0, None, here, now, dist);
  }

  /** _find_nearby_hotspot: one pass keeping the closest eligible hotspot found so far. */
  method FindNearbyHotspot(hs: seq<Hotspot>, here: Point, now: int, dist: Metric) returns (closest: Option<Hotspot>)
    ensures closest == NearestHotspot(hs, here, now, dist)
  {
    var best: Option<nat> := None;
    var i := 0;
    while i < |hs|
      invariant 0 <= i <= |hs|
      invariant best.Some? ==> best.value < |hs|
      invariant NearestFrom(hs, i, best, here, now, dist) == NearestFrom(hs, 0, None, here, now, dist)
    {
      var d := dist(here, hs[i].position);
      if Eligible(hs[i], here, now, dist) && (best.None? || d < dist(here, hs[best.value].position)) {
        best := Some(i);
      }
      i := i + 1;
    }
    closest := if best.Some? then Some(hs[best.value]) else None;
  }

  /** Absorbing clusters into a table of live hotspots leaves every row live. */
  lemma {:induction false} AbsorbKeepsLive(hs: seq<Hotspot>, clusters: seq<Cluster>, now: int, dist: Metric)
    requires forall h :: h in hs ==> Live(h, now)
    ensures forall h :: h in Absorb(hs, clusters, now, dist) ==> Live(h, now)
    decreases |clusters|
  {
    if clusters != [] {
      var c := clusters[0];
      if c.userCount >= MinUsersForHotspot {
        var r := AbsorbOne(hs, c, now, dist);
        var k := FirstNear(hs, c.center, now, dist);
        forall h | h in r
          ensures Live(h, now)
        {
          if h != r[0] {
            if k.Some? {
              assert h in hs[..k.value] + hs[k.value + 1..];
              assert h in hs[..k.value] || h in hs[k.value + 1..];
            } else {
              assert h in r[1..];
            }
          }
        }
        AbsorbKeepsLive(r, clusters[1..], now, dist);
      } else {
        AbsorbKeepsLive(hs, clusters[1..], now, dist);
      }
    }
  }

  // ---------------------------------------------------------------------
  // Friends among the crowd

  /** The user's friend set (the Social row's friends), empty when there is none. */
  function FriendsOf(friends: map<Email, set<Email>>, user: Email): set<Email>
  {
    if user in friends then friends[user] else {}
  }

  /** A member of the crowd who is named in the notification: a friend with a profile row. */
  predicate Named(e: Email, mine: set<Email>, profiles: map<Email, Accounts.Profile>)
  {
    e in mine && e in profiles
  }

  /** The name shown for a friend: the full name, else the part of the e-mail before the '@'. */
  function FriendLabel(users: map<Email, Accounts.User>, e: Email): (r: string)
    ensures r == "" ==> Accounts.DisplayName(users, e) == "" && Before(e, '@') == ""
  {
    var full := Accounts.DisplayName(users, e);
    if full != "" then full else Before(e, '@')
  }

  /** The loop of _get_friend_names_in_hotspot over the hotspot's active users. */
  function FriendNamesFrom(members: seq<Email>, mine: set<Email>, users: map<Email, Accounts.User>,
                           profiles: map<Email, Accounts.Profile>): seq<string>
  {
    if members == [] then []
    else (if Named(members[0], mine, profiles) then [FriendLabel(users, members[0])] else [])
         + FriendNamesFrom(members[1..], mine, users, profiles)
  }

  /** _get_friend_names_in_hotspot, reading the friends from the Social row: none for a user without a profile. */
  function FriendNames(users: map<Email, Accounts.User>, profiles: map<Email, Accounts.Profile>,
                       friends: map<Email, set<Email>>, user: Email, h: Hotspot): seq<string>
  {
    if user !in profiles then [] else FriendNamesFrom(h.activeUsers, FriendsOf(friends, user), users, profiles)
  }

  /**
   * One name per named member, in the crowd's order: there are no names
   * exactly when no member is a friend with a profile, and every name is
   * the label of such a member.
   */
  lemma {:induction false} FriendNamesFromSpec(members: seq<Email>, mine: set<Email>, users: map<Email, Accounts.User>,
                                               profiles: map<Email, Accounts.Profile>)
    ensures var r := FriendNamesFrom(members, mine, users, profiles);
            |r| <= |members| &&
            (r == [] <==> forall e :: e in members ==> !Named(e, mine, profiles)) &&
            (forall n :: n in r ==> exists e :: e in members && Named(e, mine, profiles) && n == FriendLabel(users, e))
  {
    if members != [] {
      var t := members[1..];
      FriendNamesFromSpec(t, mine, users, profiles);
      assert forall e :: e in members <==> e == members[0] || e in t;
    }
  }

  /** _get_friend_names_in_hotspot with the friends read from the Social row. */
  method GetFriendNames(store: Accounts.Store, user: Email, h: Hotspot) returns (names: seq<string>)
    ensures names == FriendNames(store.users, store.profiles, store.friends, user, h)
  {
    if user !in store.profiles {
      return [];
    }
    var mine := FriendsOf(store.friends, user);
    names := [];
    var i := 0;
    while i < |h.activeUsers|
      invariant 0 <= i <= |h.activeUsers|
      invariant names + FriendNamesFrom(h.activeUsers[i..], mine, store.users, store.profiles)
                == FriendNamesFrom(h.activeUsers, mine, store.users, store.profiles)
    {
      var e := h.activeUsers[i];
      assert h.activeUsers[i..][1..] == h.activeUsers[i + 1..];
      if e in mine && e in store.profiles {
        names := names + [FriendLabel(store.users, e)];
      }
      i := i + 1;
    }
  }

  /** What _get_friend_names_in_hotspot does as written: Profile has no `friends` attribute. */
  datatype FriendLookup = Names(names: seq<string>) | NoFriendsAttribute

  function FriendNamesAsWritten(profiles: map<Email, Accounts.Profile>, user: Email): FriendLookup
  {
    if user !in profiles then Names([]) else NoFriendsAttribute
  }

  /**
   * Every user has a profile row once registered, so as written the lookup
   * fails for a user whose friend stands in the crowd, where the model
   * names that friend.
   */
  lemma FriendInCrowdFails(users: map<Email, Accounts.User>, profiles: map<Email, Accounts.Profile>,
                           friends: map<Email, set<Email>>, user: Email, friend: Email, h: Hotspot)
    requires user in profiles && friend in profiles
    requires user in friends && friend in friends[user]
    requires h.activeUsers == [friend]
    ensures FriendNamesAsWritten(profiles, user) == NoFriendsAttribute
    ensures FriendNames(users, profiles, friends, user, h) == [FriendLabel(users, friend)]
  {
    assert h.activeUsers[1..] == [];
    assert FriendNamesFrom(h.activeUsers, friends[user], users, profiles)
           == [FriendLabel(users, friend)] + FriendNamesFrom([], friends[user], users, profiles);
  }

  // ---------------------------------------------------------------------
  // The notification

  /** The two number renderings the messages use: a coordinate's decimal text, and "{:.1f}". */
  datatype Formatting = Formatting(coordinate: real -> string, oneDecimal: real -> string)

  const FriendsTitle: string := "\U{1F525} Your Friends Are Nearby!"
  const CrowdTitle: string := "\U{1F525} Activity Nearby!"

  /** The place name, or the coordinates in parentheses when the hotspot has none. */
  function LocationText(h: Hotspot, fmt: Formatting): string
  {
    if h.placeName != "" then h.placeName
    else "(" + fmt.coordinate(h.position.lat) + ", " + fmt.coordinate(h.position.lng) + ")"
  }

  /** Kilometres to one decimal from one kilometre on, whole metres (truncated) below. */
  function DistanceText(d: real, fmt: Formatting): string
  {
    if d >= 1.0 then fmt.oneDecimal(d) + "km" else IntToString(Trunc(d * 1000.0)) + "m"
  }

  /** Below one kilometre the text is a whole number of metres in [lo, 999] for any lower bound lo/1000 the distance reaches. */
  lemma DistanceTextMetres(d: real, fmt: Formatting, lo: nat)
    requires lo as real <= d * 1000.0 && d < 1.0
    ensures exists n: nat :: lo <= n < 1000 && DistanceText(d, fmt) == NatToString(n) + "m"
  {
    var x := d * 1000.0;
    assert x >= 0.0;
    var n := x.Floor;
    assert lo <= n < 1000;
    assert DistanceText(d, fmt) == NatToString(n) + "m";
  }

  lemma DistanceTextKilometres(d: real, fmt: Formatting)
    requires d >= 1.0
    ensures EndsWith(DistanceText(d, fmt), "km")
  {
    var r := DistanceText(d, fmt);
    assert r[|r| - 2..] == "km";
  }

  function NoticeTitle(names: seq<string>): string
  {
    if names != [] then FriendsTitle else CrowdTitle
  }

  function NoticeContent(names: seq<string>, h: Hotspot, d: real, fmt: Formatting): string
  {
    var place := LocationText(h, fmt);
    var away := DistanceText(d, fmt);
    if names != [] then
      "Your friends " + Join(names, ", ") + " are part of a crowd of " + IntToString(h.userCount)
      + " iTravelSolo travelers at " + place + " (" + away + " from you). Want to check it out?"
    else
      IntToString(h.userCount) + " iTravelSolo travelers are currently at " + place + " (" + away
      + " from you). Something interesting might be happening! Want to check it out?"
  }

  /** The activity_hotspot suggestion stored for the user. */
  function HotspotNotice(user: Email, trip: TripId, h: Hotspot, d: real, names: seq<string>, fmt: Formatting, now: int): TripSuggestion
  {
    TripSuggestion(user, trip, ActivityHotspot, NoticeContent(names, h, d, fmt), NoticeTitle(names),
                   h.position, h.placeName, h.relatedPlaceId, Some(h.userCount), names, false, now)
  }

  /**
   * The spam guard: an activity_hotspot suggestion for the same user, trip
   * and related place (both absent counts as the same) in the last two hours.
   */
  predicate RecentlyNotified(suggestions: seq<TripSuggestion>, user: Email, trip: TripId, h: Hotspot, now: int)
  {
    exists s :: s in suggestions && s.user == user && s.trip == trip && s.kind == ActivityHotspot &&
                s.relatedPlaceId == h.relatedPlaceId && s.createdAt >= now - NotificationDedup
  }

  /** A notice silences the same hotspot's place for this user and trip for the next two hours. */
  lemma NoticeSilences(suggestions: seq<TripSuggestion>, user: Email, trip: TripId, h: Hotspot, d: real,
                       names: seq<string>, fmt: Formatting, now: int, later: int)
    requires now <= later <= now + NotificationDedup
    ensures RecentlyNotified(suggestions + [HotspotNotice(user, trip, h, d, names, fmt, now)], user, trip, h, later)
  {
    var s := HotspotNotice(user, trip, h, d, names, fmt, now);
    assert s in suggestions + [s];
  }

  /** After two hours the guard no longer holds on account of that notice alone. */
  lemma NoticeLapses(user: Email, trip: TripId, h: Hotspot, d: real, names: seq<string>, fmt: Formatting, now: int, later: int)
    requires later > now + NotificationDedup
    ensures !RecentlyNotified([HotspotNotice(user, trip, h, d, names, fmt, now)], user, trip, h, later)
  {
  }

  /** _create_hotspot_notification: nothing when the guard holds, otherwise the notice, stored. */
  method CreateHotspotNotification(db: TravelDb, store: Accounts.Store, user: Email, trip: Trip, h: Hotspot,
                                   d: real, now: int, fmt: Formatting)
      returns (notice: Option<TripSuggestion>)
    requires db.Valid()
    modifies db
    ensures db.Valid()
    ensures notice.None? <==> RecentlyNotified(old(db.suggestions), user, trip.id, h, now)
    ensures notice.Some? ==>
              notice.value == HotspotNotice(user, trip.id, h, d, FriendNames(store.users, store.profiles, store.friends, user, h), fmt, now)
    ensures db.suggestions == old(db.suggestions) + (if notice.Some? then [notice.value] else [])
    ensures db.trips == old(db.trips) && db.matches == old(db.matches) && db.nextId == old(db.nextId)
    ensures db.samples == old(db.samples) && db.hotspots == old(db.hotspots)
  {
    if RecentlyNotified(db.suggestions, user, trip.id, h, now) {
      return None;
    }
    var names := GetFriendNames(store, user, h);
    var s := HotspotNotice(user, trip.id, h, d, names, fmt, now);
    db.suggestions := db.suggestions + [s];
    notice := Some(s);
  }

  // ---------------------------------------------------------------------
  // detect_and_notify

  /** The hotspot table after the cleanup and the update from recent activity. */
  function Refreshed(hs: seq<Hotspot>, trips: seq<Trip>, samples: seq<LocationSample>, tables: InsightsModels.Tables,
                     now: int, dist: Metric): seq<Hotspot>
  {
    Absorb(Filter(hs, LiveAt(now)), ClusterLocations(RecentPerUser(trips, samples, now), PlaceCandidates(tables), dist), now, dist)
  }

  /**
   * The refresh as written: the expired rows are deleted, then the first
   * hotspot save raises. None stands for that TypeError; the deletion has
   * already been committed.
   */
  function RefreshedAsWritten(hs: seq<Hotspot>, trips: seq<Trip>, samples: seq<LocationSample>, tables: InsightsModels.Tables,
                              now: int, dist: Metric): Option<seq<Hotspot>>
  {
    AbsorbAsWritten(Filter(hs, LiveAt(now)), ClusterLocations(RecentPerUser(trips, samples, now), PlaceCandidates(tables), dist), now, dist)
  }

  /**
   * As written, detection raises exactly when the recent samples form a
   * crowd (any cluster at all); without one it gives the corrected table.
   */
  lemma CrowdRaisesAsWritten(hs: seq<Hotspot>, trips: seq<Trip>, samples: seq<LocationSample>, tables: InsightsModels.Tables,
                             now: int, dist: Metric)
    ensures var clusters := ClusterLocations(RecentPerUser(trips, samples, now), PlaceCandidates(tables), dist);
            RefreshedAsWritten(hs, trips, samples, tables, now, dist).None? <==> clusters != []
    ensures RefreshedAsWritten(hs, trips, samples, tables, now, dist).Some? ==>
              RefreshedAsWritten(hs, trips, samples, tables, now, dist).value == Refreshed(hs, trips, samples, tables, now, dist)
  {
    var locs := RecentPerUser(trips, samples, now);
    var clusters := ClusterLocations(locs, PlaceCandidates(tables), dist);
    ClusterLocationsSpec(locs, PlaceCandidates(tables), dist);
    AbsorbAsWrittenSpec(Filter(hs, LiveAt(now)), clusters, now, dist);
    if clusters != [] {
      assert WellFormed(clusters[0]);
    }
  }

  /** After detection every hotspot left in the table is live. */
  lemma RefreshedLive(hs: seq<Hotspot>, trips: seq<Trip>, samples: seq<LocationSample>, tables: InsightsModels.Tables,
                      now: int, dist: Metric)
    ensures forall h :: h in Refreshed(hs, trips, samples, tables, now, dist) ==> Live(h, now)
  {
    AbsorbKeepsLive(Filter(hs, LiveAt(now)), ClusterLocations(RecentPerUser(trips, samples, now), PlaceCandidates(tables), dist), now, dist);
  }

  /** The notification decided on the refreshed table. */
  function Notify(trips: seq<Trip>, suggestions: seq<TripSuggestion>, hs: seq<Hotspot>, users: map<Email, Accounts.User>,
                  profiles: map<Email, Accounts.Profile>, friends: map<Email, set<Email>>,
                  user: Email, here: Point, now: int, dist: Metric, fmt: Formatting): Option<TripSuggestion>
  {
    var trip := ActiveTrip(trips, user, Today(now));
    if trip.None? then None
    else
      var h := NearestHotspot(hs, here, now, dist);
      if h.None? then None
      else
        var d := dist(here, h.value.position);
        if d < ClusterRadiusKm || RecentlyNotified(suggestions, user, trip.value.id, h.value, now) then None
        else Some(HotspotNotice(user, trip.value.id, h.value, d, FriendNames(users, profiles, friends, user, h.value), fmt, now))
  }

  /**
   * A notification is sent exactly when the user has an active trip, some
   * live hotspot of at least two travellers is within the notification
   * radius, the nearest such is not within the cluster radius, and the
   * guard does not hold.
   */
  lemma NotifyWhen(trips: seq<Trip>, suggestions: seq<TripSuggestion>, hs: seq<Hotspot>, users: map<Email, Accounts.User>,
                   profiles: map<Email, Accounts.Profile>, friends: map<Email, set<Email>>,
                   user: Email, here: Point, now: int, dist: Metric, fmt: Formatting)
    ensures var r := Notify(trips, suggestions, hs, users, profiles, friends, user, here, now, dist, fmt);
            var trip := ActiveTrip(trips, user, Today(now));
            var h := NearestHotspot(hs, here, now, dist);
            r.Some? <==> (trip.Some? && h.Some? && dist(here, h.value.position) >= ClusterRadiusKm &&
                          !RecentlyNotified(suggestions, user, trip.value.id, h.value, now))
    ensures ActiveTrip(trips, user, Today(now)).None? || (forall h :: h in hs ==> !Eligible(h, here, now, dist)) ==>
              Notify(trips, suggestions, hs, users, profiles, friends, user, here, now, dist, fmt).None?
  {
    NearestHotspotSpec(hs, here, now, dist);
  }

  /** A notification is for the user's active trip, unread, stamped now. */
  lemma NotifyTrip(trips: seq<Trip>, suggestions: seq<TripSuggestion>, hs: seq<Hotspot>, users: map<Email, Accounts.User>,
                   profiles: map<Email, Accounts.Profile>, friends: map<Email, set<Email>>,
                   user: Email, here: Point, now: int, dist: Metric, fmt: Formatting)
    ensures var r := Notify(trips, suggestions, hs, users, profiles, friends, user, here, now, dist, fmt);
            r.Some? ==>
              (exists t :: t in trips && ActiveOn(t, user, Today(now)) && t.id == r.value.trip) &&
              r.value.user == user && r.value.kind == ActivityHotspot && r.value.createdAt == now && !r.value.isRead
  {
    var trip := ActiveTrip(trips, user, Today(now));
    if trip.Some? {
      assert trip.value in trips;
    }
  }

  /**
   * A notification is about the nearest eligible hotspot, which lies
   * between the cluster radius and the notification radius.
   */
  lemma NotifyNearest(trips: seq<Trip>, suggestions: seq<TripSuggestion>, hs: seq<Hotspot>, users: map<Email, Accounts.User>,
                      profiles: map<Email, Accounts.Profile>, friends: map<Email, set<Email>>,
                      user: Email, here: Point, now: int, dist: Metric, fmt: Formatting)
    ensures var r := Notify(trips, suggestions, hs, users, profiles, friends, user, here, now, dist, fmt);
            r.Some? ==>
              ClusterRadiusKm <= dist(here, r.value.position) <= NotificationRadiusKm &&
              exists h :: h in hs && Eligible(h, here, now, dist) && h.position == r.value.position &&
                          r.value.hotspotUserCount == Some(h.userCount) &&
                          forall g :: g in hs && Eligible(g, here, now, dist) ==> dist(here, h.position) <= dist(here, g.position)
  {
    NearestHotspotSpec(hs, here, now, dist);
  }

  /** A notification greets friends exactly when a friend with a profile is in the crowd. */
  lemma NotifyGreeting(trips: seq<Trip>, suggestions: seq<TripSuggestion>, hs: seq<Hotspot>, users: map<Email, Accounts.User>,
                       profiles: map<Email, Accounts.Profile>, friends: map<Email, set<Email>>,
                       user: Email, here: Point, now: int, dist: Metric, fmt: Formatting)
    ensures var r := Notify(trips, suggestions, hs, users, profiles, friends, user, here, now, dist, fmt);
            var h := NearestHotspot(hs, here, now, dist);
            r.Some? ==>
              h.Some? &&
              (r.value.title == FriendsTitle <==>
                 user in profiles && exists e :: e in h.value.activeUsers && Named(e, FriendsOf(friends, user), profiles))
  {
    var h := NearestHotspot(hs, here, now, dist);
    if h.Some? {
      FriendNamesFromSpec(h.value.activeUsers, FriendsOf(friends, user), users, profiles);
    }
    assert FriendsTitle != CrowdTitle by {
      assert FriendsTitle[2] != CrowdTitle[2];
    }
  }

  /**
   * detect_and_notify: clean up expired hotspots, absorb the clusters of
   * recent activity, and notify the user of the nearest crowd around them.
   */
  method DetectAndNotify(db: TravelDb, store: Accounts.Store, tables: InsightsModels.Tables, user: Email, here: Point,
                         now: int, dist: Metric, fmt: Formatting)
      returns (notice: Option<TripSuggestion>)
    requires db.Valid()
    modifies db
    ensures db.Valid()
    ensures db.hotspots == Refreshed(old(db.hotspots), old(db.trips), old(db.samples), tables, now, dist)
    ensures notice == Notify(old(db.trips), old(db.suggestions), db.hotspots, store.users, store.profiles, store.friends,
                             user, here, now, dist, fmt)
    ensures db.suggestions == old(db.suggestions) + (if notice.Some? then [notice.value] else [])
    ensures db.trips == old(db.trips) && db.matches == old(db.matches) && db.nextId == old(db.nextId)
    ensures db.samples == old(db.samples)
  {
    var _ := CleanupExpiredHotspots(db, now);
    UpdateHotspots(db, tables, now, dist);
    var trip := ActiveTrip(db.trips, user, Today(now));
    if trip.None? {
      return None;
    }
    var nearby := FindNearbyHotspot(db.hotspots, here, now, dist);
    if nearby.None? {
      return None;
    }
    var d := dist(here, nearby.value.position);
    if d < ClusterRadiusKm {
      return None;
    }
    notice := CreateHotspotNotification(db, store, user, trip.value, nearby.value, d, now, fmt);
  }
}
