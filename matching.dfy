// travel/services/matching.py: trip compatibility scoring and match finding.
module Matching {
  import opened Common
  import opened Text
  import opened Seqs
  import opened TravelModels

  /** find_trip_matches always scores with the default max_distance_km. */
  const MaxDistanceKm: real := 5.0
  /** Only candidates scoring at least this much are persisted. */
  const MatchThreshold: real := 30.0

  function MaxInt(a: int, b: int): int { if a >= b then a else b }
  function MinInt(a: int, b: int): int { if a <= b then a else b }

  // ---------------------------------------------------------------- dates

  /** calculate_date_overlap: the days from the later start to the earlier end, inclusive. */
  function DateOverlap(a: Trip, b: Trip): (n: nat)
    ensures n > 0 <==> exists day :: Covers(a, day) && Covers(b, day)
    ensures n > 0 ==> n <= DurationDays(a) && n <= DurationDays(b)
  {
    var start := MaxInt(a.startDate, b.startDate);
    var end := MinInt(a.endDate, b.endDate);
    if start <= end then
      assert Covers(a, start) && Covers(b, start);
      end - start + 1
    else 0
  }

  /** The days of the closed range [lo, hi]. */
  function Within(lo: int, hi: int): int -> bool
  {
    d => lo <= d <= hi
  }

  lemma {:induction false} FilterDayRange(x: int, y: int, lo: int, hi: int)
    ensures Filter(DayRange(x, y), Within(lo, hi)) == DayRange(MaxInt(x, lo), MinInt(y, hi))
    decreases y - x
  {
    if x <= y {
      assert DayRange(x, y) == [x] + DayRange(x + 1, y);
      assert DayRange(x, y)[1..] == DayRange(x + 1, y);
      FilterDayRange(x + 1, y, lo, hi);
      if lo <= x <= hi {
        assert DayRange(x, MinInt(y, hi)) == [x] + DayRange(x + 1, MinInt(y, hi));
      }
    }
  }

  /** The overlap is the number of days of the first trip that the second trip also covers. */
  lemma OverlapCountsSharedDays(a: Trip, b: Trip)
    ensures DateOverlap(a, b) == Count(DayRange(a.startDate, a.endDate), Within(b.startDate, b.endDate))
  {
    FilterDayRange(a.startDate, a.endDate, b.startDate, b.endDate);
  }

  // ------------------------------------------------------------ interests

  datatype InterestMatch = InterestMatch(common: set<string>, percentage: real)

  function Elements(s: seq<string>): set<string>
  {
    set x | x in s
  }

  lemma {:induction false} SubsetCard<T>(x: set<T>, y: set<T>)
    requires x <= y
    ensures |x| <= |y|
    ensures |x| == |y| ==> x == y
  {
    if x != {} {
      var e :| e in x;
      SubsetCard(x - {e}, y - {e});
    }
  }

  /**
   * calculate_interest_match: nothing in common when either list is empty;
   * otherwise the shared interests and their share of all interests, in percent.
   */
  function InterestOverlap(i1: seq<string>, i2: seq<string>): (r: InterestMatch)
    ensures i1 == [] || i2 == [] ==> r == InterestMatch({}, 0.0)
    ensures i1 != [] && i2 != [] ==> r.common == Elements(i1) * Elements(i2)
    ensures 0.0 <= r.percentage <= 100.0
  {
    if i1 == [] || i2 == [] then InterestMatch({}, 0.0)
    else
      var common := Elements(i1) * Elements(i2);
      var union := Elements(i1) + Elements(i2);
      assert i1[0] in union;
      SubsetCard(common, union);
      InterestMatch(common, (|common| as real) / (|union| as real) * 100.0)
  }

  /** A full interest match means both trips list the same interests; a zero one, none in common. */
  lemma InterestExtremes(i1: seq<string>, i2: seq<string>)
    ensures InterestOverlap(i1, i2).percentage == 100.0 <==> i1 != [] && i2 != [] && Elements(i1) == Elements(i2)
    ensures InterestOverlap(i1, i2).percentage == 0.0 <==> InterestOverlap(i1, i2).common == {}
  {
    if i1 != [] && i2 != [] {
      var common := Elements(i1) * Elements(i2);
      var union := Elements(i1) + Elements(i2);
      assert i1[0] in union;
      SubsetCard(common, union);
      if |common| == |union| {
        assert Elements(i1) <= union && Elements(i2) <= union;
      }
      if Elements(i1) == Elements(i2) {
        assert common == union;
      }
    }
  }

  // --------------------------------------------------------------- scores

  datatype MatchDetails = MatchDetails(
    dateOverlapDays: nat,
    distanceScore: real,
    interestScore: real,
    commonInterests: set<string>,
    distanceKm: Option<real>)

  /** The details returned when the dates do not overlap. */
  const NoMatchDetails := MatchDetails(0, 0.0, 0.0, {}, None)

  datatype Scored = Scored(score: real, details: MatchDetails)

  /** All four destination coordinates are truthy: a 0 coordinate counts as missing. */
  predicate BothLocated(a: Trip, b: Trip)
  {
    Truthy(a.destinationLat) && Truthy(a.destinationLng) &&
    Truthy(b.destinationLat) && Truthy(b.destinationLng)
  }

  function DestinationOf(t: Trip): Point
    requires Truthy(t.destinationLat) && Truthy(t.destinationLng)
  {
    Point(t.destinationLat.value, t.destinationLng.value)
  }

  /** The date component: the overlap as a share of the longer trip, out of 50. */
  function DateScore(a: Trip, b: Trip): (r: real)
    requires DateOverlap(a, b) > 0
    ensures 0.0 < r <= 50.0
  {
    var longest := MaxInt(DurationDays(a), DurationDays(b));
    ShareWithin(DateOverlap(a, b) as real, longest as real, 50.0);
    (DateOverlap(a, b) as real) / (longest as real) * 50.0
  }

  /** A positive part of a whole, as a share of `scale`, lies in (0, scale]. */
  lemma ShareWithin(part: real, whole: real, scale: real)
    requires 0.0 < part <= whole && scale > 0.0
    ensures 0.0 < part / whole * scale <= scale
  {
    assert part / whole <= 1.0;
  }

  /** The distance component for destinations d km apart: closer is better, nothing beyond MaxDistanceKm. */
  function ProximityPoints(d: real): (r: real)
    ensures r > 0.0 <==> d < MaxDistanceKm
    ensures 0.0 <= d ==> r <= 30.0
    ensures r >= 0.0
  {
    if d > MaxDistanceKm then 0.0 else (MaxDistanceKm - d) / MaxDistanceKm * 30.0
  }

  lemma ProximityPointsAntitone(d1: real, d2: real)
    requires d1 <= d2
    ensures ProximityPoints(d1) >= ProximityPoints(d2)
  {
  }

  /**
   * The distance component: with coordinates, by proximity of the destinations;
   * without, 30 exactly when the destination names agree ignoring case.
   */
  function DistanceScore(a: Trip, b: Trip, dist: Metric): (r: real)
    ensures !BothLocated(a, b) ==> (r == 30.0 <==> Lower(a.destination) == Lower(b.destination))
    ensures !BothLocated(a, b) ==> r == 0.0 || r == 30.0
    ensures BothLocated(a, b) ==> (r > 0.0 <==> dist(DestinationOf(a), DestinationOf(b)) < MaxDistanceKm)
    ensures IsDistance(dist) ==> 0.0 <= r <= 30.0
  {
    if BothLocated(a, b) then ProximityPoints(dist(DestinationOf(a), DestinationOf(b)))
    else if Lower(a.destination) == Lower(b.destination) then 30.0
    else 0.0
  }

  /** The interest component: the interest percentage scaled to 20 points. */
  function InterestScore(a: Trip, b: Trip): (r: real)
    ensures 0.0 <= r <= 20.0
    ensures r == 20.0 <==> a.interests != [] && b.interests != [] && Elements(a.interests) == Elements(b.interests)
  {
    InterestExtremes(a.interests, b.interests);
    InterestOverlap(a.interests, b.interests).percentage / 100.0 * 20.0
  }

  /**
   * calculate_match_score: no overlap scores 0 with the default details;
   * otherwise the sum of the date, distance and interest components.
   */
  function MatchScore(a: Trip, b: Trip, dist: Metric): (r: Scored)
    ensures DateOverlap(a, b) == 0 ==> r == Scored(0.0, NoMatchDetails)
    ensures DateOverlap(a, b) > 0 ==>
      r.score == DateScore(a, b) + DistanceScore(a, b, dist) + InterestScore(a, b) &&
      r.details.dateOverlapDays == DateOverlap(a, b) &&
      r.details.commonInterests == InterestOverlap(a.interests, b.interests).common &&
      (r.details.distanceKm.Some? <==> BothLocated(a, b))
    ensures IsDistance(dist) ==> 0.0 <= r.score <= 100.0
    ensures IsDistance(dist) && DateOverlap(a, b) > 0 ==> r.score > 0.0
  {
    var overlap := DateOverlap(a, b);
    if overlap == 0 then Scored(0.0, NoMatchDetails)
    else
      var distanceKm := if BothLocated(a, b) then Some(dist(DestinationOf(a), DestinationOf(b))) else None;
      var im := InterestOverlap(a.interests, b.interests);
      var details := MatchDetails(overlap, DistanceScore(a, b, dist), InterestScore(a, b), im.common, distanceKm);
      Scored(DateScore(a, b) + DistanceScore(a, b, dist) + InterestScore(a, b), details)
  }

  /** The score (not the order of the shared-interest list) does not depend on which trip is asking. */
  lemma MatchScoreSymmetric(a: Trip, b: Trip, dist: Metric)
    requires IsDistance(dist)
    ensures MatchScore(a, b, dist).score == MatchScore(b, a, dist).score
  {
    assert DateOverlap(a, b) == DateOverlap(b, a);
    if DateOverlap(a, b) > 0 {
      assert DateScore(a, b) == DateScore(b, a);
      if BothLocated(a, b) {
        assert dist(DestinationOf(a), DestinationOf(b)) == dist(DestinationOf(b), DestinationOf(a));
      }
      assert DistanceScore(a, b, dist) == DistanceScore(b, a, dist);
      assert Elements(a.interests) * Elements(b.interests) == Elements(b.interests) * Elements(a.interests);
      assert Elements(a.interests) + Elements(b.interests) == Elements(b.interests) + Elements(a.interests);
      assert InterestScore(a, b) == InterestScore(b, a);
    }
  }

  // ------------------------------------------------------------- matching

  /**
   * The candidate filter: another user's trip, public or friends-only with
   * the owner among the caller's friends, whose dates overlap this trip's.
   */
  predicate Eligible(trip: Trip, c: Trip, friends: set<Email>)
  {
    (c.privacy == PublicPrivacy || (c.privacy == FriendsOnlyPrivacy && c.owner in friends)) &&
    c.owner != trip.owner &&
    c.startDate <= trip.endDate && c.endDate >= trip.startDate
  }

  function Candidates(trips: seq<Trip>, trip: Trip, friends: set<Email>): seq<Trip>
  {
    Filter(trips, (c: Trip) => Eligible(trip, c, friends))
  }

  /** The rows left after deleting the trip's pending matches. */
  function Kept(matches: seq<TripMatch>, trip: TripId): seq<TripMatch>
  {
    Filter(matches, NotPendingFor(trip))
  }

  function NotPendingFor(trip: TripId): TripMatch -> bool
  {
    (m: TripMatch) => !(m.trip == trip && m.status == Pending)
  }

  predicate Qualifies(trip: Trip, c: Trip, dist: Metric)
  {
    MatchScore(trip, c, dist).score >= MatchThreshold
  }

  /** The row created for a qualifying candidate: pending and not proximity-expired. */
  function NewMatch(trip: Trip, c: Trip, dist: Metric, id: MatchId, now: int): TripMatch
  {
    var s := MatchScore(trip, c, dist);
    TripMatch(id, trip.id, c.owner, Some(c.id), s.score, s.details.commonInterests, s.details.distanceKm,
              None, None, false, Pending, now, now)
  }
  /** The rows created, in candidate order, with ids drawn upwards from firstId. */
  function Created(trip: Trip, cands: seq<Trip>, dist: Metric, firstId: nat, now: int): seq<TripMatch>
    decreases |cands|
  {
    if cands == [] then []
    else if Qualifies(trip, cands[0], dist) then
      [NewMatch(trip, cands[0], dist, firstId, now)] + Created(trip, cands[1..], dist, firstId + 1, now)
    else Created(trip, cands[1..], dist, firstId, now)
  }

  /** Every created row is a pending match for this trip scoring at least 30 against one of the candidates. */
  lemma {:induction false} CreatedQualify(trip: Trip, cands: seq<Trip>, dist: Metric, firstId: nat, now: int)
    ensures forall m :: m in Created(trip, cands, dist, firstId, now) ==>
      m.trip == trip.id && m.status == Pending && !m.isProximityExpired && m.score >= MatchThreshold &&
      exists c :: c in cands && m.matchedTrip == Some(c.id) && m.matchedUser == c.owner &&
                  m.score == MatchScore(trip, c, dist).score
    ensures forall m :: m in Created(trip, cands, dist, firstId, now) ==> firstId <= m.id < firstId + |Created(trip, cands, dist, firstId, now)|
    decreases |cands|
  {
    if cands != [] {
      var rest := cands[1..];
      var nextId := if Qualifies(trip, cands[0], dist) then firstId + 1 else firstId;
      CreatedQualify(trip, rest, dist, nextId, now);
      forall m | m in Created(trip, rest, dist, nextId, now)
        ensures exists c :: c in cands && m.matchedTrip == Some(c.id) && m.matchedUser == c.owner &&
                            m.score == MatchScore(trip, c, dist).score
      {
        var c :| c in rest && m.matchedTrip == Some(c.id) && m.matchedUser == c.owner &&
                 m.score == MatchScore(trip, c, dist).score;
        assert c in cands;
      }
    }
  }

  /** Private trips, the caller's own trips and strangers' friends-only trips are never matched. */
  lemma CreatedRespectPrivacy(trips: seq<Trip>, trip: Trip, friends: set<Email>, dist: Metric, firstId: nat, now: int)
    ensures forall m :: m in Created(trip, Candidates(trips, trip, friends), dist, firstId, now) ==>
      m.matchedUser != trip.owner &&
      exists c :: c in trips && m.matchedTrip == Some(c.id) && c.owner == m.matchedUser &&
                  c.privacy != PrivatePrivacy && (c.privacy == FriendsOnlyPrivacy ==> c.owner in friends) &&
                  exists day :: Covers(c, day) && Covers(trip, day)
  {
    var cands := Candidates(trips, trip, friends);
    CreatedQualify(trip, cands, dist, firstId, now);
    forall m | m in Created(trip, cands, dist, firstId, now)
      ensures m.matchedUser != trip.owner
      ensures exists c :: c in trips && m.matchedTrip == Some(c.id) && c.owner == m.matchedUser &&
                  c.privacy != PrivatePrivacy && (c.privacy == FriendsOnlyPrivacy ==> c.owner in friends) &&
                  exists day :: Covers(c, day) && Covers(trip, day)
    {
      var c :| c in cands && m.matchedTrip == Some(c.id) && m.matchedUser == c.owner &&
               m.score == MatchScore(trip, c, dist).score;
      assert Eligible(trip, c, friends);
      var day := MaxInt(c.startDate, trip.startDate);
      assert Covers(c, day) && Covers(trip, day);
    }
  }

  /** The outcome of the persisting loop: the owner whose row would be a duplicate, if any, and the match table after it. */
  datatype Persisted = Persisted(dup: Option<Email>, rows: seq<TripMatch>)

  /**
   * The persisting loop of find_trip_matches, candidate by candidate: a
   * qualifying candidate gets a new pending row, unless the table already
   * holds a row for (trip, candidate owner), which raises and ends the run.
   */
  function Persist(rows: seq<TripMatch>, trip: Trip, cands: seq<Trip>, dist: Metric, nextId: nat, now: int): Persisted
    decreases |cands|
  {
    if cands == [] then Persisted(None, rows)
    else if !Qualifies(trip, cands[0], dist) then Persist(rows, trip, cands[1..], dist, nextId, now)
    else if HasMatchFor(rows, trip.id, cands[0].owner) then Persisted(Some(cands[0].owner), rows)
    else Persist(rows + [NewMatch(trip, cands[0], dist, nextId, now)], trip, cands[1..], dist, nextId + 1, now)
  }

  /**
   * The run completes exactly when the rows it creates keep (trip,
   * matched_user) unique; it then holds every created row, and otherwise
   * the rows created before the duplicate, and names an owner whose row
   * already exists.
   */
  lemma {:induction false} PersistOutcome(rows: seq<TripMatch>, trip: Trip, cands: seq<Trip>, dist: Metric, id: nat, now: int)
    requires Pairwise(rows, DistinctMatchPairs)
    ensures var p := Persist(rows, trip, cands, dist, id, now);
            var all := rows + Created(trip, cands, dist, id, now);
            (p.dup.None? <==> Pairwise(all, DistinctMatchPairs)) &&
            (p.dup.None? ==> p.rows == all) &&
            rows <= p.rows <= all &&
            (p.dup.Some? ==>
               HasMatchFor(p.rows, trip.id, p.dup.value) &&
               exists c :: c in cands && Qualifies(trip, c, dist) && c.owner == p.dup.value)
    decreases |cands|
  {
    if cands != [] {
      var c := cands[0];
      var rest := cands[1..];
      if !Qualifies(trip, c, dist) {
        PersistOutcome(rows, trip, rest, dist, id, now);
        assert forall x :: x in rest ==> x in cands;
      } else {
        var m := NewMatch(trip, c, dist, id, now);
        var all := rows + Created(trip, cands, dist, id, now);
        assert all == (rows + [m]) + Created(trip, rest, dist, id + 1, now);
        if HasMatchFor(rows, trip.id, c.owner) {
          var i :| 0 <= i < |rows| && rows[i].trip == trip.id && rows[i].matchedUser == c.owner;
          assert all[i] == rows[i] && all[|rows|] == m;
          assert !DistinctMatchPairs(all[i], all[|rows|]);
        } else {
          PairwiseSnoc(rows, m, DistinctMatchPairs);
          PersistOutcome(rows + [m], trip, rest, dist, id + 1, now);
          assert forall x :: x in rest ==> x in cands;
          var p := Persist(rows + [m], trip, rest, dist, id + 1, now);
          if p.dup.Some? {
            var u := p.dup.value;
            var j :| 0 <= j < |p.rows| && p.rows[j].trip == trip.id && p.rows[j].matchedUser == u;
            assert p.rows[j] == all[j];
          }
        }
      }
    }
  }

  function ByScoreDesc(x: TripMatch, y: TripMatch): bool
  {
    x.score >= y.score
  }

  lemma ByScoreDescIsPreorder()
    ensures TotalPreorder(ByScoreDesc)
  {
  }

  /** The outcome of find_trip_matches: the top matches, or the IntegrityError a duplicate (trip, matched_user) raises. */
  datatype MatchRun = Found(matches: seq<TripMatch>) | DuplicateMatch(user: Email)

  /**
   * find_trip_matches: delete the trip's pending matches, score every
   * eligible candidate, persist those scoring at least 30 as pending, and
   * return them best first, at most `limit` of them. Creating a second row
   * for the same (trip, matched_user) violates the table's uniqueness and
   * aborts the run, keeping the rows created before it.
   */
  method FindTripMatches(db: TravelDb, trip: Trip, friends: set<Email>, dist: Metric, limit: nat, now: int)
      returns (run: MatchRun)
    requires db.Valid()
    requires FindTrip(db.trips, trip.id).Some?
    modifies db
    ensures db.Valid()
    ensures db.trips == old(db.trips) && db.samples == old(db.samples)
    ensures db.suggestions == old(db.suggestions) && db.hotspots == old(db.hotspots)
    ensures var kept := Kept(old(db.matches), trip.id);
            var cands := Candidates(old(db.trips), trip, friends);
            var made := Created(trip, cands, dist, old(db.nextId), now);
            (run.Found? <==> Pairwise(kept + made, DistinctMatchPairs)) &&
            (run.Found? ==> db.matches == kept + made && run.matches == Take(Sort(made, ByScoreDesc), limit)) &&
            (run.DuplicateMatch? ==>
               kept <= db.matches <= kept + made && HasMatchFor(db.matches, trip.id, run.user) &&
               exists c :: c in cands && Qualifies(trip, c, dist) && c.owner == run.user)
  {
    var kept := Kept(db.matches, trip.id);
    FilterPairwise(db.matches, NotPendingFor(trip.id), DistinctMatchIds);
    FilterPairwise(db.matches, NotPendingFor(trip.id), DistinctMatchPairs);
    db.matches := kept;
    var cands := Candidates(db.trips, trip, friends);
    PersistOutcome(kept, trip, cands, dist, db.nextId, now);
    var dup := PersistQualifying(db, trip, cands, dist, now);
    if dup.Some? {
      return DuplicateMatch(dup.value);
    }
    var made := db.matches[|kept|..];
    assert kept + made == db.matches;
    run := Found(Take(Sort(made, ByScoreDesc), limit));
  }

  /**
   * The loop of find_trip_matches: create a pending row for every candidate
   * scoring at least 30, stopping at the first that would duplicate a
   * (trip, matched_user) row.
   */
  method PersistQualifying(db: TravelDb, trip: Trip, cands: seq<Trip>, dist: Metric, now: int)
      returns (dup: Option<Email>)
    requires db.Valid()
    requires FindTrip(db.trips, trip.id).Some?
    modifies db
    ensures db.Valid()
    ensures db.trips == old(db.trips) && db.samples == old(db.samples)
    ensures db.suggestions == old(db.suggestions) && db.hotspots == old(db.hotspots)
    ensures Persisted(dup, db.matches) == Persist(old(db.matches), trip, cands, dist, old(db.nextId), now)
  {
    var i := 0;
    while i < |cands|
      invariant 0 <= i <= |cands|
      invariant Persist(old(db.matches), trip, cands, dist, old(db.nextId), now) ==
                Persist(db.matches, trip, cands[i..], dist, db.nextId, now)
      invariant db.Valid()
      invariant db.trips == old(db.trips) && db.samples == old(db.samples)
      invariant db.suggestions == old(db.suggestions) && db.hotspots == old(db.hotspots)
    {
      var c := cands[i];
      assert cands[i..][1..] == cands[i + 1..];
      if Qualifies(trip, c, dist) {
        if HasMatchFor(db.matches, trip.id, c.owner) {
          return Some(c.owner);
        }
        AppendMatch(db, NewMatch(trip, c, dist, db.nextId, now));
      }
      i := i + 1;
    }
    return None;
  }

  /** Saving one new match row: a fresh id and no existing row for its (trip, matched_user). */
  method AppendMatch(db: TravelDb, m: TripMatch)
    requires db.Valid()
    requires m.id == db.nextId && FindTrip(db.trips, m.trip).Some?
    requires !HasMatchFor(db.matches, m.trip, m.matchedUser)
    modifies db
    ensures db.Valid()
    ensures db.matches == old(db.matches) + [m] && db.nextId == old(db.nextId) + 1
    ensures db.trips == old(db.trips) && db.samples == old(db.samples)
    ensures db.suggestions == old(db.suggestions) && db.hotspots == old(db.hotspots)
  {
    forall x | x in db.matches
      ensures DistinctMatchPairs(x, m) && DistinctMatchIds(x, m)
    {
    }
    PairwiseSnoc(db.matches, m, DistinctMatchIds);
    PairwiseSnoc(db.matches, m, DistinctMatchPairs);
    db.matches := db.matches + [m];
    db.nextId := db.nextId + 1;
  }

  /** What find_trip_matches returns is ordered best first and drawn from what it persisted. */
  lemma ReturnedMatchesRanked(made: seq<TripMatch>, limit: nat)
    ensures var r := Take(Sort(made, ByScoreDesc), limit);
            |r| <= limit &&
            (forall i, j :: 0 <= i < j < |r| ==> r[i].score >= r[j].score) &&
            multiset(r) <= multiset(made) &&
            (|made| <= limit ==> multiset(r) == multiset(made))
  {
    ByScoreDescIsPreorder();
    var sorted := Sort(made, ByScoreDesc);
    SortOrdered(made, ByScoreDesc);
    TakeOrdered(sorted, limit, ByScoreDesc);
    TakeMultiset(sorted, limit);
  }
}
