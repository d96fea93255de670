// travel/services/proximity_matcher.py: live distances between matched
// travellers, auto-rejection of matches whose travellers drift apart, and
// the nearby/close queries over the match table.
module Proximity {
  import opened Common
  import opened Seqs
  import opened TravelModels
  import Accounts

  const CloseProximityKm := 0.5
  const NearbyThresholdKm := 2.0
  const AutoExpireKm := 5.0
  /** cleanup_expired_matches removes rows untouched for this long. */
  const ExpiredRetention := 7 * Day

  /** The match is one of the user's: on a trip they own, or naming them as the matched user. */
  predicate Involves(trips: seq<Trip>, m: TripMatch, user: Email)
  {
    TripOwner(trips, m.trip) == Some(user) || m.matchedUser == user
  }

  /** The rows update_match_distances visits: the user's pending matches not yet proximity-expired. */
  predicate Tracked(trips: seq<Trip>, m: TripMatch, user: Email)
  {
    Involves(trips, m, user) && m.status == Pending && !m.isProximityExpired
  }

  /** The other traveller: the matched user when the caller owns the trip, else the trip owner. */
  function OtherUser(trips: seq<Trip>, m: TripMatch, user: Email): (r: Option<Email>)
    ensures r.Some? <==> TripOwner(trips, m.trip).Some?
    ensures r.Some? && TripOwner(trips, m.trip) == Some(user) ==> r.value == m.matchedUser
    ensures r.Some? && TripOwner(trips, m.trip) != Some(user) ==> r.value == TripOwner(trips, m.trip).value
  {
    match TripOwner(trips, m.trip)
    case None => None
    case Some(owner) => Some(if owner == user then m.matchedUser else owner)
  }

  /**
   * Where the other traveller was last seen: only when they have a profile
   * whose latitude is truthy (None and 0.0 both skip the match). A truthy
   * latitude with no longitude, where the source's float(None) would raise,
   * is skipped here. The source never reaches that state: recording a
   * location sets both coordinates, and the profile location mutations
   * declare both arguments required (user/graphql/profile_schema.py:83-84),
   * although Profiles.MoveProfile takes each as an option.
   */
  function LastSeen(profiles: map<Email, Accounts.Profile>, e: Email): (r: Option<Point>)
    ensures r.Some? ==> e in profiles && Truthy(profiles[e].latitude)
    ensures e in profiles && Truthy(profiles[e].latitude) && profiles[e].longitude.Some? ==> r.Some?
  {
    if e in profiles && Truthy(profiles[e].latitude) && profiles[e].longitude.Some? then
      Some(Point(profiles[e].latitude.value, profiles[e].longitude.value))
    else None
  }

  /** _should_expire: only a match still pending, and only strictly beyond 5 km. */
  predicate ShouldExpire(m: TripMatch, d: real)
  {
    m.status == Pending && d > AutoExpireKm
  }

  /** One entry of close_matches. */
  datatype CloseEntry = CloseEntry(matchId: MatchId, otherUser: string, distanceMeters: int)

  /** What one iteration of update_match_distances does with a row. */
  datatype Visit = Skipped | Measured(row: TripMatch, distance: real, close: Option<CloseEntry>, expired: bool)

  function VisitMatch(trips: seq<Trip>, profiles: map<Email, Accounts.Profile>, users: map<Email, Accounts.User>,
                      m: TripMatch, user: Email, here: Point, dist: Metric, now: int): Visit
  {
    if !Tracked(trips, m, user) then Skipped
    else
      var other := OtherUser(trips, m, user);
      if other.None? || LastSeen(profiles, other.value).None? then Skipped
      else
        var d := dist(here, LastSeen(profiles, other.value).value);
        var expire := ShouldExpire(m, d);
        var measured := m.(currentDistanceKm := Some(d), lastDistanceUpdate := Some(now));
        var row := if expire then measured.(isProximityExpired := true, status := Rejected) else measured;
        var close := if d <= CloseProximityKm then Some(CloseEntry(m.id, Accounts.DisplayName(users, other.value), Trunc(d * 1000.0))) else None;
        Measured(row, d, close, expire)
  }

  /** The row as the table holds it after the visit. */
  function After(v: Visit, m: TripMatch): TripMatch
  {
    if v.Measured? then v.row else m
  }

  /**
   * A visit writes the distance and its timestamp on every measured row and
   * nothing else, except that a pending row more than 5 km away becomes a
   * proximity-expired rejection. Rows that are not tracked, or whose other
   * traveller has no known position, are left as they are.
   */
  lemma VisitEffect(trips: seq<Trip>, profiles: map<Email, Accounts.Profile>, users: map<Email, Accounts.User>,
                    m: TripMatch, user: Email, here: Point, dist: Metric, now: int)
    ensures var v := VisitMatch(trips, profiles, users, m, user, here, dist, now);
            var r := After(v, m);
            r.id == m.id && r.trip == m.trip && r.matchedUser == m.matchedUser && r.score == m.score &&
            r.createdAt == m.createdAt && r.updatedAt == m.updatedAt &&
            (v.Skipped? <==> !Tracked(trips, m, user) || OtherUser(trips, m, user).None? ||
                             LastSeen(profiles, OtherUser(trips, m, user).value).None?) &&
            (v.Skipped? ==> r == m) &&
            (v.Measured? ==>
               r.currentDistanceKm == Some(v.distance) && r.lastDistanceUpdate == Some(now) &&
               v.distance == dist(here, LastSeen(profiles, OtherUser(trips, m, user).value).value) &&
               (v.expired <==> v.distance > AutoExpireKm) &&
               (v.expired ==> r.status == Rejected && r.isProximityExpired) &&
               (!v.expired ==> r.status == Pending && !r.isProximityExpired) &&
               (v.close.Some? <==> v.distance <= CloseProximityKm) &&
               (v.close.Some? ==> v.close.value.matchId == m.id && v.close.value.distanceMeters == Trunc(v.distance * 1000.0)))
  {
  }

  /** Accepted and rejected matches, and matches of other users, are never touched. */
  lemma SettledMatchesUntouched(trips: seq<Trip>, profiles: map<Email, Accounts.Profile>, users: map<Email, Accounts.User>,
                                m: TripMatch, user: Email, here: Point, dist: Metric, now: int)
    requires m.status != Pending || m.isProximityExpired || !Involves(trips, m, user)
    ensures After(VisitMatch(trips, profiles, users, m, user, here, dist, now), m) == m
  {
  }

  /** A match within 500 m is never also expired. */
  lemma CloseIsNeverExpired(trips: seq<Trip>, profiles: map<Email, Accounts.Profile>, users: map<Email, Accounts.User>,
                            m: TripMatch, user: Email, here: Point, dist: Metric, now: int)
    ensures var v := VisitMatch(trips, profiles, users, m, user, here, dist, now);
            v.Measured? && v.close.Some? ==> !v.expired
  {
  }

  /** The dictionary update_match_distances returns. */
  datatype ProximityStats = ProximityStats(updatedCount: nat, expiredCount: nat, closeMatches: seq<CloseEntry>)

  function Tally(s: ProximityStats, v: Visit): ProximityStats
  {
    if v.Skipped? then s
    else ProximityStats(s.updatedCount + 1,
                        s.expiredCount + (if v.expired then 1 else 0),
                        s.closeMatches + (if v.close.Some? then [v.close.value] else []))
  }

  const NoStats := ProximityStats(0, 0, [])

  /** The statistics after visiting the rows ms in order, starting from acc. */
  function PassStats(trips: seq<Trip>, profiles: map<Email, Accounts.Profile>, users: map<Email, Accounts.User>,
                     acc: ProximityStats, ms: seq<TripMatch>, user: Email, here: Point, dist: Metric, now: int): ProximityStats
    decreases |ms|
  {
    if ms == [] then acc
    else PassStats(trips, profiles, users, Tally(acc, VisitMatch(trips, profiles, users, ms[0], user, here, dist, now)),
                   ms[1..], user, here, dist, now)
  }

  /** The rows that were measured in the pass. */
  function MeasuredIn(trips: seq<Trip>, profiles: map<Email, Accounts.Profile>, users: map<Email, Accounts.User>,
                      user: Email, here: Point, dist: Metric, now: int): TripMatch -> bool
  {
    (m: TripMatch) => VisitMatch(trips, profiles, users, m, user, here, dist, now).Measured?
  }

  /**
   * updated_count counts exactly the measured rows; expired_count and the
   * close list never exceed it, because a row is counted as expired or
   * close only when it was measured, and never as both.
   */
  lemma {:induction false} PassCounts(trips: seq<Trip>, profiles: map<Email, Accounts.Profile>, users: map<Email, Accounts.User>,
                                      acc: ProximityStats, ms: seq<TripMatch>, user: Email, here: Point, dist: Metric, now: int)
    ensures var s := PassStats(trips, profiles, users, acc, ms, user, here, dist, now);
            s.updatedCount == acc.updatedCount + Count(ms, MeasuredIn(trips, profiles, users, user, here, dist, now)) &&
            s.expiredCount + |s.closeMatches| - (acc.expiredCount + |acc.closeMatches|) <= s.updatedCount - acc.updatedCount
    decreases |ms|
  {
    if ms != [] {
      var v := VisitMatch(trips, profiles, users, ms[0], user, here, dist, now);
      PassCounts(trips, profiles, users, Tally(acc, v), ms[1..], user, here, dist, now);
    }
  }

  /** In particular, from the initial counters: expired_count and len(close_matches) never exceed updated_count. */
  lemma PassCountsFromStart(trips: seq<Trip>, profiles: map<Email, Accounts.Profile>, users: map<Email, Accounts.User>,
                            ms: seq<TripMatch>, user: Email, here: Point, dist: Metric, now: int)
    ensures var s := PassStats(trips, profiles, users, NoStats, ms, user, here, dist, now);
            s.updatedCount == Count(ms, MeasuredIn(trips, profiles, users, user, here, dist, now)) &&
            s.expiredCount <= s.updatedCount && |s.closeMatches| <= s.updatedCount &&
            s.expiredCount + |s.closeMatches| <= s.updatedCount
  {
    PassCounts(trips, profiles, users, NoStats, ms, user, here, dist, now);
  }

  /**
   * update_match_distances: visit the user's tracked matches, write each
   * measured distance, auto-reject those beyond 5 km, and report the counts
   * and the matches within 500 m.
   */
  method UpdateMatchDistances(db: TravelDb, profiles: map<Email, Accounts.Profile>, users: map<Email, Accounts.User>,
                              user: Email, here: Point, dist: Metric, now: int)
      returns (stats: ProximityStats)
    requires db.Valid()
    modifies db
    ensures db.Valid()
    ensures |db.matches| == |old(db.matches)|
    ensures forall i :: 0 <= i < |db.matches| ==>
      db.matches[i] == After(VisitMatch(db.trips, profiles, users, old(db.matches)[i], user, here, dist, now), old(db.matches)[i])
    ensures stats == PassStats(db.trips, profiles, users, NoStats, old(db.matches), user, here, dist, now)
    ensures db.trips == old(db.trips) && db.nextId == old(db.nextId) && db.samples == old(db.samples)
    ensures db.suggestions == old(db.suggestions) && db.hotspots == old(db.hotspots)
  {
    ghost var before := db.matches;
    stats := NoStats;
    var i := 0;
    while i < |db.matches|
      invariant 0 <= i <= |db.matches| == |before|
      invariant forall j :: 0 <= j < i ==>
        db.matches[j] == After(VisitMatch(db.trips, profiles, users, before[j], user, here, dist, now), before[j])
      invariant db.matches[i..] == before[i..]
      invariant PassStats(db.trips, profiles, users, stats, before[i..], user, here, dist, now) ==
                PassStats(db.trips, profiles, users, NoStats, before, user, here, dist, now)
      invariant db.Valid()
      invariant db.trips == old(db.trips) && db.nextId == old(db.nextId) && db.samples == old(db.samples)
      invariant db.suggestions == old(db.suggestions) && db.hotspots == old(db.hotspots)
    {
      assert db.matches[i] == before[i];
      var v := VisitRow(db, profiles, users, i, user, here, dist, now);
      assert before[i..][1..] == before[i + 1..];
      stats := Tally(stats, v);
      i := i + 1;
    }
  }

  /** One iteration: measure the row at index i and save what changed. */
  method VisitRow(db: TravelDb, profiles: map<Email, Accounts.Profile>, users: map<Email, Accounts.User>,
                  i: nat, user: Email, here: Point, dist: Metric, now: int)
      returns (v: Visit)
    requires db.Valid()
    requires i < |db.matches|
    modifies db
    ensures db.Valid()
    ensures v == VisitMatch(db.trips, profiles, users, old(db.matches)[i], user, here, dist, now)
    ensures db.matches == old(db.matches)[i := After(v, old(db.matches)[i])]
    ensures db.trips == old(db.trips) && db.nextId == old(db.nextId) && db.samples == old(db.samples)
    ensures db.suggestions == old(db.suggestions) && db.hotspots == old(db.hotspots)
  {
    var m := db.matches[i];
    v := VisitMatch(db.trips, profiles, users, m, user, here, dist, now);
    VisitEffect(db.trips, profiles, users, m, user, here, dist, now);
    if v.Measured? {
      SaveMatch(db, i, v.row);
    } else {
      assert db.matches == db.matches[i := m];
    }
  }

  /** match.save(): the row at index i is replaced by one with the same id, trip and matched user. */
  method SaveMatch(db: TravelDb, i: nat, row: TripMatch)
    requires db.Valid()
    requires i < |db.matches|
    requires row.id == db.matches[i].id && row.trip == db.matches[i].trip && row.matchedUser == db.matches[i].matchedUser
    modifies db`matches
    ensures db.Valid()
    ensures db.matches == old(db.matches)[i := row]
  {
    ReplacedMatchValid(db.trips, db.matches, db.nextId, i, row);
    db.matches := db.matches[i := row];
  }

  /** Ordering by current_distance_km, ascending. */
  function ByDistanceAsc(x: TripMatch, y: TripMatch): bool
  {
    DistanceKey(x) <= DistanceKey(y)
  }

  function DistanceKey(m: TripMatch): real
  {
    if m.currentDistanceKm.Some? then m.currentDistanceKm.value else 0.0
  }

  lemma ByDistanceAscIsPreorder()
    ensures TotalPreorder(ByDistanceAsc)
  {
  }

  /** The filter of both queries: tracked, with a known current distance of at most `bound`. */
  function WithinOf(trips: seq<Trip>, user: Email, bound: real): TripMatch -> bool
  {
    (m: TripMatch) => Tracked(trips, m, user) && m.currentDistanceKm.Some? && m.currentDistanceKm.value <= bound
  }

  /** get_nearby_matches (max_distance_km defaults to 2.0). */
  function NearbyMatches(trips: seq<Trip>, matches: seq<TripMatch>, user: Email, maxDistanceKm: real): seq<TripMatch>
  {
    Sort(Filter(matches, WithinOf(trips, user, maxDistanceKm)), ByDistanceAsc)
  }

  /** Exactly the tracked matches measured within the bound, nearest first. */
  lemma NearbyMatchesSpec(trips: seq<Trip>, matches: seq<TripMatch>, user: Email, maxDistanceKm: real)
    ensures var r := NearbyMatches(trips, matches, user, maxDistanceKm);
            (forall m :: m in r <==>
               (m in matches && Tracked(trips, m, user) &&
                m.currentDistanceKm.Some? && m.currentDistanceKm.value <= maxDistanceKm)) &&
            (forall i, j :: 0 <= i < j < |r| ==>
               r[i].currentDistanceKm.Some? && r[j].currentDistanceKm.Some? &&
               r[i].currentDistanceKm.value <= r[j].currentDistanceKm.value) &&
            multiset(r) == multiset(Filter(matches, WithinOf(trips, user, maxDistanceKm)))
  {
    var f := Filter(matches, WithinOf(trips, user, maxDistanceKm));
    var r := Sort(f, ByDistanceAsc);
    ByDistanceAscIsPreorder();
    SortOrdered(f, ByDistanceAsc);
    forall m
      ensures m in r <==> m in f
    {
      assert m in r <==> m in multiset(r);
      assert m in f <==> m in multiset(f);
    }
    forall i, j | 0 <= i < j < |r|
      ensures r[i].currentDistanceKm.Some? && r[j].currentDistanceKm.Some?
      ensures r[i].currentDistanceKm.value <= r[j].currentDistanceKm.value
    {
      assert r[i] in f && r[j] in f;
      assert ByDistanceAsc(r[i], r[j]);
    }
  }

  /** One alert of check_close_proximity_alerts. */
  datatype Alert = Alert(matchId: MatchId, otherUser: Option<Email>, otherUserName: string, distanceMeters: int, matchScore: real)

  function AlertFor(trips: seq<Trip>, users: map<Email, Accounts.User>, user: Email, m: TripMatch): Alert
  {
    var other := OtherUser(trips, m, user);
    Alert(m.id, other, if other.Some? then Accounts.DisplayName(users, other.value) else "",
          Trunc(DistanceKey(m) * 1000.0), m.score)
  }

  /** check_close_proximity_alerts: an alert per tracked match within 500 m, nearest first. */
  function CloseProximityAlerts(trips: seq<Trip>, users: map<Email, Accounts.User>, matches: seq<TripMatch>, user: Email): (r: seq<Alert>)
    ensures |r| == |NearbyMatches(trips, matches, user, CloseProximityKm)|
  {
    var close := NearbyMatches(trips, matches, user, CloseProximityKm);
    seq(|close|, i requires 0 <= i < |close| => AlertFor(trips, users, user, close[i]))
  }

  lemma TruncMonotone(x: real, y: real)
    requires 0.0 <= x <= y
    ensures Trunc(x) <= Trunc(y)
  {
  }

  /** Alerts are for close matches only, at most 500 m away, and come nearest first. */
  lemma AlertsNearestFirst(trips: seq<Trip>, users: map<Email, Accounts.User>, matches: seq<TripMatch>, user: Email, dist: Metric)
    requires forall m :: m in matches && m.currentDistanceKm.Some? ==> m.currentDistanceKm.value >= 0.0
    ensures var r := CloseProximityAlerts(trips, users, matches, user);
            (forall a :: a in r ==> 0 <= a.distanceMeters <= 500) &&
            (forall i, j :: 0 <= i < j < |r| ==> r[i].distanceMeters <= r[j].distanceMeters) &&
            (forall a :: a in r ==> exists m :: m in matches && m.id == a.matchId && Tracked(trips, m, user))
  {
    var close := NearbyMatches(trips, matches, user, CloseProximityKm);
    NearbyMatchesSpec(trips, matches, user, CloseProximityKm);
    var r := CloseProximityAlerts(trips, users, matches, user);
    forall i | 0 <= i < |r|
      ensures 0 <= r[i].distanceMeters <= 500
      ensures exists m :: m in matches && m.id == r[i].matchId && Tracked(trips, m, user)
    {
      assert close[i] in close;
      var d := close[i].currentDistanceKm.value;
      TruncMonotone(d * 1000.0, 500.0);
      TruncMonotone(0.0, d * 1000.0);
    }
    forall i, j | 0 <= i < j < |r|
      ensures r[i].distanceMeters <= r[j].distanceMeters
    {
      assert close[i] in close && close[j] in close;
      TruncMonotone(DistanceKey(close[i]) * 1000.0, DistanceKey(close[j]) * 1000.0);
    }
  }

  /** The rows cleanup_expired_matches deletes: proximity-expired and not updated since the cutoff. */
  function StaleExpired(cutoff: int): TripMatch -> bool
  {
    (m: TripMatch) => m.isProximityExpired && m.updatedAt < cutoff
  }

  function NotStaleExpired(cutoff: int): TripMatch -> bool
  {
    (m: TripMatch) => !StaleExpired(cutoff)(m)
  }

  /** cleanup_expired_matches: delete the stale expired rows and return how many went. */
  method CleanupExpiredMatches(db: TravelDb, now: int) returns (count: nat)
    requires db.Valid()
    modifies db
    ensures db.Valid()
    ensures db.matches == Filter(old(db.matches), NotStaleExpired(now - ExpiredRetention))
    ensures count == Count(old(db.matches), StaleExpired(now - ExpiredRetention))
    ensures db.trips == old(db.trips) && db.nextId == old(db.nextId) && db.samples == old(db.samples)
    ensures db.suggestions == old(db.suggestions) && db.hotspots == old(db.hotspots)
  {
    var cutoff := now - ExpiredRetention;
    var kept := Filter(db.matches, NotStaleExpired(cutoff));
    FilterPairwise(db.matches, NotStaleExpired(cutoff), DistinctMatchIds);
    FilterPairwise(db.matches, NotStaleExpired(cutoff), DistinctMatchPairs);
    FilterSplits(db.matches, StaleExpired(cutoff), NotStaleExpired(cutoff));
    count := |db.matches| - |kept|;
    db.matches := kept;
  }
}
