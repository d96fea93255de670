// The read side of the travel API (travel/graphql/queries.py): the caller's
// trips by phase, the matches of a trip, pending matches, suggestions,
// nearby hotspots and a trip's recorded route. Every resolver answers for
// the authenticated caller only.
module TripQueries {
  import opened Common
  import opened Seqs
  import opened TravelModels
  import LocationTracker
  import TripMutations

  // ---------------------------------------------------------------------
  // Trips

  function OwnedBy(user: Email): Trip -> bool
  {
    (t: Trip) => t.owner == user
  }

  /** my_trips: the caller's trips, newest first as the table keeps them. */
  function MyTrips(trips: seq<Trip>, user: Email): seq<Trip>
  {
    Filter(trips, OwnedBy(user))
  }

  function UpcomingOf(user: Email, today: int): Trip -> bool
  {
    (t: Trip) => t.owner == user && IsUpcoming(t, today)
  }

  function OngoingOf(user: Email, today: int): Trip -> bool
  {
    (t: Trip) => t.owner == user && IsOngoing(t, today)
  }

  function PastOf(user: Email, today: int): Trip -> bool
  {
    (t: Trip) => t.owner == user && IsPast(t, today)
  }

  /** upcoming_trips: start date after today. */
  function UpcomingTrips(trips: seq<Trip>, user: Email, now: int): seq<Trip>
  {
    Filter(trips, UpcomingOf(user, Today(now)))
  }

  /** active_trips: the dates cover today, whether or not the trip was started. */
  function ActiveTrips(trips: seq<Trip>, user: Email, now: int): seq<Trip>
  {
    Filter(trips, OngoingOf(user, Today(now)))
  }

  /** past_trips: end date before today. */
  function PastTrips(trips: seq<Trip>, user: Email, now: int): seq<Trip>
  {
    Filter(trips, PastOf(user, Today(now)))
  }

  /**
   * When every one of the caller's trips has its dates in order, the three
   * phase lists split my_trips: together they hold exactly as many trips.
   */
  lemma {:induction false} PhasesSplitMyTrips(trips: seq<Trip>, user: Email, now: int)
    requires forall t :: t in trips && t.owner == user ==> t.startDate <= t.endDate
    ensures |UpcomingTrips(trips, user, now)| + |ActiveTrips(trips, user, now)| + |PastTrips(trips, user, now)|
            == |MyTrips(trips, user)|
  {
    if trips != [] {
      assert forall t :: t in trips[1..] ==> t in trips;
      PhasesSplitMyTrips(trips[1..], user, now);
      if trips[0].owner == user {
        TripPhases(trips[0], Today(now));
      }
    }
  }

  /** Every trip listed by a phase resolver is the caller's; a started trip covering today is among active_trips. */
  lemma PhaseListsSpec(trips: seq<Trip>, user: Email, now: int)
    ensures forall t :: t in UpcomingTrips(trips, user, now) <==> t in MyTrips(trips, user) && t.startDate > Today(now)
    ensures forall t :: t in PastTrips(trips, user, now) <==> t in MyTrips(trips, user) && t.endDate < Today(now)
    ensures forall t :: t in ActiveTrips(trips, user, now) <==> t in MyTrips(trips, user) && Covers(t, Today(now))
    ensures ActiveTrip(trips, user, Today(now)).Some? ==> ActiveTrip(trips, user, Today(now)).value in ActiveTrips(trips, user, now)
  {
  }

  // ---------------------------------------------------------------------
  // Matches

  function StatusName(s: MatchStatus): string
  {
    match s
    case Pending => "pending"
    case Accepted => "accepted"
    case Rejected => "rejected"
  }

  /** TripMatch ordering: highest score first, the newer of equal scores first. */
  function ByRank(x: TripMatch, y: TripMatch): bool
  {
    x.score > y.score || (x.score == y.score && x.createdAt >= y.createdAt)
  }

  function OnTripWithStatus(trip: TripId, status: string): TripMatch -> bool
  {
    (m: TripMatch) => m.trip == trip && (status == "" || StatusName(m.status) == status)
  }

  /** trip_matches: the matches of one of the caller's trips, narrowed by a non-empty status; [] for any other trip. */
  function TripMatches(trips: seq<Trip>, matches: seq<TripMatch>, trip: TripId, user: Email, status: Option<string>)
      : seq<TripMatch>
  {
    if FindOwnTrip(trips, trip, user).None? then []
    else Sort(Filter(matches, OnTripWithStatus(trip, if status.Some? then status.value else "")), ByRank)
  }

  lemma TripMatchesSpec(trips: seq<Trip>, matches: seq<TripMatch>, trip: TripId, user: Email, status: Option<string>)
    ensures var r := TripMatches(trips, matches, trip, user, status);
            (FindOwnTrip(trips, trip, user).None? ==> r == []) &&
            (FindOwnTrip(trips, trip, user).Some? ==>
               forall m :: m in r <==>
                             (m in matches && m.trip == trip &&
                              (status.None? || status.value == "" || StatusName(m.status) == status.value))) &&
            Ordered(r, ByRank)
  {
    if FindOwnTrip(trips, trip, user).Some? {
      var f := Filter(matches, OnTripWithStatus(trip, if status.Some? then status.value else ""));
      assert TotalPreorder(ByRank);
      SortOrdered(f, ByRank);
      SortMembers(f, ByRank);
    }
  }

  /** An unknown status text selects nothing. */
  lemma UnknownStatusSelectsNothing(trips: seq<Trip>, matches: seq<TripMatch>, trip: TripId, user: Email, status: string)
    requires status != "" && status != "pending" && status != "accepted" && status != "rejected"
    ensures TripMatches(trips, matches, trip, user, Some(status)) == []
  {
    var p := OnTripWithStatus(trip, status);
    FilterNone(matches, p);
  }

  function PendingOf(trips: seq<Trip>, user: Email): TripMatch -> bool
  {
    (m: TripMatch) => m.status == Pending && TripOwner(trips, m.trip) == Some(user)
  }

  /** my_pending_matches: the pending matches on any of the caller's trips. */
  function MyPendingMatches(trips: seq<Trip>, matches: seq<TripMatch>, user: Email): seq<TripMatch>
  {
    Sort(Filter(matches, PendingOf(trips, user)), ByRank)
  }

  /**
   * The pending list offers exactly the matches AcceptMatch and RejectMatch
   * will act on for the caller, ranked.
   */
  lemma MyPendingMatchesSpec(trips: seq<Trip>, matches: seq<TripMatch>, user: Email)
    requires Pairwise(matches, DistinctMatchIds)
    ensures forall m :: m in MyPendingMatches(trips, matches, user) ==>
                          m in matches && TripMutations.PendingOwnMatch(trips, matches, m.id, user) == Some(IndexOf(matches, m))
    ensures forall m :: m in matches && TripMutations.PendingOwnMatch(trips, matches, m.id, user).Some? ==>
                          m in MyPendingMatches(trips, matches, user)
    ensures Ordered(MyPendingMatches(trips, matches, user), ByRank)
  {
    var f := Filter(matches, PendingOf(trips, user));
    assert TotalPreorder(ByRank);
    SortOrdered(f, ByRank);
    SortMembers(f, ByRank);
    forall m | m in MyPendingMatches(trips, matches, user)
      ensures m in matches && TripMutations.PendingOwnMatch(trips, matches, m.id, user) == Some(IndexOf(matches, m))
    {
      var k := TripMutations.PendingOwnMatch(trips, matches, m.id, user);
      assert k.Some?;
      UniqueIds(matches, k.value, IndexOf(matches, m));
    }
    forall m | m in matches && TripMutations.PendingOwnMatch(trips, matches, m.id, user).Some?
      ensures m in MyPendingMatches(trips, matches, user)
    {
      UniqueIds(matches, TripMutations.PendingOwnMatch(trips, matches, m.id, user).value, IndexOf(matches, m));
    }
  }

  /** Distinct match ids: two positions holding the same id are the same position. */
  lemma UniqueIds(matches: seq<TripMatch>, i: nat, j: nat)
    requires Pairwise(matches, DistinctMatchIds) && i < |matches| && j < |matches|
    ensures matches[i].id == matches[j].id ==> i == j
  {
    if i < j {
      assert DistinctMatchIds(matches[i], matches[j]);
    } else if j < i {
      assert DistinctMatchIds(matches[j], matches[i]);
    }
  }

  /** The position of a row in its table. */
  function IndexOf<T(==)>(s: seq<T>, x: T): (i: nat)
    requires x in s
    ensures i < |s| && s[i] == x
  {
    if s[0] == x then 0 else 1 + IndexOf(s[1..], x)
  }

  // ---------------------------------------------------------------------
  // Suggestions

  function ByCreatedDesc(x: TripSuggestion, y: TripSuggestion): bool
  {
    x.createdAt >= y.createdAt
  }

  function SuggestionFilter(user: Email, trip: Option<TripId>, kind: string, unreadOnly: bool): TripSuggestion -> bool
  {
    (s: TripSuggestion) =>
      s.user == user && (trip.None? || s.trip == trip.value) && (kind == "" || Tag(s.kind) == kind) &&
      (!unreadOnly || !s.isRead)
  }

  /** my_trip_suggestions: the caller's suggestions, each given filter applied, newest first. */
  function MyTripSuggestions(suggestions: seq<TripSuggestion>, user: Email, trip: Option<TripId>, kind: Option<string>,
                             unreadOnly: bool): seq<TripSuggestion>
  {
    Sort(Filter(suggestions, SuggestionFilter(user, trip, if kind.Some? then kind.value else "", unreadOnly)),
         ByCreatedDesc)
  }

  lemma MyTripSuggestionsSpec(suggestions: seq<TripSuggestion>, user: Email, trip: Option<TripId>, kind: Option<string>,
                              unreadOnly: bool)
    ensures var r := MyTripSuggestions(suggestions, user, trip, kind, unreadOnly);
            (forall s :: s in r <==>
               s in suggestions && s.user == user && (trip.None? || s.trip == trip.value) &&
               (kind.None? || kind.value == "" || Tag(s.kind) == kind.value) && (!unreadOnly || !s.isRead)) &&
            (forall i, j :: 0 <= i < j < |r| ==> r[i].createdAt >= r[j].createdAt)
  {
    var f := Filter(suggestions, SuggestionFilter(user, trip, if kind.Some? then kind.value else "", unreadOnly));
    assert TotalPreorder(ByCreatedDesc);
    SortOrdered(f, ByCreatedDesc);
    SortMembers(f, ByCreatedDesc);
    var r := Sort(f, ByCreatedDesc);
    forall i, j | 0 <= i < j < |r|
      ensures r[i].createdAt >= r[j].createdAt
    {
      assert ByCreatedDesc(r[i], r[j]);
    }
  }

  // ---------------------------------------------------------------------
  // Hotspots

  /** Kilometres in one degree of latitude, as the resolver takes it. */
  const KmPerDegree: real := 111.0
  const DefaultRadiusKm: real := 10.0

  datatype Box = Box(latMin: real, latMax: real, lngMin: real, lngMax: real)

  predicate InBox(b: Box, p: Point)
  {
    b.latMin <= p.lat <= b.latMax && b.lngMin <= p.lng <= b.lngMax
  }

  function Abs(x: real): real
  {
    if x < 0.0 then -x else x
  }

  /** The box as written: the longitude half-width divides by the latitude itself. */
  function BoxAsWritten(at: Point, radiusKm: real): Box
    requires at.lat != 0.0
  {
    var latDelta := radiusKm / KmPerDegree;
    var lngDelta := radiusKm / (KmPerDegree * Abs(at.lat));
    Box(at.lat - latDelta, at.lat + latDelta, at.lng - lngDelta, at.lng + lngDelta)
  }

  /**
   * The box as intended: a degree of longitude spans 111 km times the
   * cosine of the latitude. `cosLat` is that cosine; where it is not
   * positive (at a pole) every longitude is within reach.
   */
  function SearchBox(at: Point, radiusKm: real, cosLat: real): (b: Box)
  {
    var latDelta := radiusKm / KmPerDegree;
    if cosLat > 0.0 then
      var lngDelta := radiusKm / (KmPerDegree * cosLat);
      Box(at.lat - latDelta, at.lat + latDelta, at.lng - lngDelta, at.lng + lngDelta)
    else Box(at.lat - latDelta, at.lat + latDelta, -180.0, 180.0)
  }

  /**
   * The intended box reaches exactly the radius north, south, east and
   * west: its half-widths, converted to kilometres at that latitude, are
   * the radius; so a point within the radius along the meridian or the
   * parallel is inside it.
   */
  lemma SearchBoxReachesRadius(at: Point, radiusKm: real, cosLat: real, eastKm: real, northKm: real)
    requires 0.0 < cosLat <= 1.0 && radiusKm >= 0.0
    requires -radiusKm <= eastKm <= radiusKm && -radiusKm <= northKm <= radiusKm
    ensures var b := SearchBox(at, radiusKm, cosLat);
            (b.latMax - at.lat) * KmPerDegree == radiusKm && (b.lngMax - at.lng) * KmPerDegree * cosLat == radiusKm &&
            InBox(b, Point(at.lat + northKm / KmPerDegree, at.lng + eastKm / (KmPerDegree * cosLat)))
  {
    var d := KmPerDegree * cosLat;
    assert eastKm / d <= radiusKm / d && -(radiusKm / d) <= eastKm / d by {
      DivideMonotone(eastKm, radiusKm, d);
      DivideMonotone(-radiusKm, eastKm, d);
    }
    assert northKm / KmPerDegree <= radiusKm / KmPerDegree && -(radiusKm / KmPerDegree) <= northKm / KmPerDegree by {
      DivideMonotone(northKm, radiusKm, KmPerDegree);
      DivideMonotone(-radiusKm, northKm, KmPerDegree);
    }
  }

  lemma DivideMonotone(x: real, y: real, d: real)
    requires d > 0.0 && x <= y
    ensures x / d <= y / d
    ensures (-y) / d == -(y / d)
  {
  }

  /**
   * At latitude 45 with the default 10 km, a hotspot 0.1 degree east lies
   * under 8 km away along the parallel (cos 45° is about 0.7071), yet the
   * box as written, 1/45 of the intended width, leaves it out; the intended
   * box keeps it.
   */
  lemma EastwardHotspotMissed(cosLat: real)
    requires 0.707 <= cosLat <= 0.708
    ensures 0.1 * KmPerDegree * cosLat < DefaultRadiusKm
    ensures !InBox(BoxAsWritten(Point(45.0, 2.0), DefaultRadiusKm), Point(45.0, 2.1))
    ensures InBox(SearchBox(Point(45.0, 2.0), DefaultRadiusKm, cosLat), Point(45.0, 2.1))
  {
    var d := KmPerDegree * cosLat;
    assert 0.1 * d < 10.0;
    assert 0.1 < 10.0 / d;
  }

  /** ActivityHotspot ordering for this resolver: largest crowd first, then the most recently active. */
  function ByCrowd(x: Hotspot, y: Hotspot): bool
  {
    x.userCount > y.userCount || (x.userCount == y.userCount && x.lastActivity >= y.lastActivity)
  }

  /** The cosine of a latitude given in degrees; trigonometry is outside the model. */
  type Cosine = real -> real

  function HotspotFilter(now: int, box: Option<Box>): Hotspot -> bool
  {
    (h: Hotspot) => Live(h, now) && (box.None? || InBox(box.value, h.position))
  }

  /** The search box, when both coordinates are given and truthy. */
  function AreaOf(lat: Option<real>, lng: Option<real>, radiusKm: real, cos: Cosine): Option<Box>
  {
    if Truthy(lat) && Truthy(lng) then Some(SearchBox(Point(lat.value, lng.value), radiusKm, cos(lat.value)))
    else None
  }

  /** active_hotspots: the unexpired hotspots, within the box around the given point, largest crowds first. */
  function ActiveHotspots(hs: seq<Hotspot>, now: int, lat: Option<real>, lng: Option<real>, radiusKm: Option<real>,
                          cos: Cosine): seq<Hotspot>
  {
    var r := if radiusKm.Some? then radiusKm.value else DefaultRadiusKm;
    Sort(Filter(hs, HotspotFilter(now, AreaOf(lat, lng, r, cos))), ByCrowd)
  }

  /**
   * Without a usable location every unexpired hotspot is listed (a zero
   * coordinate counts as none); with one, only those in the search box.
   */
  lemma ActiveHotspotsSpec(hs: seq<Hotspot>, now: int, lat: Option<real>, lng: Option<real>, radiusKm: Option<real>,
                           cos: Cosine)
    ensures var r := ActiveHotspots(hs, now, lat, lng, radiusKm, cos);
            var area := AreaOf(lat, lng, if radiusKm.Some? then radiusKm.value else DefaultRadiusKm, cos);
            (forall h :: h in r <==> h in hs && h.expiresAt >= now && (area.None? || InBox(area.value, h.position))) &&
            (!Truthy(lat) || !Truthy(lng) ==> forall h :: h in r <==> h in hs && h.expiresAt >= now) &&
            Ordered(r, ByCrowd)
  {
    var area := AreaOf(lat, lng, if radiusKm.Some? then radiusKm.value else DefaultRadiusKm, cos);
    var f := Filter(hs, HotspotFilter(now, area));
    assert TotalPreorder(ByCrowd);
    SortOrdered(f, ByCrowd);
    SortMembers(f, ByCrowd);
  }

  // ---------------------------------------------------------------------
  // Location history

  /** trip_location_history: the route of one of the caller's trips, oldest first; [] for any other trip. */
  function TripLocationHistory(trips: seq<Trip>, samples: seq<LocationSample>, trip: TripId, user: Email)
      : seq<LocationSample>
  {
    if FindOwnTrip(trips, trip, user).None? then [] else LocationTracker.TripRoute(samples, trip)
  }

  lemma TripLocationHistorySpec(trips: seq<Trip>, samples: seq<LocationSample>, trip: TripId, user: Email)
    ensures var r := TripLocationHistory(trips, samples, trip, user);
            (FindOwnTrip(trips, trip, user).None? ==> r == []) &&
            (FindOwnTrip(trips, trip, user).Some? ==>
               (forall s :: s in r <==> s in samples && s.trip == Some(trip)) &&
               forall i, j :: 0 <= i < j < |r| ==> r[i].recordedAt <= r[j].recordedAt)
  {
    LocationTracker.TripRouteSpec(samples, trip);
  }
}
