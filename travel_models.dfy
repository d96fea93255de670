// The records of travel/models.py, their derived properties, and the tables
// the travel services read and write.
module TravelModels {
  import opened Common
  import opened Seqs
  import Accounts

  type Email = Accounts.Email
  type TripId = nat
  type MatchId = nat

  /** The privacy column is free text: choices are not enforced when a row is saved. */
  const PublicPrivacy := "public"
  const FriendsOnlyPrivacy := "friends_only"
  const PrivatePrivacy := "private"

  datatype Trip = Trip(
    id: TripId,
    owner: Email,
    origin: string,
    destination: string,
    originLat: Option<real>,
    originLng: Option<real>,
    destinationLat: Option<real>,
    destinationLng: Option<real>,
    startDate: int,               // day numbers
    endDate: int,
    interests: seq<string>,
    description: string,
    maxCompanions: int,
    currentCompanions: int,
    isActive: bool,
    privacy: string)

  datatype MatchStatus = Pending | Accepted | Rejected

  datatype TripMatch = TripMatch(
    id: MatchId,
    trip: TripId,
    matchedUser: Email,
    matchedTrip: Option<TripId>,
    score: real,
    commonInterests: set<string>,
    distanceKm: Option<real>,
    currentDistanceKm: Option<real>,
    lastDistanceUpdate: Option<int>,
    isProximityExpired: bool,
    status: MatchStatus,
    createdAt: int,
    updatedAt: int)

  datatype LocationSample = LocationSample(
    user: Email,
    trip: Option<TripId>,
    position: Point,
    accuracy: Option<real>,
    altitude: Option<real>,
    speed: Option<real>,
    heading: Option<real>,
    isBackground: bool,
    batteryLevel: Option<int>,
    recordedAt: int)

  /** The eight suggestion_type choices. */
  datatype SuggestionType = ActivityTip | Food | Safety | Cultural | HiddenGemTip | Timing | Warning | ActivityHotspot

  function Tag(k: SuggestionType): string
  {
    match k
    case ActivityTip => "activity"
    case Food => "food"
    case Safety => "safety"
    case Cultural => "cultural"
    case HiddenGemTip => "hidden_gem"
    case Timing => "timing"
    case Warning => "warning"
    case ActivityHotspot => "activity_hotspot"
  }

  /** A catalog row of the insights app, identified across its tables. */
  type PlaceRef = nat

  datatype TripSuggestion = TripSuggestion(
    user: Email,
    trip: TripId,
    kind: SuggestionType,
    content: string,
    title: string,
    position: Point,
    locationName: string,
    relatedPlaceId: Option<PlaceRef>,
    hotspotUserCount: Option<int>,
    hotspotFriendNames: seq<string>,
    isRead: bool,
    createdAt: int)

  datatype Hotspot = Hotspot(
    position: Point,
    placeName: string,
    relatedPlaceId: Option<PlaceRef>,
    userCount: int,
    activeUsers: seq<Email>,
    firstDetected: int,
    lastActivity: int,
    expiresAt: int)

  /** timezone.now().date(): the day number of a timestamp. */
  function Today(now: int): int
  {
    now / Day
  }

  /** The days from a to b inclusive. */
  function DayRange(a: int, b: int): (r: seq<int>)
    ensures |r| == if a <= b then b - a + 1 else 0
    ensures forall d :: d in r <==> a <= d <= b
    decreases b - a
  {
    if a > b then [] else [a] + DayRange(a + 1, b)
  }

  /** duration_days: the number of calendar days the trip spans, both ends included. */
  function DurationDays(t: Trip): (d: int)
    ensures t.startDate <= t.endDate ==> d == |DayRange(t.startDate, t.endDate)|
    ensures d >= 1 <==> t.startDate <= t.endDate
  {
    t.endDate - t.startDate + 1
  }

  predicate Covers(t: Trip, day: int)
  {
    t.startDate <= day <= t.endDate
  }

  predicate IsUpcoming(t: Trip, today: int)
  {
    t.startDate > today
  }

  predicate IsOngoing(t: Trip, today: int)
  {
    t.startDate <= today <= t.endDate
  }

  predicate IsPast(t: Trip, today: int)
  {
    t.endDate < today
  }

  /** A trip whose dates are in order is exactly one of upcoming, ongoing and past on any day. */
  lemma TripPhases(t: Trip, today: int)
    requires t.startDate <= t.endDate
    ensures IsUpcoming(t, today) || IsOngoing(t, today) || IsPast(t, today)
    ensures !(IsUpcoming(t, today) && IsOngoing(t, today))
    ensures !(IsOngoing(t, today) && IsPast(t, today))
    ensures !(IsUpcoming(t, today) && IsPast(t, today))
  {
  }

  /** ActivityHotspot.is_expired: strictly after expires_at. */
  predicate IsExpired(h: Hotspot, now: int)
  {
    now > h.expiresAt
  }

  /** The lookups keep expires_at >= now: the hotspots that are not expired at that instant. */
  predicate Live(h: Hotspot, now: int)
  {
    h.expiresAt >= now
  }

  /** The first trip with this id (ids are unique, so the only one). */
  function FindTrip(trips: seq<Trip>, id: TripId): (r: Option<Trip>)
    ensures r.Some? <==> exists i :: 0 <= i < |trips| && trips[i].id == id
    ensures r.Some? ==> r.value in trips && r.value.id == id
  {
    if trips == [] then None
    else if trips[0].id == id then Some(trips[0])
    else FindTrip(trips[1..], id)
  }

  /** Trip.objects.get(id=..., user=user): found only when the caller owns it. */
  function FindOwnTrip(trips: seq<Trip>, id: TripId, user: Email): (r: Option<Trip>)
    ensures r.Some? ==> r.value in trips && r.value.id == id && r.value.owner == user
    ensures r.None? ==> FindTrip(trips, id).None? || FindTrip(trips, id).value.owner != user
  {
    var t := FindTrip(trips, id);
    if t.Some? && t.value.owner == user then t else None
  }

  function TripIndex(trips: seq<Trip>, id: TripId): (i: nat)
    requires FindTrip(trips, id).Some?
    ensures i < |trips| && trips[i] == FindTrip(trips, id).value
  {
    if trips[0].id == id then 0 else 1 + TripIndex(trips[1..], id)
  }

  /** The owner of the trip a match belongs to (match.trip.user). */
  function TripOwner(trips: seq<Trip>, id: TripId): Option<Email>
  {
    var t := FindTrip(trips, id);
    if t.Some? then Some(t.value.owner) else None
  }

  /** A trip of the user that is started (is_active) and whose dates cover the day. */
  predicate ActiveOn(t: Trip, user: Email, today: int)
  {
    t.owner == user && t.isActive && Covers(t, today)
  }

  /** `.first()` of the user's active trips covering today, in the Trip ordering. */
  function ActiveTrip(trips: seq<Trip>, user: Email, today: int): (r: Option<Trip>)
    ensures r.Some? ==> r.value in trips && ActiveOn(r.value, user, today)
    ensures r.None? <==> forall t :: t in trips ==> !ActiveOn(t, user, today)
  {
    var f := Filter(trips, t => ActiveOn(t, user, today));
    if f == [] then None else Some(f[0])
  }

  function DistinctTripIds(x: Trip, y: Trip): bool
  {
    x.id != y.id
  }

  function DistinctMatchIds(x: TripMatch, y: TripMatch): bool
  {
    x.id != y.id
  }

  /** unique_together (trip, matched_user). */
  function DistinctMatchPairs(x: TripMatch, y: TripMatch): bool
  {
    !(x.trip == y.trip && x.matchedUser == y.matchedUser)
  }

  /** Whether a match row already holds this (trip, matched_user) pair. */
  predicate HasMatchFor(matches: seq<TripMatch>, trip: TripId, user: Email)
  {
    exists i :: 0 <= i < |matches| && matches[i].trip == trip && matches[i].matchedUser == user
  }

  /**
   * The travel tables. Trips are kept in the model's default ordering
   * (newest first), so `.first()` is the head of the filtered sequence; the
   * other tables are kept in insertion order. Trips and matches carry ids
   * drawn from `nextId`.
   */
  /** The match rows: ids below the counter and unique, one row per (trip, matched user), each pointing at a trip. */
  ghost predicate MatchesValid(trips: seq<Trip>, matches: seq<TripMatch>, nextId: nat)
  {
    (forall m :: m in matches ==> m.id < nextId) &&
    Pairwise(matches, DistinctMatchIds) &&
    Pairwise(matches, DistinctMatchPairs) &&
    (forall m :: m in matches ==> FindTrip(trips, m.trip).Some?)
  }

  /** Rewriting a match row's other columns keeps the match table valid. */
  lemma ReplacedMatchValid(trips: seq<Trip>, matches: seq<TripMatch>, nextId: nat, i: nat, row: TripMatch)
    requires MatchesValid(trips, matches, nextId) && i < |matches|
    requires row.id == matches[i].id && row.trip == matches[i].trip && row.matchedUser == matches[i].matchedUser
    ensures MatchesValid(trips, matches[i := row], nextId)
  {
    var ms := matches[i := row];
    forall j, k | 0 <= j < k < |ms|
      ensures DistinctMatchIds(ms[j], ms[k]) && DistinctMatchPairs(ms[j], ms[k])
    {
      assert DistinctMatchIds(matches[j], matches[k]) && DistinctMatchPairs(matches[j], matches[k]);
    }
    forall m | m in ms
      ensures m.id < nextId && FindTrip(trips, m.trip).Some?
    {
      var j :| 0 <= j < |ms| && ms[j] == m;
      assert matches[j] in matches;
    }
  }

  class TravelDb {
    var trips: seq<Trip>
    var matches: seq<TripMatch>
    var samples: seq<LocationSample>
    var suggestions: seq<TripSuggestion>
    var hotspots: seq<Hotspot>
    var nextId: nat

    ghost predicate Valid()
      reads this
    {
      (forall t :: t in trips ==> t.id < nextId) &&
      Pairwise(trips, DistinctTripIds) &&
      MatchesValid(trips, matches, nextId)
    }

    constructor ()
      ensures Valid()
      ensures trips == [] && matches == [] && samples == [] && suggestions == [] && hotspots == []
    {
      trips, matches, samples, suggestions, hotspots, nextId := [], [], [], [], [], 0;
    }
  }
}
