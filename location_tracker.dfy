// travel/services/location_tracker.py: recording location samples against
// the active trip, mirroring the last position on the profile, and the
// history queries over the samples.
module LocationTracker {
  import opened Common
  import opened Seqs
  import opened TravelModels
  import Accounts

  /** cleanup_old_locations keeps this many days by default. */
  const DefaultRetentionDays := 90
  /** get_recent_locations returns at most this many samples by default. */
  const DefaultRecentLimit := 100

  /** The arguments of record_location after the user. */
  datatype Reading = Reading(
    position: Point,
    accuracy: Option<real>,
    altitude: Option<real>,
    speed: Option<real>,
    heading: Option<real>,
    isBackground: bool,
    batteryLevel: Option<int>,
    recordedAt: Option<int>)

  /** The sample record_location stores: the reading as passed, stamped now when no time was given. */
  function SampleOf(user: Email, trip: Option<Trip>, r: Reading, now: int): (s: LocationSample)
    ensures s.user == user && s.position == r.position
    ensures s.recordedAt == (if r.recordedAt.Some? then r.recordedAt.value else now)
    ensures s.trip.Some? <==> trip.Some?
    ensures trip.Some? ==> s.trip == Some(trip.value.id)
    ensures s.accuracy == r.accuracy && s.altitude == r.altitude && s.speed == r.speed && s.heading == r.heading
    ensures s.isBackground == r.isBackground && s.batteryLevel == r.batteryLevel
  {
    LocationSample(user, if trip.Some? then Some(trip.value.id) else None, r.position,
                   r.accuracy, r.altitude, r.speed, r.heading, r.isBackground, r.batteryLevel,
                   if r.recordedAt.Some? then r.recordedAt.value else now)
  }

  /** The profile after record_location: only latitude, longitude and last_location_update change. */
  function MovedProfile(p: Accounts.Profile, at: Point, when: int): (q: Accounts.Profile)
    ensures q.latitude == Some(at.lat) && q.longitude == Some(at.lng) && q.lastLocationUpdate == Some(when)
    ensures q.(latitude := p.latitude, longitude := p.longitude, lastLocationUpdate := p.lastLocationUpdate) == p
  {
    p.(latitude := Some(at.lat), longitude := Some(at.lng), lastLocationUpdate := Some(when))
  }

  /**
   * record_location: attach the sample to the user's first active trip
   * covering today (or to none), store it, and copy its position and time
   * onto the user's profile when there is one.
   */
  method RecordLocation(db: TravelDb, store: Accounts.Store, user: Email, r: Reading, now: int)
      returns (sample: LocationSample)
    requires db.Valid() && store.Valid()
    modifies db, store
    ensures db.Valid() && store.Valid()
    ensures sample == SampleOf(user, ActiveTrip(old(db.trips), user, Today(now)), r, now)
    ensures db.samples == old(db.samples) + [sample]
    ensures db.trips == old(db.trips) && db.matches == old(db.matches) && db.nextId == old(db.nextId)
    ensures db.suggestions == old(db.suggestions) && db.hotspots == old(db.hotspots)
    ensures user in old(store.profiles) ==>
      store.profiles == old(store.profiles)[user := MovedProfile(old(store.profiles)[user], sample.position, sample.recordedAt)]
    ensures user !in old(store.profiles) ==> store.profiles == old(store.profiles)
    ensures store.users == old(store.users) && store.friends == old(store.friends) && store.requests == old(store.requests)
    ensures store.links == old(store.links) && store.favorites == old(store.favorites)
  {
    var active := ActiveTrip(db.trips, user, Today(now));
    sample := SampleOf(user, active, r, now);
    db.samples := db.samples + [sample];
    if user in store.profiles {
      store.profiles := store.profiles[user := MovedProfile(store.profiles[user], sample.position, sample.recordedAt)];
    }
  }

  /** The sample is attached to a trip exactly when the user has an active trip covering today, and then to such a trip. */
  lemma RecordedTrip(trips: seq<Trip>, user: Email, r: Reading, now: int)
    ensures var s := SampleOf(user, ActiveTrip(trips, user, Today(now)), r, now);
            (s.trip.None? <==> forall t :: t in trips ==> !ActiveOn(t, user, Today(now))) &&
            (s.trip.Some? ==> exists t :: t in trips && t.id == s.trip.value && ActiveOn(t, user, Today(now)))
  {
    var a := ActiveTrip(trips, user, Today(now));
    if a.Some? {
      assert a.value in trips && a.value.id == SampleOf(user, a, r, now).trip.value;
    }
  }

  function ByRecordedDesc(x: LocationSample, y: LocationSample): bool
  {
    x.recordedAt >= y.recordedAt
  }

  function ByRecordedAsc(x: LocationSample, y: LocationSample): bool
  {
    x.recordedAt <= y.recordedAt
  }

  /** The samples of the user, and of the trip too when one is given. */
  function OfUser(user: Email, trip: Option<TripId>): LocationSample -> bool
  {
    (s: LocationSample) => s.user == user && (trip.Some? ==> s.trip == trip)
  }

  function OnTrip(trip: TripId): LocationSample -> bool
  {
    (s: LocationSample) => s.trip == Some(trip)
  }

  /** get_recent_locations: the user's samples (the trip's only, when given), newest first, at most `limit`. */
  function RecentLocations(samples: seq<LocationSample>, user: Email, trip: Option<TripId>, limit: nat): seq<LocationSample>
  {
    Take(Sort(Filter(samples, OfUser(user, trip)), ByRecordedDesc), limit)
  }

  /**
   * Exactly min(|all|, limit) of the matching samples, newest first, and
   * no sample left out is newer than one returned.
   */
  lemma RecentLocationsSpec(samples: seq<LocationSample>, user: Email, trip: Option<TripId>, limit: nat)
    ensures var r := RecentLocations(samples, user, trip, limit);
            var all := Filter(samples, OfUser(user, trip));
            |r| == (if |all| < limit then |all| else limit) &&
            multiset(r) <= multiset(all) &&
            (forall s :: s in r ==> s in samples && s.user == user && (trip.Some? ==> s.trip == trip)) &&
            (forall i, j :: 0 <= i < j < |r| ==> r[i].recordedAt >= r[j].recordedAt) &&
            (forall x, y :: x in multiset(all) - multiset(r) && y in r ==> x.recordedAt <= y.recordedAt) &&
            (|all| <= limit ==> multiset(r) == multiset(all))
  {
    var all := Filter(samples, OfUser(user, trip));
    var sorted := Sort(all, ByRecordedDesc);
    assert TotalPreorder(ByRecordedDesc);
    SortOrdered(all, ByRecordedDesc);
    SortMembers(all, ByRecordedDesc);
    TakeOrdered(sorted, limit, ByRecordedDesc);
    TakeMultiset(sorted, limit);
    TakeLeavesLater(sorted, limit, ByRecordedDesc);
    var r := Take(sorted, limit);
    forall x: LocationSample, y | x in multiset(all) - multiset(r) && y in r
      ensures x.recordedAt <= y.recordedAt
    {
      assert ByRecordedDesc(y, x);
    }
    forall i, j | 0 <= i < j < |r|
      ensures r[i].recordedAt >= r[j].recordedAt
    {
      assert ByRecordedDesc(r[i], r[j]);
    }
  }

  /** get_trip_route: every sample of the trip, oldest first. */
  function TripRoute(samples: seq<LocationSample>, trip: TripId): seq<LocationSample>
  {
    Sort(Filter(samples, OnTrip(trip)), ByRecordedAsc)
  }

  lemma TripRouteSpec(samples: seq<LocationSample>, trip: TripId)
    ensures var r := TripRoute(samples, trip);
            (forall s :: s in r <==> s in samples && s.trip == Some(trip)) &&
            (forall i, j :: 0 <= i < j < |r| ==> r[i].recordedAt <= r[j].recordedAt) &&
            multiset(r) == multiset(Filter(samples, OnTrip(trip)))
  {
    var f := Filter(samples, OnTrip(trip));
    assert TotalPreorder(ByRecordedAsc);
    SortOrdered(f, ByRecordedAsc);
    SortMembers(f, ByRecordedAsc);
    var r := TripRoute(samples, trip);
    forall i, j | 0 <= i < j < |r|
      ensures r[i].recordedAt <= r[j].recordedAt
    {
      assert ByRecordedAsc(r[i], r[j]);
    }
  }

  function RecordedBefore(cutoff: int): LocationSample -> bool
  {
    (s: LocationSample) => s.recordedAt < cutoff
  }

  function RecordedSince(cutoff: int): LocationSample -> bool
  {
    (s: LocationSample) => s.recordedAt >= cutoff
  }

  /** cleanup_old_locations: delete the samples recorded before now − days, and return how many went. */
  method CleanupOldLocations(db: TravelDb, days: int, now: int) returns (count: nat)
    requires db.Valid()
    modifies db
    ensures db.Valid()
    ensures db.samples == Filter(old(db.samples), RecordedSince(now - days * Day))
    ensures count == Count(old(db.samples), RecordedBefore(now - days * Day))
    ensures forall s :: s in db.samples ==> s.recordedAt >= now - days * Day
    ensures db.trips == old(db.trips) && db.matches == old(db.matches) && db.nextId == old(db.nextId)
    ensures db.suggestions == old(db.suggestions) && db.hotspots == old(db.hotspots)
  {
    var cutoff := now - days * Day;
    var kept := Filter(db.samples, RecordedSince(cutoff));
    FilterSplits(db.samples, RecordedBefore(cutoff), RecordedSince(cutoff));
    count := |db.samples| - |kept|;
    db.samples := kept;
  }
}
