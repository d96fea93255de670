// The trip and match lifecycle of travel/graphql/mutations.py: creating,
// editing, starting and ending trips, finding, accepting and rejecting
// matches, and the UpdateLocation mutation that chains the location
// services. An input field is "given" when the client sent it, which is
// what the resolvers' hasattr tests evidently mean; graphene itself fills
// left-out fields with None (NewTripAsWritten, EditedAsWritten).
module TripMutations {
  import opened Common
  import opened Seqs
  import opened Text
  import opened TravelModels
  import Accounts
  import InsightsModels
  import Matching
  import Proximity
  import LocationTracker
  import Suggestions
  import Hotspots

  const NotFoundMessage := "Trip not found or unauthorized."
  const DateOrderMessage := "Start date must be before end date."
  const MatchNotFoundMessage := "Match not found or already processed."
  /** The origin CreateTrip records; no reverse geocoding is done. */
  const CurrentLocation := "Current Location"
  /** StartTrip looks for at most this many matches; FindMatches defaults to 10. */
  const StartTripMatchLimit := 20
  const FindMatchesDefaultLimit := 10

  datatype TripReply = TripReply(success: bool, message: string, trip: Option<Trip>)

  // ---------------------------------------------------------------------
  // CreateTrip

  datatype NewTripInput = NewTripInput(
    destination: string,
    destinationLat: Option<real>,
    destinationLng: Option<real>,
    startDate: int,
    endDate: int,
    interests: Option<seq<string>>,
    description: Option<string>,
    maxCompanions: Option<int>,
    privacy: Option<string>)

  function OrElse<T>(o: Option<T>, d: T): T
  {
    if o.Some? then o.value else d
  }

  /**
   * The trip CreateTrip stores: origin "Current Location", with the
   * profile's coordinates only when both are truthy, and the model's
   * defaults for whatever was not given.
   */
  function NewTrip(id: TripId, user: Email, profile: Option<Accounts.Profile>, input: NewTripInput): (t: Trip)
    ensures t.id == id && t.owner == user && t.origin == CurrentLocation
    ensures !t.isActive && t.currentCompanions == 0
    ensures t.startDate == input.startDate && t.endDate == input.endDate && t.destination == input.destination
    ensures t.originLat.Some? <==> profile.Some? && Truthy(profile.value.latitude) && Truthy(profile.value.longitude)
    ensures t.originLat.Some? ==> t.originLat == profile.value.latitude && t.originLng == profile.value.longitude
    ensures t.originLat.None? ==> t.originLng.None?
    ensures input.privacy.None? ==> t.privacy == FriendsOnlyPrivacy
    ensures input.maxCompanions.None? ==> t.maxCompanions == 0
    ensures input.interests.None? ==> t.interests == []
  {
    var located := profile.Some? && Truthy(profile.value.latitude) && Truthy(profile.value.longitude);
    Trip(id, user, CurrentLocation, input.destination,
         if located then profile.value.latitude else None,
         if located then profile.value.longitude else None,
         input.destinationLat, input.destinationLng, input.startDate, input.endDate,
         OrElse(input.interests, []), OrElse(input.description, ""), OrElse(input.maxCompanions, 0), 0, false,
         OrElse(input.privacy, FriendsOnlyPrivacy))
  }

  /**
   * CreateTrip as written. Graphene fills every input field the client
   * left out with None, so the hasattr tests always hold and the defaults
   * are never used: a left-out interests, description, max_companions or
   * privacy sends None to a NOT NULL column and the insert fails (None
   * here). With all four sent the row is the one NewTrip builds.
   */
  function NewTripAsWritten(id: TripId, user: Email, profile: Option<Accounts.Profile>, input: NewTripInput): Option<Trip>
  {
    if input.interests.None? || input.description.None? || input.maxCompanions.None? || input.privacy.None? then None
    else Some(NewTrip(id, user, profile, input))
  }

  /**
   * As written, CreateTrip stores a trip only when all four optional
   * columns were sent, and then the same trip as NewTrip; the defaults
   * NewTrip applies are the evident intent of the hasattr tests.
   */
  lemma NewTripAsWrittenNeedsEveryField(id: TripId, user: Email, profile: Option<Accounts.Profile>, input: NewTripInput)
    ensures NewTripAsWritten(id, user, profile, input).Some? <==>
              input.interests.Some? && input.description.Some? && input.maxCompanions.Some? && input.privacy.Some?
    ensures NewTripAsWritten(id, user, profile, input).Some? ==>
              NewTripAsWritten(id, user, profile, input) == Some(NewTrip(id, user, profile, input))
  {
  }

  /** A trip created without a description: refused as written, stored with an empty description by NewTrip. */
  lemma CreateWithoutDescriptionRefused(id: TripId, user: Email, profile: Option<Accounts.Profile>, input: NewTripInput)
    requires input.description.None?
    ensures NewTripAsWritten(id, user, profile, input).None?
    ensures NewTrip(id, user, profile, input).description == ""
  {
  }

  function ProfileOf(profiles: map<Email, Accounts.Profile>, user: Email): Option<Accounts.Profile>
  {
    if user in profiles then Some(profiles[user]) else None
  }

  /** CreateTrip: refuse a start after the end (equal dates are fine), else store the new trip, newest first. */
  method CreateTrip(db: TravelDb, profiles: map<Email, Accounts.Profile>, user: Email, input: NewTripInput)
      returns (reply: TripReply)
    requires db.Valid()
    modifies db
    ensures db.Valid()
    ensures input.startDate > input.endDate ==>
              reply == TripReply(false, DateOrderMessage, None) && db.trips == old(db.trips) && db.nextId == old(db.nextId)
    ensures input.startDate <= input.endDate ==>
              var t := NewTrip(old(db.nextId), user, ProfileOf(profiles, user), input);
              reply == TripReply(true, "Trip created successfully.", Some(t)) &&
              db.trips == [t] + old(db.trips) && db.nextId == old(db.nextId) + 1
    ensures db.matches == old(db.matches) && db.samples == old(db.samples)
    ensures db.suggestions == old(db.suggestions) && db.hotspots == old(db.hotspots)
  {
    if input.startDate > input.endDate {
      return TripReply(false, DateOrderMessage, None);
    }
    var t := NewTrip(db.nextId, user, ProfileOf(profiles, user), input);
    PrependTrip(db, t);
    reply := TripReply(true, "Trip created successfully.", Some(t));
  }

  /** Trip.objects.create: a row with a fresh id, first in the -created_at ordering. */
  method PrependTrip(db: TravelDb, t: Trip)
    requires db.Valid() && t.id == db.nextId
    modifies db
    ensures db.Valid()
    ensures db.trips == [t] + old(db.trips) && db.nextId == old(db.nextId) + 1
    ensures db.matches == old(db.matches) && db.samples == old(db.samples)
    ensures db.suggestions == old(db.suggestions) && db.hotspots == old(db.hotspots)
  {
    var ts := [t] + db.trips;
    forall m | m in db.matches
      ensures FindTrip(ts, m.trip).Some?
    {
      var k :| 0 <= k < |db.trips| && db.trips[k].id == m.trip;
      assert ts[k + 1].id == m.trip;
    }
    assert Pairwise(ts, DistinctTripIds) by {
      forall i, j | 0 <= i < j < |ts|
        ensures DistinctTripIds(ts[i], ts[j])
      {
        if i > 0 {
          assert ts[i] == db.trips[i - 1] && ts[j] == db.trips[j - 1];
        } else {
          assert ts[j] in db.trips;
        }
      }
    }
    db.trips, db.nextId := ts, db.nextId + 1;
  }

  // ---------------------------------------------------------------------
  // Saving a trip in place

  /** trip.save(): the row at index i is replaced by one with the same id. */
  method SaveTrip(db: TravelDb, i: nat, t: Trip)
    requires db.Valid() && i < |db.trips| && t.id == db.trips[i].id
    modifies db
    ensures db.Valid()
    ensures db.trips == old(db.trips)[i := t]
    ensures db.matches == old(db.matches) && db.nextId == old(db.nextId) && db.samples == old(db.samples)
    ensures db.suggestions == old(db.suggestions) && db.hotspots == old(db.hotspots)
  {
    var ts := db.trips[i := t];
    assert forall k :: 0 <= k < |ts| ==> ts[k].id == db.trips[k].id;
    forall m | m in db.matches
      ensures FindTrip(ts, m.trip).Some?
    {
      var k :| 0 <= k < |db.trips| && db.trips[k].id == m.trip;
      assert ts[k].id == m.trip;
    }
    assert Pairwise(ts, DistinctTripIds) by {
      forall a, b | 0 <= a < b < |ts|
        ensures DistinctTripIds(ts[a], ts[b])
      {
        assert DistinctTripIds(db.trips[a], db.trips[b]);
      }
    }
    assert forall x :: x in ts ==> x.id < db.nextId by {
      forall x | x in ts
        ensures x.id < db.nextId
      {
        var k :| 0 <= k < |ts| && ts[k] == x;
        assert db.trips[k] in db.trips;
      }
    }
    db.trips := ts;
  }

  // ---------------------------------------------------------------------
  // UpdateTrip

  datatype TripEdit = TripEdit(
    tripId: TripId,
    origin: Option<string>,
    destination: Option<string>,
    originLat: Option<Option<real>>,
    originLng: Option<Option<real>>,
    destinationLat: Option<Option<real>>,
    destinationLng: Option<Option<real>>,
    startDate: Option<int>,
    endDate: Option<int>,
    interests: Option<seq<string>>,
    description: Option<string>,
    maxCompanions: Option<int>,
    privacy: Option<string>)

  /** A given text that is also truthy (non-empty). */
  function NonEmptyOr(o: Option<string>, d: string): string
  {
    if o.Some? && o.value != "" then o.value else d
  }

  /** The trip after UpdateTrip's assignments: names only when non-empty, every other given field as sent. */
  function Edited(t: Trip, e: TripEdit): Trip
  {
    t.(origin := NonEmptyOr(e.origin, t.origin),
       destination := NonEmptyOr(e.destination, t.destination),
       originLat := OrElse(e.originLat, t.originLat),
       originLng := OrElse(e.originLng, t.originLng),
       destinationLat := OrElse(e.destinationLat, t.destinationLat),
       destinationLng := OrElse(e.destinationLng, t.destinationLng),
       startDate := OrElse(e.startDate, t.startDate),
       endDate := OrElse(e.endDate, t.endDate),
       interests := OrElse(e.interests, t.interests),
       description := OrElse(e.description, t.description),
       maxCompanions := OrElse(e.maxCompanions, t.maxCompanions),
       privacy := OrElse(e.privacy, t.privacy))
  }

  /** The coordinates as UpdateTrip assigns them when written: a left-out one arrives as None and clears the column. */
  function Sent(o: Option<Option<real>>): Option<Option<real>>
  {
    Some(OrElse(o, None))
  }

  /**
   * UpdateTrip as written: every left-out field arrives as None, so the
   * four coordinates are always assigned (a left-out one is cleared) and
   * the date check runs on that trip ...
   */
  function EditedAsWritten(t: Trip, e: TripEdit): Trip
  {
    Edited(t, e.(originLat := Sent(e.originLat), originLng := Sent(e.originLng),
                 destinationLat := Sent(e.destinationLat), destinationLng := Sent(e.destinationLng)))
  }

  /** ... and the save fails when interests, description, max_companions or privacy was left out (a NOT NULL column gets None). */
  predicate SaveRefusedAsWritten(e: TripEdit)
  {
    e.interests.None? || e.description.None? || e.maxCompanions.None? || e.privacy.None?
  }

  /**
   * An edit that only sends a new description: as written it clears the
   * coordinates in memory and its save is refused; Edited changes the
   * description and nothing else.
   */
  lemma DescriptionOnlyEditRefused(t: Trip, d: string)
    ensures var e := TripEdit(t.id, None, None, None, None, None, None, None, None, None, Some(d), None, None);
            SaveRefusedAsWritten(e) &&
            EditedAsWritten(t, e).originLat.None? && EditedAsWritten(t, e).destinationLng.None? &&
            Edited(t, e) == t.(description := d)
  {
  }

  /** Once every field is sent the two readings agree: as written and Edited store the same trip. */
  lemma EditedAsWrittenAgrees(t: Trip, e: TripEdit)
    requires e.originLat.Some? && e.originLng.Some? && e.destinationLat.Some? && e.destinationLng.Some?
    ensures EditedAsWritten(t, e) == Edited(t, e)
  {
  }

  /** An edit that sends nothing (or only empty names) leaves the trip as it was. */
  predicate NothingGiven(e: TripEdit)
  {
    (e.origin.None? || e.origin == Some("")) && (e.destination.None? || e.destination == Some("")) &&
    e.originLat.None? && e.originLng.None? && e.destinationLat.None? && e.destinationLng.None? &&
    e.startDate.None? && e.endDate.None? && e.interests.None? && e.description.None? &&
    e.maxCompanions.None? && e.privacy.None?
  }

  /**
   * UpdateTrip never changes a trip's identity, owner, state or companion
   * count; a field not given keeps its value (the evident intent of the
   * hasattr tests, see EditedAsWritten), an empty name never replaces
   * one, and applying the same edit twice is applying it once.
   */
  lemma EditedSpec(t: Trip, e: TripEdit)
    ensures var u := Edited(t, e);
            u.id == t.id && u.owner == t.owner && u.isActive == t.isActive && u.currentCompanions == t.currentCompanions &&
            (e.startDate.None? ==> u.startDate == t.startDate) && (e.endDate.None? ==> u.endDate == t.endDate) &&
            (e.privacy.None? ==> u.privacy == t.privacy) && (e.interests.None? ==> u.interests == t.interests) &&
            (e.origin == Some("") ==> u.origin == t.origin) && (e.destination == Some("") ==> u.destination == t.destination) &&
            Edited(u, e) == u
    ensures NothingGiven(e) ==> Edited(t, e) == t
  {
  }

  /**
   * UpdateTrip: find the caller's own trip, apply the edit, and save it only
   * when its dates are still in order.
   */
  method UpdateTrip(db: TravelDb, user: Email, e: TripEdit) returns (reply: TripReply)
    requires db.Valid()
    modifies db
    ensures db.Valid()
    ensures FindOwnTrip(old(db.trips), e.tripId, user).None? ==>
              reply == TripReply(false, NotFoundMessage, None) && db.trips == old(db.trips)
    ensures FindOwnTrip(old(db.trips), e.tripId, user).Some? ==>
              var u := Edited(FindOwnTrip(old(db.trips), e.tripId, user).value, e);
              (u.startDate > u.endDate ==> reply == TripReply(false, DateOrderMessage, None) && db.trips == old(db.trips)) &&
              (u.startDate <= u.endDate ==>
                 reply == TripReply(true, "Trip updated successfully.", Some(u)) &&
                 db.trips == old(db.trips)[TripIndex(old(db.trips), e.tripId) := u])
    ensures db.matches == old(db.matches) && db.nextId == old(db.nextId) && db.samples == old(db.samples)
    ensures db.suggestions == old(db.suggestions) && db.hotspots == old(db.hotspots)
  {
    var found := FindOwnTrip(db.trips, e.tripId, user);
    if found.None? {
      return TripReply(false, NotFoundMessage, None);
    }
    var u := Edited(found.value, e);
    if u.startDate > u.endDate {
      return TripReply(false, DateOrderMessage, None);
    }
    SaveTrip(db, TripIndex(db.trips, e.tripId), u);
    reply := TripReply(true, "Trip updated successfully.", Some(u));
  }

  // ---------------------------------------------------------------------
  // StartTrip, EndTrip, FindMatches

  datatype StartReply = StartReply(success: bool, message: string, trip: Option<Trip>, matchesFound: nat)

  function Started(t: Trip): Trip
  {
    t.(isActive := true)
  }

  function Ended(t: Trip): Trip
  {
    t.(isActive := false)
  }

  /** Starting an inactive trip and ending it again gives back the trip; only is_active ever changes. */
  lemma StartEndRoundTrip(t: Trip)
    ensures !t.isActive ==> Ended(Started(t)) == t
    ensures t.isActive ==> Started(Ended(t)) == t
    ensures Started(t).(isActive := t.isActive) == t && Ended(t).(isActive := t.isActive) == t
  {
  }

  function StartedMessage(n: nat): string
  {
    "Trip started successfully. Found " + NatToString(n) + " potential matches."
  }

  /**
   * StartTrip: refuse an unknown or foreign trip and an already active one,
   * both without change; otherwise save the trip as active and look for up
   * to 20 matches. A matching run that breaks the (trip, matched user)
   * uniqueness fails the reply after the trip was saved; `detail` stands
   * for the database's error text.
   */
  method StartTrip(db: TravelDb, user: Email, tripId: TripId, friends: set<Email>, dist: Metric, now: int, detail: string)
      returns (reply: StartReply)
    requires db.Valid()
    modifies db
    ensures db.Valid()
    ensures FindOwnTrip(old(db.trips), tripId, user).None? ==>
              reply == StartReply(false, NotFoundMessage, None, 0) && db.trips == old(db.trips) && db.matches == old(db.matches)
    ensures FindOwnTrip(old(db.trips), tripId, user).Some? && FindOwnTrip(old(db.trips), tripId, user).value.isActive ==>
              reply == StartReply(false, "Trip is already active.", FindOwnTrip(old(db.trips), tripId, user), 0) &&
              db.trips == old(db.trips) && db.matches == old(db.matches)
    ensures FindOwnTrip(old(db.trips), tripId, user).Some? && !FindOwnTrip(old(db.trips), tripId, user).value.isActive ==>
              var t := Started(FindOwnTrip(old(db.trips), tripId, user).value);
              db.trips == old(db.trips)[TripIndex(old(db.trips), tripId) := t] &&
              var kept := Matching.Kept(old(db.matches), t.id);
              var made := Matching.Created(t, Matching.Candidates(db.trips, t, friends), dist, old(db.nextId), now);
              (reply.success <==> Pairwise(kept + made, DistinctMatchPairs)) &&
              (reply.success ==> reply.trip == Some(t) && reply.message == StartedMessage(reply.matchesFound) &&
                                 db.matches == kept + made &&
                                 reply.matchesFound == |Take(Sort(made, Matching.ByScoreDesc), StartTripMatchLimit)| &&
                                 reply.matchesFound <= StartTripMatchLimit) &&
              (!reply.success ==> reply == StartReply(false, "Error starting trip: " + detail, None, 0) &&
                                  kept <= db.matches <= kept + made)
    ensures db.samples == old(db.samples) && db.suggestions == old(db.suggestions) && db.hotspots == old(db.hotspots)
  {
    var found := FindOwnTrip(db.trips, tripId, user);
    if found.None? {
      return StartReply(false, NotFoundMessage, None, 0);
    }
    if found.value.isActive {
      return StartReply(false, "Trip is already active.", found, 0);
    }
    var t := Started(found.value);
    SaveTrip(db, TripIndex(db.trips, tripId), t);
    assert db.trips[TripIndex(old(db.trips), tripId)] == t;
    var run := Matching.FindTripMatches(db, t, friends, dist, StartTripMatchLimit, now);
    if run.DuplicateMatch? {
      return StartReply(false, "Error starting trip: " + detail, None, 0);
    }
    reply := StartReply(true, StartedMessage(|run.matches|), Some(t), |run.matches|);
  }

  /** EndTrip: refuse an unknown, foreign or inactive trip without change; otherwise save it as inactive. */
  method EndTrip(db: TravelDb, user: Email, tripId: TripId) returns (reply: TripReply)
    requires db.Valid()
    modifies db
    ensures db.Valid()
    ensures FindOwnTrip(old(db.trips), tripId, user).None? ==>
              reply == TripReply(false, NotFoundMessage, None) && db.trips == old(db.trips)
    ensures FindOwnTrip(old(db.trips), tripId, user).Some? && !FindOwnTrip(old(db.trips), tripId, user).value.isActive ==>
              reply == TripReply(false, "Trip is already inactive.", FindOwnTrip(old(db.trips), tripId, user)) &&
              db.trips == old(db.trips)
    ensures FindOwnTrip(old(db.trips), tripId, user).Some? && FindOwnTrip(old(db.trips), tripId, user).value.isActive ==>
              var t := Ended(FindOwnTrip(old(db.trips), tripId, user).value);
              reply == TripReply(true, "Trip ended successfully.", Some(t)) &&
              db.trips == old(db.trips)[TripIndex(old(db.trips), tripId) := t]
    ensures db.matches == old(db.matches) && db.nextId == old(db.nextId) && db.samples == old(db.samples)
    ensures db.suggestions == old(db.suggestions) && db.hotspots == old(db.hotspots)
  {
    var found := FindOwnTrip(db.trips, tripId, user);
    if found.None? {
      return TripReply(false, NotFoundMessage, None);
    }
    if !found.value.isActive {
      return TripReply(false, "Trip is already inactive.", found);
    }
    var t := Ended(found.value);
    SaveTrip(db, TripIndex(db.trips, tripId), t);
    reply := TripReply(true, "Trip ended successfully.", Some(t));
  }

  datatype MatchesReply = MatchesReply(success: bool, message: string, matches: seq<TripMatch>)

  /** FindMatches: run matching on the caller's own trip and report how many matches came back. */
  method FindMatches(db: TravelDb, user: Email, tripId: TripId, limit: nat, friends: set<Email>, dist: Metric, now: int,
                     detail: string)
      returns (reply: MatchesReply)
    requires db.Valid()
    modifies db
    ensures db.Valid()
    ensures FindOwnTrip(old(db.trips), tripId, user).None? ==>
              reply == MatchesReply(false, NotFoundMessage, []) && db.matches == old(db.matches)
    ensures reply.success ==> |reply.matches| <= limit &&
                              reply.message == "Found " + NatToString(|reply.matches|) + " matches."
    ensures FindOwnTrip(old(db.trips), tripId, user).Some? ==>
              var trip := FindOwnTrip(old(db.trips), tripId, user).value;
              var kept := Matching.Kept(old(db.matches), trip.id);
              var made := Matching.Created(trip, Matching.Candidates(old(db.trips), trip, friends), dist, old(db.nextId), now);
              (reply.success <==> Pairwise(kept + made, DistinctMatchPairs)) &&
              (reply.success ==> db.matches == kept + made &&
                                 reply.matches == Take(Sort(made, Matching.ByScoreDesc), limit)) &&
              (!reply.success ==> kept <= db.matches <= kept + made)
    ensures !reply.success && FindOwnTrip(old(db.trips), tripId, user).Some? ==>
              reply == MatchesReply(false, "Error finding matches: " + detail, [])
    ensures db.trips == old(db.trips) && db.samples == old(db.samples)
    ensures db.suggestions == old(db.suggestions) && db.hotspots == old(db.hotspots)
  {
    var found := FindOwnTrip(db.trips, tripId, user);
    if found.None? {
      return MatchesReply(false, NotFoundMessage, []);
    }
    var run := Matching.FindTripMatches(db, found.value, friends, dist, limit, now);
    if run.DuplicateMatch? {
      return MatchesReply(false, "Error finding matches: " + detail, []);
    }
    reply := MatchesReply(true, "Found " + NatToString(|run.matches|) + " matches.", run.matches);
  }

  // ---------------------------------------------------------------------
  // AcceptMatch and RejectMatch

  /** TripMatch.objects.get(id=..., trip__user=user, status="pending"): the position of that row. */
  function PendingOwnMatch(trips: seq<Trip>, matches: seq<TripMatch>, id: MatchId, user: Email): (k: Option<nat>)
    ensures k.Some? ==> k.value < |matches| && matches[k.value].id == id &&
                        matches[k.value].status == Pending && TripOwner(trips, matches[k.value].trip) == Some(user)
    ensures k.None? ==> forall m :: m in matches && m.id == id ==>
                          m.status != Pending || TripOwner(trips, m.trip) != Some(user)
  {
    if matches == [] then None
    else
      var m := matches[0];
      if m.id == id && m.status == Pending && TripOwner(trips, m.trip) == Some(user) then Some(0)
      else
        var k := PendingOwnMatch(trips, matches[1..], id, user);
        assert forall x :: x in matches ==> x == m || x in matches[1..];
        if k.Some? then Some(k.value + 1) else None
  }

  datatype MatchReply = MatchReply(success: bool, message: string, tripMatch: Option<TripMatch>)

  function Settled(m: TripMatch, s: MatchStatus, now: int): TripMatch
  {
    m.(status := s, updatedAt := now)
  }

  /** The companion count after an acceptance: one more, with no check against max_companions. */
  function Joined(t: Trip): Trip
  {
    t.(currentCompanions := t.currentCompanions + 1)
  }

  /** A settled match is no longer pending, so neither resolver can act on it a second time. */
  lemma SettledIsFinal(trips: seq<Trip>, matches: seq<TripMatch>, k: nat, s: MatchStatus, now: int, user: Email)
    requires k < |matches| && s != Pending
    requires Pairwise(matches, DistinctMatchIds)
    ensures PendingOwnMatch(trips, matches[k := Settled(matches[k], s, now)], matches[k].id, user).None?
  {
    var ms := matches[k := Settled(matches[k], s, now)];
    forall j | 0 <= j < |ms| && j != k
      ensures ms[j].id != matches[k].id
    {
      if j < k {
        assert DistinctMatchIds(matches[j], matches[k]);
      } else {
        assert DistinctMatchIds(matches[k], matches[j]);
      }
    }
  }

  /**
   * AcceptMatch: only a pending match on one of the caller's trips; it
   * becomes accepted and that trip gains exactly one companion.
   */
  method AcceptMatch(db: TravelDb, user: Email, id: MatchId, now: int) returns (reply: MatchReply)
    requires db.Valid()
    modifies db
    ensures db.Valid()
    ensures var k := PendingOwnMatch(old(db.trips), old(db.matches), id, user);
            k.None? ==> reply == MatchReply(false, MatchNotFoundMessage, None) &&
                        db.matches == old(db.matches) && db.trips == old(db.trips)
    ensures var k := PendingOwnMatch(old(db.trips), old(db.matches), id, user);
            k.Some? ==>
              var m := Settled(old(db.matches)[k.value], Accepted, now);
              var i := TripIndex(old(db.trips), m.trip);
              reply == MatchReply(true, "Match accepted successfully.", Some(m)) &&
              db.matches == old(db.matches)[k.value := m] &&
              db.trips == old(db.trips)[i := Joined(old(db.trips)[i])]
    ensures db.nextId == old(db.nextId) && db.samples == old(db.samples)
    ensures db.suggestions == old(db.suggestions) && db.hotspots == old(db.hotspots)
  {
    var k := PendingOwnMatch(db.trips, db.matches, id, user);
    if k.None? {
      return MatchReply(false, MatchNotFoundMessage, None);
    }
    var m := Settled(db.matches[k.value], Accepted, now);
    Proximity.SaveMatch(db, k.value, m);
    var i := TripIndex(db.trips, m.trip);
    SaveTrip(db, i, Joined(db.trips[i]));
    reply := MatchReply(true, "Match accepted successfully.", Some(m));
  }

  /** RejectMatch: only a pending match on one of the caller's trips; it becomes rejected. */
  method RejectMatch(db: TravelDb, user: Email, id: MatchId, now: int) returns (reply: MatchReply)
    requires db.Valid()
    modifies db
    ensures db.Valid()
    ensures var k := PendingOwnMatch(old(db.trips), old(db.matches), id, user);
            k.None? ==> reply == MatchReply(false, MatchNotFoundMessage, None) && db.matches == old(db.matches)
    ensures var k := PendingOwnMatch(old(db.trips), old(db.matches), id, user);
            k.Some? ==> reply == MatchReply(true, "Match rejected successfully.", None) &&
                        db.matches == old(db.matches)[k.value := Settled(old(db.matches)[k.value], Rejected, now)]
    ensures db.trips == old(db.trips) && db.nextId == old(db.nextId) && db.samples == old(db.samples)
    ensures db.suggestions == old(db.suggestions) && db.hotspots == old(db.hotspots)
  {
    var k := PendingOwnMatch(db.trips, db.matches, id, user);
    if k.None? {
      return MatchReply(false, MatchNotFoundMessage, None);
    }
    Proximity.SaveMatch(db, k.value, Settled(db.matches[k.value], Rejected, now));
    reply := MatchReply(true, "Match rejected successfully.", None);
  }

  // ---------------------------------------------------------------------
  // UpdateLocation

  const Fire: string := "\U{1F525}"
  /** The four characters the hotspot fragment holds as written: the UTF-8 bytes of the fire emoji read as Windows-1252. */
  const GarbledFire: string := "ðŸ”¥"
  const RecordedMessage := "Location recorded successfully."

  /** The reply text, given the glyph the hotspot fragment starts with. */
  function LocationMessageWith(glyph: string, hotspot: bool, stats: Proximity.ProximityStats): string
  {
    RecordedMessage
    + (if hotspot then " " + glyph + " Hotspot detected nearby!" else "")
    + (if |stats.closeMatches| > 0 then " " + NatToString(|stats.closeMatches|) + " match(es) nearby!" else "")
    + (if stats.expiredCount > 0 then " " + NatToString(stats.expiredCount) + " distant match(es) removed." else "")
  }

  function LocationMessageAsWritten(hotspot: bool, stats: Proximity.ProximityStats): string
  {
    LocationMessageWith(GarbledFire, hotspot, stats)
  }

  function LocationMessage(hotspot: bool, stats: Proximity.ProximityStats): string
  {
    LocationMessageWith(Fire, hotspot, stats)
  }

  /** With a hotspot notice, the fragment as written starts with 'ð' where the fire emoji was meant. */
  lemma HotspotFragmentGarbled(stats: Proximity.ProximityStats)
    ensures LocationMessageAsWritten(true, stats)[32] == 'ð'
    ensures LocationMessage(true, stats)[32] == '\U{1F525}'
  {
    assert |RecordedMessage| == 31;
  }

  /**
   * The reply is the bare confirmation exactly when there was no notice, no
   * close match and no expiry; otherwise it is longer and starts with it.
   */
  lemma LocationMessageSpec(hotspot: bool, stats: Proximity.ProximityStats)
    ensures RecordedMessage <= LocationMessage(hotspot, stats)
    ensures LocationMessage(hotspot, stats) == RecordedMessage <==>
              !hotspot && |stats.closeMatches| == 0 && stats.expiredCount == 0
  {
    var r := LocationMessage(hotspot, stats);
    assert r[..|RecordedMessage|] == RecordedMessage;
  }

  /**
   * The services UpdateLocation runs after recording: place suggestions
   * while the user is on an active trip, hotspot detection, then the match
   * distance refresh. None of them touches the trips or the samples.
   */
  method LocationServices(db: TravelDb, store: Accounts.Store, t: InsightsModels.Tables,
                          places: map<InsightsModels.PlaceId, InsightsModels.Place>,
                          user: Email, here: Point, now: int, dist: Metric,
                          fmt: Hotspots.Formatting, gen: Suggestions.Generator)
      returns (notice: Option<TripSuggestion>, stats: Proximity.ProximityStats)
    requires db.Valid()
    modifies db
    ensures db.Valid()
    ensures db.trips == old(db.trips) && db.nextId == old(db.nextId) && db.samples == old(db.samples)
    ensures old(db.suggestions) <= db.suggestions
    ensures notice.Some? ==> notice.value in db.suggestions
    ensures var active := ActiveTrip(old(db.trips), user, Today(now));
            var tips := if active.Some? then Suggestions.Suggest(old(db.suggestions), t, places, user, active.value, here, now, dist, gen)
                        else [];
            db.hotspots == Hotspots.Refreshed(old(db.hotspots), old(db.trips), old(db.samples), t, now, dist) &&
            notice == Hotspots.Notify(old(db.trips), old(db.suggestions) + tips, db.hotspots, store.users, store.profiles,
                                      store.friends, user, here, now, dist, fmt) &&
            db.suggestions == old(db.suggestions) + tips + (if notice.Some? then [notice.value] else [])
    ensures |db.matches| == |old(db.matches)|
    ensures forall i :: 0 <= i < |db.matches| ==>
      db.matches[i] == Proximity.After(Proximity.VisitMatch(db.trips, store.profiles, store.users, old(db.matches)[i],
                                                            user, here, dist, now), old(db.matches)[i])
    ensures stats == Proximity.PassStats(db.trips, store.profiles, store.users, Proximity.NoStats, old(db.matches),
                                         user, here, dist, now)
  {
    var active := ActiveTrip(db.trips, user, Today(now));
    if active.Some? {
      var _ := Suggestions.CheckAndGenerateSuggestions(db, t, places, user, active.value, here, now, dist, gen);
    }
    notice := Hotspots.DetectAndNotify(db, store, t, user, here, now, dist, fmt);
    stats := Proximity.UpdateMatchDistances(db, store.profiles, store.users, user, here, dist, now);
  }

  datatype LocationReply = LocationReply(success: bool, message: string, location: LocationSample)

  const LocationErrorPrefix := "Error recording location: "

  /**
   * The reply's success and text as written, given the hotspot refresh as
   * written and the text the mutation would otherwise build: a raising
   * hotspot save reaches the outer handler, which answers with the error,
   * `detail` standing for the TypeError's text. The sample and the place
   * suggestions were saved before it.
   */
  function LocationOutcomeAsWritten(refreshed: Option<seq<Hotspot>>, message: string, detail: string): (bool, string)
  {
    if refreshed.None? then (false, LocationErrorPrefix + detail) else (true, message)
  }

  /**
   * As written, an update succeeds exactly when the recent samples,
   * this one included, form no crowd; otherwise it answers with the error.
   */
  lemma CrowdFailsLocationUpdate(hs: seq<Hotspot>, trips: seq<Trip>, samples: seq<LocationSample>, t: InsightsModels.Tables,
                                 now: int, dist: Metric, message: string, detail: string)
    ensures var clusters := Hotspots.ClusterLocations(Hotspots.RecentPerUser(trips, samples, now), Hotspots.PlaceCandidates(t), dist);
            var out := LocationOutcomeAsWritten(Hotspots.RefreshedAsWritten(hs, trips, samples, t, now, dist), message, detail);
            (out.0 <==> clusters == []) && (out.0 ==> out.1 == message) && (!out.0 ==> out.1 == LocationErrorPrefix + detail)
  {
    Hotspots.CrowdRaisesAsWritten(hs, trips, samples, t, now, dist);
  }

  /**
   * UpdateLocation: record the sample; when it belongs to a trip, look for
   * place suggestions; then detect hotspots and refresh match distances, and
   * report what was found. The trip a sample is attached to is always active.
   */
  method UpdateLocation(db: TravelDb, store: Accounts.Store, t: InsightsModels.Tables,
                        places: map<InsightsModels.PlaceId, InsightsModels.Place>,
                        user: Email, r: LocationTracker.Reading, now: int, dist: Metric,
                        fmt: Hotspots.Formatting, gen: Suggestions.Generator)
      returns (reply: LocationReply)
    requires db.Valid() && store.Valid()
    modifies db, store
    ensures db.Valid() && store.Valid()
    ensures reply.success
    ensures reply.location == LocationTracker.SampleOf(user, ActiveTrip(old(db.trips), user, Today(now)), r, now)
    ensures reply.location in db.samples
    ensures db.trips == old(db.trips) && db.nextId == old(db.nextId)
    ensures user in old(store.profiles) ==>
      store.profiles == old(store.profiles)[user := LocationTracker.MovedProfile(old(store.profiles)[user], r.position, reply.location.recordedAt)]
    ensures user !in old(store.profiles) ==> store.profiles == old(store.profiles)
    ensures store.users == old(store.users) && store.friends == old(store.friends) && store.requests == old(store.requests)
    ensures store.links == old(store.links) && store.favorites == old(store.favorites)
    ensures |db.matches| == |old(db.matches)|
    ensures forall i :: 0 <= i < |db.matches| ==>
      db.matches[i] == Proximity.After(Proximity.VisitMatch(db.trips, store.profiles, store.users, old(db.matches)[i],
                                                            user, r.position, dist, now), old(db.matches)[i])
    ensures RecordedMessage <= reply.message
    ensures var active := ActiveTrip(old(db.trips), user, Today(now));
            var tips := if active.Some? then Suggestions.Suggest(old(db.suggestions), t, places, user, active.value, r.position,
                                                                 now, dist, gen)
                        else [];
            var hot := Hotspots.Refreshed(old(db.hotspots), old(db.trips), old(db.samples) + [reply.location], t, now, dist);
            var notice := Hotspots.Notify(old(db.trips), old(db.suggestions) + tips, hot, store.users, store.profiles,
                                          store.friends, user, r.position, now, dist, fmt);
            var stats := Proximity.PassStats(db.trips, store.profiles, store.users, Proximity.NoStats, old(db.matches),
                                             user, r.position, dist, now);
            db.samples == old(db.samples) + [reply.location] &&
            db.hotspots == hot &&
            db.suggestions == old(db.suggestions) + tips + (if notice.Some? then [notice.value] else []) &&
            reply.message == LocationMessage(notice.Some?, stats)
  {
    var sample := LocationTracker.RecordLocation(db, store, user, r, now);
    var notice, stats := LocationServices(db, store, t, places, user, r.position, now, dist, fmt, gen);
    LocationMessageSpec(notice.Some?, stats);
    reply := LocationReply(true, LocationMessage(notice.Some?, stats), sample);
  }
}
