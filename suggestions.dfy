// travel/services/suggestion_engine.py: contextual tips generated when a
// traveller comes near a catalogued landmark, hidden gem, tourist trap or
// activity location. The text generator is a parameter.
module Suggestions {
  import opened Common
  import opened Text
  import opened TravelModels
  import InsightsModels

  /** The proximity thresholds, in metres. */
  const FamousPlaceRadius: real := 100.0
  const HiddenGemRadius: real := 50.0
  const TouristTrapRadius: real := 200.0
  const ActivityLocationRadius: real := 150.0
  /** _already_suggested_here: a suggestion closer than this, in metres, within the window, blocks new ones. */
  const RepeatRadius: real := 50.0
  const RepeatWindow: int := 2 * Hour

  /** The "type" of a nearby place. */
  datatype PlaceKind = FamousPlaceKind | HiddenGemKind | TouristTrapKind | ActivityKind

  function Radius(k: PlaceKind): real
  {
    match k
    case FamousPlaceKind => FamousPlaceRadius
    case HiddenGemKind => HiddenGemRadius
    case TouristTrapKind => TouristTrapRadius
    case ActivityKind => ActivityLocationRadius
  }

  /** What the place's dictionary carries besides its name: a quote, a description, or the activity's columns. */
  datatype Detail = Quote(quote: string) | Description(description: string) | Activity(activityType: string, location: string, time: string)

  /** A catalogue row the scan looks at, with its nullable coordinates. */
  datatype Site = Site(kind: PlaceKind, name: string, detail: Detail, latitude: Option<real>, longitude: Option<real>,
                       id: InsightsModels.RowId, place: InsightsModels.PlaceId)

  /** One entry of _find_nearby_places; the distance is in metres. */
  datatype NearbyPlace = NearbyPlace(kind: PlaceKind, name: string, detail: Detail, distance: real,
                                     id: InsightsModels.RowId, city: string)

  function LandmarkSites(rows: seq<InsightsModels.Row<InsightsModels.Landmark>>): seq<Site>
  {
    seq(|rows|, i requires 0 <= i < |rows| =>
      var r := rows[i];
      Site(FamousPlaceKind, r.data.name, Quote(r.data.quote), Some(r.data.latitude), Some(r.data.longitude), r.id, r.place))
  }

  function GemSites(rows: seq<InsightsModels.Row<InsightsModels.HiddenGem>>): seq<Site>
  {
    seq(|rows|, i requires 0 <= i < |rows| =>
      var r := rows[i];
      Site(HiddenGemKind, r.data.name, Description(r.data.description), r.data.latitude, r.data.longitude, r.id, r.place))
  }

  function TrapSites(rows: seq<InsightsModels.Row<InsightsModels.TouristTrap>>): seq<Site>
  {
    seq(|rows|, i requires 0 <= i < |rows| =>
      var r := rows[i];
      Site(TouristTrapKind, r.data.name, Description(r.data.reason), Some(r.data.latitude), Some(r.data.longitude), r.id, r.place))
  }

  /** `activity.time or "Anytime"` */
  function BestTime(time: Option<string>): string
  {
    if time.Some? && time.value != "" then time.value else "Anytime"
  }

  /** An activity location is named "<activity type> at <location>". */
  function ActivitySites(rows: seq<InsightsModels.Row<InsightsModels.ThingToDo>>): seq<Site>
  {
    seq(|rows|, i requires 0 <= i < |rows| =>
      var r := rows[i];
      Site(ActivityKind, r.data.activityType + " at " + r.data.location,
           Activity(r.data.activityType, r.data.location, BestTime(r.data.time)),
           r.data.latitude, r.data.longitude, r.id, r.place))
  }

  /**
   * The rows _find_nearby_places visits, in its order: most famous places,
   * other famous places (with their quote; as written the scan reads a
   * `reason` they do not have, see FindNearbyPlacesAsWritten), hidden gems,
   * tourist traps, things to do.
   */
  function Sites(t: InsightsModels.Tables): seq<Site>
  {
    LandmarkSites(t.mostFamous) + LandmarkSites(t.famous) + GemSites(t.gems) + TrapSites(t.traps) + ActivitySites(t.thingsToDo)
  }

  function CityOf(places: map<InsightsModels.PlaceId, InsightsModels.Place>, p: InsightsModels.PlaceId): string
  {
    if p in places then places[p].city else ""
  }

  /** A site with both coordinates within its kind's radius (inclusive) of the traveller. */
  predicate Near(s: Site, here: Point, dist: Metric)
  {
    s.latitude.Some? && s.longitude.Some? &&
    Metres(dist, here, Point(s.latitude.value, s.longitude.value)) <= Radius(s.kind)
  }

  function Entry(s: Site, places: map<InsightsModels.PlaceId, InsightsModels.Place>, here: Point, dist: Metric): NearbyPlace
    requires s.latitude.Some? && s.longitude.Some?
  {
    NearbyPlace(s.kind, s.name, s.detail, Metres(dist, here, Point(s.latitude.value, s.longitude.value)), s.id, CityOf(places, s.place))
  }

  /** _find_nearby_places over the visited rows, skipping rows without both coordinates. */
  function NearbyPlaces(sites: seq<Site>, places: map<InsightsModels.PlaceId, InsightsModels.Place>, here: Point, dist: Metric): seq<NearbyPlace>
  {
    if sites == [] then []
    else (if Near(sites[0], here, dist) then [Entry(sites[0], places, here, dist)] else [])
         + NearbyPlaces(sites[1..], places, here, dist)
  }

  /**
   * Every entry comes from a visited row within its kind's radius, keeps
   * that row's kind, name and id, and measures its distance; there are no
   * entries exactly when no row is near.
   */
  lemma {:induction false} NearbyPlacesSpec(sites: seq<Site>, places: map<InsightsModels.PlaceId, InsightsModels.Place>,
                                            here: Point, dist: Metric)
    ensures var r := NearbyPlaces(sites, places, here, dist);
            |r| <= |sites| &&
            (r == [] <==> forall s :: s in sites ==> !Near(s, here, dist)) &&
            (forall e :: e in r ==>
               (e.distance <= Radius(e.kind) &&
                exists s :: s in sites && Near(s, here, dist) && e.kind == s.kind && e.name == s.name && e.id == s.id &&
                            e.city == CityOf(places, s.place) && e.distance == Metres(dist, here, Point(s.latitude.value, s.longitude.value))))
  {
    if sites != [] {
      NearbyPlacesSpec(sites[1..], places, here, dist);
      assert forall s :: s in sites <==> s == sites[0] || s in sites[1..];
    }
  }

  /** _find_nearby_places: one pass over the catalogue collecting the rows near the traveller. */
  method FindNearbyPlaces(t: InsightsModels.Tables, places: map<InsightsModels.PlaceId, InsightsModels.Place>, here: Point, dist: Metric)
      returns (nearby: seq<NearbyPlace>)
    ensures nearby == NearbyPlaces(Sites(t), places, here, dist)
  {
    nearby := ScanSites(Sites(t), places, here, dist);
  }

  /** The five loops of _find_nearby_places, run over the visited rows in turn. */
  method ScanSites(sites: seq<Site>, places: map<InsightsModels.PlaceId, InsightsModels.Place>, here: Point, dist: Metric)
      returns (nearby: seq<NearbyPlace>)
    ensures nearby == NearbyPlaces(sites, places, here, dist)
  {
    nearby := [];
    var i := 0;
    while i < |sites|
      invariant 0 <= i <= |sites|
      invariant nearby + NearbyPlaces(sites[i..], places, here, dist) == NearbyPlaces(sites, places, here, dist)
    {
      assert sites[i..][1..] == sites[i + 1..];
      var s := sites[i];
      if s.latitude.Some? && s.longitude.Some? {
        var d := Metres(dist, here, Point(s.latitude.value, s.longitude.value));
        if d <= Radius(s.kind) {
          nearby := nearby + [NearbyPlace(s.kind, s.name, s.detail, d, s.id, CityOf(places, s.place))];
        }
      }
      i := i + 1;
    }
  }

  /**
   * What the scan does as written: the querysets exclude only rows where
   * both coordinates are null, so a row with exactly one of them reaches
   * the distance formula with a null and the scan fails.
   */
  predicate HalfLocated(s: Site)
  {
    s.latitude.Some? != s.longitude.Some?
  }

  function NearbyPlacesAsWritten(sites: seq<Site>, places: map<InsightsModels.PlaceId, InsightsModels.Place>, here: Point, dist: Metric)
    : Option<seq<NearbyPlace>>
  {
    if sites == [] then Some([])
    else if HalfLocated(sites[0]) then None
    else
      var rest := NearbyPlacesAsWritten(sites[1..], places, here, dist);
      if rest.None? then None
      else Some((if Near(sites[0], here, dist) then [Entry(sites[0], places, here, dist)] else []) + rest.value)
  }

  /** Without half-located rows the scan as written and the model agree. */
  lemma {:induction false} NearbyPlacesAgree(sites: seq<Site>, places: map<InsightsModels.PlaceId, InsightsModels.Place>,
                                             here: Point, dist: Metric)
    requires forall s :: s in sites ==> !HalfLocated(s)
    ensures NearbyPlacesAsWritten(sites, places, here, dist) == Some(NearbyPlaces(sites, places, here, dist))
  {
    if sites != [] {
      assert forall s :: s in sites[1..] ==> s in sites;
      NearbyPlacesAgree(sites[1..], places, here, dist);
    }
  }

  /** A hidden gem with a latitude but no longitude fails the scan as written; the model skips it. */
  lemma HalfLocatedGemFails(places: map<InsightsModels.PlaceId, InsightsModels.Place>, here: Point, dist: Metric)
    ensures var t := InsightsModels.NoTables.(gems := [InsightsModels.Row(1, 0, InsightsModels.HiddenGem("Secret garden", "Quiet", Some(48.85), None))]);
            NearbyPlacesAsWritten(Sites(t), places, here, dist).None? &&
            NearbyPlaces(Sites(t), places, here, dist) == []
  {
    var t := InsightsModels.NoTables.(gems := [InsightsModels.Row(1, 0, InsightsModels.HiddenGem("Secret garden", "Quiet", Some(48.85), None))]);
    var s := Site(HiddenGemKind, "Secret garden", Description("Quiet"), Some(48.85), None, 1, 0);
    assert Sites(t) == [s];
    assert [s][1..] == [];
  }

  /** The entries of two runs of rows are the entries of each, in order. */
  lemma {:induction false} NearbyPlacesAppend(a: seq<Site>, b: seq<Site>, places: map<InsightsModels.PlaceId, InsightsModels.Place>,
                                              here: Point, dist: Metric)
    ensures NearbyPlaces(a + b, places, here, dist) == NearbyPlaces(a, places, here, dist) + NearbyPlaces(b, places, here, dist)
  {
    if a == [] {
      assert a + b == b;
    } else {
      assert (a + b)[0] == a[0] && (a + b)[1..] == a[1..] + b;
      NearbyPlacesAppend(a[1..], b, places, here, dist);
    }
  }

  /**
   * The whole scan as written: the second loop reads `place.reason`, which
   * FamousPlace does not define, so the first famous place within 100 m
   * raises; the later loops fail on a half-located row as above.
   */
  function FindNearbyPlacesAsWritten(t: InsightsModels.Tables, places: map<InsightsModels.PlaceId, InsightsModels.Place>,
                                     here: Point, dist: Metric): Option<seq<NearbyPlace>>
  {
    if NearbyPlaces(LandmarkSites(t.famous), places, here, dist) != [] then None
    else
      var rest := NearbyPlacesAsWritten(GemSites(t.gems) + TrapSites(t.traps) + ActivitySites(t.thingsToDo), places, here, dist);
      if rest.None? then None else Some(NearbyPlaces(LandmarkSites(t.mostFamous), places, here, dist) + rest.value)
  }

  /**
   * With no famous place near and no half-located row the scan as written
   * returns what the model finds; a famous place near makes it fail, where
   * the model reports it with its quote.
   */
  lemma FindNearbyPlacesAsWrittenAgrees(t: InsightsModels.Tables, places: map<InsightsModels.PlaceId, InsightsModels.Place>,
                                        here: Point, dist: Metric)
    ensures NearbyPlaces(LandmarkSites(t.famous), places, here, dist) != [] ==>
              FindNearbyPlacesAsWritten(t, places, here, dist).None? && NearbyPlaces(Sites(t), places, here, dist) != []
    ensures NearbyPlaces(LandmarkSites(t.famous), places, here, dist) == [] &&
            (forall s :: s in GemSites(t.gems) + TrapSites(t.traps) + ActivitySites(t.thingsToDo) ==> !HalfLocated(s)) ==>
              FindNearbyPlacesAsWritten(t, places, here, dist) == Some(NearbyPlaces(Sites(t), places, here, dist))
  {
    var later := GemSites(t.gems) + TrapSites(t.traps) + ActivitySites(t.thingsToDo);
    var all, m, f, l := NearbySplit(t, places, here, dist);
    if f == [] && forall s :: s in later ==> !HalfLocated(s) {
      NearbyPlacesAgree(later, places, here, dist);
      assert f + l == l;
    }
  }

  /** The entries of all rows split into those of the most famous places, the famous places and the later rows. */
  lemma NearbySplit(t: InsightsModels.Tables, places: map<InsightsModels.PlaceId, InsightsModels.Place>, here: Point, dist: Metric)
      returns (all: seq<NearbyPlace>, m: seq<NearbyPlace>, f: seq<NearbyPlace>, l: seq<NearbyPlace>)
    ensures all == NearbyPlaces(Sites(t), places, here, dist) && all == m + (f + l)
    ensures m == NearbyPlaces(LandmarkSites(t.mostFamous), places, here, dist)
    ensures f == NearbyPlaces(LandmarkSites(t.famous), places, here, dist)
    ensures l == NearbyPlaces(GemSites(t.gems) + TrapSites(t.traps) + ActivitySites(t.thingsToDo), places, here, dist)
  {
    var most, famous := LandmarkSites(t.mostFamous), LandmarkSites(t.famous);
    var later := GemSites(t.gems) + TrapSites(t.traps) + ActivitySites(t.thingsToDo);
    assert Sites(t) == most + (famous + later);
    NearbyPlacesAppend(most, famous + later, places, here, dist);
    NearbyPlacesAppend(famous, later, places, here, dist);
    all := NearbyPlaces(Sites(t), places, here, dist);
    m, f, l := NearbyPlaces(most, places, here, dist), NearbyPlaces(famous, places, here, dist), NearbyPlaces(later, places, here, dist);
  }

  /** A famous place at the traveller's position: the scan as written raises, the model suggests it with its quote. */
  lemma FamousPlaceNearbyFails(places: map<InsightsModels.PlaceId, InsightsModels.Place>, here: Point, dist: Metric)
    requires Metres(dist, here, here) <= FamousPlaceRadius
    ensures var t := InsightsModels.NoTables.(famous := [InsightsModels.Row(1, 0, InsightsModels.Landmark("Fort", "Old walls", here.lat, here.lng, ""))]);
            FindNearbyPlacesAsWritten(t, places, here, dist).None? &&
            NearbyPlaces(Sites(t), places, here, dist) == [NearbyPlace(FamousPlaceKind, "Fort", Quote("Old walls"), Metres(dist, here, here), 1, CityOf(places, 0))]
  {
    var t := InsightsModels.NoTables.(famous := [InsightsModels.Row(1, 0, InsightsModels.Landmark("Fort", "Old walls", here.lat, here.lng, ""))]);
    var s := Site(FamousPlaceKind, "Fort", Quote("Old walls"), Some(here.lat), Some(here.lng), 1, 0);
    assert Point(here.lat, here.lng) == here;
    assert LandmarkSites(t.famous) == [s];
    assert Sites(t) == [s];
    assert [s][1..] == [];
  }

  // ---------------------------------------------------------------------
  // Repeats

  /** A suggestion of the user's trip made in the last two hours closer than the repeat radius. */
  predicate RecentNear(s: TripSuggestion, user: Email, trip: TripId, here: Point, now: int, dist: Metric)
  {
    s.user == user && s.trip == trip && s.createdAt >= now - RepeatWindow && Metres(dist, s.position, here) < RepeatRadius
  }

  predicate SuggestedHere(suggestions: seq<TripSuggestion>, user: Email, trip: TripId, here: Point, now: int, dist: Metric)
  {
    exists s :: s in suggestions && RecentNear(s, user, trip, here, now, dist)
  }

  /** _already_suggested_here: a scan of the recent suggestions that stops at the first one close by. */
  method AlreadySuggestedHere(suggestions: seq<TripSuggestion>, user: Email, trip: TripId, here: Point, now: int, dist: Metric)
      returns (found: bool)
    ensures found <==> SuggestedHere(suggestions, user, trip, here, now, dist)
  {
    var i := 0;
    while i < |suggestions|
      invariant 0 <= i <= |suggestions|
      invariant forall j :: 0 <= j < i ==> !RecentNear(suggestions[j], user, trip, here, now, dist)
    {
      var s := suggestions[i];
      if s.user == user && s.trip == trip && s.createdAt >= now - RepeatWindow {
        if Metres(dist, s.position, here) < RepeatRadius {
          assert s in suggestions;
          return true;
        }
      }
      i := i + 1;
    }
    return false;
  }

  // ---------------------------------------------------------------------
  // Generation

  /** _get_time_of_day */
  function TimeOfDay(hour: int): (r: string)
    ensures r == "Morning" <==> 5 <= hour < 12
    ensures r == "Afternoon" <==> 12 <= hour < 17
    ensures r == "Evening" <==> 17 <= hour < 21
    ensures r == "Night" <==> hour < 5 || hour >= 21
  {
    if 5 <= hour < 12 then "Morning"
    else if 12 <= hour < 17 then "Afternoon"
    else if 17 <= hour < 21 then "Evening"
    else "Night"
  }

  /** The hour of the day of a timestamp. */
  function HourOf(now: int): (h: int)
    ensures 0 <= h < 24
  {
    (now % Day) / Hour
  }

  /** _determine_type: each kind of place gives its own suggestion type, never activity_hotspot. */
  function DetermineType(k: PlaceKind): (r: SuggestionType)
    ensures r != ActivityHotspot
  {
    match k
    case FamousPlaceKind => Cultural
    case HiddenGemKind => HiddenGemTip
    case TouristTrapKind => Warning
    case ActivityKind => ActivityTip
  }

  /** Distinct kinds of place give distinct suggestion types. */
  lemma DetermineTypeInjective(k1: PlaceKind, k2: PlaceKind)
    requires DetermineType(k1) == DetermineType(k2)
    ensures k1 == k2
  {
  }

  /** What the prompt is built from: the place, the time of day and the trip's interests. */
  datatype Prompt = Prompt(place: NearbyPlace, timeOfDay: string, interests: seq<string>)

  /** The text generator; None stands for a failed call, which _generate_suggestion swallows. */
  type Generator = Prompt -> Option<string>

  function PromptFor(p: NearbyPlace, trip: Trip, now: int): Prompt
  {
    Prompt(p, TimeOfDay(HourOf(now)), trip.interests)
  }

  /** The suggestion stored for a place: at the traveller's position, titled with the place's name. */
  function PlaceSuggestion(user: Email, trip: Trip, p: NearbyPlace, here: Point, text: string, now: int): TripSuggestion
  {
    TripSuggestion(user, trip.id, DetermineType(p.kind), Strip(text), p.name, here, p.city, Some(p.id), None, [], false, now)
  }

  /** The loop of check_and_generate_suggestions over the nearby places. */
  function Generated(nearby: seq<NearbyPlace>, user: Email, trip: Trip, here: Point, now: int, gen: Generator): seq<TripSuggestion>
  {
    if nearby == [] then []
    else
      var out := gen(PromptFor(nearby[0], trip, now));
      (if out.Some? then [PlaceSuggestion(user, trip, nearby[0], here, out.value, now)] else [])
      + Generated(nearby[1..], user, trip, here, now, gen)
  }

  /**
   * At most one suggestion per nearby place, each for that place and made
   * here and now; exactly one per place when the generator never fails.
   */
  lemma {:induction false} GeneratedSpec(nearby: seq<NearbyPlace>, user: Email, trip: Trip, here: Point, now: int, gen: Generator)
    ensures var r := Generated(nearby, user, trip, here, now, gen);
            |r| <= |nearby| &&
            ((forall p :: p in nearby ==> gen(PromptFor(p, trip, now)).Some?) ==> |r| == |nearby|) &&
            (forall s :: s in r ==> s.user == user && s.trip == trip.id && s.position == here && s.createdAt == now &&
                                    !s.isRead && s.kind != ActivityHotspot &&
                                    exists p :: p in nearby && s.title == p.name && s.relatedPlaceId == Some(p.id) &&
                                                s.kind == DetermineType(p.kind) && s.locationName == p.city)
  {
    if nearby != [] {
      GeneratedSpec(nearby[1..], user, trip, here, now, gen);
      assert forall p :: p in nearby <==> p == nearby[0] || p in nearby[1..];
    }
  }

  /** check_and_generate_suggestions: nothing when a suggestion was made close by lately, else one per generated tip. */
  function Suggest(suggestions: seq<TripSuggestion>, t: InsightsModels.Tables,
                   places: map<InsightsModels.PlaceId, InsightsModels.Place>,
                   user: Email, trip: Trip, here: Point, now: int, dist: Metric, gen: Generator): seq<TripSuggestion>
  {
    if SuggestedHere(suggestions, user, trip.id, here, now, dist) then []
    else Generated(NearbyPlaces(Sites(t), places, here, dist), user, trip, here, now, gen)
  }

  /**
   * Once tips were made at a spot, asking again there within two hours
   * yields nothing.
   */
  lemma SuggestSilencesRepeat(suggestions: seq<TripSuggestion>, t: InsightsModels.Tables,
                              places: map<InsightsModels.PlaceId, InsightsModels.Place>,
                              user: Email, trip: Trip, here: Point, now: int, later: int, dist: Metric, gen: Generator)
    requires IsDistance(dist)
    requires Suggest(suggestions, t, places, user, trip, here, now, dist, gen) != []
    requires now <= later <= now + RepeatWindow
    ensures var made := Suggest(suggestions, t, places, user, trip, here, now, dist, gen);
            Suggest(suggestions + made, t, places, user, trip, here, later, dist, gen) == []
  {
    var made := Suggest(suggestions, t, places, user, trip, here, now, dist, gen);
    GeneratedSpec(NearbyPlaces(Sites(t), places, here, dist), user, trip, here, now, gen);
    var s := made[0];
    assert s in made;
    assert dist(here, here) == 0.0;
    assert RecentNear(s, user, trip.id, here, later, dist);
    assert s in suggestions + made;
  }

  /** check_and_generate_suggestions, storing each generated suggestion. */
  method CheckAndGenerateSuggestions(db: TravelDb, t: InsightsModels.Tables,
                                     places: map<InsightsModels.PlaceId, InsightsModels.Place>,
                                     user: Email, trip: Trip, here: Point, now: int, dist: Metric, gen: Generator)
      returns (created: seq<TripSuggestion>)
    requires db.Valid()
    modifies db
    ensures db.Valid()
    ensures created == Suggest(old(db.suggestions), t, places, user, trip, here, now, dist, gen)
    ensures db.suggestions == old(db.suggestions) + created
    ensures db.trips == old(db.trips) && db.matches == old(db.matches) && db.nextId == old(db.nextId)
    ensures db.samples == old(db.samples) && db.hotspots == old(db.hotspots)
  {
    var repeat := AlreadySuggestedHere(db.suggestions, user, trip.id, here, now, dist);
    if repeat {
      return [];
    }
    var nearby := FindNearbyPlaces(t, places, here, dist);
    created := GenerateTips(nearby, user, trip, here, now, gen);
    db.suggestions := db.suggestions + created;
  }

  /** The loop of check_and_generate_suggestions: one tip per nearby place whose generation succeeded. */
  method GenerateTips(nearby: seq<NearbyPlace>, user: Email, trip: Trip, here: Point, now: int, gen: Generator)
      returns (created: seq<TripSuggestion>)
    ensures created == Generated(nearby, user, trip, here, now, gen)
  {
    created := [];
    var i := 0;
    while i < |nearby|
      invariant 0 <= i <= |nearby|
      invariant created + Generated(nearby[i..], user, trip, here, now, gen) == Generated(nearby, user, trip, here, now, gen)
    {
      assert nearby[i..][1..] == nearby[i + 1..];
      var out := gen(PromptFor(nearby[i], trip, now));
      if out.Some? {
        created := created + [PlaceSuggestion(user, trip, nearby[i], here, out.value, now)];
      }
      i := i + 1;
    }
  }
}
