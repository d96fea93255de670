// insights/services/gemini.py: the place name the generation prompt asks
// about, and the normaliser that turns the model's reply into the fixed
// structure the cache manager saves. The API call itself, the prompt text
// around the place name, and JSON decoding are not part of this model: the
// decoder is a parameter, and so are the two Python conversions (str() of a
// non-string value, float() of a string) whose results the source only
// passes along.
module Gemini {
  import opened Common
  import opened Text
  import opened Seqs
  import opened InsightsModels

  // ---------------------------------------------------------------------
  // build_prompt
  // ---------------------------------------------------------------------

  /**
   * The prompt names the place as "city, state, country", or as
   * "city, country" with a blank state (InsightsModels.PlaceName). With no
   * comma in the parts, a blank state leaves exactly one separator: the
   * only comma is the one right after the city.
   */
  lemma BlankStateLeftOut(city: string, country: string)
    requires NoComma(city) && NoComma(country)
    ensures IndexOf(PlaceName(city, "", country), ',') == |city|
    ensures LastIndexOf(PlaceName(city, "", country), ',') == |city|
  {
    FirstComma(city, country);
    LastComma(city, country);
  }

  /** With a state, it sits between two separators: the first comma ends the city, the last starts the country. */
  lemma StateNamedBetween(city: string, state: string, country: string)
    requires NoComma(city) && NoComma(state) && NoComma(country) && state != ""
    ensures var n := PlaceName(city, state, country);
      IndexOf(n, ',') == |city| && LastIndexOf(n, ',') == |city| + 2 + |state| &&
      n[|city| + 2..|city| + 2 + |state|] == state
  {
    FirstComma(city, state + ", " + country);
    LastComma(city + ", " + state, country);
    assert city + ", " + state + ", " + country == city + ", " + (state + ", " + country);
  }

  // ---------------------------------------------------------------------
  // Decoded replies
  // ---------------------------------------------------------------------

  /**
   * A decoded JSON value. An object holds the items of the dict json.loads
   * builds, in its order, each key once.
   */
  datatype Json =
    | JNull
    | JBool(b: bool)
    | JNumber(n: real)
    | JString(s: string)
    | JArray(items: seq<Json>)
    | JObject(members: seq<(string, Json)>)

  /** json.loads: the decoded value, or None where it raises JSONDecodeError. */
  type Decoder = string -> Option<Json>
  /** str() of a value that is not a string. */
  type Repr = Json -> string
  /** float() of a string: its value, or None where it raises ValueError. */
  type FloatParser = string -> Option<real>

  /** Python truthiness of a decoded value. */
  predicate IsTruthy(j: Json)
  {
    match j
    case JNull => false
    case JBool(b) => b
    case JNumber(n) => n != 0.0
    case JString(s) => s != ""
    case JArray(items) => items != []
    case JObject(members) => members != []
  }

  predicate IsObject(j: Json)
  {
    j.JObject?
  }

  /** The value bound to key, if any. */
  function Lookup(members: seq<(string, Json)>, key: string): (v: Option<Json>)
    ensures v.Some? ==> exists i :: 0 <= i < |members| && members[i] == (key, v.value)
    ensures v.None? ==> forall i :: 0 <= i < |members| ==> members[i].0 != key
  {
    if members == [] then None
    else if members[0].0 == key then Some(members[0].1)
    else
      var v := Lookup(members[1..], key);
      assert v.Some? ==> exists i :: 0 <= i < |members[1..]| && members[1..][i] == (key, v.value);
      v
  }

  /** dict.get(key, default) */
  function GetOr(members: seq<(string, Json)>, key: string, default: Json): Json
  {
    match Lookup(members, key)
    case Some(v) => v
    case None => default
  }

  const NoText := JString("")
  const Zero := JNumber(0.0)
  const Empty := JObject([])

  /** str(v) */
  function Str(v: Json, repr: Repr): string
  {
    if v.JString? then v.s else repr(v)
  }

  /**
   * float(v or 0.0): a falsy value reads as 0.0; True as 1.0; a string as
   * float() parses it; a list or an object raises TypeError (None here).
   */
  function ToFloat(v: Json, parse: FloatParser): (x: Option<real>)
    ensures !IsTruthy(v) ==> x == Some(0.0)
    ensures v.JNumber? ==> x == Some(v.n)
  {
    if !IsTruthy(v) then Some(0.0)
    else match v
      case JNumber(n) => Some(n)
      case JBool(_) => Some(1.0)
      case JString(s) => parse(s)
      case _ => None
  }

  /**
   * Iterating a value with `for`: a list yields its items; a string yields
   * characters and a dict its keys, none of them a dict, so they contribute
   * nothing the loops keep; null, a boolean or a number raises TypeError.
   */
  function Entries(v: Json): Option<seq<Json>>
  {
    match v
    case JArray(items) => Some(items)
    case JString(_) => Some([])
    case JObject(_) => Some([])
    case _ => None
  }

  // ---------------------------------------------------------------------
  // The normalised structure
  // ---------------------------------------------------------------------

  datatype Coordinates = Coordinates(lat: real, lng: real)

  /** A famous place: its name and quote as given, its coordinates as floats. */
  datatype Spot = Spot(name: Json, quote: Json, coordinates: Coordinates)
  /** One location of a things-to-do activity. */
  datatype Stop = Stop(location: Json, time: Json, coordinates: Coordinates)
  /** One day activity; day_time is the key the saver also reads. */
  datatype Moment = Moment(activity: Json, dayTime: Json, time: Json)
  datatype Seasons = Seasons(spring: string, summer: string, autumn: string, winter: string)

  /** The fixed key set of the normalised reply. */
  datatype PlaceData = PlaceData(
    mainQuote: string,
    subQuote: string,
    description: string,
    mostFamous: Spot,
    famousPlaces: seq<Spot>,
    famousActivities: seq<(string, Json)>,
    thingsToDo: seq<(string, seq<Stop>)>,
    foodSpecialties: seq<Json>,
    touristTraps: seq<Json>,
    seasons: Seasons,
    dayActivities: seq<Moment>,
    hiddenGems: seq<Json>,
    visualTheme: seq<(string, Json)>)

  const DefaultSpot := Spot(NoText, NoText, Coordinates(0.0, 0.0))

  /** The place_data template every reply starts from. */
  const Defaults := PlaceData("", "", "", DefaultSpot, [], [], [], [], [], Seasons("", "", "", ""), [], [], [])

  /** The reply is not JSON (None), the normaliser raised, or it produced the structure. */
  datatype Outcome = NotJson | Raised | Parsed(data: PlaceData)

  /**
   * coords = holder.get("coordinates", {}), then float(coords.get(k, 0.0) or
   * 0.0) for lat and lng. Coordinates that are not an object raise
   * AttributeError.
   */
  function CoordinatesIn(holder: seq<(string, Json)>, parse: FloatParser): (c: Option<Coordinates>)
    ensures Lookup(holder, "coordinates").None? ==> c == Some(Coordinates(0.0, 0.0))
  {
    var coords := GetOr(holder, "coordinates", Empty);
    if !coords.JObject? then None
    else
      var lat := ToFloat(GetOr(coords.members, "lat", Zero), parse);
      var lng := ToFloat(GetOr(coords.members, "lng", Zero), parse);
      if lat.None? || lng.None? then None else Some(Coordinates(lat.value, lng.value))
  }

  function SpotIn(item: seq<(string, Json)>, parse: FloatParser): Option<Spot>
  {
    var c := CoordinatesIn(item, parse);
    if c.None? then None else Some(Spot(GetOr(item, "name", NoText), GetOr(item, "quote", NoText), c.value))
  }

  function StopIn(item: seq<(string, Json)>, parse: FloatParser): Option<Stop>
  {
    var c := CoordinatesIn(item, parse);
    if c.None? then None else Some(Stop(GetOr(item, "location", NoText), GetOr(item, "time", NoText), c.value))
  }

  function MomentIn(item: seq<(string, Json)>): Moment
  {
    Moment(GetOr(item, "activity", NoText), GetOr(item, "day_time", NoText), GetOr(item, "time", NoText))
  }

  function SpotRebuild(parse: FloatParser): seq<(string, Json)> -> Option<Spot>
  {
    (m: seq<(string, Json)>) => SpotIn(m, parse)
  }

  function StopRebuild(parse: FloatParser): seq<(string, Json)> -> Option<Stop>
  {
    (m: seq<(string, Json)>) => StopIn(m, parse)
  }

  function MomentRebuild(): seq<(string, Json)> -> Option<Moment>
  {
    (m: seq<(string, Json)>) => Some(MomentIn(m))
  }

  /**
   * The shared shape of the three rebuilding loops: entries that are not
   * objects are skipped, each object is rebuilt, and a rebuild that raises
   * ends the whole normalisation (None).
   */
  function KeepObjects<T>(entries: seq<Json>, rebuild: seq<(string, Json)> -> Option<T>): Option<seq<T>>
  {
    if entries == [] then Some([])
    else
      var kept := KeepObjects(entries[..|entries| - 1], rebuild);
      var last := entries[|entries| - 1];
      if kept.None? then None
      else if !last.JObject? then kept
      else
        var r := rebuild(last.members);
        if r.None? then None else Some(kept.value + [r.value])
  }

  /**
   * The rebuilding loops keep the object entries, in order, each rebuilt:
   * they succeed exactly when every object entry rebuilds, and then the
   * i-th result is the i-th object entry rebuilt.
   */
  lemma {:induction false} KeepObjectsSpec<T>(entries: seq<Json>, rebuild: seq<(string, Json)> -> Option<T>)
    ensures var objects := Filter(entries, IsObject);
      (KeepObjects(entries, rebuild).Some? <==> forall i :: 0 <= i < |objects| ==> rebuild(objects[i].members).Some?) &&
      (KeepObjects(entries, rebuild).Some? ==>
        |KeepObjects(entries, rebuild).value| == |objects| &&
        forall i :: 0 <= i < |objects| ==> KeepObjects(entries, rebuild).value[i] == rebuild(objects[i].members).value)
  {
    if entries != [] {
      var init, last := entries[..|entries| - 1], entries[|entries| - 1];
      assert entries == init + [last];
      KeepObjectsSpec(init, rebuild);
      FilterAppend(init, [last], IsObject);
      var objects := Filter(entries, IsObject);
      var before := Filter(init, IsObject);
      assert Filter([last], IsObject) == if IsObject(last) then [last] else [];
      assert objects == before + Filter([last], IsObject);
      assert forall i :: 0 <= i < |before| ==> objects[i] == before[i];
    }
  }

  /** The things-to-do locations of one activity: rebuilt object entries of a list, nothing otherwise. */
  function StopsOf(locations: Json, parse: FloatParser): Option<seq<Stop>>
  {
    if locations.JArray? then KeepObjects(locations.items, StopRebuild(parse))
    else Some([])
  }

  /** ttd_clean: every activity of the things-to-do object with its cleaned locations. */
  function ThingsToDo(activities: seq<(string, Json)>, parse: FloatParser): (r: Option<seq<(string, seq<Stop>)>>)
    ensures r.Some? ==> |r.value| == |activities|
    ensures r.Some? ==> forall i :: 0 <= i < |activities| ==> r.value[i].0 == activities[i].0
  {
    if activities == [] then Some([])
    else
      var init, last := activities[..|activities| - 1], activities[|activities| - 1];
      var done := ThingsToDo(init, parse);
      var stops := StopsOf(last.1, parse);
      if done.None? || stops.None? then None else Some(done.value + [(last.0, stops.value)])
  }

  /** The value of a key when it is a list, else [] (food specialties, tourist traps, hidden gems). */
  function ListAt(data: seq<(string, Json)>, key: string): (r: seq<Json>)
    ensures (Lookup(data, key).Some? && Lookup(data, key).value.JArray?) ==> r == Lookup(data, key).value.items
    ensures !(Lookup(data, key).Some? && Lookup(data, key).value.JArray?) ==> r == []
  {
    var v := Lookup(data, key);
    if v.Some? && v.value.JArray? then v.value.items else []
  }

  /** The members of famous_activities when it is an object, else none. */
  function ObjectAt(data: seq<(string, Json)>, key: string): seq<(string, Json)>
  {
    var v := Lookup(data, key);
    if v.Some? && v.value.JObject? then v.value.members else []
  }

  /** The four seasons, each str() of its entry or "" when missing; seasonal data that is not an object raises. */
  function SeasonsIn(data: seq<(string, Json)>, repr: Repr): Option<Seasons>
  {
    var sb := GetOr(data, "seasonal_behavior", Empty);
    if !sb.JObject? then None
    else Some(Seasons(Str(GetOr(sb.members, "spring", NoText), repr), Str(GetOr(sb.members, "summer", NoText), repr),
                      Str(GetOr(sb.members, "autumn", NoText), repr), Str(GetOr(sb.members, "winter", NoText), repr)))
  }

  /** The most famous place: rebuilt when it is an object, the template's otherwise. */
  function MostFamousIn(data: seq<(string, Json)>, parse: FloatParser): Option<Spot>
  {
    var mfp := GetOr(data, "most_famous_place", Empty);
    if mfp.JObject? then SpotIn(mfp.members, parse) else Some(DefaultSpot)
  }

  /** The famous_places loop over its entries ([] when the key is missing). */
  function FamousPlacesIn(data: seq<(string, Json)>, parse: FloatParser): Option<seq<Spot>>
  {
    var famous := Entries(GetOr(data, "famous_places", JArray([])));
    if famous.Some? then KeepObjects(famous.value, SpotRebuild(parse)) else None
  }

  /** The day_activities loop over its entries ([] when the key is missing). */
  function DayActivitiesIn(data: seq<(string, Json)>): Option<seq<Moment>>
  {
    var days := Entries(GetOr(data, "day_activities", JArray([])));
    if days.Some? then KeepObjects(days.value, MomentRebuild()) else None
  }

  /**
   * _parse_and_validate_gemini_output after the decoding step, keeping
   * visual_theme and day_time, which the saver reads. A reply that is not an
   * object raises AttributeError on its first data.get.
   */
  function Normalise(data: Json, parse: FloatParser, repr: Repr): Outcome
  {
    if !data.JObject? then Raised
    else
      var d := data.members;
      var mfp := MostFamousIn(d, parse);
      var places := FamousPlacesIn(d, parse);
      var ttd := ThingsToDo(ObjectAt(d, "things_to_do"), parse);
      var seasons := SeasonsIn(d, repr);
      var moments := DayActivitiesIn(d);
      if mfp.None? || places.None? || ttd.None? || seasons.None? || moments.None? then Raised
      else Parsed(PlaceData(
        Str(GetOr(d, "main_quote", NoText), repr),
        Str(GetOr(d, "sub_quote", NoText), repr),
        Str(GetOr(d, "description", NoText), repr),
        mfp.value, places.value, ObjectAt(d, "famous_activities"), ttd.value,
        ListAt(d, "food_specialties"), ListAt(d, "tourist_traps"), seasons.value, moments.value,
        ListAt(d, "hidden_gems"), ObjectAt(d, "visual_theme")))
  }

  /** The strip-and-unfence step before decoding. */
  function Unfence(reply: string): string
  {
    var a := Strip(reply);
    var b := if StartsWith(a, "```json") then a[7..] else a;
    var c := if StartsWith(b, "```") then b[3..] else b;
    var e := if EndsWith(c, "```") then c[..|c| - 3] else c;
    Strip(e)
  }

  /** The reply text normalised, with visual_theme and day_time kept. */
  function ParseReply(reply: string, decode: Decoder, parse: FloatParser, repr: Repr): Outcome
  {
    var data := decode(Unfence(reply));
    if data.None? then NotJson else Normalise(data.value, parse, repr)
  }

  /** What the source returns: the same structure with visual_theme and every day_time left out. */
  function Forget(o: Outcome): Outcome
  {
    if o.Parsed? then
      Parsed(o.data.(visualTheme := [],
                     dayActivities := seq(|o.data.dayActivities|, i requires 0 <= i < |o.data.dayActivities| =>
                       o.data.dayActivities[i].(dayTime := NoText))))
    else o
  }

  function ParseReplyAsWritten(reply: string, decode: Decoder, parse: FloatParser, repr: Repr): Outcome
  {
    Forget(ParseReply(reply, decode, parse, repr))
  }

  // ---------------------------------------------------------------------
  // Properties of the normaliser
  // ---------------------------------------------------------------------

  /**
   * A body wrapped in a ```json fence on lines of its own comes out of the
   * unfencing step unchanged, as long as it does not itself begin or end
   * with whitespace.
   */
  lemma FencedBodyRecovered(body: string)
    requires body != [] && !IsSpace(body[0]) && !IsSpace(body[|body| - 1])
    ensures Unfence("```json\n" + body + "\n```") == body
  {
    var reply := "```json\n" + body + "\n```";
    LStripNoLeadingSpace(reply);
    RStripNoTrailingSpace(reply);
    assert Strip(reply) == reply;
    assert StartsWith(reply, "```json");
    var b := reply[7..];
    assert b == "\n" + body + "\n```";
    assert !StartsWith(b, "```");
    assert EndsWith(b, "```");
    var e := b[..|b| - 3];
    assert e == "\n" + (body + "\n");
    LStripDropsSpace('\n', body + "\n");
    RStripDropsSpace(body, '\n');
  }

  /** A bare body with no fences and no surrounding whitespace is decoded as it is. */
  lemma BareBodyUntouched(body: string)
    requires body != [] && !IsSpace(body[0]) && !IsSpace(body[|body| - 1])
    requires !StartsWith(body, "```") && !EndsWith(body, "```")
    ensures Unfence(body) == body
  {
    StripClean(body);
    assert "```" <= "```json";
    StartsWithPrefix(body, "```json", "```");
  }

  /** Text the decoder rejects yields None, and so does an empty reply under a decoder that rejects empty text. */
  lemma UndecodableIsNone(reply: string, decode: Decoder, parse: FloatParser, repr: Repr)
    requires decode(Unfence(reply)).None?
    ensures ParseReply(reply, decode, parse, repr) == NotJson
    ensures ParseReplyAsWritten(reply, decode, parse, repr) == NotJson
  {
  }

  lemma EmptyReplyIsNone(decode: Decoder, parse: FloatParser, repr: Repr)
    requires decode("").None?
    ensures ParseReplyAsWritten("", decode, parse, repr) == NotJson
  {
    assert Unfence("") == "";
  }

  /** An empty object normalises to the template: every key present with its default. */
  lemma EmptyObjectGivesDefaults(parse: FloatParser, repr: Repr)
    ensures Normalise(JObject([]), parse, repr) == Parsed(Defaults)
  {
    assert Entries(JArray([])) == Some([]);
    assert KeepObjects([], SpotRebuild(parse)) == Some([]);
  }

  /** A reply that decodes to something other than an object raises. */
  lemma NonObjectRaises(data: Json, parse: FloatParser, repr: Repr)
    requires !data.JObject?
    ensures Normalise(data, parse, repr) == Raised
  {
  }

  /** The famous places of a reply are its object entries, in order, rebuilt from name, quote and coordinates. */
  lemma FamousPlacesSpec(data: seq<(string, Json)>, parse: FloatParser)
    requires Lookup(data, "famous_places").Some? && Lookup(data, "famous_places").value.JArray?
    ensures var places := Filter(Lookup(data, "famous_places").value.items, IsObject);
      var out := FamousPlacesIn(data, parse);
      (out.Some? <==> forall i :: 0 <= i < |places| ==> SpotIn(places[i].members, parse).Some?) &&
      (out.Some? ==> |out.value| == |places| && forall i :: 0 <= i < |places| ==> out.value[i] == SpotIn(places[i].members, parse).value)
  {
    var items := Lookup(data, "famous_places").value.items;
    assert FamousPlacesIn(data, parse) == KeepObjects(items, SpotRebuild(parse));
    KeepObjectsSpec(items, SpotRebuild(parse));
    var places := Filter(items, IsObject);
    forall i | 0 <= i < |places|
      ensures SpotRebuild(parse)(places[i].members) == SpotIn(places[i].members, parse)
    {
    }
  }

  /** The day activities of a reply are its object entries, in order, reduced to activity, day_time and time; they never raise. */
  lemma DayActivitiesSpec(data: seq<(string, Json)>)
    requires Lookup(data, "day_activities").Some? && Lookup(data, "day_activities").value.JArray?
    ensures var days := Filter(Lookup(data, "day_activities").value.items, IsObject);
      var out := DayActivitiesIn(data);
      out.Some? && |out.value| == |days| && forall i :: 0 <= i < |days| ==> out.value[i] == MomentIn(days[i].members)
  {
    var items := Lookup(data, "day_activities").value.items;
    assert DayActivitiesIn(data) == KeepObjects(items, MomentRebuild());
    KeepObjectsSpec(items, MomentRebuild());
  }

  /** A normalised reply carries the results of the loops. */
  lemma NormalisedFromLoops(data: seq<(string, Json)>, parse: FloatParser, repr: Repr)
    requires Normalise(JObject(data), parse, repr).Parsed?
    ensures var out := Normalise(JObject(data), parse, repr).data;
      FamousPlacesIn(data, parse) == Some(out.famousPlaces) && DayActivitiesIn(data) == Some(out.dayActivities) &&
      ThingsToDo(ObjectAt(data, "things_to_do"), parse) == Some(out.thingsToDo)
  {
  }

  /**
   * The list-valued keys pass through when they are lists and become []
   * otherwise; without seasonal data the four seasons are all "".
   */
  lemma NormalisedPassThrough(data: seq<(string, Json)>, parse: FloatParser, repr: Repr)
    requires Normalise(JObject(data), parse, repr).Parsed?
    ensures var out := Normalise(JObject(data), parse, repr).data;
      out.foodSpecialties == ListAt(data, "food_specialties") &&
      out.touristTraps == ListAt(data, "tourist_traps") &&
      out.hiddenGems == ListAt(data, "hidden_gems") &&
      (Lookup(data, "seasonal_behavior").None? ==> out.seasons == Seasons("", "", "", ""))
  {
  }

  // ---------------------------------------------------------------------
  // The loops, as the source runs them
  // ---------------------------------------------------------------------

  /** One rebuilding loop: skip what is not an object, append each rebuilt object, stop when a rebuild raises. */
  method RebuildObjects<T>(entries: seq<Json>, rebuild: seq<(string, Json)> -> Option<T>) returns (kept: Option<seq<T>>)
    ensures kept == KeepObjects(entries, rebuild)
  {
    var out: seq<T> := [];
    var i := 0;
    while i < |entries|
      invariant 0 <= i <= |entries|
      invariant KeepObjects(entries[..i], rebuild) == Some(out)
    {
      assert entries[..i + 1][..i] == entries[..i];
      var entry := entries[i];
      if entry.JObject? {
        var r := rebuild(entry.members);
        if r.None? {
          KeepObjectsRaised(entries, rebuild, i + 1);
          return None;
        }
        out := out + [r.value];
      }
      i := i + 1;
    }
    assert entries[..|entries|] == entries;
    return Some(out);
  }

  /** Once a prefix raises, so does the whole sequence. */
  lemma {:induction false} KeepObjectsRaised<T>(entries: seq<Json>, rebuild: seq<(string, Json)> -> Option<T>, n: nat)
    requires n <= |entries| && KeepObjects(entries[..n], rebuild).None?
    ensures KeepObjects(entries, rebuild).None?
    decreases |entries| - n
  {
    if n < |entries| {
      assert entries[..n + 1][..n] == entries[..n];
      KeepObjectsRaised(entries, rebuild, n + 1);
    } else {
      assert entries[..n] == entries;
    }
  }

  /** The things-to-do loop: each activity with its cleaned locations. */
  method CleanThingsToDo(activities: seq<(string, Json)>, parse: FloatParser) returns (clean: Option<seq<(string, seq<Stop>)>>)
    ensures clean == ThingsToDo(activities, parse)
  {
    var out: seq<(string, seq<Stop>)> := [];
    var i := 0;
    while i < |activities|
      invariant 0 <= i <= |activities|
      invariant ThingsToDo(activities[..i], parse) == Some(out)
    {
      assert activities[..i + 1][..i] == activities[..i];
      var (activity, locations) := activities[i];
      var stops: Option<seq<Stop>> := Some([]);
      if locations.JArray? {
        stops := RebuildObjects(locations.items, StopRebuild(parse));
      }
      if stops.None? {
        ThingsToDoRaised(activities, parse, i + 1);
        return None;
      }
      out := out + [(activity, stops.value)];
      i := i + 1;
    }
    assert activities[..|activities|] == activities;
    return Some(out);
  }

  lemma {:induction false} ThingsToDoRaised(activities: seq<(string, Json)>, parse: FloatParser, n: nat)
    requires n <= |activities| && ThingsToDo(activities[..n], parse).None?
    ensures ThingsToDo(activities, parse).None?
    decreases |activities| - n
  {
    if n < |activities| {
      assert activities[..n + 1][..n] == activities[..n];
      ThingsToDoRaised(activities, parse, n + 1);
    } else {
      assert activities[..n] == activities;
    }
  }

  /**
   * _parse_and_validate_gemini_output, step by step: unfence, decode, fill
   * the template key by key, and run the three loops.
   */
  method ParseGeminiOutput(reply: string, decode: Decoder, parse: FloatParser, repr: Repr) returns (outcome: Outcome)
    ensures outcome == ParseReply(reply, decode, parse, repr)
  {
    var text := Unfence(reply);
    var decoded := decode(text);
    if decoded.None? {
      return NotJson;
    }
    var data := decoded.value;
    if !data.JObject? {
      return Raised;
    }
    var d := data.members;
    var placeData := Defaults;
    placeData := placeData.(mainQuote := Str(GetOr(d, "main_quote", NoText), repr),
                            subQuote := Str(GetOr(d, "sub_quote", NoText), repr),
                            description := Str(GetOr(d, "description", NoText), repr));
    var mfp := MostFamousIn(d, parse);
    if mfp.None? {
      return Raised;
    }
    placeData := placeData.(mostFamous := mfp.value);
    var famous := Entries(GetOr(d, "famous_places", JArray([])));
    if famous.None? {
      return Raised;
    }
    var places := RebuildObjects(famous.value, SpotRebuild(parse));
    assert places == FamousPlacesIn(d, parse);
    if places.None? {
      return Raised;
    }
    placeData := placeData.(famousPlaces := places.value, famousActivities := ObjectAt(d, "famous_activities"));
    var ttd := CleanThingsToDo(ObjectAt(d, "things_to_do"), parse);
    if ttd.None? {
      return Raised;
    }
    placeData := placeData.(thingsToDo := ttd.value,
                            foodSpecialties := ListAt(d, "food_specialties"),
                            touristTraps := ListAt(d, "tourist_traps"));
    var seasons := SeasonsIn(d, repr);
    if seasons.None? {
      return Raised;
    }
    placeData := placeData.(seasons := seasons.value);
    var days := Entries(GetOr(d, "day_activities", JArray([])));
    if days.None? {
      return Raised;
    }
    var moments := RebuildObjects(days.value, MomentRebuild());
    assert moments == DayActivitiesIn(d);
    if moments.None? {
      return Raised;
    }
    placeData := placeData.(dayActivities := moments.value,
                            hiddenGems := ListAt(d, "hidden_gems"),
                            visualTheme := ObjectAt(d, "visual_theme"));
    return Parsed(placeData);
  }

  // ---------------------------------------------------------------------
  // The two keys the source drops
  // ---------------------------------------------------------------------

  /**
   * As written, the normaliser keeps neither visual_theme nor day_time,
   * although the prompt asks for both and the saver reads both: whatever the
   * reply, the saved place gets no theme colour and every day activity an
   * empty day_time.
   */
  lemma ThemeAndDayTimeDropped(reply: string, decode: Decoder, parse: FloatParser, repr: Repr)
    ensures var o := ParseReplyAsWritten(reply, decode, parse, repr);
      o.Parsed? ==> o.data.visualTheme == [] && forall i :: 0 <= i < |o.data.dayActivities| ==> o.data.dayActivities[i].dayTime == NoText
  {
  }

  /** A reply carrying a theme: the corrected normaliser keeps it, the source's loses it. */
  lemma ThemeKeptOnlyWhenCorrected(parse: FloatParser, repr: Repr)
    ensures var theme := [("color", JString("#3B82F6")), ("tags", JString("sky"))];
      var data := JObject([("visual_theme", JObject(theme))]);
      Normalise(data, parse, repr).Parsed? &&
      Normalise(data, parse, repr).data.visualTheme == theme &&
      Forget(Normalise(data, parse, repr)).data.visualTheme == []
  {
    var theme := [("color", JString("#3B82F6")), ("tags", JString("sky"))];
    var d := [("visual_theme", JObject(theme))];
    assert Lookup(d, "visual_theme") == Some(JObject(theme));
    assert Lookup(d, "famous_places").None?;
    assert Lookup(d, "day_activities").None?;
    assert Lookup(d, "most_famous_place").None?;
    assert Lookup(d, "seasonal_behavior").None?;
    assert Entries(JArray([])) == Some([]);
  }
}
