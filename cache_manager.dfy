// insights/services/cache_manager.py: saving a generated reply into the
// insights tables (save_generate_data) and serving a place's insights from
// that cache, regenerating them when they are missing, expired or stale
// (fetch_or_generate_insights).
module CacheManager {
  import opened Common
  import opened Text
  import opened Seqs
  import opened InsightsModels
  import opened Gemini

  /** timedelta(days=90): how long saved insights stay current. */
  const Lifetime: int := 90 * Day

  // ---------------------------------------------------------------------
  // One saving loop: a row for each kept entry, stopping at a raise
  // ---------------------------------------------------------------------

  /** What a loop body does with one entry: nothing, create a row with these columns, or raise. */
  datatype Step<D> = Skip | Make(data: D) | Fail

  /** The columns of the rows a loop created, in order, and whether it stopped on a raise. */
  datatype Run<D> = Run(made: seq<D>, failed: bool)

  function RunSteps<E, D>(entries: seq<E>, step: E -> Step<D>): (r: Run<D>)
    ensures |r.made| <= |entries|
  {
    if entries == [] then Run([], false)
    else
      var r := RunSteps(entries[..|entries| - 1], step);
      if r.failed then r
      else match step(entries[|entries| - 1])
        case Skip => r
        case Make(d) => Run(r.made + [d], false)
        case Fail => Run(r.made, true)
  }

  /**
   * A loop raises exactly when one of its entries does; every row it made
   * comes from an entry; and when it does not raise, every entry that asks
   * for a row got one.
   */
  lemma {:induction false} RunStepsSpec<E, D>(entries: seq<E>, step: E -> Step<D>)
    ensures RunSteps(entries, step).failed <==> exists i :: 0 <= i < |entries| && step(entries[i]).Fail?
    ensures forall d :: d in RunSteps(entries, step).made ==> exists i :: 0 <= i < |entries| && step(entries[i]) == Make(d)
    ensures !RunSteps(entries, step).failed ==>
              forall i :: 0 <= i < |entries| && step(entries[i]).Make? ==> step(entries[i]).data in RunSteps(entries, step).made
  {
    if entries != [] {
      var init := entries[..|entries| - 1];
      RunStepsSpec(init, step);
      assert forall i :: 0 <= i < |init| ==> init[i] == entries[i];
    }
  }

  /**
   * When any two entries, in order, that both ask for a row ask for related
   * rows, the rows a loop made are related pairwise.
   */
  lemma {:induction false} RunStepsPairwise<E, D>(entries: seq<E>, step: E -> Step<D>, R: (D, D) -> bool)
    requires forall i, j :: 0 <= i < j < |entries| && step(entries[i]).Make? && step(entries[j]).Make? ==>
               R(step(entries[i]).data, step(entries[j]).data)
    ensures Pairwise(RunSteps(entries, step).made, R)
  {
    if entries != [] {
      var n := |entries| - 1;
      var init := entries[..n];
      assert forall i :: 0 <= i < |init| ==> init[i] == entries[i];
      RunStepsPairwise(init, step, R);
      var r := RunSteps(init, step);
      if !r.failed && step(entries[n]).Make? {
        RunStepsSpec(init, step);
        forall y | y in r.made
          ensures R(y, step(entries[n]).data)
        {
          var i :| 0 <= i < |init| && step(init[i]) == Make(y);
        }
        PairwiseSnoc(r.made, step(entries[n]).data, R);
      }
    }
  }

  /** Once a loop has raised, the entries after that change nothing. */
  lemma {:induction false} RunStepsRaised<E, D>(entries: seq<E>, step: E -> Step<D>, n: nat)
    requires n <= |entries| && RunSteps(entries[..n], step).failed
    ensures RunSteps(entries, step) == RunSteps(entries[..n], step)
    decreases |entries| - n
  {
    if n < |entries| {
      assert entries[..n + 1][..n] == entries[..n];
      RunStepsRaised(entries, step, n + 1);
    } else {
      assert entries[..n] == entries;
    }
  }

  /** The rows the loop creates for place p, their ids handed out from start on. */
  function Numbered<D>(p: PlaceId, made: seq<D>, start: nat): (rows: seq<Row<D>>)
    ensures |rows| == |made|
    ensures forall i :: 0 <= i < |rows| ==> rows[i] == Row(start + i, p, made[i])
  {
    seq(|made|, i requires 0 <= i < |made| => Row(start + i, p, made[i]))
  }

  /** The columns of a sequence of rows. */
  function Data<D>(rows: seq<Row<D>>): (r: seq<D>)
    ensures |r| == |rows|
    ensures forall i :: 0 <= i < |rows| ==> r[i] == rows[i].data
  {
    seq(|rows|, i requires 0 <= i < |rows| => rows[i].data)
  }

  /**
   * A saving loop: for each entry, in order, create the row its step asks
   * for; stop at the first entry that raises.
   */
  method CreateRows<E, D>(p: PlaceId, entries: seq<E>, step: E -> Step<D>, start: nat) returns (rows: seq<Row<D>>, failed: bool)
    ensures rows == Numbered(p, RunSteps(entries, step).made, start)
    ensures failed == RunSteps(entries, step).failed
  {
    rows, failed := [], false;
    ghost var made: seq<D> := [];
    var i := 0;
    while i < |entries|
      invariant 0 <= i <= |entries|
      invariant RunSteps(entries[..i], step) == Run(made, false)
      invariant rows == Numbered(p, made, start)
    {
      assert entries[..i + 1][..i] == entries[..i];
      match step(entries[i]) {
        case Skip =>
        case Make(d) =>
          rows := rows + [Row(start + |rows|, p, d)];
          made := made + [d];
        case Fail =>
          RunStepsRaised(entries, step, i + 1);
          failed := true;
          return;
      }
      i := i + 1;
    }
    assert entries[..i] == entries;
  }

  // ---------------------------------------------------------------------
  // The loop bodies of save_generate_data
  // ---------------------------------------------------------------------

  /**
   * A most famous or famous place is saved only when it has a name; its
   * image is left blank. A null quote reaches the NOT NULL quote column and
   * the insert raises.
   */
  function LandmarkStep(repr: Repr): Spot -> Step<Landmark>
  {
    (s: Spot) =>
      if !IsTruthy(s.name) then Skip
      else if s.quote.JNull? then Fail
      else Make(Landmark(Str(s.name, repr), Str(s.quote, repr), s.coordinates.lat, s.coordinates.lng, ""))
  }

  /** Every famous activity is saved, named by its key; a null time raises (NOT NULL column). */
  function ActivityStep(repr: Repr): ((string, Json)) -> Step<FamousActivity>
  {
    (e: (string, Json)) => if e.1.JNull? then Fail else Make(FamousActivity(e.0, Str(e.1, repr)))
  }

  /** The seasonal_behavior items in the order the normaliser builds them. */
  function SeasonEntries(s: Seasons): seq<(string, string)>
  {
    [("spring", s.spring), ("summer", s.summer), ("autumn", s.autumn), ("winter", s.winter)]
  }

  /** A season with a description is saved under its capitalised name, with no activities or cautions. */
  function SeasonStep(): ((string, string)) -> Step<Season>
  {
    (e: (string, string)) => if e.1 != "" then Make(Season(Capitalize(e.0), e.1, [], [])) else Skip
  }

  /**
   * value[:200]: a string's first 200 characters; a list's first 200 items,
   * stored as str() of that list; any other value raises.
   */
  function Cut200(v: Json, repr: Repr): Option<string>
  {
    match v
    case JString(s) => Some(Take(s, 200))
    case JArray(items) => Some(repr(JArray(Take(items, 200))))
    case _ => None
  }

  /** A tourist trap is named by its first 200 characters, placed at (0, 0), and keeps the whole text as its reason. */
  function TrapStep(repr: Repr): Json -> Step<TouristTrap>
  {
    (v: Json) =>
      if !IsTruthy(v) then Skip
      else match Cut200(v, repr)
        case Some(name) => Make(TouristTrap(name, 0.0, 0.0, Str(v, repr)))
        case None => Fail
  }

  /** A food specialty is saved by name, without a description. */
  function FoodStep(repr: Repr): Json -> Step<FoodSpecialty>
  {
    (v: Json) => if IsTruthy(v) then Make(FoodSpecialty(Str(v, repr), None)) else Skip
  }

  /** A hidden gem is named by its first 200 characters, keeps the whole text as its description, and has no coordinates. */
  function GemStep(repr: Repr): Json -> Step<HiddenGem>
  {
    (v: Json) =>
      if !IsTruthy(v) then Skip
      else match Cut200(v, repr)
        case Some(name) => Make(HiddenGem(name, Str(v, repr), None, None))
        case None => Fail
  }

  /** A day activity is saved only when it names an activity; a null day_time or time raises (NOT NULL columns). */
  function DayStep(repr: Repr): Moment -> Step<DayActivity>
  {
    (m: Moment) =>
      if !IsTruthy(m.activity) then Skip
      else if m.dayTime.JNull? || m.time.JNull? then Fail
      else Make(DayActivity(Str(m.activity, repr), Str(m.dayTime, repr), Str(m.time, repr)))
  }

  /** The nullable time column of a thing to do: NULL for a null time, str() of anything else. */
  function NullableText(v: Json, repr: Repr): Option<string>
  {
    if v.JNull? then None else Some(Str(v, repr))
  }

  /** A thing to do is saved, under its activity type, only when it names a location. */
  function ThingStep(repr: Repr): ((string, Stop)) -> Step<ThingToDo>
  {
    (e: (string, Stop)) =>
      if IsTruthy(e.1.location) then
        Make(ThingToDo(e.0, Str(e.1.location, repr), NullableText(e.1.time, repr),
                       Some(e.1.coordinates.lat), Some(e.1.coordinates.lng)))
      else Skip
  }

  /** The locations of one activity type, each paired with the type. */
  function Pairs(group: (string, seq<Stop>)): (r: seq<(string, Stop)>)
    ensures |r| == |group.1|
    ensures forall k :: 0 <= k < |r| ==> r[k] == (group.0, group.1[k])
  {
    seq(|group.1|, k requires 0 <= k < |group.1| => (group.0, group.1[k]))
  }

  /** The order in which the nested things_to_do loop visits (type, location) pairs. */
  function Flatten(groups: seq<(string, seq<Stop>)>): seq<(string, Stop)>
  {
    if groups == [] then [] else Flatten(groups[..|groups| - 1]) + Pairs(groups[|groups| - 1])
  }

  // ---------------------------------------------------------------------
  // What one save writes
  // ---------------------------------------------------------------------

  /** The columns of the rows one save creates, table by table. */
  datatype Columns = Columns(
    mostFamous: seq<Landmark>,
    famous: seq<Landmark>,
    activities: seq<FamousActivity>,
    seasonal: seq<Season>,
    traps: seq<TouristTrap>,
    foods: seq<FoodSpecialty>,
    gems: seq<HiddenGem>,
    dayActivities: seq<DayActivity>,
    thingsToDo: seq<ThingToDo>)

  /** The rows one save creates, and whether it raised before the end. */
  datatype Plan = Plan(cols: Columns, failed: bool)

  /**
   * The loops of save_generate_data in their order. The landmark, famous
   * activity and day activity loops raise on a null reaching a NOT NULL
   * column, the tourist-trap and hidden-gem loops on a value that cannot
   * be sliced; the seasons, foods and things to do never raise. A raise
   * ends the save, and the tables after it get nothing.
   */
  function PlanRows(d: PlaceData, repr: Repr): Plan
  {
    var mf := RunSteps([d.mostFamous], LandmarkStep(repr));
    var fp := RunSteps(d.famousPlaces, LandmarkStep(repr));
    var fa := RunSteps(d.famousActivities, ActivityStep(repr));
    var se := RunSteps(SeasonEntries(d.seasons), SeasonStep()).made;
    var tr := RunSteps(d.touristTraps, TrapStep(repr));
    var fo := RunSteps(d.foodSpecialties, FoodStep(repr)).made;
    var ge := RunSteps(d.hiddenGems, GemStep(repr));
    var da := RunSteps(d.dayActivities, DayStep(repr));
    var th := RunSteps(Flatten(d.thingsToDo), ThingStep(repr)).made;
    if mf.failed then Plan(Columns(mf.made, [], [], [], [], [], [], [], []), true)
    else if fp.failed then Plan(Columns(mf.made, fp.made, [], [], [], [], [], [], []), true)
    else if fa.failed then Plan(Columns(mf.made, fp.made, fa.made, [], [], [], [], [], []), true)
    else if tr.failed then Plan(Columns(mf.made, fp.made, fa.made, se, tr.made, [], [], [], []), true)
    else if ge.failed then Plan(Columns(mf.made, fp.made, fa.made, se, tr.made, fo, ge.made, [], []), true)
    else if da.failed then Plan(Columns(mf.made, fp.made, fa.made, se, tr.made, fo, ge.made, da.made, []), true)
    else Plan(Columns(mf.made, fp.made, fa.made, se, tr.made, fo, ge.made, da.made, th), false)
  }

  function Size(c: Columns): nat
  {
    |c.mostFamous| + |c.famous| + |c.activities| + |c.seasonal| + |c.traps| +
    |c.foods| + |c.gems| + |c.dayActivities| + |c.thingsToDo|
  }

  /** Where AddRows starts numbering each table. */
  function Starts(c: Columns, start: nat): (n: seq<nat>)
    ensures |n| == 10 && n[0] == start && n[9] == start + Size(c)
    ensures n[1] == n[0] + |c.mostFamous| && n[2] == n[1] + |c.famous| && n[3] == n[2] + |c.activities|
    ensures n[4] == n[3] + |c.seasonal| && n[5] == n[4] + |c.traps| && n[6] == n[5] + |c.foods|
    ensures n[7] == n[6] + |c.gems| && n[8] == n[7] + |c.dayActivities| && n[9] == n[8] + |c.thingsToDo|
  {
    var n1 := start + |c.mostFamous|;
    var n2 := n1 + |c.famous|;
    var n3 := n2 + |c.activities|;
    var n4 := n3 + |c.seasonal|;
    var n5 := n4 + |c.traps|;
    var n6 := n5 + |c.foods|;
    var n7 := n6 + |c.gems|;
    var n8 := n7 + |c.dayActivities|;
    [start, n1, n2, n3, n4, n5, n6, n7, n8, n8 + |c.thingsToDo|]
  }

  /** The tables with the planned rows of p appended, ids handed out in creation order from start on. */
  function AddRows(t: Tables, p: PlaceId, c: Columns, start: nat): Tables
  {
    var n := Starts(c, start);
    Tables(t.mostFamous + Numbered(p, c.mostFamous, n[0]), t.famous + Numbered(p, c.famous, n[1]),
           t.activities + Numbered(p, c.activities, n[2]), t.seasonal + Numbered(p, c.seasonal, n[3]),
           t.traps + Numbered(p, c.traps, n[4]), t.foods + Numbered(p, c.foods, n[5]),
           t.gems + Numbered(p, c.gems, n[6]), t.dayActivities + Numbered(p, c.dayActivities, n[7]),
           t.thingsToDo + Numbered(p, c.thingsToDo, n[8]))
  }

  /** The tables after saving d for p: p's old rows deleted, the planned ones created. */
  function Rebuilt(t: Tables, p: PlaceId, d: PlaceData, repr: Repr, start: nat): Tables
  {
    AddRows(ClearPlace(t, p), p, PlanRows(d, repr).cols, start)
  }

  /** The columns of every table. */
  function ColumnsOf(t: Tables): Columns
  {
    Columns(Data(t.mostFamous), Data(t.famous), Data(t.activities), Data(t.seasonal), Data(t.traps),
            Data(t.foods), Data(t.gems), Data(t.dayActivities), Data(t.thingsToDo))
  }

  /** The PlaceInsights record update_or_create leaves: the new texts, current for 90 days, one version up. */
  function Upserted(existing: map<PlaceId, PlaceInsights>, p: PlaceId, d: PlaceData, now: int): (i: PlaceInsights)
    ensures i.version == (if p in existing then existing[p].version + 1 else 1)
    ensures !i.isStale && i.expiresAt == now + Lifetime
    ensures i.lastRequested == (if p in existing then existing[p].lastRequested else None)
    ensures (i.mainQuote, i.subQuote, i.description) == (d.mainQuote, d.subQuote, d.description)
  {
    var version := if p in existing then existing[p].version + 1 else 1;
    var last := if p in existing then existing[p].lastRequested else None;
    PlaceInsights(d.mainQuote, d.subQuote, d.description, false, now + Lifetime, last, version)
  }

  /**
   * visual_theme.get("color", "") and .get("tags", ""): a null color or
   * tags reaches a NOT NULL column of the place, and place.asave raises
   * before anything else of the save is written.
   */
  predicate ThemeRefused(theme: seq<(string, Json)>)
  {
    theme != [] && (GetOr(theme, "color", NoText).JNull? || GetOr(theme, "tags", NoText).JNull?)
  }

  /** The place with the generated visual theme applied, when the reply carries one. */
  function Themed(place: Place, theme: seq<(string, Json)>, repr: Repr): (r: Place)
    ensures r == place.(themeColor := r.themeColor, visualTags := r.visualTags)
    ensures theme == [] ==> r == place
  {
    if theme != [] then
      place.(themeColor := Str(GetOr(theme, "color", NoText), repr), visualTags := Str(GetOr(theme, "tags", NoText), repr))
    else place
  }

  // ---------------------------------------------------------------------
  // What the saved rows hold
  // ---------------------------------------------------------------------

  /** str() of a value that is not a string is never empty ("None", "0", "[]", ...). */
  ghost predicate ShowsSomething(repr: Repr)
  {
    forall v :: repr(v) != ""
  }

  function DifferentSeasons(a: Season, b: Season): bool
  {
    a.season != b.season
  }

  lemma SeasonNames()
    ensures Capitalize("spring") == "Spring" && Capitalize("summer") == "Summer"
    ensures Capitalize("autumn") == "Autumn" && Capitalize("winter") == "Winter"
  {
    CapitalizedAs("spring", "Spring");
    CapitalizedAs("summer", "Summer");
    CapitalizedAs("autumn", "Autumn");
    CapitalizedAs("winter", "Winter");
  }

  lemma CapitalizedAs(w: string, c: string)
    requires w != [] && |c| == |w| && c[0] == UpperChar(w[0])
    requires forall i :: 0 < i < |w| ==> c[i] == LowerChar(w[i])
    ensures Capitalize(w) == c
  {
  }

  /** Every saved season row is named after one of the four seasons and has a description. */
  lemma SeasonRowsNamed(s: Seasons)
    ensures forall x :: x in RunSteps(SeasonEntries(s), SeasonStep()).made ==>
              x.season in ["Spring", "Summer", "Autumn", "Winter"] && x.description != "" &&
              x.recommendedActivities == [] && x.cautions == []
  {
    var e := SeasonEntries(s);
    SeasonNames();
    MadeSatisfies(e, SeasonStep(), (x: Season) =>
      x.season in ["Spring", "Summer", "Autumn", "Winter"] && x.description != "" &&
      x.recommendedActivities == [] && x.cautions == []);
  }

  /** No season is saved twice for one save. */
  lemma SeasonRowsDistinct(s: Seasons)
    ensures Pairwise(RunSteps(SeasonEntries(s), SeasonStep()).made, DifferentSeasons)
  {
    var e := SeasonEntries(s);
    SeasonNames();
    forall i, j | 0 <= i < j < |e| && SeasonStep()(e[i]).Make? && SeasonStep()(e[j]).Make?
      ensures DifferentSeasons(SeasonStep()(e[i]).data, SeasonStep()(e[j]).data)
    {
    }
    RunStepsPairwise(e, SeasonStep(), DifferentSeasons);
  }

  /**
   * The seasonal loop never raises; it saves one row per season that has a
   * description, under one of the four capitalised names, with no
   * recommended activities or cautions, and no season twice.
   */
  lemma SeasonRowsSpec(s: Seasons)
    ensures !RunSteps(SeasonEntries(s), SeasonStep()).failed
    ensures forall x :: x in RunSteps(SeasonEntries(s), SeasonStep()).made ==>
              x.season in ["Spring", "Summer", "Autumn", "Winter"] && x.description != "" &&
              x.recommendedActivities == [] && x.cautions == []
    ensures Pairwise(RunSteps(SeasonEntries(s), SeasonStep()).made, DifferentSeasons)
    ensures forall i :: 0 <= i < 4 && SeasonEntries(s)[i].1 != "" ==>
              Season(Capitalize(SeasonEntries(s)[i].0), SeasonEntries(s)[i].1, [], []) in RunSteps(SeasonEntries(s), SeasonStep()).made
  {
    RunStepsSpec(SeasonEntries(s), SeasonStep());
    SeasonRowsNamed(s);
    SeasonRowsDistinct(s);
  }

  /** Every row a loop makes satisfies what every step that makes a row guarantees. */
  lemma MadeSatisfies<E, D>(entries: seq<E>, step: E -> Step<D>, P: D -> bool)
    requires forall e :: e in entries && step(e).Make? ==> P(step(e).data)
    ensures forall x :: x in RunSteps(entries, step).made ==> P(x)
  {
    RunStepsSpec(entries, step);
    forall x | x in RunSteps(entries, step).made
      ensures P(x)
    {
      var i :| 0 <= i < |entries| && step(entries[i]) == Make(x);
    }
  }

  lemma StrNonEmpty(v: Json, repr: Repr)
    requires ShowsSomething(repr) && IsTruthy(v)
    ensures Str(v, repr) != ""
  {
  }

  lemma CutNonEmpty(v: Json, repr: Repr)
    requires ShowsSomething(repr) && IsTruthy(v) && Cut200(v, repr).Some?
    ensures Cut200(v, repr).value != ""
  {
  }

  /**
   * Every row a save creates is named: landmarks, traps, foods and gems by
   * a non-empty name, day activities by their activity, things to do by
   * their location; landmark images are blank, traps sit at (0, 0), foods
   * have no description, gems no coordinates, and things to do carry both
   * coordinates.
   */
  lemma SavedRowsNamed(d: PlaceData, repr: Repr)
    requires ShowsSomething(repr)
    ensures forall x :: x in PlanRows(d, repr).cols.mostFamous ==> x.name != "" && x.image == ""
    ensures forall x :: x in PlanRows(d, repr).cols.famous ==> x.name != "" && x.image == ""
    ensures forall x :: x in PlanRows(d, repr).cols.traps ==> x.name != "" && x.latitude == 0.0 && x.longitude == 0.0
    ensures forall x :: x in PlanRows(d, repr).cols.foods ==> x.name != "" && x.description.None?
    ensures forall x :: x in PlanRows(d, repr).cols.gems ==> x.name != "" && x.latitude.None? && x.longitude.None?
    ensures forall x :: x in PlanRows(d, repr).cols.dayActivities ==> x.activity != ""
    ensures forall x :: x in PlanRows(d, repr).cols.thingsToDo ==> x.location != "" && x.latitude.Some? && x.longitude.Some?
  {
    PlannedFromLoops(d, repr);
    forall s: Spot | IsTruthy(s.name) { StrNonEmpty(s.name, repr); }
    var landmark := (x: Landmark) => x.name != "" && x.image == "";
    MadeSatisfies([d.mostFamous], LandmarkStep(repr), landmark);
    MadeSatisfies(d.famousPlaces, LandmarkStep(repr), landmark);
    forall v | IsTruthy(v) && Cut200(v, repr).Some? { CutNonEmpty(v, repr); }
    MadeSatisfies(d.touristTraps, TrapStep(repr), (x: TouristTrap) => x.name != "" && x.latitude == 0.0 && x.longitude == 0.0);
    forall v | IsTruthy(v) { StrNonEmpty(v, repr); }
    MadeSatisfies(d.foodSpecialties, FoodStep(repr), (x: FoodSpecialty) => x.name != "" && x.description.None?);
    MadeSatisfies(d.hiddenGems, GemStep(repr), (x: HiddenGem) => x.name != "" && x.latitude.None? && x.longitude.None?);
    MadeSatisfies(d.dayActivities, DayStep(repr), (x: DayActivity) => x.activity != "");
    MadeSatisfies(Flatten(d.thingsToDo), ThingStep(repr), (x: ThingToDo) => x.location != "" && x.latitude.Some? && x.longitude.Some?);
  }

  /** A truthy value that is neither a string nor a list: slicing it raises. */
  predicate Unsliceable(v: Json)
  {
    IsTruthy(v) && !v.JString? && !v.JArray?
  }

  /** A place that would be saved, with a null quote. */
  predicate NullQuote(s: Spot)
  {
    IsTruthy(s.name) && s.quote.JNull?
  }

  /** A day activity that would be saved, with a null day_time or time. */
  predicate NullDayColumn(m: Moment)
  {
    IsTruthy(m.activity) && (m.dayTime.JNull? || m.time.JNull?)
  }

  /**
   * A save raises exactly when a named place has a null quote, a famous
   * activity a null time, a tourist trap or a hidden gem cannot be sliced,
   * or a named day activity has a null day_time or time; then the things
   * to do are never saved.
   */
  lemma PlanFailsSpec(d: PlaceData, repr: Repr)
    ensures PlanRows(d, repr).failed <==>
              NullQuote(d.mostFamous) || (exists s :: s in d.famousPlaces && NullQuote(s)) ||
              (exists e :: e in d.famousActivities && e.1.JNull?) ||
              (exists v :: v in d.touristTraps && Unsliceable(v)) || (exists v :: v in d.hiddenGems && Unsliceable(v)) ||
              (exists m :: m in d.dayActivities && NullDayColumn(m))
    ensures PlanRows(d, repr).failed ==> PlanRows(d, repr).cols.thingsToDo == []
  {
    PlanFailed(d, repr);
    FailsWhen([d.mostFamous], LandmarkStep(repr), NullQuote);
    assert forall s :: s in [d.mostFamous] <==> s == d.mostFamous;
    FailsWhen(d.famousPlaces, LandmarkStep(repr), NullQuote);
    FailsWhen(d.famousActivities, ActivityStep(repr), (e: (string, Json)) => e.1.JNull?);
    FailsWhen(d.touristTraps, TrapStep(repr), Unsliceable);
    FailsWhen(d.hiddenGems, GemStep(repr), Unsliceable);
    FailsWhen(d.dayActivities, DayStep(repr), NullDayColumn);
  }

  /** A save raises exactly when one of the six raising loops does; then no thing to do is planned. */
  lemma PlanFailed(d: PlaceData, repr: Repr)
    ensures PlanRows(d, repr).failed <==>
              RunSteps([d.mostFamous], LandmarkStep(repr)).failed || RunSteps(d.famousPlaces, LandmarkStep(repr)).failed ||
              RunSteps(d.famousActivities, ActivityStep(repr)).failed || RunSteps(d.touristTraps, TrapStep(repr)).failed ||
              RunSteps(d.hiddenGems, GemStep(repr)).failed || RunSteps(d.dayActivities, DayStep(repr)).failed
    ensures PlanRows(d, repr).failed ==> PlanRows(d, repr).cols.thingsToDo == []
  {
  }

  /** A loop raises exactly when one of its entries has the property its step raises on. */
  lemma FailsWhen<E, D>(entries: seq<E>, step: E -> Step<D>, P: E -> bool)
    requires forall e :: step(e).Fail? <==> P(e)
    ensures RunSteps(entries, step).failed <==> exists e :: e in entries && P(e)
  {
    RunStepsSpec(entries, step);
  }

  /** Every planned row of a table is one its loop makes. */
  lemma PlannedFromLoops(d: PlaceData, repr: Repr)
    ensures var c := PlanRows(d, repr).cols;
            && (forall x :: x in c.mostFamous ==> x in RunSteps([d.mostFamous], LandmarkStep(repr)).made)
            && (forall x :: x in c.famous ==> x in RunSteps(d.famousPlaces, LandmarkStep(repr)).made)
            && (forall x :: x in c.traps ==> x in RunSteps(d.touristTraps, TrapStep(repr)).made)
            && (forall x :: x in c.foods ==> x in RunSteps(d.foodSpecialties, FoodStep(repr)).made)
            && (forall x :: x in c.gems ==> x in RunSteps(d.hiddenGems, GemStep(repr)).made)
            && (forall x :: x in c.dayActivities ==> x in RunSteps(d.dayActivities, DayStep(repr)).made)
            && (forall x :: x in c.thingsToDo ==> x in RunSteps(Flatten(d.thingsToDo), ThingStep(repr)).made)
  {
    PlanParts(d, repr);
  }

  /** A most famous place with a name and a null quote: the save raises before any row is created. */
  lemma NullQuoteRaises(d: PlaceData, repr: Repr)
    requires NullQuote(d.mostFamous)
    ensures PlanRows(d, repr).failed && Size(PlanRows(d, repr).cols) == 0
  {
    assert [d.mostFamous][..0] == [];
  }

  /** The first 200 characters of a text. */
  predicate CutFrom(name: string, text: string)
  {
    name <= text && |name| == if |text| < 200 then |text| else 200
  }

  /**
   * When the traps are strings, as the generator is asked to give them,
   * the trap loop does not raise and names every trap by the first 200
   * characters of its text.
   */
  lemma TrapNamesCut(traps: seq<Json>, repr: Repr)
    requires forall v :: v in traps ==> v.JString?
    ensures !RunSteps(traps, TrapStep(repr)).failed
    ensures forall x :: x in RunSteps(traps, TrapStep(repr)).made ==> CutFrom(x.name, x.reason)
  {
    forall i | 0 <= i < |traps|
      ensures !TrapStep(repr)(traps[i]).Fail?
    {
      assert traps[i] in traps;
    }
    RunStepsSpec(traps, TrapStep(repr));
    MadeSatisfies(traps, TrapStep(repr), (x: TouristTrap) => CutFrom(x.name, x.reason));
  }

  /** The same for hidden gems, named by the first 200 characters of their description. */
  lemma GemNamesCut(gems: seq<Json>, repr: Repr)
    requires forall v :: v in gems ==> v.JString?
    ensures !RunSteps(gems, GemStep(repr)).failed
    ensures forall x :: x in RunSteps(gems, GemStep(repr)).made ==> CutFrom(x.name, x.description)
  {
    forall i | 0 <= i < |gems|
      ensures !GemStep(repr)(gems[i]).Fail?
    {
      assert gems[i] in gems;
    }
    RunStepsSpec(gems, GemStep(repr));
    MadeSatisfies(gems, GemStep(repr), (x: HiddenGem) => CutFrom(x.name, x.description));
  }

  // ---------------------------------------------------------------------
  // What a save leaves in the tables
  // ---------------------------------------------------------------------

  /** Appending rows of p with ids from next on keeps a table owned. */
  lemma AppendOwned<D>(rows: seq<Row<D>>, places: set<PlaceId>, start: nat, next: nat, n: nat, p: PlaceId, made: seq<D>)
    requires Owned(rows, places, start) && start <= next && next + |made| <= n && p in places
    ensures Owned(rows + Numbered(p, made, next), places, n)
  {
  }

  /** Appending rows of p to a table that holds none of p's: p's rows are exactly the new ones. */
  lemma AppendMine<D(!new)>(rows: seq<Row<D>>, next: nat, p: PlaceId, made: seq<D>)
    requires Filter(rows, Of(p)) == []
    ensures Data(Filter(rows + Numbered(p, made, next), Of(p))) == made
  {
    FilterAppend(rows, Numbered(p, made, next), Of(p));
    FilterAll(Numbered(p, made, next), Of(p));
  }

  /** Appending rows of p leaves the rows of every other place as they were. */
  lemma AppendOthers<D(!new)>(rows: seq<Row<D>>, next: nat, p: PlaceId, made: seq<D>, q: PlaceId)
    requires q != p
    ensures Filter(rows + Numbered(p, made, next), Of(q)) == Filter(rows, Of(q))
  {
    FilterAppend(rows, Numbered(p, made, next), Of(q));
    FilterNone(Numbered(p, made, next), Of(q));
  }

  /** Appending p's seasons, no two alike, to a seasonal table without p's rows keeps (place, season) unique. */
  lemma AppendSeasons(cleared: seq<Row<Season>>, p: PlaceId, made: seq<Season>, next: nat)
    requires Pairwise(cleared, DistinctSeasons) && Filter(cleared, Of(p)) == [] && Pairwise(made, DifferentSeasons)
    ensures Pairwise(cleared + Numbered(p, made, next), DistinctSeasons)
  {
    var rows := Numbered(p, made, next);
    var all := cleared + rows;
    forall i, j | 0 <= i < j < |all|
      ensures DistinctSeasons(all[i], all[j])
    {
      if j < |cleared| {
        assert all[i] == cleared[i] && all[j] == cleared[j];
      } else if i < |cleared| {
        assert all[i] in cleared;
        assert !Of(p)(all[i]);
      } else {
        assert all[i] == rows[i - |cleared|] && all[j] == rows[j - |cleared|];
      }
    }
  }

  /** Appending p's new rows to tables keeps every row owned and its id fresh. */
  lemma AddRowsOwned(t: Tables, places: set<PlaceId>, start: nat, p: PlaceId, c: Columns)
    requires TablesOwned(t, places, start) && p in places
    ensures TablesOwned(AddRows(t, p, c, start), places, start + Size(c))
  {
    var a := AddRows(t, p, c, start);
    var n := Starts(c, start);
    var m := start + Size(c);
    assert Owned(a.mostFamous, places, m) by { AppendOwned(t.mostFamous, places, start, n[0], m, p, c.mostFamous); }
    assert Owned(a.famous, places, m) by { AppendOwned(t.famous, places, start, n[1], m, p, c.famous); }
    assert Owned(a.activities, places, m) by { AppendOwned(t.activities, places, start, n[2], m, p, c.activities); }
    assert Owned(a.seasonal, places, m) by { AppendOwned(t.seasonal, places, start, n[3], m, p, c.seasonal); }
    assert Owned(a.traps, places, m) by { AppendOwned(t.traps, places, start, n[4], m, p, c.traps); }
    assert Owned(a.foods, places, m) by { AppendOwned(t.foods, places, start, n[5], m, p, c.foods); }
    assert Owned(a.gems, places, m) by { AppendOwned(t.gems, places, start, n[6], m, p, c.gems); }
    assert Owned(a.dayActivities, places, m) by { AppendOwned(t.dayActivities, places, start, n[7], m, p, c.dayActivities); }
    assert Owned(a.thingsToDo, places, m) by { AppendOwned(t.thingsToDo, places, start, n[8], m, p, c.thingsToDo); }
  }

  /** After appending to tables without p's rows, p's rows hold exactly the new columns. */
  lemma AddRowsMine(t: Tables, start: nat, p: PlaceId, c: Columns)
    requires RowsOf(t, p) == NoTables
    ensures ColumnsOf(RowsOf(AddRows(t, p, c, start), p)) == c
  {
    var a := AddRows(t, p, c, start);
    var n := Starts(c, start);
    assert Data(Filter(a.mostFamous, Of(p))) == c.mostFamous by { AppendMine(t.mostFamous, n[0], p, c.mostFamous); }
    assert Data(Filter(a.famous, Of(p))) == c.famous by { AppendMine(t.famous, n[1], p, c.famous); }
    assert Data(Filter(a.activities, Of(p))) == c.activities by { AppendMine(t.activities, n[2], p, c.activities); }
    assert Data(Filter(a.seasonal, Of(p))) == c.seasonal by { AppendMine(t.seasonal, n[3], p, c.seasonal); }
    assert Data(Filter(a.traps, Of(p))) == c.traps by { AppendMine(t.traps, n[4], p, c.traps); }
    assert Data(Filter(a.foods, Of(p))) == c.foods by { AppendMine(t.foods, n[5], p, c.foods); }
    assert Data(Filter(a.gems, Of(p))) == c.gems by { AppendMine(t.gems, n[6], p, c.gems); }
    assert Data(Filter(a.dayActivities, Of(p))) == c.dayActivities by { AppendMine(t.dayActivities, n[7], p, c.dayActivities); }
    assert Data(Filter(a.thingsToDo, Of(p))) == c.thingsToDo by { AppendMine(t.thingsToDo, n[8], p, c.thingsToDo); }
  }

  /** Appending p's rows leaves every other place's rows as they were. */
  lemma AddRowsOthers(t: Tables, start: nat, p: PlaceId, c: Columns, q: PlaceId)
    requires q != p
    ensures RowsOf(AddRows(t, p, c, start), q) == RowsOf(t, q)
  {
    var a := AddRows(t, p, c, start);
    var n := Starts(c, start);
    AppendOthers(t.mostFamous, n[0], p, c.mostFamous, q);
    AppendOthers(t.famous, n[1], p, c.famous, q);
    AppendOthers(t.activities, n[2], p, c.activities, q);
    AppendOthers(t.seasonal, n[3], p, c.seasonal, q);
    AppendOthers(t.traps, n[4], p, c.traps, q);
    AppendOthers(t.foods, n[5], p, c.foods, q);
    AppendOthers(t.gems, n[6], p, c.gems, q);
    AppendOthers(t.dayActivities, n[7], p, c.dayActivities, q);
    AppendOthers(t.thingsToDo, n[8], p, c.thingsToDo, q);
  }

  /**
   * Saving d for p replaces p's rows, whatever they were, by exactly the
   * rows the loops create, keeps every other place's rows as they were,
   * hands out fresh ids, and keeps (place, season) unique.
   */
  lemma RebuiltSpec(t: Tables, places: set<PlaceId>, start: nat, p: PlaceId, d: PlaceData, repr: Repr)
    requires TablesOwned(t, places, start) && p in places && Pairwise(t.seasonal, DistinctSeasons)
    ensures TablesOwned(Rebuilt(t, p, d, repr, start), places, start + Size(PlanRows(d, repr).cols))
    ensures ColumnsOf(RowsOf(Rebuilt(t, p, d, repr, start), p)) == PlanRows(d, repr).cols
    ensures forall q :: q != p ==> RowsOf(Rebuilt(t, p, d, repr, start), q) == RowsOf(t, q)
  {
    var cleared := ClearPlace(t, p);
    var c := PlanRows(d, repr).cols;
    ClearPlaceSpec(t, places, start, p);
    AddRowsOwned(cleared, places, start, p, c);
    AddRowsMine(cleared, start, p, c);
    forall q | q != p
      ensures RowsOf(Rebuilt(t, p, d, repr, start), q) == RowsOf(t, q)
    {
      AddRowsOthers(cleared, start, p, c, q);
    }
  }

  /** Saving d for p keeps (place, season) unique. */
  lemma RebuiltSeasonsDistinct(t: Tables, places: set<PlaceId>, start: nat, p: PlaceId, d: PlaceData, repr: Repr)
    requires TablesOwned(t, places, start) && p in places && Pairwise(t.seasonal, DistinctSeasons)
    ensures Pairwise(Rebuilt(t, p, d, repr, start).seasonal, DistinctSeasons)
  {
    var cleared := ClearPlace(t, p);
    var c := PlanRows(d, repr).cols;
    assert Pairwise(c.seasonal, DifferentSeasons) by {
      PlanParts(d, repr);
      SeasonRowsDistinct(d.seasons);
    }
    assert Pairwise(cleared.seasonal, DistinctSeasons) && Filter(cleared.seasonal, Of(p)) == [] by {
      ClearPlaceSpec(t, places, start, p);
      assert Filter(cleared.seasonal, Of(p)) == RowsOf(cleared, p).seasonal;
    }
    AppendSeasons(cleared.seasonal, p, c.seasonal, Starts(c, start)[3]);
    AddRowsFields(cleared, p, c, start);
  }

  // ---------------------------------------------------------------------
  // save_generate_data and fetch_or_generate_insights
  // ---------------------------------------------------------------------

  /** Running a loop over a + b is running it over a, then, when that did not raise, over b. */
  lemma {:induction false} RunStepsAppend<E, D>(a: seq<E>, b: seq<E>, step: E -> Step<D>)
    requires !RunSteps(a, step).failed
    ensures RunSteps(a + b, step) == Run(RunSteps(a, step).made + RunSteps(b, step).made, RunSteps(b, step).failed)
  {
    if b == [] {
      assert a + b == a;
    } else {
      var init := b[..|b| - 1];
      RunStepsAppend(a, init, step);
      assert (a + b)[..|a + b| - 1] == a + init;
    }
  }

  lemma NumberedAppend<D>(p: PlaceId, a: seq<D>, b: seq<D>, start: nat)
    ensures Numbered(p, a + b, start) == Numbered(p, a, start) + Numbered(p, b, start + |a|)
  {
  }

  /** The things-to-do loop never raises. */
  lemma ThingsNeverRaise(entries: seq<(string, Stop)>, repr: Repr)
    ensures !RunSteps(entries, ThingStep(repr)).failed
  {
    RunStepsSpec(entries, ThingStep(repr));
  }

  lemma FlattenSnoc(groups: seq<(string, seq<Stop>)>, i: nat)
    requires i < |groups|
    ensures Flatten(groups[..i + 1]) == Flatten(groups[..i]) + Pairs(groups[i])
  {
    assert groups[..i + 1][..i] == groups[..i];
  }

  /** The outer things_to_do loop, over the activity types in order; the inner loop is CreateRows over one type's locations. */
  method CreateThingsToDo(p: PlaceId, groups: seq<(string, seq<Stop>)>, repr: Repr, start: nat) returns (rows: seq<Row<ThingToDo>>)
    ensures rows == Numbered(p, RunSteps(Flatten(groups), ThingStep(repr)).made, start)
  {
    rows := [];
    ghost var made: seq<ThingToDo> := [];
    var i := 0;
    while i < |groups|
      invariant 0 <= i <= |groups|
      invariant RunSteps(Flatten(groups[..i]), ThingStep(repr)) == Run(made, false)
      invariant rows == Numbered(p, made, start)
    {
      var located, _ := CreateRows(p, Pairs(groups[i]), ThingStep(repr), start + |rows|);
      ghost var more := RunSteps(Pairs(groups[i]), ThingStep(repr));
      ThingsNeverRaise(Pairs(groups[i]), repr);
      FlattenSnoc(groups, i);
      RunStepsAppend(Flatten(groups[..i]), Pairs(groups[i]), ThingStep(repr));
      NumberedAppend(p, made, more.made, start);
      rows := rows + located;
      made := made + more.made;
      i := i + 1;
    }
    assert groups[..i] == groups;
  }

  /** The most famous place is saved when it has a name; a null quote raises. */
  method CreateMostFamous(p: PlaceId, s: Spot, repr: Repr, start: nat) returns (rows: seq<Row<Landmark>>, raised: bool)
    ensures rows == Numbered(p, RunSteps([s], LandmarkStep(repr)).made, start)
    ensures raised == RunSteps([s], LandmarkStep(repr)).failed
  {
    rows, raised := [], false;
    if IsTruthy(s.name) {
      if s.quote.JNull? {
        raised := true;
      } else {
        rows := [Row(start, p, Landmark(Str(s.name, repr), Str(s.quote, repr), s.coordinates.lat, s.coordinates.lng, ""))];
      }
    }
    assert [s][..0] == [];
  }

  /** The most famous place, then, unless it raised, the famous places. */
  method CreateLandmarks(p: PlaceId, d: PlaceData, repr: Repr, t: Tables, start: nat, ghost c: Columns)
    returns (r: Tables, next: nat, raised: bool)
    requires c.mostFamous == RunSteps([d.mostFamous], LandmarkStep(repr)).made
    requires c.famous == if RunSteps([d.mostFamous], LandmarkStep(repr)).failed then [] else RunSteps(d.famousPlaces, LandmarkStep(repr)).made
    ensures var n := Starts(c, start);
            && r == t.(mostFamous := t.mostFamous + Numbered(p, c.mostFamous, n[0]), famous := t.famous + Numbered(p, c.famous, n[1]))
            && next == n[2]
    ensures raised == (RunSteps([d.mostFamous], LandmarkStep(repr)).failed || RunSteps(d.famousPlaces, LandmarkStep(repr)).failed)
  {
    ghost var n := Starts(c, start);
    var mostFamous;
    mostFamous, raised := CreateMostFamous(p, d.mostFamous, repr, start);
    next := start + |mostFamous|;
    assert next == n[1];
    var famous := [];
    if !raised {
      famous, raised := CreateRows(p, d.famousPlaces, LandmarkStep(repr), next);
    }
    assert famous == Numbered(p, c.famous, n[1]);
    next := next + |famous|;
    r := t.(mostFamous := t.mostFamous + mostFamous, famous := t.famous + famous);
  }

  /** Famous activities, once the landmarks are saved; a null time raises. */
  method CreateActivities(p: PlaceId, d: PlaceData, repr: Repr, t: Tables, start: nat, ghost c: Columns, from: nat)
    returns (r: Tables, next: nat, raised: bool)
    requires c.activities == RunSteps(d.famousActivities, ActivityStep(repr)).made
    requires from == Starts(c, start)[2]
    ensures var n := Starts(c, start);
            r == t.(activities := t.activities + Numbered(p, c.activities, n[2])) && next == n[3]
    ensures raised == RunSteps(d.famousActivities, ActivityStep(repr)).failed
  {
    var activities;
    activities, raised := CreateRows(p, d.famousActivities, ActivityStep(repr), from);
    next := from + |activities|;
    r := t.(activities := t.activities + activities);
  }

  /** Seasons, once the famous activities are saved. */
  method CreateSeasons(p: PlaceId, d: PlaceData, t: Tables, start: nat, ghost c: Columns, from: nat)
    returns (r: Tables, next: nat)
    requires c.seasonal == RunSteps(SeasonEntries(d.seasons), SeasonStep()).made
    requires from == Starts(c, start)[3]
    ensures var n := Starts(c, start);
            r == t.(seasonal := t.seasonal + Numbered(p, c.seasonal, n[3])) && next == n[4]
  {
    var seasonal, _ := CreateRows(p, SeasonEntries(d.seasons), SeasonStep(), from);
    next := from + |seasonal|;
    r := t.(seasonal := t.seasonal + seasonal);
  }

  /** Tourist traps, once the seasons are saved; a trap that cannot be sliced raises. */
  method CreateTraps(p: PlaceId, d: PlaceData, repr: Repr, t: Tables, start: nat, ghost c: Columns, from: nat)
    returns (r: Tables, next: nat, raised: bool)
    requires c.traps == RunSteps(d.touristTraps, TrapStep(repr)).made
    requires from == Starts(c, start)[4]
    ensures var n := Starts(c, start);
            && r == t.(traps := t.traps + Numbered(p, c.traps, n[4]))
            && next == n[5]
    ensures raised == RunSteps(d.touristTraps, TrapStep(repr)).failed
  {
    var traps;
    traps, raised := CreateRows(p, d.touristTraps, TrapStep(repr), from);
    next := from + |traps|;
    r := t.(traps := t.traps + traps);
  }

  /** Food specialties and hidden gems, once the traps are saved. */
  method CreateFoodsAndGems(p: PlaceId, d: PlaceData, repr: Repr, t: Tables, start: nat, ghost c: Columns, from: nat)
    returns (r: Tables, next: nat, raised: bool)
    requires c.foods == RunSteps(d.foodSpecialties, FoodStep(repr)).made
    requires c.gems == RunSteps(d.hiddenGems, GemStep(repr)).made
    requires from == Starts(c, start)[5]
    ensures var n := Starts(c, start);
            && r == t.(foods := t.foods + Numbered(p, c.foods, n[5]), gems := t.gems + Numbered(p, c.gems, n[6]))
            && next == n[7]
    ensures raised == RunSteps(d.hiddenGems, GemStep(repr)).failed
  {
    var foods, _ := CreateRows(p, d.foodSpecialties, FoodStep(repr), from);
    next := from + |foods|;
    var gems;
    gems, raised := CreateRows(p, d.hiddenGems, GemStep(repr), next);
    next := next + |gems|;
    r := t.(foods := t.foods + foods, gems := t.gems + gems);
  }

  /** Day activities and, unless one of them raised, things to do, once the gems are saved. */
  method CreateDayPlans(p: PlaceId, d: PlaceData, repr: Repr, t: Tables, start: nat, ghost c: Columns, from: nat)
    returns (r: Tables, next: nat, raised: bool)
    requires c.dayActivities == RunSteps(d.dayActivities, DayStep(repr)).made
    requires c.thingsToDo == if RunSteps(d.dayActivities, DayStep(repr)).failed then [] else RunSteps(Flatten(d.thingsToDo), ThingStep(repr)).made
    requires from == Starts(c, start)[7]
    ensures var n := Starts(c, start);
            && r == t.(dayActivities := t.dayActivities + Numbered(p, c.dayActivities, n[7]),
                       thingsToDo := t.thingsToDo + Numbered(p, c.thingsToDo, n[8]))
            && next == n[9]
    ensures raised == RunSteps(d.dayActivities, DayStep(repr)).failed
  {
    var days;
    days, raised := CreateRows(p, d.dayActivities, DayStep(repr), from);
    next := from + |days|;
    ghost var n := Starts(c, start);
    assert next == n[8];
    var things: seq<Row<ThingToDo>> := [];
    if !raised {
      things := CreateThingsToDo(p, d.thingsToDo, repr, next);
    }
    assert things == Numbered(p, c.thingsToDo, n[8]);
    next := next + |things|;
    r := t.(dayActivities := t.dayActivities + days, thingsToDo := t.thingsToDo + things);
  }

  /** PlanRows table by table: each table gets its loop's rows unless an earlier loop raised. */
  lemma PlanParts(d: PlaceData, repr: Repr)
    ensures var c := PlanRows(d, repr).cols;
            var f1 := RunSteps([d.mostFamous], LandmarkStep(repr)).failed;
            var f2 := f1 || RunSteps(d.famousPlaces, LandmarkStep(repr)).failed;
            var f3 := f2 || RunSteps(d.famousActivities, ActivityStep(repr)).failed;
            var f4 := f3 || RunSteps(d.touristTraps, TrapStep(repr)).failed;
            var f5 := f4 || RunSteps(d.hiddenGems, GemStep(repr)).failed;
            var f6 := f5 || RunSteps(d.dayActivities, DayStep(repr)).failed;
            && c.mostFamous == RunSteps([d.mostFamous], LandmarkStep(repr)).made
            && c.famous == (if f1 then [] else RunSteps(d.famousPlaces, LandmarkStep(repr)).made)
            && c.activities == (if f2 then [] else RunSteps(d.famousActivities, ActivityStep(repr)).made)
            && c.seasonal == (if f3 then [] else RunSteps(SeasonEntries(d.seasons), SeasonStep()).made)
            && c.traps == (if f3 then [] else RunSteps(d.touristTraps, TrapStep(repr)).made)
            && c.foods == (if f4 then [] else RunSteps(d.foodSpecialties, FoodStep(repr)).made)
            && c.gems == (if f4 then [] else RunSteps(d.hiddenGems, GemStep(repr)).made)
            && c.dayActivities == (if f5 then [] else RunSteps(d.dayActivities, DayStep(repr)).made)
            && c.thingsToDo == (if f6 then [] else RunSteps(Flatten(d.thingsToDo), ThingStep(repr)).made)
            && (PlanRows(d, repr).failed <==> f6)
  {
  }

  lemma AddRowsFields(t: Tables, p: PlaceId, c: Columns, start: nat)
    ensures var a := AddRows(t, p, c, start); var n := Starts(c, start);
            && a.mostFamous == t.mostFamous + Numbered(p, c.mostFamous, n[0]) && a.famous == t.famous + Numbered(p, c.famous, n[1])
            && a.activities == t.activities + Numbered(p, c.activities, n[2]) && a.seasonal == t.seasonal + Numbered(p, c.seasonal, n[3])
            && a.traps == t.traps + Numbered(p, c.traps, n[4]) && a.foods == t.foods + Numbered(p, c.foods, n[5])
            && a.gems == t.gems + Numbered(p, c.gems, n[6]) && a.dayActivities == t.dayActivities + Numbered(p, c.dayActivities, n[7])
            && a.thingsToDo == t.thingsToDo + Numbered(p, c.thingsToDo, n[8])
  {
  }

  /** Tables are equal when each of their nine tables is. */
  lemma SameTables(a: Tables, b: Tables)
    requires a.mostFamous == b.mostFamous && a.famous == b.famous && a.activities == b.activities
    requires a.seasonal == b.seasonal && a.traps == b.traps && a.foods == b.foods
    requires a.gems == b.gems && a.dayActivities == b.dayActivities && a.thingsToDo == b.thingsToDo
    ensures a == b
  {
  }

  /** Every saving loop of save_generate_data in order, appending to t; a raise stops the save. */
  method CreateAll(p: PlaceId, d: PlaceData, repr: Repr, t: Tables, start: nat) returns (r: Tables, next: nat, raised: bool)
    ensures r == AddRows(t, p, PlanRows(d, repr).cols, start)
    ensures next == start + Size(PlanRows(d, repr).cols)
    ensures raised == PlanRows(d, repr).failed
  {
    ghost var c := PlanRows(d, repr).cols;
    ghost var a := AddRows(t, p, c, start);
    PlanParts(d, repr);
    AddRowsFields(t, p, c, start);
    r, next, raised := CreateLandmarks(p, d, repr, t, start, c);
    if !raised {
      r, next, raised := CreateActivities(p, d, repr, r, start, c, next);
      if !raised {
        r, next := CreateSeasons(p, d, r, start, c, next);
        r, next, raised := CreateTraps(p, d, repr, r, start, c, next);
        if !raised {
          r, next, raised := CreateFoodsAndGems(p, d, repr, r, start, c, next);
          if !raised {
            r, next, raised := CreateDayPlans(p, d, repr, r, start, c, next);
          }
        }
      }
    }
    SameTables(r, a);
  }

  /**
   * The first writes of save_generate_data: the visual theme, when the reply
   * has one, and the insights record, one version up and current for 90
   * days, keeping when it was last requested. A theme with a null color or
   * tags raises before either is written.
   */
  method UpsertInsights(c: Catalog, p: PlaceId, d: PlaceData, now: int, repr: Repr) returns (raised: bool)
    requires c.Valid() && p in c.places
    modifies c
    ensures c.Valid()
    ensures raised == ThemeRefused(d.visualTheme)
    ensures raised ==> unchanged(c)
    ensures !raised ==> c.places == old(c.places)[p := Themed(old(c.places)[p], d.visualTheme, repr)]
    ensures !raised ==> c.insights == old(c.insights)[p := Upserted(old(c.insights), p, d, now)]
    ensures c.tables == old(c.tables) && c.nextRow == old(c.nextRow) && c.nextPlace == old(c.nextPlace)
  {
    if ThemeRefused(d.visualTheme) {
      return true;
    }
    raised := false;
    var version := if p in c.insights then c.insights[p].version + 1 else 1;
    var lastRequested := if p in c.insights then c.insights[p].lastRequested else None;
    if d.visualTheme != [] {
      var place := c.places[p];
      c.places := c.places[p := place.(themeColor := Str(GetOr(d.visualTheme, "color", NoText), repr),
                                       visualTags := Str(GetOr(d.visualTheme, "tags", NoText), repr))];
    }
    c.insights := c.insights[p := PlaceInsights(d.mainQuote, d.subQuote, d.description, false, now + Lifetime, lastRequested, version)];
    assert c.places.Keys == old(c.places).Keys;
  }

  /**
   * The rest of save_generate_data: delete p's rows from the nine tables,
   * then run the saving loops; `raised` when a loop raised part-way.
   */
  method ReplaceRows(c: Catalog, p: PlaceId, d: PlaceData, repr: Repr) returns (raised: bool)
    requires c.Valid() && p in c.places
    modifies c
    ensures c.Valid()
    ensures c.tables == Rebuilt(old(c.tables), p, d, repr, old(c.nextRow))
    ensures c.nextRow == old(c.nextRow) + Size(PlanRows(d, repr).cols)
    ensures raised == PlanRows(d, repr).failed
    ensures c.places == old(c.places) && c.insights == old(c.insights) && c.nextPlace == old(c.nextPlace)
  {
    RebuiltConsistent(c.places, c.insights, c.tables, c.nextPlace, c.nextRow, p, d, repr);
    c.tables, c.nextRow, raised := CreateAll(p, d, repr, ClearPlace(c.tables, p), c.nextRow);
  }

  /** Replacing one place's rows keeps the catalog's invariant. */
  lemma RebuiltConsistent(places: map<PlaceId, Place>, insights: map<PlaceId, PlaceInsights>, t: Tables, nextPlace: nat, start: nat,
                          p: PlaceId, d: PlaceData, repr: Repr)
    requires Consistent(places, insights, t, nextPlace, start) && p in places
    ensures Consistent(places, insights, Rebuilt(t, p, d, repr, start), nextPlace, start + Size(PlanRows(d, repr).cols))
  {
    RebuiltSpec(t, places.Keys, start, p, d, repr);
    RebuiltSeasonsDistinct(t, places.Keys, start, p, d, repr);
  }

  /** What save_generate_data returns: None for no data, the saved record, or an exception it raised. */
  datatype SaveResult = NothingToSave | Saved(record: PlaceInsights) | SaveRaised

  /**
   * save_generate_data: bump the version, apply the visual theme, upsert
   * the insights record, delete p's rows in every table and create the new
   * ones loop by loop. A null theme color or tags raises before anything is
   * written; a loop that raises (PlanFailsSpec) leaves the rows created so
   * far. The images the image service fetches
   * afterwards are not part of this model.
   */
  method SaveGenerateData(c: Catalog, p: PlaceId, insights: Option<PlaceData>, now: int, repr: Repr) returns (result: SaveResult)
    requires c.Valid() && p in c.places
    modifies c
    ensures c.Valid()
    ensures c.places.Keys == old(c.places.Keys)
    ensures forall q :: q in c.places ==> Key(c.places[q]) == Key(old(c.places)[q])
    ensures insights.None? ==> result == NothingToSave && unchanged(c)
    ensures insights.Some? && ThemeRefused(insights.value.visualTheme) ==> result == SaveRaised && unchanged(c)
    ensures insights.Some? && !ThemeRefused(insights.value.visualTheme) ==>
              && c.places == old(c.places)[p := Themed(old(c.places)[p], insights.value.visualTheme, repr)]
              && c.insights == old(c.insights)[p := Upserted(old(c.insights), p, insights.value, now)]
              && c.tables == Rebuilt(old(c.tables), p, insights.value, repr, old(c.nextRow))
              && c.nextRow == old(c.nextRow) + Size(PlanRows(insights.value, repr).cols)
              && c.nextPlace == old(c.nextPlace)
              && result == if PlanRows(insights.value, repr).failed then SaveRaised else Saved(c.insights[p])
  {
    if insights.None? {
      return NothingToSave;
    }
    var d := insights.value;
    var refused := UpsertInsights(c, p, d, now, repr);
    if refused {
      return SaveRaised;
    }
    var raised := ReplaceRows(c, p, d, repr);
    result := if raised then SaveRaised else Saved(c.insights[p]);
  }

  /** Cached insights are served while they have not expired and are not marked stale. */
  predicate Current(i: PlaceInsights, now: int)
  {
    !(i.expiresAt < now || i.isStale)
  }

  /** Freshly saved insights are served from the cache for exactly the next 90 days. */
  lemma SavedStaysCurrent(existing: map<PlaceId, PlaceInsights>, p: PlaceId, d: PlaceData, saved: int, later: int)
    ensures Current(Upserted(existing, p, d, saved), later) <==> later <= saved + Lifetime
  {
  }

  /** The (city, state, country) key of a place. */
  function Key(place: Place): (string, string, string)
  {
    (place.city, place.state, place.country)
  }

  /** Place.objects.get_or_create by the (city, state, country) key. */
  method GetOrCreatePlace(c: Catalog, city: string, state: string, country: string) returns (place: PlaceId)
    requires c.Valid()
    modifies c
    ensures c.Valid()
    ensures place in c.places && Key(c.places[place]) == (city, state, country)
    ensures place in old(c.places) ==> c.places == old(c.places) && c.nextPlace == old(c.nextPlace)
    ensures place !in old(c.places) ==>
              && (forall q :: q in old(c.places) ==> Key(old(c.places)[q]) != (city, state, country))
              && place == old(c.nextPlace)
              && c.places == old(c.places)[place := NewPlace(city, state, country)]
              && c.nextPlace == old(c.nextPlace) + 1
    ensures c.insights == old(c.insights) && c.tables == old(c.tables) && c.nextRow == old(c.nextRow)
  {
    if q :| q in c.places && Key(c.places[q]) == (city, state, country) {
      place := q;
    } else {
      place := c.nextPlace;
      c.places := c.places[place := NewPlace(city, state, country)];
      c.nextPlace := c.nextPlace + 1;
    }
  }

  /** place_insights.last_requested = now, saved. */
  method MarkRequested(c: Catalog, place: PlaceId, now: int) returns (record: PlaceInsights)
    requires c.Valid() && place in c.insights
    modifies c
    ensures c.Valid()
    ensures record == old(c.insights)[place].(lastRequested := Some(now))
    ensures c.insights == old(c.insights)[place := record]
    ensures c.places == old(c.places) && c.tables == old(c.tables) && c.nextPlace == old(c.nextPlace) && c.nextRow == old(c.nextRow)
  {
    record := c.insights[place].(lastRequested := Some(now));
    c.insights := c.insights[place := record];
  }

  /** What fetch_or_generate_insights returns: the record, and whether it was generated now; or the error it raised. */
  datatype FetchResult = Fetched(record: PlaceInsights, regenerated: bool) | FetchFailed

  /**
   * fetch_or_generate_insights: find or create the place by its stripped
   * name parts; serve its insights when they are current; otherwise save
   * what the generator produced (`generated`, None when it failed or
   * returned nothing, which raises ValueError). A served or saved record
   * has its last request time set to now.
   */
  method FetchOrGenerateInsights(c: Catalog, city: string, state: string, country: string, now: int,
                                 generated: Option<PlaceData>, repr: Repr)
    returns (place: PlaceId, result: FetchResult)
    requires c.Valid()
    modifies c
    ensures c.Valid()
    ensures place in c.places && Key(c.places[place]) == (Strip(city), Strip(state), Strip(country))
    ensures place in old(c.places) <==> exists q :: q in old(c.places) && Key(old(c.places)[q]) == (Strip(city), Strip(state), Strip(country))
    ensures place in old(c.insights) && Current(old(c.insights)[place], now) ==>
              && result == Fetched(old(c.insights)[place].(lastRequested := Some(now)), false)
              && c.insights == old(c.insights)[place := result.record]
              && c.tables == old(c.tables) && c.nextRow == old(c.nextRow)
    ensures !(place in old(c.insights) && Current(old(c.insights)[place], now)) && generated.None? ==>
              result == FetchFailed && c.insights == old(c.insights) && c.tables == old(c.tables)
    ensures !(place in old(c.insights) && Current(old(c.insights)[place], now)) && generated.Some? &&
            ThemeRefused(generated.value.visualTheme) ==>
              result == FetchFailed && c.insights == old(c.insights) && c.tables == old(c.tables) && c.nextRow == old(c.nextRow)
    ensures !(place in old(c.insights) && Current(old(c.insights)[place], now)) && generated.Some? &&
            !ThemeRefused(generated.value.visualTheme) ==>
              var d := generated.value;
              var saved := Upserted(old(c.insights), place, d, now);
              && c.tables == Rebuilt(old(c.tables), place, d, repr, old(c.nextRow))
              && (result.Fetched? <==> !PlanRows(d, repr).failed)
              && (result.Fetched? ==> result == Fetched(saved.(lastRequested := Some(now)), true) &&
                                      c.insights == old(c.insights)[place := result.record])
              && (result.FetchFailed? ==> c.insights == old(c.insights)[place := saved])
  {
    place := GetOrCreatePlace(c, Strip(city), Strip(state), Strip(country));
    if place in c.insights && Current(c.insights[place], now) {
      var record := MarkRequested(c, place, now);
      result := Fetched(record, false);
    } else {
      result := Regenerate(c, place, generated, now, repr);
    }
  }

  /** The branch of fetch_or_generate_insights that calls the generator and saves its reply. */
  method Regenerate(c: Catalog, place: PlaceId, generated: Option<PlaceData>, now: int, repr: Repr) returns (result: FetchResult)
    requires c.Valid() && place in c.places
    modifies c
    ensures c.Valid()
    ensures c.places.Keys == old(c.places.Keys) && c.nextPlace == old(c.nextPlace)
    ensures forall q :: q in c.places ==> Key(c.places[q]) == Key(old(c.places)[q])
    ensures generated.None? ==> result == FetchFailed && unchanged(c)
    ensures generated.Some? && ThemeRefused(generated.value.visualTheme) ==> result == FetchFailed && unchanged(c)
    ensures generated.Some? && !ThemeRefused(generated.value.visualTheme) ==>
              var d := generated.value;
              var saved := Upserted(old(c.insights), place, d, now);
              && c.tables == Rebuilt(old(c.tables), place, d, repr, old(c.nextRow))
              && (result.Fetched? <==> !PlanRows(d, repr).failed)
              && (result.Fetched? ==> result == Fetched(saved.(lastRequested := Some(now)), true) &&
                                      c.insights == old(c.insights)[place := result.record])
              && (result.FetchFailed? ==> c.insights == old(c.insights)[place := saved])
  {
    if generated.None? {
      return FetchFailed;
    }
    result := SaveAndServe(c, place, generated.value, now, repr);
  }

  /** The regeneration path once the generator has produced a reply. */
  method SaveAndServe(c: Catalog, place: PlaceId, d: PlaceData, now: int, repr: Repr) returns (result: FetchResult)
    requires c.Valid() && place in c.places
    modifies c
    ensures c.Valid()
    ensures ThemeRefused(d.visualTheme) ==> result == FetchFailed && unchanged(c)
    ensures !ThemeRefused(d.visualTheme) ==> c.places == old(c.places)[place := Themed(old(c.places)[place], d.visualTheme, repr)]
    ensures c.nextPlace == old(c.nextPlace)
    ensures !ThemeRefused(d.visualTheme) ==> c.tables == Rebuilt(old(c.tables), place, d, repr, old(c.nextRow))
    ensures result.Fetched? <==> !ThemeRefused(d.visualTheme) && !PlanRows(d, repr).failed
    ensures result.Fetched? ==> result == Fetched(Upserted(old(c.insights), place, d, now).(lastRequested := Some(now)), true)
    ensures result.Fetched? ==> c.insights == old(c.insights)[place := result.record]
    ensures result.FetchFailed? && !ThemeRefused(d.visualTheme) ==>
              c.insights == old(c.insights)[place := Upserted(old(c.insights), place, d, now)]
  {
    ghost var before := c.insights;
    var saved := SaveGenerateData(c, place, Some(d), now, repr);
    if saved.SaveRaised? {
      return FetchFailed;
    }
    ghost var mid := c.insights;
    var record := MarkRequested(c, place, now);
    UpdatedTwice(before, place, mid[place], record);
    result := Fetched(record, true);
  }
}
