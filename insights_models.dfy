// insights/models.py: places, their cached insights, and the catalog rows
// (landmarks, hidden gems, tourist traps, things to do, ...) that the
// travel services search by distance.
module InsightsModels {
  import opened Common
  import opened Seqs
  import opened Text

  type PlaceId = nat
  /** The primary key of a catalog row; suggestions and hotspots refer to it. */
  type RowId = nat

  datatype Place = Place(
    city: string,
    state: string,
    country: string,
    latitude: Option<real>,
    longitude: Option<real>,
    image: string,
    themeColor: string,
    visualTags: string)

  /** A place as get_or_create makes it: only the three name parts set. */
  function NewPlace(city: string, state: string, country: string): (p: Place)
    ensures p.city == city && p.state == state && p.country == country
    ensures p.latitude.None? && p.longitude.None? && p.image == "" && p.themeColor == "" && p.visualTags == ""
  {
    Place(city, state, country, None, None, "", "", "")
  }

  /**
   * The "city, state, country" name of a place, with the state left out
   * (and no empty part) when it is blank: Place.__str__ and the place name
   * of the generator prompt.
   */
  function PlaceName(city: string, state: string, country: string): string
  {
    if state != "" then city + ", " + state + ", " + country else city + ", " + country
  }

  function PlaceLabel(p: Place): string
  {
    PlaceName(p.city, p.state, p.country)
  }

  predicate NoComma(s: string)
  {
    forall i :: 0 <= i < |s| ==> s[i] != ','
  }

  /** In a + ", " + b with a free of commas, the first comma ends a. */
  lemma FirstComma(a: string, b: string)
    requires NoComma(a)
    ensures IndexOf(a + ", " + b, ',') == |a|
  {
    var s := a + ", " + b;
    assert s[|a|] == ',';
    assert forall k :: 0 <= k < |a| ==> s[k] == a[k];
  }

  /** In a + ", " + b with b free of commas, the last comma ends a. */
  lemma LastComma(a: string, b: string)
    requires NoComma(b)
    ensures LastIndexOf(a + ", " + b, ',') == |a|
  {
    var s := a + ", " + b;
    CommaBeforeClean(a, b);
    LastIndexOfAt(s, ',', |a|);
  }

  lemma CommaBeforeClean(a: string, b: string)
    requires NoComma(b)
    ensures var s := a + ", " + b; s[|a|] == ',' && forall k :: |a| < k < |s| ==> s[k] != ','
  {
    var s := a + ", " + b;
    assert s[|a| + 1] == ' ';
    forall k | |a| + 2 <= k < |s|
      ensures s[k] != ','
    {
      assert s[k] == b[k - |a| - 2];
    }
  }

  /**
   * When no part holds a comma, the name determines the place's
   * (city, state, country) key: two places with the same label are the same
   * place under the uniqueness constraint, and the label never shows an
   * empty state.
   */
  lemma PlaceNameInjective(c1: string, s1: string, n1: string, c2: string, s2: string, n2: string)
    requires NoComma(c1) && NoComma(s1) && NoComma(n1) && NoComma(c2) && NoComma(s2) && NoComma(n2)
    requires PlaceName(c1, s1, n1) == PlaceName(c2, s2, n2)
    ensures c1 == c2 && s1 == s2 && n1 == n2
  {
    PlaceNameSplit(c1, s1, n1);
    PlaceNameSplit(c2, s2, n2);
  }

  /** Where the commas of a place name fall, and so where each part sits in it. */
  lemma PlaceNameSplit(c: string, s: string, n: string)
    requires NoComma(c) && NoComma(s) && NoComma(n)
    ensures var l := PlaceName(c, s, n);
            var i, j := IndexOf(l, ','), LastIndexOf(l, ',');
            0 <= i <= j && j + 2 <= |l| && c == l[..i] && n == l[j + 2..] &&
            (s != "" <==> i != j) && (s != "" ==> i + 2 <= j && s == l[i + 2..j])
  {
    if s != "" {
      var head := c + ", " + s;
      var l := head + ", " + n;
      assert l == c + ", " + (s + ", " + n);
      FirstComma(c, s + ", " + n);
      LastComma(head, n);
      assert l[..|c|] == c;
      assert l[|head| + 2..] == n;
      assert l[|c| + 2..|head|] == s;
    } else {
      var l := c + ", " + n;
      FirstComma(c, n);
      LastComma(c, n);
      assert l[..|c|] == c;
      assert l[|c| + 2..] == n;
    }
  }

  /** The one-to-one PlaceInsights of a place. */
  datatype PlaceInsights = PlaceInsights(
    mainQuote: string,
    subQuote: string,
    description: string,
    isStale: bool,
    expiresAt: int,
    lastRequested: Option<int>,
    version: int)

  /** The insights a model default gives: version 1, not stale. */
  function DefaultInsights(expiresAt: int): (i: PlaceInsights)
    ensures i.version == 1 && !i.isStale && i.expiresAt == expiresAt && i.lastRequested.None?
  {
    PlaceInsights("", "", "", false, expiresAt, None, 1)
  }

  /** A catalog row: its primary key, the place it belongs to, and its columns. */
  datatype Row<D> = Row(id: RowId, place: PlaceId, data: D)

  /** MostFamousPlace and FamousPlace share these columns; coordinates are required. */
  datatype Landmark = Landmark(name: string, quote: string, latitude: real, longitude: real, image: string)
  datatype FamousActivity = FamousActivity(name: string, time: string)
  datatype Season = Season(season: string, description: string, recommendedActivities: seq<string>, cautions: seq<string>)
  datatype TouristTrap = TouristTrap(name: string, latitude: real, longitude: real, reason: string)
  datatype FoodSpecialty = FoodSpecialty(name: string, description: Option<string>)
  /** Hidden gems may lack coordinates. */
  datatype HiddenGem = HiddenGem(name: string, description: string, latitude: Option<real>, longitude: Option<real>)
  datatype DayActivity = DayActivity(activity: string, dayTime: string, time: string)
  /** Things to do may lack coordinates and have no name column. */
  datatype ThingToDo = ThingToDo(activityType: string, location: string, time: Option<string>,
                                 latitude: Option<real>, longitude: Option<real>)

  /** The coordinates of a row whose columns are nullable: a point only when both are present. */
  function BothCoordinates(lat: Option<real>, lng: Option<real>): (r: Option<Point>)
    ensures r.Some? <==> lat.Some? && lng.Some?
    ensures r.Some? ==> r.value == Point(lat.value, lng.value)
  {
    if lat.Some? && lng.Some? then Some(Point(lat.value, lng.value)) else None
  }

  /** Every row belongs to an existing place and has an id below the next one to hand out. */
  ghost predicate Owned<D>(rows: seq<Row<D>>, places: set<PlaceId>, nextRow: nat)
  {
    forall r :: r in rows ==> r.place in places && r.id < nextRow
  }

  /** The rows of every place but p. */
  function NotOf<D>(p: PlaceId): Row<D> -> bool
  {
    (r: Row<D>) => r.place != p
  }

  /** The rows of place p. */
  function Of<D>(p: PlaceId): Row<D> -> bool
  {
    (r: Row<D>) => r.place == p
  }

  /** unique_together (place, season). */
  function DistinctSeasons(x: Row<Season>, y: Row<Season>): bool
  {
    !(x.place == y.place && x.data.season == y.data.season)
  }

  /** The nine catalog tables that hang off a place, each in insertion order. */
  datatype Tables = Tables(
    mostFamous: seq<Row<Landmark>>,
    famous: seq<Row<Landmark>>,
    activities: seq<Row<FamousActivity>>,
    seasonal: seq<Row<Season>>,
    traps: seq<Row<TouristTrap>>,
    foods: seq<Row<FoodSpecialty>>,
    gems: seq<Row<HiddenGem>>,
    dayActivities: seq<Row<DayActivity>>,
    thingsToDo: seq<Row<ThingToDo>>)

  const NoTables := Tables([], [], [], [], [], [], [], [], [])

  ghost predicate TablesOwned(t: Tables, places: set<PlaceId>, nextRow: nat)
  {
    Owned(t.mostFamous, places, nextRow) && Owned(t.famous, places, nextRow) &&
    Owned(t.activities, places, nextRow) && Owned(t.seasonal, places, nextRow) &&
    Owned(t.traps, places, nextRow) && Owned(t.foods, places, nextRow) &&
    Owned(t.gems, places, nextRow) && Owned(t.dayActivities, places, nextRow) &&
    Owned(t.thingsToDo, places, nextRow)
  }

  /** Every table restricted to the rows of place q. */
  function RowsOf(t: Tables, q: PlaceId): Tables
  {
    Tables(Filter(t.mostFamous, Of(q)), Filter(t.famous, Of(q)), Filter(t.activities, Of(q)),
           Filter(t.seasonal, Of(q)), Filter(t.traps, Of(q)), Filter(t.foods, Of(q)),
           Filter(t.gems, Of(q)), Filter(t.dayActivities, Of(q)), Filter(t.thingsToDo, Of(q)))
  }

  /** Every table with the rows of place p deleted (queryset.delete() on each table, or the cascade). */
  function ClearPlace(t: Tables, p: PlaceId): Tables
  {
    Tables(Filter(t.mostFamous, NotOf(p)), Filter(t.famous, NotOf(p)), Filter(t.activities, NotOf(p)),
           Filter(t.seasonal, NotOf(p)), Filter(t.traps, NotOf(p)), Filter(t.foods, NotOf(p)),
           Filter(t.gems, NotOf(p)), Filter(t.dayActivities, NotOf(p)), Filter(t.thingsToDo, NotOf(p)))
  }

  /** Deleting p's rows from one table: none of p's stay, every other place keeps exactly its rows, and ownership holds without p. */
  lemma {:induction false} ClearTable<D(!new)>(rows: seq<Row<D>>, places: set<PlaceId>, nextRow: nat, p: PlaceId)
    requires Owned(rows, places, nextRow)
    ensures Owned(Filter(rows, NotOf(p)), places - {p}, nextRow)
    ensures Filter(Filter(rows, NotOf(p)), Of(p)) == []
    ensures forall q :: q != p ==> Filter(Filter(rows, NotOf(p)), Of(q)) == Filter(rows, Of(q))
  {
    if rows != [] {
      assert forall r :: r in rows[1..] ==> r in rows;
      ClearTable(rows[1..], places, nextRow, p);
    }
  }

  /**
   * Clearing a place's rows removes all of them and nothing else: every
   * other place's rows are as before, and the tables remain owned by the
   * places that are left.
   */
  lemma ClearPlaceSpec(t: Tables, places: set<PlaceId>, nextRow: nat, p: PlaceId)
    requires TablesOwned(t, places, nextRow)
    ensures TablesOwned(ClearPlace(t, p), places - {p}, nextRow)
    ensures TablesOwned(ClearPlace(t, p), places, nextRow)
    ensures RowsOf(ClearPlace(t, p), p) == NoTables
    ensures forall q :: q != p ==> RowsOf(ClearPlace(t, p), q) == RowsOf(t, q)
    ensures Pairwise(t.seasonal, DistinctSeasons) ==> Pairwise(ClearPlace(t, p).seasonal, DistinctSeasons)
  {
    ClearTable(t.mostFamous, places, nextRow, p);
    ClearTable(t.famous, places, nextRow, p);
    ClearTable(t.activities, places, nextRow, p);
    ClearTable(t.seasonal, places, nextRow, p);
    ClearTable(t.traps, places, nextRow, p);
    ClearTable(t.foods, places, nextRow, p);
    ClearTable(t.gems, places, nextRow, p);
    ClearTable(t.dayActivities, places, nextRow, p);
    ClearTable(t.thingsToDo, places, nextRow, p);
    if Pairwise(t.seasonal, DistinctSeasons) {
      FilterPairwise(t.seasonal, NotOf(p), DistinctSeasons);
    }
  }

  /** (city, state, country) is unique, ids are fresh, and every row belongs to an existing place. */
  ghost predicate Consistent(places: map<PlaceId, Place>, insights: map<PlaceId, PlaceInsights>, tables: Tables,
                             nextPlace: nat, nextRow: nat)
  {
    (forall a, b :: a in places && b in places && a != b ==>
       (places[a].city, places[a].state, places[a].country) != (places[b].city, places[b].state, places[b].country)) &&
    (forall p :: p in places ==> p < nextPlace) &&
    insights.Keys <= places.Keys &&
    TablesOwned(tables, places.Keys, nextRow) &&
    Pairwise(tables.seasonal, DistinctSeasons)
  }

  /** The insights tables: places, their insights, and the catalog rows. */
  class Catalog {
    var places: map<PlaceId, Place>
    var insights: map<PlaceId, PlaceInsights>     // keyed by the place it belongs to
    var tables: Tables
    var nextPlace: nat
    var nextRow: nat

    ghost predicate Valid()
      reads this
    {
      Consistent(places, insights, tables, nextPlace, nextRow)
    }

    constructor ()
      ensures Valid()
      ensures places == map[] && insights == map[] && tables == NoTables
    {
      places, insights, tables := map[], map[], NoTables;
      nextPlace, nextRow := 0, 0;
    }

    /**
     * Deleting a place cascades to its insights and to every catalog row
     * that belongs to it (ClearPlaceSpec: those and nothing else).
     */
    method DeletePlace(p: PlaceId)
      requires Valid()
      modifies this
      ensures Valid()
      ensures places == old(places) - {p} && insights == old(insights) - {p}
      ensures tables == ClearPlace(old(tables), p)
      ensures nextPlace == old(nextPlace) && nextRow == old(nextRow)
    {
      ClearPlaceSpec(tables, places.Keys, nextRow, p);
      tables := ClearPlace(tables, p);
      places := places - {p};
      insights := insights - {p};
    }
  }
}
