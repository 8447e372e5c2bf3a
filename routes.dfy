/** The two Flask handlers with logic of their own: `get_content`, which
    picks one of three text generators by category, and `search_location`,
    which geocodes the form's postal code and, only when that succeeds,
    looks up hospitals and draws the map. */
module Routes {
  import opened Optional
  import opened Json
  import opened Http
  import opened Geocoding
  import opened PlaceSearch
  import opened MapRenderer

  /** The three content generators (the language-model chains). */
  datatype Generator = FoodExercise | Routine | KeyFacts

  const NoContent: string := "No content available."

  /** The category path segment that selects each generator. */
  function CategoryOf(g: Generator): string {
    match g
    case FoodExercise => "food"
    case Routine => "routine"
    case KeyFacts => "important"
  }

  /** The `if`/`elif` chain of `get_content`: the generator to call, or
      none for an unknown category. */
  function Dispatch(category: string): (g: Option<Generator>)
    ensures g.Some? ==> CategoryOf(g.value) == category
    ensures g.None? <==> category != "food" && category != "routine" && category != "important"
  {
    if category == "food" then Some(FoodExercise)
    else if category == "routine" then Some(Routine)
    else if category == "important" then Some(KeyFacts)
    else None
  }

  /** Every generator is reachable, by exactly its own category. */
  lemma DispatchInvertsCategory(g: Generator, category: string)
    ensures Dispatch(CategoryOf(g)) == Some(g)
    ensures Dispatch(category) == Some(g) <==> category == CategoryOf(g)
  {
  }

  /** `get_content(category)`: the JSON body `{"content": ...}`. What a
      generator produces is the parameter `generate`. */
  function GetContent(category: string, generate: Generator -> string): (body: Json)
    ensures body.Object? && body.fields.Keys == {"content"}
    ensures category == "food" ==> body.fields["content"] == Str(generate(FoodExercise))
    ensures category == "routine" ==> body.fields["content"] == Str(generate(Routine))
    ensures category == "important" ==> body.fields["content"] == Str(generate(KeyFacts))
    ensures Dispatch(category).None? ==> body.fields["content"] == Str(NoContent)
  {
    match Dispatch(category)
    case Some(g) => Object(map["content" := Str(generate(g))])
    case None => Object(map["content" := Str(NoContent)])
  }

  /** The radius `search_location` asks for, in metres. */
  const SearchRadius: int := 8000

  /** The error shown when geocoding fails, exactly as the source spells it. */
  const LocateError: string := "\U{201A}\U{F9}\U{E5} Could not locate that postal code."

  /** `url_for('static', filename='hospitals_near_me.html')`. */
  const MapUrl: string := "/static/hospitals_near_me.html"

  /** The arguments `map.html` is rendered with. */
  datatype MapPage =
    | ErrorPage(error: string, hospitals: seq<Hospital>)
    | ResultsPage(hospitals: seq<Hospital>, zipCode: Option<string>, country: Option<string>, mapFile: string)

  /** The gate `if not lat or not lon`: the hospital query to issue, or
      none when either coordinate is falsy. Geocoding's "not found" never
      gets through, a truthy point always does, and every query that is
      issued is at a truthy point with the search radius. */
  function LookupFor(c: Coordinates): (q: Option<HospitalQuery>)
    ensures c == NotFound ==> q.None?
    ensures Truthy(c.lat) && Truthy(c.lon) ==> q.Some?
    ensures q.Some? ==> && q.value.lat == c.lat && q.value.lon == c.lon
                        && Truthy(q.value.lat) && Truthy(q.value.lon)
                        && q.value.radius == SearchRadius
  {
    if !Truthy(c.lat) || !Truthy(c.lon) then None else Some(HospitalQuery(c.lat, c.lon, SearchRadius))
  }

  /** Every "not found" from geocoding is turned back; so, because the
      test is truthiness, is a location reported at latitude or longitude 0. */
  lemma GateRefusesNotFound(lat: real, lon: real)
    requires lat == 0.0 || lon == 0.0
    ensures LookupFor(NotFound) == None
    ensures LookupFor(Coordinates(Number(lat), Number(lon))) == None
  {
  }

  /** `search_location()` with the form fields `zip` and `country`, the
      environment's key, the two services and whether the map file can be
      written. The Overpass queries the handler sends are recorded in
      `overpass.sent`. */
  method SearchLocation(site: OutputFile, zip: Option<string>, country: Option<string>,
                        apiKey: Option<string>, geocoder: GeocodeRequest -> Reply,
                        overpass: OverpassService, writable: bool)
    returns (page: MapPage)
    modifies site, overpass
    ensures var c := GetCoordinates(zip, country, apiKey, geocoder);
      var lookup := LookupFor(c);
      && (lookup.None? ==>
            && page == ErrorPage(LocateError, [])
            && overpass.sent == old(overpass.sent)
            && site.document == old(site.document))
      && (lookup.Some? ==>
            var hospitals := HospitalsIn(overpass.answer(lookup.value));
            && overpass.sent == old(overpass.sent) + [lookup.value]
            && page == ResultsPage(hospitals, zip, country, MapUrl)
            && site.document == (if writable then Some(MapDocument(c.lat, c.lon, hospitals, zip, country))
                                 else old(site.document)))
  {
    var c := GetCoordinates(zip, country, apiKey, geocoder);
    if !Truthy(c.lat) || !Truthy(c.lon) {
      return ErrorPage(LocateError, []);
    }
    var hospitals := GetHospitals(overpass, c.lat, c.lon, SearchRadius);
    // The path create_map returns is not looked at: the page links the map
    // file whether or not it was written.
    var _ := CreateMap(site, c.lat, c.lon, hospitals, zip, country, writable);
    page := ResultsPage(hospitals, zip, country, MapUrl);
  }
}
