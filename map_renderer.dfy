/** `create_map`: a folium map centred on the user, one "home" marker for
    the user and one "plus-sign" marker per hospital, saved to a fixed
    path. The map is abstracted to its centre, zoom, tile set and the
    sequence of markers added to it. */
module MapRenderer {
  import opened Optional
  import opened Json
  import Geocoding
  import opened PlaceSearch

  datatype Icon = Icon(color: string, glyph: string)

  const HomeIcon: Icon := Icon("blue", "home")
  const HospitalIcon: Icon := Icon("red", "plus-sign")

  /** `folium.Marker([lat, lon], popup=..., icon=...)`. */
  datatype Marker = Marker(lat: Json, lon: Json, popup: Json, icon: Icon)

  /** What `fmap.save` writes: the map's settings and its markers. */
  datatype Document = Document(lat: Json, lon: Json, zoom: int, tiles: string, markers: seq<Marker>)

  const Zoom: int := 13
  const Tiles: string := "CartoDB positron"

  /** `os.path.join("static", "hospitals_near_me.html")`. */
  const OutputPath: string := "static/hospitals_near_me.html"

  /** `f"{postal_code}, {country}\n(You are here)"`. */
  function HomePopup(postalCode: Option<string>, country: Option<string>): string {
    Geocoding.Address(postalCode, country) + "\n(You are here)"
  }

  function HomeMarker(lat: Json, lon: Json, postalCode: Option<string>, country: Option<string>): Marker {
    Marker(lat, lon, Str(HomePopup(postalCode, country)), HomeIcon)
  }

  function HospitalMarker(h: Hospital): Marker {
    Marker(h.lat, h.lon, h.name, HospitalIcon)
  }

  /** One marker per hospital, in list order. */
  function HospitalMarkers(hs: seq<Hospital>): (ms: seq<Marker>)
    ensures |ms| == |hs|
    ensures forall k :: 0 <= k < |hs| ==> ms[k] == HospitalMarker(hs[k])
    decreases |hs|
  {
    if hs == [] then [] else HospitalMarkers(hs[..|hs| - 1]) + [HospitalMarker(hs[|hs| - 1])]
  }

  /** The markers of the map for a search: the home marker, then the
      hospitals' markers. */
  function Markers(lat: Json, lon: Json, hs: seq<Hospital>,
                   postalCode: Option<string>, country: Option<string>): seq<Marker> {
    [HomeMarker(lat, lon, postalCode, country)] + HospitalMarkers(hs)
  }

  /** The document of a search. */
  function MapDocument(lat: Json, lon: Json, hs: seq<Hospital>,
                       postalCode: Option<string>, country: Option<string>): Document {
    Document(lat, lon, Zoom, Tiles, Markers(lat, lon, hs, postalCode, country))
  }

  /** A map has `|hs| + 1` markers: the home marker first, at the user's
      position and labelled with the postal code and country, then the
      hospitals' markers in list order, each at the hospital's position and
      labelled with its name. Only the first carries the home icon. */
  lemma MarkerLayout(lat: Json, lon: Json, hs: seq<Hospital>,
                     postalCode: Option<string>, country: Option<string>)
    ensures var ms := Markers(lat, lon, hs, postalCode, country);
      && |ms| == |hs| + 1
      && ms[0] == Marker(lat, lon, Str(Geocoding.Address(postalCode, country) + "\n(You are here)"), HomeIcon)
      && (forall k :: 1 <= k < |ms| ==>
            ms[k].lat == hs[k - 1].lat && ms[k].lon == hs[k - 1].lon
            && ms[k].popup == hs[k - 1].name && ms[k].icon == HospitalIcon)
      && (forall k :: 0 <= k < |ms| ==> (ms[k].icon == HomeIcon <==> k == 0))
  {
  }

  /** The in-memory `folium.Map`. */
  class FoliumMap {
    const lat: Json
    const lon: Json
    const zoom: int
    const tiles: string
    var markers: seq<Marker>

    constructor (lat: Json, lon: Json, zoom: int, tiles: string)
      ensures this.lat == lat && this.lon == lon && this.zoom == zoom && this.tiles == tiles
      ensures markers == []
    {
      this.lat, this.lon, this.zoom, this.tiles := lat, lon, zoom, tiles;
      markers := [];
    }

    /** `marker.add_to(fmap)`. */
    method Add(m: Marker)
      modifies this
      ensures markers == old(markers) + [m]
    {
      markers := markers + [m];
    }

    /** What saving the map now would write. */
    function Rendered(): Document
      reads this
    {
      Document(lat, lon, zoom, tiles, markers)
    }
  }

  /** The file at `OutputPath`; `None` while it does not exist. */
  class OutputFile {
    var document: Option<Document>

    constructor (existing: Option<Document>)
      ensures document == existing
    {
      document := existing;
    }

    /** `fmap.save(output_path)`: replaces whatever the file held. */
    method Save(d: Document)
      modifies this
      ensures document == Some(d)
    {
      document := Some(d);
    }
  }

  /** `create_map(lat, lon, hospitals, postal_code, country)`. Whether the
      directory can be created and the file written is the parameter
      `writable`; when it is false the exception handler returns `None` and
      the file is left as it was. On success the file holds this search's
      map only: what it held before is overwritten, not added to. */
  method CreateMap(file: OutputFile, lat: Json, lon: Json, hospitals: seq<Hospital>,
                   postalCode: Option<string>, country: Option<string>, writable: bool)
    returns (path: Option<string>)
    modifies file
    ensures writable ==> path == Some(OutputPath)
                         && file.document == Some(MapDocument(lat, lon, hospitals, postalCode, country))
    ensures !writable ==> path == None && file.document == old(file.document)
  {
    var fmap := new FoliumMap(lat, lon, Zoom, Tiles);
    fmap.Add(HomeMarker(lat, lon, postalCode, country));
    var i := 0;
    while i < |hospitals|
      invariant 0 <= i <= |hospitals|
      invariant fmap.markers == Markers(lat, lon, hospitals[..i], postalCode, country)
      invariant fmap.lat == lat && fmap.lon == lon && fmap.zoom == Zoom && fmap.tiles == Tiles
      invariant file.document == old(file.document)
    {
      assert hospitals[..i + 1][..i] == hospitals[..i];
      fmap.Add(HospitalMarker(hospitals[i]));
      i := i + 1;
    }
    assert hospitals[..i] == hospitals;
    if !writable {
      return None;
    }
    file.Save(fmap.Rendered());
    path := Some(OutputPath);
  }
}
