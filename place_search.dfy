/** `get_hospitals`: one Overpass query for hospitals around a point, and
    the loop that turns the returned elements into hospital records. */
module PlaceSearch {
  import opened Json
  import opened Http

  /** The radius, in metres, when the caller gives none. */
  const DefaultRadius: int := 5000

  /** The name given to an element whose tags carry no `name`. */
  const UnknownName: Json := Str("Unknown Hospital")

  /** The parameters the Overpass query is built from. */
  datatype HospitalQuery = HospitalQuery(lat: Json, lon: Json, radius: int)

  /** `{"name": name, "lat": lat_, "lon": lon_}`. */
  datatype Hospital = Hospital(name: Json, lat: Json, lon: Json)

  /** What the loop body does with one element. */
  datatype Reading = Kept(hospital: Hospital) | Dropped | Raised

  /** The element is not a dict, or its `tags` or `center` is present but
      not a dict: one of the `.get` calls raises `AttributeError`. */
  predicate Malformed(e: Json) {
    || !e.Object?
    || ("tags" in e.fields && !e.fields["tags"].Object?)
    || ("center" in e.fields && !e.fields["center"].Object?)
  }

  /** `tags.name` when both are present, otherwise "Unknown Hospital". */
  function NameOf(e: Json): Json {
    match Index(e, "tags")
    case Some(tags) => (if tags.Object? && "name" in tags.fields then tags.fields["name"] else UnknownName)
    case None => UnknownName
  }

  /** The element's own `key` when it has that key (whatever its value),
      otherwise `center[key]`, otherwise `None`. */
  function CoordinateOf(e: Json, key: string): Json {
    if e.Object? && key in e.fields then e.fields[key]
    else match Index(e, "center")
      case Some(center) => (if center.Object? && key in center.fields then center.fields[key] else Null)
      case None => Null
  }

  /** The reference reading of one element. */
  function Read(e: Json): Reading {
    if Malformed(e) then Raised
    else if Truthy(CoordinateOf(e, "lat")) && Truthy(CoordinateOf(e, "lon"))
    then Kept(Hospital(NameOf(e), CoordinateOf(e, "lat"), CoordinateOf(e, "lon")))
    else Dropped
  }

  predicate Readable(es: seq<Json>) {
    forall i :: 0 <= i < |es| ==> Read(es[i]) != Raised
  }

  /** The hospitals of the kept elements, in element order. */
  function KeptAll(es: seq<Json>): (hs: seq<Hospital>)
    ensures |hs| <= |es|
    ensures forall k :: 0 <= k < |hs| ==> Truthy(hs[k].lat) && Truthy(hs[k].lon)
    decreases |es|
  {
    if es == [] then []
    else match Read(es[0])
      case Kept(h) => [h] + KeptAll(es[1..])
      case _ => KeptAll(es[1..])
  }

  /** The list the `for` loop walks: `data.get("elements", [])`. Every other
      shape ends with `[]`, either by an exception (`data` is not a dict,
      `elements` is a scalar, a non-empty string or a non-empty dict, whose
      members have no `.get`) or by zero iterations (an empty string or
      dict). */
  function ElementsOf(reply: Reply): seq<Json> {
    match reply
    case Failed(_) => []
    case Received(data) =>
      if !data.Object? then []
      else match GetOr(data.fields, "elements", Array([]))
        case Array(items) => items
        case _ => []
  }

  /** What `get_hospitals` returns for a reply: the kept elements, or `[]`
      as soon as any element raises. */
  function HospitalsIn(reply: Reply): seq<Hospital> {
    var es := ElementsOf(reply);
    if Readable(es) then KeptAll(es) else []
  }

  /** Filtering a list extended by one element extends the result by that
      element's hospital, if it is kept. */
  lemma {:induction false} KeptAllSnoc(es: seq<Json>, e: Json)
    ensures KeptAll(es + [e]) == KeptAll(es) + (if Read(e).Kept? then [Read(e).hospital] else [])
    decreases |es|
  {
    if es == [] {
      assert [e][1..] == [];
    } else {
      assert (es + [e])[0] == es[0];
      assert (es + [e])[1..] == es[1..] + [e];
      KeptAllSnoc(es[1..], e);
    }
  }

  /** The Overpass interpreter: what it answers to each query, and the
      queries it has been sent so far. */
  class OverpassService {
    const answer: HospitalQuery -> Reply
    var sent: seq<HospitalQuery>

    constructor (answer: HospitalQuery -> Reply)
      ensures this.answer == answer && sent == []
    {
      this.answer := answer;
      sent := [];
    }

    /** `requests.get(url, params={"data": query}, timeout=25)`: one request,
        recorded, and its reply. */
    method Query(q: HospitalQuery) returns (r: Reply)
      modifies this
      ensures sent == old(sent) + [q]
      ensures r == answer(q)
    {
      sent := sent + [q];
      r := answer(q);
    }
  }

  /** `get_hospitals(lat, lon, radius)`: exactly one request to Overpass,
      then the loop of the source, checked against `HospitalsIn`; a timeout
      and every other exception give `[]`. */
  method GetHospitals(overpass: OverpassService, lat: Json, lon: Json, radius: int := DefaultRadius)
    returns (hospitals: seq<Hospital>)
    modifies overpass
    ensures overpass.sent == old(overpass.sent) + [HospitalQuery(lat, lon, radius)]
    ensures hospitals == HospitalsIn(overpass.answer(HospitalQuery(lat, lon, radius)))
  {
    var reply := overpass.Query(HospitalQuery(lat, lon, radius));
    if reply.Failed? {
      return [];
    }
    var data := reply.data;
    if !data.Object? {
      return [];
    }
    var elements := GetOr(data.fields, "elements", Array([]));
    if !elements.Array? {
      return [];
    }
    var es := elements.items;
    hospitals := [];
    var i := 0;
    while i < |es|
      invariant 0 <= i <= |es|
      invariant Readable(es[..i])
      invariant hospitals == KeptAll(es[..i])
      invariant overpass.sent == old(overpass.sent) + [HospitalQuery(lat, lon, radius)]
    {
      var e := es[i];
      if !e.Object? {
        assert Read(es[i]) == Raised;
        return [];
      }
      var tags := GetOr(e.fields, "tags", EmptyObject);
      if !tags.Object? {
        assert Read(es[i]) == Raised;
        return [];
      }
      var name := GetOr(tags.fields, "name", UnknownName);
      // The default argument `e.get("center", {}).get(...)` is evaluated
      // even when the element has its own coordinate.
      var center := GetOr(e.fields, "center", EmptyObject);
      if !center.Object? {
        assert Read(es[i]) == Raised;
        return [];
      }
      var lat' := GetOr(e.fields, "lat", GetOr(center.fields, "lat", Null));
      var lon' := GetOr(e.fields, "lon", GetOr(center.fields, "lon", Null));
      assert !Malformed(e) && name == NameOf(e);
      assert lat' == CoordinateOf(e, "lat") && lon' == CoordinateOf(e, "lon");
      KeptAllSnoc(es[..i], e);
      assert es[..i + 1] == es[..i] + [e];
      if Truthy(lat') && Truthy(lon') {
        hospitals := hospitals + [Hospital(name, lat', lon')];
      }
      i := i + 1;
    }
    assert es[..i] == es;
  }

  /** `idx` places each hospital at the index of the element it came from:
      strictly increasing, so the result keeps element order. */
  ghost predicate Embeds(idx: seq<nat>, es: seq<Json>, hs: seq<Hospital>) {
    && |idx| == |hs|
    && (forall k :: 0 <= k < |idx| ==> idx[k] < |es| && Read(es[idx[k]]) == Kept(hs[k]))
    && (forall k, l :: 0 <= k < l < |idx| ==> idx[k] < idx[l])
  }

  /** The indices of the kept elements, in increasing order. */
  function KeptIndices(es: seq<Json>): seq<nat>
    decreases |es|
  {
    if es == [] then []
    else KeptIndices(es[..|es| - 1]) + (if Read(es[|es| - 1]).Kept? then [|es| - 1] else [])
  }

  /** The kept hospitals are an order-preserving subsequence of the
      elements, and every element the reading keeps is among them. */
  lemma {:induction false} KeptAllIsFilter(es: seq<Json>)
    ensures Embeds(KeptIndices(es), es, KeptAll(es))
    ensures forall i :: 0 <= i < |es| && Read(es[i]).Kept? ==> i in KeptIndices(es)
    decreases |es|
  {
    if es != [] {
      var n := |es|;
      var init, last := es[..n - 1], es[n - 1];
      assert es == init + [last];
      KeptAllIsFilter(init);
      KeptAllSnoc(init, last);
      var idx0 := KeptIndices(init);
      assert forall k :: 0 <= k < |idx0| ==> idx0[k] < n - 1 && es[idx0[k]] == init[idx0[k]];
      assert forall i :: 0 <= i < n - 1 ==> es[i] == init[i];
    }
  }

  /** Every hospital `get_hospitals` returns has a truthy `lat` and `lon`,
      there are at most as many as elements, and they come from the
      elements in order: the name and coordinates of each are those of the
      element it came from. */
  lemma HospitalsAreWellFormed(reply: Reply)
    ensures |HospitalsIn(reply)| <= |ElementsOf(reply)|
    ensures forall h :: h in HospitalsIn(reply) ==> Truthy(h.lat) && Truthy(h.lon)
    ensures exists idx :: Embeds(idx, ElementsOf(reply), HospitalsIn(reply))
  {
    var es := ElementsOf(reply);
    KeptAllIsFilter(es);
    if !Readable(es) {
      assert Embeds([], es, HospitalsIn(reply));
    } else {
      assert Embeds(KeptIndices(es), es, HospitalsIn(reply));
    }
  }

  /** A reply without `elements`, a timeout and any other failure give `[]`;
      so does a reply one of whose elements is malformed. */
  lemma EmptyOnFailure(data: map<string, Json>, failure: Failure, es: seq<Json>, i: nat)
    requires i < |es| && Malformed(es[i])
    ensures "elements" !in data ==> HospitalsIn(Received(Object(data))) == []
    ensures HospitalsIn(Failed(failure)) == []
    ensures HospitalsIn(Received(Object(map["elements" := Array(es)]))) == []
  {
  }
}
