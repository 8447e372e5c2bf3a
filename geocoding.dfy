/** `get_coordinates`: one Google Geocoding request for "postal code,
    country", interpreted into a latitude/longitude pair or the
    `(None, None)` sentinel. */
module Geocoding {
  import opened Optional
  import opened Json
  import opened Http
  import Text

  /** The query parameters of the request: `address` and `key`. */
  datatype GeocodeRequest = GeocodeRequest(address: string, key: string)

  /** The pair the function returns. Python's `None` is JSON's `null`. */
  datatype Coordinates = Coordinates(lat: Json, lon: Json)

  /** `(None, None)`: "not found", whatever the reason. */
  const NotFound: Coordinates := Coordinates(Null, Null)

  /** `f"{postal_code}, {country}"`, the text that both the geocoding
      request and the map's home marker are built from. */
  function Address(postalCode: Option<string>, country: Option<string>): string {
    Text.Display(postalCode) + ", " + Text.Display(country)
  }

  /** `not GOOGLE_API_KEY` is false: the variable is set and non-empty. */
  predicate HasKey(apiKey: Option<string>) {
    apiKey.Some? && apiKey.value != ""
  }

  /** `j[0]`: the first item of a list, the first character of a string;
      `None` when Python raises (an empty sequence, a dict, which has no
      key `0`, or a scalar). */
  function First(j: Json): Option<Json> {
    match j
    case Array(items) => if items == [] then None else Some(items[0])
    case Str(s) => if s == "" then None else Some(Str([s[0]]))
    case _ => None
  }

  /** The reply says `"status": "OK"`. */
  predicate StatusOk(data: Json) {
    Index(data, "status") == Some(Str("OK"))
  }

  /** Reference reading of a successful reply: `results` is a non-empty
      list whose first entry has `geometry.location.lat` and `.lng`. */
  function ReportedLocation(data: Json): Option<Coordinates> {
    match Index(data, "results")
    case Some(Array(results)) =>
      if results == [] then None
      else
        (match (Path(results[0], ["geometry", "location", "lat"]),
                Path(results[0], ["geometry", "location", "lng"]))
         case (Some(lat), Some(lng)) => Some(Coordinates(lat, lng))
         case _ => None)
    case _ => None
  }

  /** Lines 25-38 of the source, step by step: each subscript that raises
      lands in the `except` clause, a non-OK status or a falsy `results`
      takes the `else` branch, and both give `(None, None)`. */
  function Interpret(reply: Reply): (c: Coordinates)
    ensures c == (if reply.Received? && StatusOk(reply.data) && ReportedLocation(reply.data).Some?
                  then ReportedLocation(reply.data).value else NotFound)
  {
    match reply
    case Failed(_) => NotFound
    case Received(data) =>
      match Index(data, "status")
      case None => NotFound
      case Some(status) =>
        if status != Str("OK") then NotFound
        else
          match Index(data, "results")
          case None => NotFound
          case Some(results) =>
            if !Truthy(results) then NotFound
            else
              match First(results)
              case None => NotFound
              case Some(first) =>
                match Path(first, ["geometry", "location"])
                case None => NotFound
                case Some(location) =>
                  match (Index(location, "lat"), Index(location, "lng"))
                  case (Some(lat), Some(lng)) => Coordinates(lat, lng)
                  case _ => NotFound
  }

  /** `get_coordinates(postal_code, country)`, with the environment's
      `GOOGLE_API_KEY` and the geocoding service as parameters. Without a
      key no request is made. */
  function GetCoordinates(postalCode: Option<string>, country: Option<string>,
                          apiKey: Option<string>, geocoder: GeocodeRequest -> Reply): (c: Coordinates)
    ensures !HasKey(apiKey) ==> c == NotFound
    ensures HasKey(apiKey) ==>
      var reply := geocoder(GeocodeRequest(Address(postalCode, country), apiKey.value));
      c == (if reply.Received? && StatusOk(reply.data) && ReportedLocation(reply.data).Some?
            then ReportedLocation(reply.data).value else NotFound)
  {
    if !HasKey(apiKey) then NotFound
    else Interpret(geocoder(GeocodeRequest(Address(postalCode, country), apiKey.value)))
  }

  /** A transport failure, a missing key and a reply without results all
      give the same value. */
  lemma FailuresAreIndistinguishable(postalCode: Option<string>, country: Option<string>,
                                     key: string, failure: Failure)
    requires key != ""
    ensures GetCoordinates(postalCode, country, Some(key), _ => Failed(failure))
         == GetCoordinates(postalCode, country, None, _ => Failed(failure))
         == GetCoordinates(postalCode, country, Some(key),
                           _ => Received(Object(map["status" := Str("ZERO_RESULTS"), "results" := Array([])])))
         == GetCoordinates(postalCode, country, Some(key),
                           _ => Received(Object(map["status" := Str("OK"), "results" := Array([])])))
         == NotFound
  {
  }
}
