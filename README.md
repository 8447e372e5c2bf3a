# Nutrition-app record and lookup logic, modelled in Dafny

The application is a small Flask site. Users submit a health profile, and the
site stores it in `user_data.csv`. It then asks a language model for food,
exercise and routine advice, and finds hospitals near a postal code. This
project models the deterministic logic under those calls:

- **Geocoding** (`get_coordinates`): turns a Google Geocoding reply into a
  latitude/longitude pair, or the `(None, None)` sentinel.
- **Hospital search** (`get_hospitals`): turns the loosely shaped elements of
  an Overpass reply into hospital records. The name defaults to
  "Unknown Hospital", a coordinate falls back to the element's `center`, and
  elements with a falsy coordinate are dropped.
- **Map rendering** (`create_map`): a home marker, then one marker per
  hospital, saved to the fixed path `static/hospitals_near_me.html`.
- **Profile store** (`save_user_data`): an append-only CSV. The header is
  written only when the file is missing, and each call appends one row.
- **Disease catalog** (`load_diseases`): the stripped first field of every
  row of `disease.csv`.
- **Routes**: the category switch of `get_content`, and the geocoding gate of
  `search_location` in front of the hospital lookup and the map.

External services become parameters. The geocoder is a function from a
request to a `Reply`: either a decoded JSON document or the transport failure
that stopped the request. Overpass is an `OverpassService` object, which
answers each query with such a `Reply` and records every query it is sent. The language-model generators are a
function from generator to text. The environment's API key is an
`Option<string>`. "Can the map file be written" is a boolean. Files are
values: a CSV file is `Option<seq<Row>>` (`None` while it does not exist), and
the map file is an `OutputFile` object holding the last saved document.

JSON values use the `Json` datatype. Python truthiness is `Truthy`. `dict.get`
is `GetOr`, and a subscript that may raise is `Index`. Coordinates are `Json`
values, never used in arithmetic. They are only tested for truthiness, the
same test the source applies.

Modules: `Optional`, `Json`, `Http`, `Text` and `Csv` are shared. Then come
`Geocoding`, `PlaceSearch` and `MapRenderer` (map.py), and `ProfileStore`,
`DiseaseCatalog` and `Routes` (app.py).

Three behaviours of the code are kept as written:

- In `get_hospitals`, the fallback `e.get("center", {})` is evaluated even
  when the element has its own `lat`. So a `center` that is present but not a
  dict raises. The exception handler then makes the whole lookup return `[]`,
  like any other malformed element.
- `get_coordinates` returning `(None, None)` is the same value as a location
  whose `lat` and `lng` are JSON `null`.
- The `search_location` gate tests truthiness. It therefore also turns back a
  location reported at exactly latitude 0 or longitude 0
  (`Routes.GateRefusesNotFound`).

## Model

| member | source | states |
|---|---|---|
| `Geocoding.Interpret` | map.py:25-38 | The pair is the first result's `geometry.location` `lat`/`lng` exactly when the reply decoded, its `status` is `"OK"`, `results` is a non-empty list, and that location has both keys. In every other case it is `(None, None)`: a transport failure, a non-OK status, missing or empty results, a missing key anywhere on the path, or a non-dict value. |
| `Geocoding.GetCoordinates` | map.py:15-38 | A missing or empty API key gives `(None, None)` and sends no request. Otherwise the result is the interpretation above of the reply to the request for address `"{postal_code}, {country}"` with that key. |
| `Geocoding.FailuresAreIndistinguishable` | map.py:15-38 | A timeout, a missing key, a `ZERO_RESULTS` reply and an OK reply with no results all give the same value, `(None, None)`. |
| `PlaceSearch.OverpassService.Query` | map.py:55 | A request is recorded as sent, exactly once, and its reply is the service's answer to that query. |
| `PlaceSearch.GetHospitals` | map.py:44-76 | Exactly one query, `(lat, lon, radius)`, is sent to Overpass. The loop's result equals the reference `HospitalsIn` of the Overpass reply to the query `(lat, lon, radius)`, with a default radius of 5000. That is `[]` on a timeout or any failure. Otherwise each element is read by `Read`: the name is `tags.name`, or "Unknown Hospital" when `tags` or `name` is absent. Each coordinate is the element's own key when present, otherwise `center`'s value, otherwise `None`. An element is kept only if both coordinates are truthy. The result is `[]` if any element is malformed. |
| `PlaceSearch.KeptAll` | map.py:60-66 | The filtered list has at most one hospital per element, and every hospital in it has a truthy `lat` and `lon`. |
| `PlaceSearch.KeptAllSnoc` | map.py:66 | Appending an element to the list appends that element's hospital to the result when it is kept, and nothing otherwise. |
| `PlaceSearch.KeptAllIsFilter` | map.py:61-66 | The result is an order-preserving subsequence of the elements. Each hospital sits at a strictly increasing index whose element reads as that hospital, and every element that reads as kept appears. |
| `PlaceSearch.HospitalsAreWellFormed` | map.py:61-66 | For every reply, the returned hospitals number at most the elements, all have a truthy `lat` and `lon`, and embed in the elements in order. |
| `PlaceSearch.EmptyOnFailure` | map.py:61-76 | A reply without `"elements"`, any transport failure and a list holding one malformed element all give `[]`. |
| `MapRenderer.HospitalMarkers` | map.py:92-97 | There is one marker per hospital, in list order, each built from that hospital. |
| `MapRenderer.MarkerLayout` | map.py:86-97 | A map has `len(hospitals) + 1` markers. The first is the home marker at `(lat, lon)` with popup `"{postal_code}, {country}\n(You are here)"` and the home icon. Then comes one marker per hospital, in order, at its position, with its name as popup and the plus-sign icon. Only the first marker has the home icon. |
| `MapRenderer.FoliumMap.constructor` | map.py:84 | A new map has the given centre, zoom and tiles, and no markers. |
| `MapRenderer.FoliumMap.Add` | map.py:86-97 | `add_to` appends exactly one marker. |
| `MapRenderer.OutputFile.Save` | map.py:102 | Saving replaces the file's content with the given document. |
| `MapRenderer.CreateMap` | map.py:82-109 | When writing succeeds, it returns `static/hospitals_near_me.html` and the file holds this search's document only, whatever it held before: centred on `(lat, lon)`, zoom 13, tiles "CartoDB positron", with the markers above. When writing fails, it returns `None` and the file is unchanged. |
| `ProfileStore.UserDataFile.SaveUserData` | app.py:31-37 | With no file, the file becomes exactly `[header, row]`. With an existing file, exactly one row is appended, no header is written, and the earlier rows are unchanged. |
| `ProfileStore.DataRowContents` | app.py:37 | The row has the header's five fields. Name, age, weight and height are stored exactly as given (`None` is written as an empty field). The disease field splits back into the submitted diseases, in order, when there is at least one and none contains `;`. |
| `ProfileStore.SavesFromNoFile` | app.py:32-37 | Starting from no file, N ≥ 1 calls give N + 1 rows: the header at index 0, then the data rows in call order. |
| `ProfileStore.SavesToExistingFile` | app.py:32-37 | Starting from an existing file, N calls append N data rows in call order and leave the existing rows as they were. |
| `DiseaseCatalog.LoadDiseases` | app.py:19-26 | An absent file gives `[]`. Otherwise, the result is an `IndexError` exactly when some row has no fields. If not, there is one name per row, in file order, each the whitespace-stripped first field. |
| `Text.Strip` | app.py:25 | The result is the contiguous part of the input left after removing the leading and trailing Python whitespace. It neither starts nor ends with whitespace, and it is empty exactly when the input is all whitespace. |
| `Text.StripIdempotent` | app.py:25 | Stripping twice is the same as stripping once. |
| `Text.SplitJoin` | app.py:37 | Splitting the joined disease field on `;` gives back the list, provided the list is non-empty and no name contains `;`. |
| `Text.JoinIsAmbiguous` | app.py:37 | Without that proviso the field is ambiguous: `["a;b"]` and `["a", "b"]` are stored the same way. |
| `Routes.Dispatch` | app.py:124-131 | `"food"`, `"routine"` and `"important"` select the food-and-exercise, routine and key-facts generators, each by exactly its own category. Any other category selects none. |
| `Routes.DispatchInvertsCategory` | app.py:124-129 | Each generator is selected by its own category and by no other. |
| `Routes.GetContent` | app.py:122-131 | The body is `{"content": ...}` with the chosen generator's text, or `"No content available."` for any other category. |
| `Routes.LookupFor` | app.py:103-105 | The `(None, None)` sentinel never yields a hospital query, and a point with truthy `lat` and `lon` always does. Every query that is issued is at the geocoded point, whose coordinates are then both truthy, with radius 8000. |
| `Routes.GateRefusesNotFound` | app.py:103-104 | The `(None, None)` sentinel is turned back, and so is a location on latitude 0 or longitude 0. |
| `Routes.SearchLocation` | app.py:98-117 | If geocoding yields a falsy coordinate, the page is the error view with `hospitals=[]`, no query is sent to Overpass, and the map file is unchanged. Otherwise exactly one query is sent, at the geocoded point with radius 8000. The handler then writes that search's map (when writing succeeds) and renders the results page with the hospitals, the form's zip and country, and the map URL. The page links the map even when writing failed. |

## Left out

- The network requests themselves: the URL and parameters sent, the Overpass query text, the timeouts of 10 and 25 seconds, `raise_for_status` and JSON decoding. A service is a function from the request's parameters to a decoded document or a failure.
- JSON `NaN` and `Infinity`, which Python's decoder accepts and treats as truthy. `Json.Number` holds a real, so these two values do not exist in the model.
- The folium map's HTML rendering, and folium's check that marker locations convert to floats. The saved document is the map's settings and marker list.
- `MapRenderer.CreateMap`: does not model a failure partway through writing the file, which could leave it half written. A failure leaves the file as it was.
- `os.makedirs` is folded into the `writable` flag.
- `Routes.SearchLocation`: assumes there is no `hospitals_near_me.html` in the working directory. With one, app.py:108-109 moves it over `static/hospitals_near_me.html`, even after `create_map` failed, and the page then serves that file instead of this search's map.
- CSV quoting, escaping and line endings. A file is its sequence of rows.
- `ProfileStore.UserDataFile.SaveUserData` and `DiseaseCatalog.LoadDiseases`: do not model I/O errors. The source lets an exception from `open` (app.py:22, app.py:33), from reading or from writing propagate to the request handler; the model treats every open, read and write as succeeding.
- `view_output`, `health_form` and the static page routes: they are template rendering and file reading with no logic of their own. One consequence is not modelled: `health_form` calls `load_diseases` before saving, so a blank line in `disease.csv` fails the submission too.
- prompt.py: the language-model chains and prompt texts. The generators' output is the `generate` parameter of `Routes.GetContent`.
- `Routes.GetContent`: assumes every generator returns text. In the source a generator can raise: `float(request.form.get("weight"))` fails on a missing or non-numeric weight (prompt.py:228, 241, 254), and `chain.run` fails with the language model. `get_content` (app.py:122-131) does not catch either, so the request then fails with no `{"content": ...}` body.
- Logging by `print`, and the `__main__` blocks of both files.
- Concurrent requests writing `user_data.csv` or the map file at the same time. The source has no locking, and the model runs one call at a time.
