/** `load_diseases`: the names listed in `disease.csv`, one per row. */
module DiseaseCatalog {
  import opened Csv
  import Text

  /** The function's result: the list, or the `IndexError` that `row[0]`
      raises on a row with no fields (a blank line), which propagates to
      the caller. */
  datatype Loaded = Diseases(names: seq<string>) | IndexError

  /** `load_diseases()` for the file `disease.csv`, absent or read as rows. */
  method LoadDiseases(file: CsvFile) returns (r: Loaded)
    ensures file.None? ==> r == Diseases([])
    ensures file.Some? ==> (r == IndexError <==> exists i :: 0 <= i < |file.value| && file.value[i] == [])
    ensures r.Diseases? && file.Some? ==>
      && |r.names| == |file.value|
      && forall i :: 0 <= i < |file.value| ==> r.names[i] == Text.Strip(file.value[i][0])
  {
    var diseases: seq<string> := [];
    if file.Some? {
      var rows := file.value;
      var i := 0;
      while i < |rows|
        invariant 0 <= i <= |rows|
        invariant forall j :: 0 <= j < i ==> rows[j] != []
        invariant |diseases| == i
        invariant forall j :: 0 <= j < i ==> diseases[j] == Text.Strip(rows[j][0])
      {
        if rows[i] == [] {
          return IndexError;
        }
        diseases := diseases + [Text.Strip(rows[i][0])];
        i := i + 1;
      }
    }
    r := Diseases(diseases);
  }
}
