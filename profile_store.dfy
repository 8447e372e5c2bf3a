/** `save_user_data`: each submitted profile becomes one row appended to
    `user_data.csv`; the header row is written only when the file does not
    exist yet. */
module ProfileStore {
  import opened Optional
  import opened Csv
  import Text

  const Header: Row := ["Name", "Age", "Weight", "Height", "Disease"]

  /** The fields the form handler passes in. Each comes from
      `request.form.get` and is `None` when the form lacks it. */
  datatype Profile = Profile(name: Option<string>, age: Option<string>, weight: Option<string>,
                             height: Option<string>, diseases: seq<string>)

  /** `csv.writer` writes `None` as the empty field. */
  function Field(v: Option<string>): string {
    v.GetOr("")
  }

  /** `[name, age, weight, height, ";".join(disease_list)]` as written. */
  function DataRow(p: Profile): Row {
    [Field(p.name), Field(p.age), Field(p.weight), Field(p.height), Text.Join(p.diseases, ';')]
  }

  /** The rows of the file after one call. */
  function AfterSave(file: CsvFile, p: Profile): seq<Row> {
    (if file.None? then [Header] else file.value) + [DataRow(p)]
  }

  /** The file after a sequence of calls, in call order. */
  function SaveAll(file: CsvFile, ps: seq<Profile>): CsvFile
    decreases |ps|
  {
    if ps == [] then file else Some(AfterSave(SaveAll(file, ps[..|ps| - 1]), ps[|ps| - 1]))
  }

  function DataRows(ps: seq<Profile>): (rows: seq<Row>)
    ensures |rows| == |ps|
    ensures forall k :: 0 <= k < |ps| ==> rows[k] == DataRow(ps[k])
    decreases |ps|
  {
    if ps == [] then [] else DataRows(ps[..|ps| - 1]) + [DataRow(ps[|ps| - 1])]
  }

  /** The row keeps the four scalar fields as given, and the disease field
      splits back into the submitted diseases, in order, provided there is
      at least one and none contains `;`. */
  lemma DataRowContents(p: Profile)
    ensures |DataRow(p)| == |Header|
    ensures p.name.Some? ==> DataRow(p)[0] == p.name.value
    ensures p.age.Some? ==> DataRow(p)[1] == p.age.value
    ensures p.weight.Some? ==> DataRow(p)[2] == p.weight.value
    ensures p.height.Some? ==> DataRow(p)[3] == p.height.value
    ensures p.name.None? ==> DataRow(p)[0] == ""
    ensures p.age.None? ==> DataRow(p)[1] == ""
    ensures p.weight.None? ==> DataRow(p)[2] == ""
    ensures p.height.None? ==> DataRow(p)[3] == ""
    ensures p.diseases != [] && (forall k :: 0 <= k < |p.diseases| ==> ';' !in p.diseases[k])
            ==> Text.Split(DataRow(p)[4], ';') == p.diseases
  {
    if p.diseases != [] && (forall k :: 0 <= k < |p.diseases| ==> ';' !in p.diseases[k]) {
      Text.SplitJoin(p.diseases, ';');
    }
  }

  /** Starting with no file, N calls leave N + 1 rows: the header, then one
      data row per call in call order. */
  lemma {:induction false} SavesFromNoFile(ps: seq<Profile>)
    requires ps != []
    ensures SaveAll(None, ps) == Some([Header] + DataRows(ps))
    decreases |ps|
  {
    var init, last := ps[..|ps| - 1], ps[|ps| - 1];
    if init != [] {
      SavesFromNoFile(init);
      assert SaveAll(None, ps) == Some(AfterSave(SaveAll(None, init), last));
      assert DataRows(ps) == DataRows(init) + [DataRow(last)];
      assert [Header] + DataRows(ps) == ([Header] + DataRows(init)) + [DataRow(last)];
    } else {
      assert DataRows(ps) == [DataRow(last)];
    }
  }

  /** Starting with an existing file, the calls append one data row each
      and leave its earlier rows, and the absence of a header, as they were. */
  lemma {:induction false} SavesToExistingFile(rows: seq<Row>, ps: seq<Profile>)
    ensures SaveAll(Some(rows), ps) == Some(rows + DataRows(ps))
    decreases |ps|
  {
    if ps != [] {
      var init, last := ps[..|ps| - 1], ps[|ps| - 1];
      SavesToExistingFile(rows, init);
      assert SaveAll(Some(rows), ps) == Some(AfterSave(SaveAll(Some(rows), init), last));
      assert DataRows(ps) == DataRows(init) + [DataRow(last)];
      assert rows + DataRows(ps) == (rows + DataRows(init)) + [DataRow(last)];
    } else {
      assert rows + DataRows(ps) == rows;
    }
  }

  /** `user_data.csv`. */
  class UserDataFile {
    var rows: CsvFile

    constructor (existing: CsvFile)
      ensures rows == existing
    {
      rows := existing;
    }

    /** `save_user_data(name, age, weight, height, disease_list)`. */
    method SaveUserData(name: Option<string>, age: Option<string>, weight: Option<string>,
                        height: Option<string>, diseases: seq<string>)
      modifies this
      ensures rows == Some(AfterSave(old(rows), Profile(name, age, weight, height, diseases)))
      ensures old(rows).None? ==> rows.value == [Header, DataRow(Profile(name, age, weight, height, diseases))]
      ensures old(rows).Some? ==> |rows.value| == |old(rows).value| + 1
                                  && rows.value[..|old(rows).value|] == old(rows).value
    {
      var fileExists := rows.Some?;
      // Opening in append mode creates the file when it is missing; the
      // header goes into a file created this way.
      if !fileExists {
        rows := Some([Header]);
      }
      rows := Some(rows.value + [DataRow(Profile(name, age, weight, height, diseases))]);
    }
  }
}
