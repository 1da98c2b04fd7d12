/**
 * The row-to-payload transformer of the I14Y dataset import: one flat
 * spreadsheet row becomes the nested JSON payload of one dataset.
 */
module ImportDatasets {
  import opened Wrappers

  /** A spreadsheet cell that holds a value. A date cell is represented by the
      text its `isoformat()` yields; that text is not interpreted here. */
  datatype Cell = Text(text: string) | Date(iso: string)

  /** One spreadsheet row. A column that is not a key is not in the sheet
      (`row[column]` raises KeyError, `row.get(column)` gives None); a column
      mapped to None holds pandas' missing value (NaN or NaT). */
  type Row = map<string, Option<Cell>>

  /** The JSON-like values a payload is made of. */
  datatype Json =
    | Null                           // Python's None
    | Missing                        // a NaN/NaT cell copied into the payload unchanged
    | Str(s: string)                 // a string the builder produces itself
    | Raw(cell: Cell)                // a cell value copied verbatim
    | Arr(items: seq<Json>)
    | Obj(fields: map<string, Json>)

  /** Why building a payload raises. */
  datatype RowError =
    | KeyMissing(column: string)     // row[column] on a column the sheet lacks
    | NotADate(column: string)       // .isoformat() on a cell that is not a date

  /** The number of keyword slots and of distribution slots: `range(1, 4)`. */
  const Slots: nat := 3

  /** `pd.notna(row.get(column))`: the column exists and its cell holds a value. */
  predicate Present(row: Row, column: string)
  {
    column in row && row[column].Some?
  }

  /** `row.get(column)`. */
  function Get(row: Row, column: string): Option<Cell>
  {
    if column in row then row[column] else None
  }

  /** A cell copied verbatim into the payload, NaN included. */
  function Verbatim(v: Option<Cell>): Json
  {
    if v.Some? then Raw(v.value) else Missing
  }

  function DigitChar(d: nat): char
    requires d < 10
  {
    "0123456789"[d]
  }

  /** `str(n)` for a natural number. */
  function Numeral(n: nat): string
  {
    if n < 10 then [DigitChar(n)] else Numeral(n / 10) + [DigitChar(n % 10)]
  }

  function KeywordColumn(i: nat): string { "keywords_" + Numeral(i) }
  function AccessUrlColumn(i: nat): string { "distribution_accessUrl_" + Numeral(i) }
  function DownloadUrlColumn(i: nat): string { "distribution_downloadUrl_" + Numeral(i) }
  function LicenseColumn(i: nat): string { "distribution_license_label_" + Numeral(i) }

  // ---------------------------------------------------------------------
  // create_language_object, create_uri_label_object

  /** `{lang: text}`; the language defaults to German. */
  function LanguageObject(text: Json, lang: string := "de"): (r: Json)
    ensures r.Obj? && r.fields.Keys == {lang} && r.fields[lang] == text
  {
    Obj(map[lang := text])
  }

  /** `{"uri": uri}`, with a language-tagged `label` only when the label is
      truthy (given and not the empty string). */
  method CreateUriLabelObject(uri: Json, labelText: Option<string> := None) returns (obj: map<string, Json>)
    ensures "uri" in obj && obj["uri"] == uri
    ensures "label" in obj <==> labelText.Some? && labelText.value != ""
    ensures "label" in obj ==> obj["label"] == LanguageObject(Str(labelText.value))
    ensures obj.Keys <= {"uri", "label"}
  {
    obj := map["uri" := uri];
    if labelText.Some? && labelText.value != "" {
      obj := obj["label" := LanguageObject(Str(labelText.value))];
    }
  }

  // ---------------------------------------------------------------------
  // process_keywords

  /** The keywords of slots 1..n: one German language object per present
      `keywords_i` cell, in slot order, absent slots dropped. */
  function Keywords(row: Row, n: nat): (r: seq<Json>)
    ensures |r| <= n
  {
    if n == 0 then []
    else
      Keywords(row, n - 1)
      + (if Present(row, KeywordColumn(n)) then [LanguageObject(Raw(row[KeywordColumn(n)].value))] else [])
  }

  method ProcessKeywords(row: Row) returns (keywords: seq<Json>)
    ensures keywords == Keywords(row, Slots)
  {
    keywords := [];
    for i := 1 to Slots + 1
      invariant keywords == Keywords(row, i - 1)
    {
      if Present(row, KeywordColumn(i)) {
        keywords := keywords + [LanguageObject(Raw(row[KeywordColumn(i)].value))];
      }
    }
  }

  /** The slots among 1..n that satisfy `p`, in increasing order. */
  ghost function SlotsWhere(p: nat -> bool, n: nat): (r: seq<nat>)
    ensures forall j :: 0 <= j < |r| ==> 1 <= r[j] <= n && p(r[j])
    ensures forall j, k :: 0 <= j < k < |r| ==> r[j] < r[k]
    ensures forall i :: 1 <= i <= n && p(i) ==> i in r
  {
    if n == 0 then [] else SlotsWhere(p, n - 1) + (if p(n) then [n] else [])
  }

  ghost function KeywordSlot(row: Row): nat -> bool
  {
    (i: nat) => Present(row, KeywordColumn(i))
  }

  /** The keyword list has exactly one entry per present slot, and its j-th
      entry wraps the cell of the j-th present slot: slot order is kept and
      gaps leave no trace. */
  lemma {:induction false} KeywordsAreSlots(row: Row, n: nat)
    ensures var slots := SlotsWhere(KeywordSlot(row), n);
      && |Keywords(row, n)| == |slots|
      && forall j :: 0 <= j < |slots| ==>
           Present(row, KeywordColumn(slots[j])) &&
           Keywords(row, n)[j] == LanguageObject(Raw(row[KeywordColumn(slots[j])].value))
  {
    if n > 0 {
      KeywordsAreSlots(row, n - 1);
      var prev, slots := SlotsWhere(KeywordSlot(row), n - 1), SlotsWhere(KeywordSlot(row), n);
      var before, after := Keywords(row, n - 1), Keywords(row, n);
      assert KeywordSlot(row)(n) == Present(row, KeywordColumn(n));
      assert slots[..|prev|] == prev && after[..|before|] == before;
      forall j | 0 <= j < |prev|
        ensures slots[j] == prev[j] && after[j] == before[j]
      {
        assert slots[..|prev|][j] == slots[j] && after[..|before|][j] == after[j];
      }
    }
  }

  /** Slots 1 and 3 present and slot 2 absent give two keywords, slot 1's
      first. */
  lemma KeywordGap(row: Row)
    requires Present(row, "keywords_1") && !Present(row, "keywords_2") && Present(row, "keywords_3")
    ensures Keywords(row, Slots) == [LanguageObject(Raw(row["keywords_1"].value)), LanguageObject(Raw(row["keywords_3"].value))]
  {
    assert KeywordColumn(1) == "keywords_1" && KeywordColumn(2) == "keywords_2" && KeywordColumn(3) == "keywords_3";
    assert Keywords(row, 1) == [LanguageObject(Raw(row["keywords_1"].value))];
    assert Keywords(row, 2) == Keywords(row, 1);
  }

  // ---------------------------------------------------------------------
  // process_distribution

  /** What `process_distribution(row, i)` returns: None when both URL cells
      of slot i are absent; otherwise each URL present in the row as a
      `{"uri": cell}` object of its own (no label, no copying between the
      two), the raw license cell as `{"code": cell}`, and nothing else. */
  function DistributionOf(row: Row, i: nat): (r: Option<map<string, Json>>)
    ensures r.None? <==> !Present(row, AccessUrlColumn(i)) && !Present(row, DownloadUrlColumn(i))
    ensures r.Some? ==> "accessUrl" in r.value || "downloadUrl" in r.value
    ensures r.Some? ==> r.value.Keys <= {"accessUrl", "downloadUrl", "license"}
    ensures r.Some? ==> ("accessUrl" in r.value <==> Present(row, AccessUrlColumn(i)))
    ensures r.Some? && "accessUrl" in r.value ==>
              r.value["accessUrl"] == Obj(map["uri" := Raw(row[AccessUrlColumn(i)].value)])
    ensures r.Some? ==> ("downloadUrl" in r.value <==> Present(row, DownloadUrlColumn(i)))
    ensures r.Some? && "downloadUrl" in r.value ==>
              r.value["downloadUrl"] == Obj(map["uri" := Raw(row[DownloadUrlColumn(i)].value)])
    ensures r.Some? ==> ("license" in r.value <==> Present(row, LicenseColumn(i)))
    ensures r.Some? && "license" in r.value ==>
              r.value["license"] == Obj(map["code" := Raw(row[LicenseColumn(i)].value)])
  {
    var access, download, license := Get(row, AccessUrlColumn(i)), Get(row, DownloadUrlColumn(i)), Get(row, LicenseColumn(i));
    if access.None? && download.None? then None
    else
      Some((if access.Some? then map["accessUrl" := Obj(map["uri" := Raw(access.value)])] else map[])
           + (if download.Some? then map["downloadUrl" := Obj(map["uri" := Raw(download.value)])] else map[])
           + (if license.Some? then map["license" := Obj(map["code" := Raw(license.value)])] else map[]))
  }

  method ProcessDistribution(row: Row, index: nat) returns (distribution: Option<map<string, Json>>)
    ensures distribution == DistributionOf(row, index)
  {
    if !Present(row, AccessUrlColumn(index)) && !Present(row, DownloadUrlColumn(index)) {
      return None;
    }
    var d: map<string, Json> := map[];
    if Present(row, AccessUrlColumn(index)) {
      var url := CreateUriLabelObject(Raw(row[AccessUrlColumn(index)].value));
      assert url == map["uri" := Raw(row[AccessUrlColumn(index)].value)];
      d := d["accessUrl" := Obj(url)];
    }
    if Present(row, DownloadUrlColumn(index)) {
      var url := CreateUriLabelObject(Raw(row[DownloadUrlColumn(index)].value));
      assert url == map["uri" := Raw(row[DownloadUrlColumn(index)].value)];
      d := d["downloadUrl" := Obj(url)];
    }
    if Present(row, LicenseColumn(index)) {
      d := d["license" := Obj(map["code" := Raw(row[LicenseColumn(index)].value)])];
    }
    var spec := DistributionOf(row, index).value;
    assert d.Keys == spec.Keys;
    assert forall k | k in d :: d[k] == spec[k];
    assert d == spec;
    distribution := Some(d);
  }

  /** The distributions of slots 1..n: the non-None results of
      `process_distribution`, in slot order; every one has a URL. */
  function Distributions(row: Row, n: nat): (r: seq<Json>)
    ensures |r| <= n
    ensures forall j :: 0 <= j < |r| ==> r[j].Obj? && ("accessUrl" in r[j].fields || "downloadUrl" in r[j].fields)
  {
    if n == 0 then []
    else Distributions(row, n - 1) + (if DistributionOf(row, n).Some? then [Obj(DistributionOf(row, n).value)] else [])
  }

  ghost function DistributionSlot(row: Row): nat -> bool
  {
    (i: nat) => Present(row, AccessUrlColumn(i)) || Present(row, DownloadUrlColumn(i))
  }

  /** One distribution per slot with a URL cell, the j-th being that of the
      j-th such slot: skipped slots leave no gap. */
  lemma {:induction false} DistributionsAreSlots(row: Row, n: nat)
    ensures var slots := SlotsWhere(DistributionSlot(row), n);
      && |Distributions(row, n)| == |slots|
      && forall j :: 0 <= j < |slots| ==>
           DistributionOf(row, slots[j]).Some? &&
           Distributions(row, n)[j] == Obj(DistributionOf(row, slots[j]).value)
  {
    if n > 0 {
      DistributionsAreSlots(row, n - 1);
      var prev, slots := SlotsWhere(DistributionSlot(row), n - 1), SlotsWhere(DistributionSlot(row), n);
      var before, after := Distributions(row, n - 1), Distributions(row, n);
      assert DistributionSlot(row)(n) == DistributionOf(row, n).Some?;
      assert slots[..|prev|] == prev && after[..|before|] == before;
      forall j | 0 <= j < |prev|
        ensures slots[j] == prev[j] && after[j] == before[j]
      {
        assert slots[..|prev|][j] == slots[j] && after[..|before|][j] == after[j];
      }
    }
  }

  // ---------------------------------------------------------------------
  // create_dataset_payload

  /** The `data` object of a payload. The first seven keys are always there;
      each optional key is None when the dict does not have it. */
  datatype DatasetData = DatasetData(
    title: Json,
    description: Json,
    identifiers: Json,
    publisher: Json,
    accessRights: Json,
    issued: Json,
    modified: Json,
    keywords: Option<Json>,
    contactPoints: Option<Json>,
    themes: Option<Json>,
    spatial: Option<Json>,
    temporalCoverage: Option<Json>,
    distributions: Option<Json>)

  /** A payload `{"data": {...}}`. */
  datatype Payload = Payload(data: DatasetData)

  /** The columns read with `row[...]` unconditionally. */
  const MandatoryColumns: set<string> :=
    {"title", "description", "identificator", "accessRights", "issued", "modified"}

  /** The columns whose present cells are turned into text with `isoformat()`. */
  const DateColumns: set<string> :=
    {"issued", "modified", "temporalCoverage_start", "temporalCoverage_end"}

  /** `.isoformat()` does not raise on this column's cell when it is read. */
  predicate DateOrAbsent(row: Row, column: string)
  {
    Present(row, column) ==> row[column].value.Date?
  }

  /** Building the payload does not raise. */
  predicate Buildable(row: Row)
  {
    && "title" in row && "description" in row && "identificator" in row
    && "accessRights" in row && "issued" in row && "modified" in row
    && DateOrAbsent(row, "issued")
    && DateOrAbsent(row, "modified")
    && DateOrAbsent(row, "temporalCoverage_start")
    && DateOrAbsent(row, "temporalCoverage_end")
  }

  /** `e` names a real cause for building the payload to raise. */
  predicate Explains(row: Row, e: RowError)
  {
    match e
    case KeyMissing(c) => c in MandatoryColumns && c !in row
    case NotADate(c) => c in DateColumns && Present(row, c) && row[c].value.Text?
  }

  /** `row[column]`. */
  function Column(row: Row, column: string): Result<Option<Cell>, RowError>
  {
    if column in row then Success(row[column]) else Failure(KeyMissing(column))
  }

  /** `row[column].isoformat() if pd.notna(row[column]) else None`. */
  function IsoOrNull(row: Row, column: string): (r: Result<Json, RowError>)
    ensures r.Success? <==> column in row && DateOrAbsent(row, column)
    ensures r.Success? ==> r.value == (if Present(row, column) then Str(row[column].value.iso) else Null)
    ensures r.Failure? ==> r.error == (if column in row then NotADate(column) else KeyMissing(column))
  {
    if column !in row then Failure(KeyMissing(column))
    else match row[column]
      case None => Success(Null)
      case Some(Date(iso)) => Success(Str(iso))
      case Some(Text(_)) => Failure(NotADate(column))
  }

  /** The contact point: kind "Organization", the name as a German language
      object, email and telephone verbatim, each only when its cell is present. */
  function ContactPoint(row: Row): (cp: map<string, Json>)
    ensures cp.Keys <= {"kind", "fn", "hasEmail", "hasTelephone"}
    ensures "kind" in cp && cp["kind"] == Str("Organization")
    ensures "fn" in cp <==> Present(row, "contactPoints_fn")
    ensures "fn" in cp ==> cp["fn"] == LanguageObject(Raw(row["contactPoints_fn"].value))
    ensures "hasEmail" in cp <==> Present(row, "contactPoints_hasEmail")
    ensures "hasEmail" in cp ==> cp["hasEmail"] == Raw(row["contactPoints_hasEmail"].value)
    ensures "hasTelephone" in cp <==> Present(row, "contactPoints_hasTelephone")
    ensures "hasTelephone" in cp ==> cp["hasTelephone"] == Raw(row["contactPoints_hasTelephone"].value)
  {
    var name, email, phone := Get(row, "contactPoints_fn"), Get(row, "contactPoints_hasEmail"), Get(row, "contactPoints_hasTelephone");
    map["kind" := Str("Organization")]
    + (if name.Some? then map["fn" := LanguageObject(Raw(name.value))] else map[])
    + (if email.Some? then map["hasEmail" := Raw(email.value)] else map[])
    + (if phone.Some? then map["hasTelephone" := Raw(phone.value)] else map[])
  }

  /** The temporal coverage: each side that is present, as ISO text. */
  function TemporalCoverage(row: Row): (c: map<string, Json>)
    requires DateOrAbsent(row, "temporalCoverage_start") && DateOrAbsent(row, "temporalCoverage_end")
    ensures c.Keys <= {"start", "end"}
    ensures "start" in c <==> Present(row, "temporalCoverage_start")
    ensures "start" in c ==> c["start"] == Str(row["temporalCoverage_start"].value.iso)
    ensures "end" in c <==> Present(row, "temporalCoverage_end")
    ensures "end" in c ==> c["end"] == Str(row["temporalCoverage_end"].value.iso)
  {
    var start, end := Get(row, "temporalCoverage_start"), Get(row, "temporalCoverage_end");
    (if start.Some? then map["start" := Str(start.value.iso)] else map[])
    + (if end.Some? then map["end" := Str(end.value.iso)] else map[])
  }

  /** The `keywords` entry: the keyword list, when it is not empty. */
  function KeywordsField(row: Row): Option<Json>
  {
    var keywords := Keywords(row, Slots);
    if keywords != [] then Some(Arr(keywords)) else None
  }

  /** The `contactPoints` entry: one contact point, when a name or an email is present. */
  function ContactPointsField(row: Row): Option<Json>
  {
    if Present(row, "contactPoints_fn") || Present(row, "contactPoints_hasEmail")
    then Some(Arr([Obj(ContactPoint(row))])) else None
  }

  /** The `themes` entry: one theme, its label verbatim as the code. */
  function ThemesField(row: Row): Option<Json>
  {
    if Present(row, "themes_label") then Some(Arr([Obj(map["code" := Raw(row["themes_label"].value)])])) else None
  }

  /** The `spatial` entry: the cell verbatim in a list. */
  function SpatialField(row: Row): Option<Json>
  {
    if Present(row, "spatial") then Some(Arr([Raw(row["spatial"].value)])) else None
  }

  /** The `temporalCoverage` entry: one coverage, when a start or an end is present. */
  function TemporalCoverageField(row: Row): Option<Json>
    requires DateOrAbsent(row, "temporalCoverage_start") && DateOrAbsent(row, "temporalCoverage_end")
  {
    if Present(row, "temporalCoverage_start") || Present(row, "temporalCoverage_end")
    then Some(Arr([Obj(TemporalCoverage(row))])) else None
  }

  /** The `distributions` entry: the distribution list, when it is not empty. */
  function DistributionsField(row: Row): Option<Json>
  {
    var distributions := Distributions(row, Slots);
    if distributions != [] then Some(Arr(distributions)) else None
  }

  /** The `data` object the source builds from a row that does not raise. */
  function ExpectedData(row: Row, publisher: Json): DatasetData
    requires Buildable(row)
  {
    DatasetData(
      title := LanguageObject(Verbatim(row["title"])),
      description := LanguageObject(Verbatim(row["description"])),
      identifiers := Arr([Verbatim(row["identificator"])]),
      publisher := publisher,
      accessRights := Obj(map["code" := Verbatim(row["accessRights"])]),
      issued := if Present(row, "issued") then Str(row["issued"].value.iso) else Null,
      modified := if Present(row, "modified") then Str(row["modified"].value.iso) else Null,
      keywords := KeywordsField(row),
      contactPoints := ContactPointsField(row),
      themes := ThemesField(row),
      spatial := SpatialField(row),
      temporalCoverage := TemporalCoverageField(row),
      distributions := DistributionsField(row))
  }

  /** The contact point block of `create_dataset_payload`. */
  method BuildContactPoint(row: Row) returns (contactPoint: map<string, Json>)
    ensures contactPoint == ContactPoint(row)
  {
    contactPoint := map["kind" := Str("Organization")];
    if Present(row, "contactPoints_fn") {
      contactPoint := contactPoint["fn" := LanguageObject(Raw(row["contactPoints_fn"].value))];
    }
    if Present(row, "contactPoints_hasEmail") {
      contactPoint := contactPoint["hasEmail" := Raw(row["contactPoints_hasEmail"].value)];
    }
    if Present(row, "contactPoints_hasTelephone") {
      contactPoint := contactPoint["hasTelephone" := Raw(row["contactPoints_hasTelephone"].value)];
    }
    assert contactPoint.Keys == ContactPoint(row).Keys;
  }

  /** The temporal coverage block of `create_dataset_payload`: raises when a
      present side is not a date. */
  method BuildTemporalCoverage(row: Row) returns (r: Result<map<string, Json>, RowError>)
    ensures r.Success? <==> DateOrAbsent(row, "temporalCoverage_start") && DateOrAbsent(row, "temporalCoverage_end")
    ensures r.Success? ==> r.value == TemporalCoverage(row)
    ensures r.Failure? ==> Explains(row, r.error)
  {
    var coverage: map<string, Json> := map[];
    if Present(row, "temporalCoverage_start") {
      var start := row["temporalCoverage_start"].value;
      if !start.Date? {
        return Failure(NotADate("temporalCoverage_start"));
      }
      coverage := coverage["start" := Str(start.iso)];
    }
    if Present(row, "temporalCoverage_end") {
      var end := row["temporalCoverage_end"].value;
      if !end.Date? {
        return Failure(NotADate("temporalCoverage_end"));
      }
      coverage := coverage["end" := Str(end.iso)];
    }
    assert coverage.Keys == TemporalCoverage(row).Keys;
    return Success(coverage);
  }

  /** The distribution loop of `create_dataset_payload`: slots 1 to 3, each
      kept when it has a URL. */
  method ProcessDistributions(row: Row) returns (distributions: seq<Json>)
    ensures distributions == Distributions(row, Slots)
  {
    distributions := [];
    for i := 1 to Slots + 1
      invariant distributions == Distributions(row, i - 1)
    {
      var dist := ProcessDistribution(row, i);
      if dist.Some? && dist.value != map[] {
        distributions := distributions + [Obj(dist.value)];
      }
    }
  }

  /** Transforms one row into a payload: raises (Failure) exactly when a
      mandatory column is missing or a date cell that is read is not a date,
      and otherwise builds `ExpectedData`. */
  method CreateDatasetPayload(row: Row, publisher: Json) returns (r: Result<Payload, RowError>)
    ensures r.Success? <==> Buildable(row)
    ensures r.Failure? ==> Explains(row, r.error)
    ensures r.Success? ==> r.value.data == ExpectedData(row, publisher)
  {
    var title :- Column(row, "title");
    var description :- Column(row, "description");
    var identificator :- Column(row, "identificator");
    var accessRights :- Column(row, "accessRights");
    var issued :- IsoOrNull(row, "issued");
    var modified :- IsoOrNull(row, "modified");
    var keywordList := ProcessKeywords(row);
    var keywords := if keywordList != [] then Some(Arr(keywordList)) else None;

    var contactPoints: Option<Json> := None;
    if Present(row, "contactPoints_fn") || Present(row, "contactPoints_hasEmail") {
      var contactPoint := BuildContactPoint(row);
      contactPoints := Some(Arr([Obj(contactPoint)]));
    }

    var themes := if Present(row, "themes_label") then Some(Arr([Obj(map["code" := Raw(row["themes_label"].value)])])) else None;

    var spatial := if Present(row, "spatial") then Some(Arr([Raw(row["spatial"].value)])) else None;

    var temporalCoverage: Option<Json> := None;
    if Present(row, "temporalCoverage_start") || Present(row, "temporalCoverage_end") {
      var coverage :- BuildTemporalCoverage(row);
      temporalCoverage := Some(Arr([Obj(coverage)]));
    }

    var distributionList := ProcessDistributions(row);
    var distributions := if distributionList != [] then Some(Arr(distributionList)) else None;

    var data := DatasetData(
      title := LanguageObject(Verbatim(title)),
      description := LanguageObject(Verbatim(description)),
      identifiers := Arr([Verbatim(identificator)]),
      publisher := publisher,
      accessRights := Obj(map["code" := Verbatim(accessRights)]),
      issued := issued,
      modified := modified,
      keywords := keywords,
      contactPoints := contactPoints,
      themes := themes,
      spatial := spatial,
      temporalCoverage := temporalCoverage,
      distributions := distributions);
    r := Success(Payload(data));
  }
}
