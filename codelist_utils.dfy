/**
 * The codelist helpers of the import: label-or-code to code dictionaries for
 * themes, licenses and access rights, each fetched (or, for access rights,
 * written out) once and then served from a module-level cache, and the
 * lookups that map a spreadsheet value through them.
 *
 * The HTTP request and the JSON decoding are not modelled: a getter is given
 * what the request would yield, `None` when requesting, the status check,
 * decoding or the `data` key fails, and the list of entries otherwise.
 */
module CodelistUtils {
  import opened Wrappers

  /** The `name` member of a codelist entry. */
  datatype Name =
    | NoName                         // no `name` key: `.get('name', {})` gives {}
    | Names(de: Option<string>)      // a dictionary, with or without a German name
    | NotADict                       // a `name` that has no `.get` (null, a string, ...): raises

  /** One item of the export's `data` list. */
  datatype Entry = Entry(code: Option<string>, name: Name)

  /** `item.get('code')` as text; a missing code is falsy like the empty string. */
  function Code(e: Entry): string
  {
    e.code.GetOr("")
  }

  /** `item.get('name', {}).get('de', '')`, for a name that does not raise. */
  function Label(e: Entry): string
  {
    match e.name
    case Names(Some(de)) => de
    case _ => ""
  }

  /** `if code and label:` the entry adds to the dictionary. */
  predicate Contributes(e: Entry)
  {
    Code(e) != "" && Label(e) != ""
  }

  /** Reading this entry's label raises. */
  predicate Raises(e: Entry)
  {
    e.name.NotADict?
  }

  /** The dictionary built from `seed` by the loop over `entries`: for each
      contributing entry, `result[label] = code` and then `result[code] = code`.
      Its keys are the seed's and every label and code the entries bring; a
      key they bring maps to one of their codes, any other keeps its seed value. */
  function Build(seed: map<string, string>, entries: seq<Entry>): (r: map<string, string>)
    ensures r.Keys == seed.Keys + Touched(entries)
    ensures forall k | k in r && k !in Touched(entries) :: r[k] == seed[k]
    ensures forall k | k in Touched(entries) :: r[k] in Codes(entries)
  {
    if entries == [] then seed
    else
      var m, e := Build(seed, entries[..|entries| - 1]), entries[|entries| - 1];
      if Contributes(e) then m[Label(e) := Code(e)][Code(e) := Code(e)] else m
  }

  /** The labels and codes of the contributing entries. */
  function Touched(entries: seq<Entry>): set<string>
  {
    if entries == [] then {}
    else
      var e := entries[|entries| - 1];
      Touched(entries[..|entries| - 1]) + (if Contributes(e) then {Label(e), Code(e)} else {})
  }

  /** The codes of the contributing entries. */
  function Codes(entries: seq<Entry>): set<string>
  {
    if entries == [] then {}
    else
      var e := entries[|entries| - 1];
      Codes(entries[..|entries| - 1]) + (if Contributes(e) then {Code(e)} else {})
  }

  /** The dictionary a getter builds from the fetch result, None when the
      fetch fails or an entry's name raises (both end in the `except`). */
  function Fetch(seed: map<string, string>, fetched: Option<seq<Entry>>): Option<map<string, string>>
  {
    if fetched.None? || exists i :: 0 <= i < |fetched.value| && Raises(fetched.value[i]) then None
    else Some(Build(seed, fetched.value))
  }

  /** The loop of the codelist getters. */
  method CollectEntries(seed: map<string, string>, entries: seq<Entry>) returns (result: Option<map<string, string>>)
    ensures result == Fetch(seed, Some(entries))
  {
    var m := seed;
    for i := 0 to |entries|
      invariant m == Build(seed, entries[..i])
      invariant forall j :: 0 <= j < i ==> !Raises(entries[j])
    {
      var e := entries[i];
      if Raises(e) {
        return None;
      }
      assert entries[..i + 1][..i] == entries[..i];
      if Contributes(e) {
        m := m[Label(e) := Code(e)];
        m := m[Code(e) := Code(e)];
      }
    }
    assert entries[..|entries|] == entries;
    result := Some(m);
  }

  /** `mapping.get(value, value)`: the mapped code, or the value itself. */
  function Resolve(m: map<string, string>, value: string): (r: string)
    ensures value in m ==> r == m[value]
    ensures value !in m ==> r == value
  {
    if value in m then m[value] else value
  }

  /** Looking a value up a second time changes nothing. */
  ghost predicate Idempotent(m: map<string, string>)
  {
    forall k | k in m :: m[k] !in m || m[m[k]] == m[k]
  }

  /** No contributing entry's label is the code of a contributing entry with
      a different code. */
  ghost predicate NoShadow(entries: seq<Entry>)
  {
    forall i, j | 0 <= i < |entries| && 0 <= j < |entries| && Contributes(entries[i]) && Contributes(entries[j]) ::
      Label(entries[i]) == Code(entries[j]) ==> Code(entries[i]) == Code(entries[j])
  }

  /** No seed value is the label of a contributing entry with another code. */
  ghost predicate SeedRespected(seed: map<string, string>, entries: seq<Entry>)
  {
    forall k, i | k in seed && 0 <= i < |entries| && Contributes(entries[i]) ::
      Label(entries[i]) == seed[k] ==> Code(entries[i]) == seed[k]
  }

  /** A contributing entry brings its label and its code. */
  lemma {:induction false} TouchedHas(entries: seq<Entry>, i: nat)
    requires i < |entries| && Contributes(entries[i])
    ensures Label(entries[i]) in Touched(entries) && Code(entries[i]) in Codes(entries)
    ensures Code(entries[i]) in Touched(entries)
  {
    if i < |entries| - 1 {
      var prefix := entries[..|entries| - 1];
      assert prefix[i] == entries[i];
      TouchedHas(prefix, i);
    }
  }

  /** Every code comes from a contributing entry. */
  lemma {:induction false} CodesFrom(entries: seq<Entry>, c: string)
    requires c in Codes(entries)
    ensures exists i :: 0 <= i < |entries| && Contributes(entries[i]) && Code(entries[i]) == c
  {
    var prefix, e := entries[..|entries| - 1], entries[|entries| - 1];
    if !(Contributes(e) && Code(e) == c) {
      CodesFrom(prefix, c);
      var i :| 0 <= i < |prefix| && Contributes(prefix[i]) && Code(prefix[i]) == c;
      assert entries[i] == prefix[i];
    }
  }

  /** A key the entries bring holds the code of the last contributing entry
      that has it as its label or as its code. */
  lemma {:induction false} BuildLastWriter(seed: map<string, string>, entries: seq<Entry>, k: string)
    requires k in Touched(entries)
    ensures exists i :: 0 <= i < |entries| && Contributes(entries[i]) && (Label(entries[i]) == k || Code(entries[i]) == k)
                        && Build(seed, entries)[k] == Code(entries[i])
                        && forall j | i < j < |entries| && Contributes(entries[j]) :: Label(entries[j]) != k && Code(entries[j]) != k
  {
    var prefix, e := entries[..|entries| - 1], entries[|entries| - 1];
    if Contributes(e) && (Label(e) == k || Code(e) == k) {
      assert Build(seed, entries)[k] == Code(e);
    } else {
      BuildLastWriter(seed, prefix, k);
      var i :| 0 <= i < |prefix| && Contributes(prefix[i]) && (Label(prefix[i]) == k || Code(prefix[i]) == k)
               && Build(seed, prefix)[k] == Code(prefix[i])
               && forall j | i < j < |prefix| && Contributes(prefix[j]) :: Label(prefix[j]) != k && Code(prefix[j]) != k;
      assert entries[i] == prefix[i];
      assert Build(seed, entries)[k] == Code(entries[i]);
      forall j | i < j < |entries| && Contributes(entries[j])
        ensures Label(entries[j]) != k && Code(entries[j]) != k
      {
        if j < |prefix| {
          assert entries[j] == prefix[j];
        }
      }
    }
  }

  /** Without shadowing, every code maps to itself. */
  lemma {:induction false} CodesMapToThemselves(seed: map<string, string>, entries: seq<Entry>)
    requires NoShadow(entries)
    ensures forall i | 0 <= i < |entries| && Contributes(entries[i]) ::
      Code(entries[i]) in Build(seed, entries) && Build(seed, entries)[Code(entries[i])] == Code(entries[i])
  {
    forall i | 0 <= i < |entries| && Contributes(entries[i])
      ensures Code(entries[i]) in Build(seed, entries) && Build(seed, entries)[Code(entries[i])] == Code(entries[i])
    {
      TouchedHas(entries, i);
      BuildLastWriter(seed, entries, Code(entries[i]));
    }
  }

  /** Without shadowing, a label that only ever names one code maps to that code. */
  lemma {:induction false} LabelMapsToItsCode(seed: map<string, string>, entries: seq<Entry>, i: nat)
    requires NoShadow(entries)
    requires i < |entries| && Contributes(entries[i])
    requires forall j | 0 <= j < |entries| && Contributes(entries[j]) && Label(entries[j]) == Label(entries[i]) ::
      Code(entries[j]) == Code(entries[i])
    ensures Label(entries[i]) in Build(seed, entries) && Build(seed, entries)[Label(entries[i])] == Code(entries[i])
  {
    TouchedHas(entries, i);
    BuildLastWriter(seed, entries, Label(entries[i]));
  }

  /** The built dictionary is idempotent when the seed is, nothing shadows
      and no seed value is an entry's label for another code. */
  lemma {:induction false} BuildIdempotent(seed: map<string, string>, entries: seq<Entry>)
    requires Idempotent(seed) && NoShadow(entries) && SeedRespected(seed, entries)
    ensures Idempotent(Build(seed, entries))
  {
    var m := Build(seed, entries);
    forall k | k in m && m[k] in m
      ensures m[m[k]] == m[k]
    {
      var v := m[k];
      if v in Touched(entries) {
        BuildLastWriter(seed, entries, v);
        var j :| 0 <= j < |entries| && Contributes(entries[j]) && (Label(entries[j]) == v || Code(entries[j]) == v)
                 && m[v] == Code(entries[j]);
        if k in Touched(entries) {
          CodesFrom(entries, v);
          var i :| 0 <= i < |entries| && Contributes(entries[i]) && Code(entries[i]) == v;
        }
      } else if k in Touched(entries) {
        CodesFrom(entries, v);
        var i :| 0 <= i < |entries| && Contributes(entries[i]) && Code(entries[i]) == v;
        TouchedHas(entries, i);
      }
    }
  }

  /** Resolving the result again gives the same result. */
  lemma ResolveTwice(m: map<string, string>, value: string)
    requires Idempotent(m)
    ensures Resolve(m, Resolve(m, value)) == Resolve(m, value)
  {
  }

  /** The license dictionary starts from this default mapping, which is also
      what a failed license fetch returns. */
  const LicenseSeed: map<string, string> := map["Unknown" := "UNKNOWN"]

  /** The fixed access-rights dictionary: the four German labels and the four
      codes, each code mapping to itself. */
  const AccessRightsTable: map<string, string> := map[
    "Nicht-öffentlich" := "NON_PUBLIC",
    "Öffentlich" := "PUBLIC",
    "Eingeschränkt" := "RESTRICTED",
    "Vertraulich" := "CONFIDENTIAL",
    "NON_PUBLIC" := "NON_PUBLIC",
    "PUBLIC" := "PUBLIC",
    "RESTRICTED" := "RESTRICTED",
    "CONFIDENTIAL" := "CONFIDENTIAL"]

  /** The four access-right codes. */
  const AccessRightCodes: set<string> := {"NON_PUBLIC", "PUBLIC", "RESTRICTED", "CONFIDENTIAL"}

  /** The table's keys are the four German labels and the four codes. */
  lemma AccessRightsKeys()
    ensures AccessRightsTable.Keys == {"Nicht-öffentlich", "Öffentlich", "Eingeschränkt", "Vertraulich"} + AccessRightCodes
  {
  }

  /** Every value of the table is a code that maps to itself, so looking up
      twice is looking up once. */
  lemma AccessRightsCodes()
    ensures forall k | k in AccessRightsTable :: AccessRightsTable[k] in AccessRightCodes
    ensures forall c | c in AccessRightCodes :: c in AccessRightsTable && AccessRightsTable[c] == c
    ensures Idempotent(AccessRightsTable)
  {
    var t := AccessRightsTable;
    assert t["NON_PUBLIC"] == "NON_PUBLIC" && t["PUBLIC"] == "PUBLIC";
    assert t["RESTRICTED"] == "RESTRICTED" && t["CONFIDENTIAL"] == "CONFIDENTIAL";
  }

  /** The license seed survives a fetch unless the catalogue itself defines
      "Unknown", as a label or a code. */
  lemma LicenseSeedKept(entries: seq<Entry>)
    requires "Unknown" !in Touched(entries)
    ensures "Unknown" in Build(LicenseSeed, entries) && Build(LicenseSeed, entries)["Unknown"] == "UNKNOWN"
  {
  }

  /** The three module-level caches of the codelist helpers. */
  class Codelists {
    var themes: Option<map<string, string>>
    var licenses: Option<map<string, string>>
    var accessRights: Option<map<string, string>>

    /** What a cache can hold: whatever was built from a successful fetch
        still has the license default key, and access rights only ever hold
        the fixed table. */
    ghost predicate Valid()
      reads this
    {
      && (licenses.Some? ==> "Unknown" in licenses.value)
      && (accessRights.Some? ==> accessRights.value == AccessRightsTable)
    }

    /** The caches at import time: all empty. */
    constructor ()
      ensures themes.None? && licenses.None? && accessRights.None?
      ensures Valid()
    {
      themes, licenses, accessRights := None, None, None;
    }

    /** `get_themes_codelist`: a cache hit returns the cache and requests
        nothing; otherwise the fetch result is built into the dictionary and
        cached, or on failure `{}` is returned and nothing is cached. */
    method GetThemesCodelist(fetched: Option<seq<Entry>>) returns (m: map<string, string>, requested: bool)
      requires Valid()
      modifies this
      ensures Valid()
      ensures requested <==> old(themes).None?
      ensures old(themes).Some? ==> m == old(themes).value && themes == old(themes)
      ensures old(themes).None? && Fetch(map[], fetched).Some? ==> m == Fetch(map[], fetched).value && themes == Some(m)
      ensures old(themes).None? && Fetch(map[], fetched).None? ==> m == map[] && themes.None?
      ensures licenses == old(licenses) && accessRights == old(accessRights)
    {
      if themes.Some? {
        return themes.value, false;
      }
      requested := true;
      var result := None;
      if fetched.Some? {
        result := CollectEntries(map[], fetched.value);
      }
      if result.Some? {
        themes := result;
        m := result.value;
      } else {
        m := map[];
      }
    }

    /** `get_license_codelist`: like the themes getter, from the default
        mapping `{'Unknown': 'UNKNOWN'}`, which is also what a failed fetch
        returns (uncached). */
    method GetLicenseCodelist(fetched: Option<seq<Entry>>) returns (m: map<string, string>, requested: bool)
      requires Valid()
      modifies this
      ensures Valid()
      ensures "Unknown" in m
      ensures requested <==> old(licenses).None?
      ensures old(licenses).Some? ==> m == old(licenses).value && licenses == old(licenses)
      ensures old(licenses).None? && Fetch(LicenseSeed, fetched).Some? ==> m == Fetch(LicenseSeed, fetched).value && licenses == Some(m)
      ensures old(licenses).None? && Fetch(LicenseSeed, fetched).None? ==> m == LicenseSeed && licenses.None?
      ensures themes == old(themes) && accessRights == old(accessRights)
    {
      if licenses.Some? {
        return licenses.value, false;
      }
      requested := true;
      var result := None;
      if fetched.Some? {
        result := CollectEntries(LicenseSeed, fetched.value);
      }
      if result.Some? {
        licenses := result;
        m := result.value;
      } else {
        m := LicenseSeed;
      }
    }

    /** `get_access_rights_codelist`: always the fixed table, cached after
        the first call. */
    method GetAccessRightsCodelist() returns (m: map<string, string>)
      requires Valid()
      modifies this
      ensures Valid()
      ensures m == AccessRightsTable
      ensures accessRights == Some(AccessRightsTable)
      ensures themes == old(themes) && licenses == old(licenses)
    {
      if accessRights.Some? {
        return accessRights.value;
      }
      accessRights := Some(AccessRightsTable);
      m := AccessRightsTable;
    }

    /** `map_theme_to_code`: None for a missing or empty value (no codelist
        is consulted), else the value looked up in the themes dictionary. */
    method MapThemeToCode(value: Option<string>, fetched: Option<seq<Entry>>) returns (code: Option<string>)
      requires Valid()
      modifies this
      ensures Valid()
      ensures value.None? || value.value == "" ==> code.None? && themes == old(themes)
      ensures value.Some? && value.value != "" && old(themes).Some? ==>
        code == Some(Resolve(old(themes).value, value.value)) && themes == old(themes)
      ensures value.Some? && value.value != "" && old(themes).None? ==>
        code == Some(Resolve(Fetch(map[], fetched).GetOr(map[]), value.value)) && themes == Fetch(map[], fetched)
      ensures licenses == old(licenses) && accessRights == old(accessRights)
    {
      if value.None? || value.value == "" {
        return None;
      }
      var m, _ := GetThemesCodelist(fetched);
      code := Some(Resolve(m, value.value));
    }

    /** `map_license_to_code`: as for themes, through the license dictionary. */
    method MapLicenseToCode(value: Option<string>, fetched: Option<seq<Entry>>) returns (code: Option<string>)
      requires Valid()
      modifies this
      ensures Valid()
      ensures value.None? || value.value == "" ==> code.None? && licenses == old(licenses)
      ensures value.Some? && value.value != "" && old(licenses).Some? ==>
        code == Some(Resolve(old(licenses).value, value.value)) && licenses == old(licenses)
      ensures value.Some? && value.value != "" && old(licenses).None? ==>
        code == Some(Resolve(Fetch(LicenseSeed, fetched).GetOr(LicenseSeed), value.value)) && licenses == Fetch(LicenseSeed, fetched)
      ensures themes == old(themes) && accessRights == old(accessRights)
    {
      if value.None? || value.value == "" {
        return None;
      }
      var m, _ := GetLicenseCodelist(fetched);
      code := Some(Resolve(m, value.value));
    }

    /** `map_access_rights_to_code`: as for themes, through the fixed table. */
    method MapAccessRightsToCode(value: Option<string>) returns (code: Option<string>)
      requires Valid()
      modifies this
      ensures Valid()
      ensures value.None? || value.value == "" ==> code.None? && accessRights == old(accessRights)
      ensures value.Some? && value.value != "" ==>
        code == Some(Resolve(AccessRightsTable, value.value)) && accessRights == Some(AccessRightsTable)
      ensures themes == old(themes) && licenses == old(licenses)
    {
      if value.None? || value.value == "" {
        return None;
      }
      var m := GetAccessRightsCodelist();
      code := Some(Resolve(m, value.value));
    }
  }

  /** A failed license fetch is not cached: the next call requests again and
      caches what it builds. */
  method LicenseRetry(entries: seq<Entry>) returns (first: map<string, string>, second: map<string, string>, requestedAgain: bool)
    requires forall i :: 0 <= i < |entries| ==> !Raises(entries[i])
    ensures first == LicenseSeed
    ensures requestedAgain
    ensures second == Build(LicenseSeed, entries)
  {
    var lists := new Codelists();
    var requested;
    first, requested := lists.GetLicenseCodelist(None);
    second, requestedAgain := lists.GetLicenseCodelist(Some(entries));
  }

  /** The same for the lookup: after a failed fetch, `"Unknown"` still maps to
      `UNKNOWN` through the uncached default, and the next lookup fetches again
      and looks the value up in what it builds. */
  method LicenseLookupRetry(entries: seq<Entry>) returns (first: Option<string>, second: Option<string>, cached: Option<map<string, string>>)
    requires forall i :: 0 <= i < |entries| ==> !Raises(entries[i])
    ensures first == Some("UNKNOWN")
    ensures second == Some(Resolve(Build(LicenseSeed, entries), "Unknown"))
    ensures cached == Some(Build(LicenseSeed, entries))
  {
    var lists := new Codelists();
    first := lists.MapLicenseToCode(Some("Unknown"), None);
    second := lists.MapLicenseToCode(Some("Unknown"), Some(entries));
    cached := lists.licenses;
  }
}
