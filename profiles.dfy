/**
 * The three version 2.1 profiles. Each takes the common mapping and merges a
 * profile fragment into it: material artwork through the package's
 * `deepmerge`, film and basic through an attribute of the `common` module
 * that module does not define.
 */
module Profiles {
  import opened Wrappers
  import opened Sip
  import opened Langstrings
  import opened Sidecar
  import opened ProfileHelpers
  import opened Common

  /** The material-artwork fragment: an empty `"Dynamic"` section. */
  const MaterialArtworkFragment: Entries := [("Dynamic", Dict([]))]

  /** The film and basic fragment: the content category `"image"`. */
  const ImageFragment: Entries := [("Dynamic", Dict([("ContentCategory", Str("image"))]))]

  /** `material_artwork.get_mh_mapping`: the common mapping merged with the empty fragment. */
  function MaterialArtworkMapping(sip: SIP): Result<Entries>
  {
    var common :- CommonMapping(sip);
    Merge(common, MaterialArtworkFragment)
  }

  /** Looking up the second of two distinct keys finds its value. */
  lemma LookupSecond(m: Entries)
    requires |m| == 2 && m[0].0 != m[1].0
    ensures Lookup(m, m[1].0) == Some(m[1].1)
  {
    assert m[1..] == [m[1]];
  }

  /**
   * The material-artwork profile adds nothing: its mapping is the common one,
   * failing with the same exception when that fails.
   */
  lemma MaterialArtworkIsCommon(sip: SIP)
    ensures MaterialArtworkMapping(sip) == CommonMapping(sip)
  {
    if CommonMapping(sip).Ok? {
      var m := CommonMapping(sip).value;
      CommonMappingShape(sip);
      LookupSecond(m);
      MergeEmptySubDict(m, "Dynamic");
    }
  }

  /**
   * `film.get_mh_mapping` and `basic.get_mh_mapping`: once the common
   * mapping is built, the call `common.deepmerge` raises `AttributeError`,
   * since the `common` module has no such attribute.
   */
  function FilmMapping(sip: SIP): (r: Result<Entries>)
    ensures r.Err?
    ensures CommonMapping(sip).Ok? ==> r == Err(AttributeError("deepmerge"))
  {
    var common :- CommonMapping(sip);
    Err(AttributeError("deepmerge"))
  }

  /** `basic.get_mh_mapping`: the same body as the film profile. */
  function BasicMapping(sip: SIP): (r: Result<Entries>)
    ensures r.Err?
    ensures CommonMapping(sip).Ok? ==> r == Err(AttributeError("deepmerge"))
  {
    var common :- CommonMapping(sip);
    Err(AttributeError("deepmerge"))
  }

  /**
   * Even through `deepmerge`, the film and basic fragment could not be
   * merged: the common `"Dynamic"` section already holds a string under
   * `"ContentCategory"`, and two leaves under one key raise `ValueError`.
   */
  lemma ImageFragmentConflicts(sip: SIP)
    requires CommonMapping(sip).Ok?
    ensures Merge(CommonMapping(sip).value, ImageFragment) == Err(MergeConflict)
  {
    var m := CommonMapping(sip).value;
    CommonMappingShape(sip);
    var dynamic := m[1].1.entries;
    var fragment := ImageFragment[0].1.entries;
    var n := |dynamic|;
    assert Keys(dynamic)[n - 1] == "ContentCategory";
    assert Keys(fragment) == ["ContentCategory"];
    var existing := Lookup(dynamic, "ContentCategory").value;
    assert !existing.Dict?;
    SharedKeyConflict(dynamic, fragment, "ContentCategory");
    LookupSecond(m);
    assert Keys(ImageFragment) == ["Dynamic"];
    SharedKeyConflict(m, ImageFragment, "Dynamic");
  }

  /**
   * `material_artwork.get_licenses`, a helper no mapping calls: the seven
   * defaults without a license, otherwise only the concepts' Dutch labels.
   */
  function MaterialLicenses(licenses: seq<License>): (r: Result<seq<(string, string)>>)
    ensures licenses == [] ==> r == Licenses(licenses)
    ensures licenses != [] ==> (r.Ok? <==> ConceptLabels(licenses).Ok?)
    ensures r.Ok? && licenses != [] ==>
      (&& |r.value| == CountConcepts(licenses)
       && forall i :: 0 <= i < |r.value| ==> r.value[i] == ("multiselect", ConceptLabels(licenses).value[i]))
    ensures r.Err? ==> r.error == StopIteration
  {
    if |licenses| == 0 then Ok(Labelled("multiselect", DefaultLicenseCodes))
    else
      var concepts :- ConceptLabels(licenses);
      Ok(Labelled("multiselect", concepts))
  }

  /** Each concept's first Dutch label, in source order, tagged `multiselect`. */
  lemma MaterialLicensesValues(licenses: seq<License>)
    ensures licenses != [] && MaterialLicenses(licenses).Ok? ==>
      forall i :: 0 <= i < |licenses| && licenses[i].Concept? ==>
        && CountConcepts(licenses[..i]) < |MaterialLicenses(licenses).value|
        && MaterialLicenses(licenses).value[CountConcepts(licenses[..i])] == ("multiselect", NlStrings(licenses[i].prefLabel)[0])
  {
    ConceptLabelsValues(licenses);
  }

  /**
   * The material-artwork helper agrees with the common `get_licenses` on
   * the concepts and drops the URI codes that follow them.
   */
  lemma MaterialLicensesDropUris(licenses: seq<License>)
    ensures MaterialLicenses(licenses).Ok? <==> Licenses(licenses).Ok?
    ensures MaterialLicenses(licenses).Ok? && licenses != [] ==>
      Licenses(licenses).value == MaterialLicenses(licenses).value + Labelled("multiselect", UriCodes(licenses))
  {
    if licenses != [] && ConceptLabels(licenses).Ok? {
      LabelledAppend("multiselect", ConceptLabels(licenses).value, UriCodes(licenses));
    }
  }
}
