/**
 * The older material-artwork sidecar mapping of
 * `helpers/mappings/v2_1/material_artwork.py`: one dict literal with a fixed
 * content category, titles taken from `is_part_of` ids, filtered role lists
 * that are never `None`, and a coverage list whose conditional guards the
 * whole concatenation.
 */
module LegacyMaterialArtwork {
  import opened Wrappers
  import opened Sip
  import opened Langstrings
  import opened Sidecar
  import opened Common
  import opened Profiles

  /** The values of the local identifiers, in order. */
  function IdValues(ids: seq<LocalIdentifier>): (r: seq<string>)
    ensures |r| == |ids|
    ensures forall i :: 0 <= i < |ids| ==> r[i] == ids[i].value
  {
    if ids == [] then [] else [ids[0].value] + IdValues(ids[1..])
  }

  /**
   * `dc_coverages`: the conditional expression binds looser than `+`, so
   * without a temporal list the whole value is `[]` and the places are not
   * even looked at; with one, the places then the Dutch temporal strings.
   */
  function LegacyCoverages(spatial: seq<Thing>, temporal: Option<LangStrings>): (r: Result<seq<(string, string)>>)
    ensures temporal.None? ==> r == Ok([])
    ensures temporal.Some? ==> (r.Ok? <==> NamedInDutch(spatial))
    ensures r.Err? ==> r.error == StopIteration
  {
    if temporal.Some? then
      NlEachNames(spatial);
      var places :- NlEach(Names(spatial));
      Ok(Labelled("ruimte", places) + Labelled("tijd", NlStrings(temporal.value)))
    else Ok([])
  }

  /**
   * Without a temporal list every place is dropped: the common mapping
   * lists them, the older one yields nothing.
   */
  lemma CoveragesDropPlacesWithoutTime(spatial: seq<Thing>)
    requires spatial != [] && NamedInDutch(spatial)
    ensures LegacyCoverages(spatial, None) == Ok([])
    ensures Coverages(spatial, None).Ok? && Coverages(spatial, None).value.Some?
    ensures |Coverages(spatial, None).value.value| == |spatial|
  {
    NlEachNames(spatial);
    CoveragesPlacesThenTimes(spatial, None);
  }

  /**
   * With a temporal list the older coverages agree with the common ones,
   * except that an empty result is `[]` rather than `None`.
   */
  lemma CoveragesAgreeWithTime(spatial: seq<Thing>, temporal: LangStrings)
    ensures var legacy, common := LegacyCoverages(spatial, Some(temporal)), Coverages(spatial, Some(temporal));
      && (legacy.Ok? <==> common.Ok?)
      && (legacy.Ok? && common.value.Some? ==> legacy.value == common.value.value)
      && (legacy.Ok? && common.value.None? ==> legacy.value == [])
  {
    NlEachNames(spatial);
    var common := Coverages(spatial, Some(temporal));
    if common.Ok? {
      var places := NlEach(Names(spatial)).value;
      var cov := Labelled("ruimte", places) + Labelled("tijd", NlStrings(temporal));
      assert common.value == if |cov| > 0 then Some(cov) else None;
    }
  }

  /** The values of the older mapping that can raise, in evaluation order. */
  datatype LegacyFields = LegacyFields(
    title: string,
    description: Option<string>,
    owners: seq<string>,
    creators: seq<(string, string)>,
    contributors: seq<(string, string)>,
    publishers: seq<(string, string)>,
    coverages: seq<(string, string)>,
    artMedium: Option<string>,
    artform: Option<string>,
    credit: Option<string>,
    comment: Option<string>,
    licenses: seq<(string, string)>)

  /**
   * The raising values of the dict literal. Every failure is a `next` over
   * an empty generator, so the exception is `StopIteration` whichever fails first.
   */
  function ExtractLegacyFields(e: Entity): (r: Result<LegacyFields>)
    ensures r.Err? ==> r.error == StopIteration
    ensures r.Ok? ==> NlStrings(e.name) != [] && r.value.title == NlStrings(e.name)[0]
    ensures r.Ok? ==> RolePairs(e.creator).Ok? && r.value.creators == RolePairs(e.creator).value
    ensures r.Ok? ==>
      LegacyCoverages(e.spatial, e.temporal).Ok? && r.value.coverages == LegacyCoverages(e.spatial, e.temporal).value
  {
    var title :- NlString(e.name);
    var description :- OptionalNlString(e.description);
    var owners :- NlEach(Names(e.copyrightHolder));
    var creators :- RolePairs(e.creator);
    var contributors :- RolePairs(e.contributor);
    var publishers :- RolePairs(e.publisher);
    var coverages :- LegacyCoverages(e.spatial, e.temporal);
    var artMedium :- OptionalNlString(e.artMedium);
    var artform :- OptionalNlString(e.artform);
    var credit :- OptionalNlString(e.creditText);
    var comment :- OptionalNlString(e.rights);
    var licenses :- MaterialLicenses(e.license);
    Ok(LegacyFields(title, description, owners, creators, contributors, publishers,
                    coverages, artMedium, artform, credit, comment, licenses))
  }

  /** The keys of the older `"Dynamic"` section, in the order of the literal. */
  const LegacyDynamicKeys: seq<string> := [
    "dc_title", "dc_description", "dc_description_lang", "dcterms_created", "dcterms_issued",
    "dc_rights_rightsOwners", "ContentCategory", "dc_subjects", "dc_identifier_localid",
    "dc_identifier_localids", "dc_languages", "dc_titles", "dc_creators", "dc_contributors",
    "dc_publishers", "dc_types", "dc_coverages", "artmedium", "artform", "dc_rights_credit",
    "dc_rights_comment", "dc_rights_licenses", "dimensions"
  ]

  /** The first part of the older `"Dynamic"` section: the texts, identifiers and titles. */
  function LegacyTextFields(e: Entity, f: LegacyFields): Entries
  {
    [ ("dc_title", Str(f.title)),
      ("dc_description", OptStr(f.description)),
      ("dc_description_lang", OptStr(f.description)),
      ("dcterms_created", Str(e.dateCreated)),
      ("dcterms_issued", OptStr(e.datePublished)),
      ("dc_rights_rightsOwners", Pairs(Labelled("Auteursrechthouder", f.owners))),
      ("ContentCategory", Str("image")),
      ("dc_subjects", OptPairs(TaggedNlStrings("Trefwoord", e.keywords))),
      ("dc_identifier_localid", OptStr(LocalId(e.localIdentifier))),
      ("dc_identifier_localids", Pairs(Labelled("local_id", IdValues(e.localIdentifier)))),
      ("dc_languages", Pairs(Labelled("multiselect", e.inLanguage))),
      ("dc_titles", Pairs(Labelled("title", e.isPartOf))) ]
  }

  /** The second part: the agents, types, coverages, art and rights texts, licenses and dimensions. */
  function LegacyAgentFields(e: Entity, f: LegacyFields): Entries
  {
    [ ("dc_creators", Pairs(f.creators)),
      ("dc_contributors", Pairs(f.contributors)),
      ("dc_publishers", Pairs(f.publishers)),
      ("dc_types", OptPairs(TaggedNlStrings("multiselect", e.genre))),
      ("dc_coverages", Pairs(f.coverages)),
      ("artmedium", OptStr(f.artMedium)),
      ("artform", OptStr(f.artform)),
      ("dc_rights_credit", OptStr(f.credit)),
      ("dc_rights_comment", OptStr(f.comment)),
      ("dc_rights_licenses", Pairs(f.licenses)),
      ("dimensions", Pairs(Dimensions(e))) ]
  }

  /** The older `"Dynamic"` section, given the raising values. */
  function LegacyDynamic(e: Entity, f: LegacyFields): Entries
  {
    LegacyTextFields(e, f) + LegacyAgentFields(e, f)
  }

  /** `get_mh_mapping` of the older material-artwork module. */
  function LegacyMaterialArtworkMapping(sip: SIP): (r: Result<Entries>)
    ensures r.Err? ==> r.error == StopIteration
  {
    var f :- ExtractLegacyFields(sip.entity);
    Ok([ ("Descriptive", Dict([("mh:Title", Str(f.title)), ("mh:Description", OptStr(f.description))])),
         ("Dynamic", Dict(LegacyDynamic(sip.entity, f))) ])
  }

  lemma LegacyTextFieldsShape(e: Entity, f: LegacyFields)
    ensures var d := LegacyTextFields(e, f);
      && Keys(d) == LegacyDynamicKeys[..12] && Flat(d)
      && d[0] == ("dc_title", Str(f.title))
      && d[6] == ("ContentCategory", Str("image"))
      && d[9] == ("dc_identifier_localids", Pairs(Labelled("local_id", IdValues(e.localIdentifier))))
      && d[11] == ("dc_titles", Pairs(Labelled("title", e.isPartOf)))
  {
    var d := LegacyTextFields(e, f);
    forall i | 0 <= i < |d| ensures d[i].0 == LegacyDynamicKeys[..12][i] && !d[i].1.Dict? {}
    KeysMatch(d, LegacyDynamicKeys[..12]);
  }

  lemma LegacyAgentFieldsShape(e: Entity, f: LegacyFields)
    ensures var d := LegacyAgentFields(e, f);
      && Keys(d) == LegacyDynamicKeys[12..] && Flat(d)
      && d[0] == ("dc_creators", Pairs(f.creators))
      && d[4] == ("dc_coverages", Pairs(f.coverages))
  {
    var d := LegacyAgentFields(e, f);
    forall i | 0 <= i < |d| ensures d[i].0 == LegacyDynamicKeys[12..][i] && !d[i].1.Dict? {}
    KeysMatch(d, LegacyDynamicKeys[12..]);
  }

  /**
   * The older `"Dynamic"` section holds the keys of the literal in order,
   * no nested dict, the title first, the fixed content category, the
   * labelled identifiers and titles, and list-valued creators and coverages.
   */
  lemma LegacyDynamicShape(e: Entity, f: LegacyFields)
    ensures var d := LegacyDynamic(e, f);
      && Keys(d) == LegacyDynamicKeys && Flat(d)
      && d[0] == ("dc_title", Str(f.title))
      && d[6] == ("ContentCategory", Str("image"))
      && d[9] == ("dc_identifier_localids", Pairs(Labelled("local_id", IdValues(e.localIdentifier))))
      && d[11] == ("dc_titles", Pairs(Labelled("title", e.isPartOf)))
      && d[12] == ("dc_creators", Pairs(f.creators))
      && d[16] == ("dc_coverages", Pairs(f.coverages))
  {
    var a, b := LegacyTextFields(e, f), LegacyAgentFields(e, f);
    LegacyTextFieldsShape(e, f);
    LegacyAgentFieldsShape(e, f);
    KeysAppend(a, b);
    FlatAppend(a, b);
    assert LegacyDynamicKeys[..12] + LegacyDynamicKeys[12..] == LegacyDynamicKeys;
    assert (a + b)[12] == b[0] && (a + b)[16] == b[4];
  }

  /**
   * A successful older mapping has the two sections; its `"Dynamic"` keys
   * are those of the literal, none holds a dict, the content category is
   * always `"image"`, `mh:Title` and `dc_title` are the first Dutch name,
   * the titles are the `is_part_of` ids, every local identifier is
   * labelled `"local_id"`, and the creators and coverages are lists, never
   * `None`.
   */
  lemma LegacyMappingShape(sip: SIP)
    requires LegacyMaterialArtworkMapping(sip).Ok?
    ensures var m := LegacyMaterialArtworkMapping(sip).value;
      && Keys(m) == ["Descriptive", "Dynamic"]
      && m[0].1.Dict? && m[1].1.Dict?
      && m[0].1.entries[0] == ("mh:Title", Str(NlStrings(sip.entity.name)[0]))
      && Keys(m[1].1.entries) == LegacyDynamicKeys && Flat(m[1].1.entries)
      && m[1].1.entries[0] == ("dc_title", Str(NlStrings(sip.entity.name)[0]))
      && m[1].1.entries[6] == ("ContentCategory", Str("image"))
      && m[1].1.entries[9] == ("dc_identifier_localids", Pairs(Labelled("local_id", IdValues(sip.entity.localIdentifier))))
      && m[1].1.entries[11] == ("dc_titles", Pairs(Labelled("title", sip.entity.isPartOf)))
      && m[1].1.entries[12] == ("dc_creators", Pairs(RolePairs(sip.entity.creator).value))
      && m[1].1.entries[16] == ("dc_coverages", Pairs(LegacyCoverages(sip.entity.spatial, sip.entity.temporal).value))
  {
    var f := ExtractLegacyFields(sip.entity).value;
    var d := LegacyDynamic(sip.entity, f);
    LegacyDynamicShape(sip.entity, f);
    var m := LegacyMaterialArtworkMapping(sip).value;
    assert m == [ ("Descriptive", Dict([("mh:Title", Str(f.title)), ("mh:Description", OptStr(f.description))])),
                  ("Dynamic", Dict(d)) ];
  }

  /** The conditions under which every raising value of the older mapping succeeds. */
  predicate LegacyMappable(e: Entity)
  {
    && NlStrings(e.name) != []
    && DutchIfPresent(e.description)
    && NamedInDutch(e.copyrightHolder)
    && AgentsNamed(WithAgent(e.creator))
    && AgentsNamed(WithAgent(e.contributor))
    && AgentsNamed(WithAgent(e.publisher))
    && (e.temporal.Some? ==> NamedInDutch(e.spatial))
    && DutchIfPresent(e.artMedium)
    && DutchIfPresent(e.artform)
    && DutchIfPresent(e.creditText)
    && DutchIfPresent(e.rights)
    && (e.license == [] || ConceptLabels(e.license).Ok?)
  }

  lemma ExtractLegacyFieldsOk(e: Entity)
    ensures ExtractLegacyFields(e).Ok? <==>
      && NlString(e.name).Ok?
      && OptionalNlString(e.description).Ok?
      && NlEach(Names(e.copyrightHolder)).Ok?
      && RolePairs(e.creator).Ok?
      && RolePairs(e.contributor).Ok?
      && RolePairs(e.publisher).Ok?
      && LegacyCoverages(e.spatial, e.temporal).Ok?
      && OptionalNlString(e.artMedium).Ok?
      && OptionalNlString(e.artform).Ok?
      && OptionalNlString(e.creditText).Ok?
      && OptionalNlString(e.rights).Ok?
      && MaterialLicenses(e.license).Ok?
  {
  }

  /**
   * The older mapping succeeds exactly when the name and every present text
   * have a Dutch entry, every owner and named agent has a Dutch name, the
   * places do when a temporal list is present, and every concept license
   * has a Dutch label. Roles without an agent and places without a
   * temporal list never make it fail.
   */
  lemma LegacyMappingSucceeds(sip: SIP)
    ensures LegacyMaterialArtworkMapping(sip).Ok? <==> LegacyMappable(sip.entity)
  {
    var e := sip.entity;
    ExtractLegacyFieldsOk(e);
    NlEachNames(e.copyrightHolder);
    RolePairsKeepAgents(e.creator);
    RolePairsKeepAgents(e.contributor);
    RolePairsKeepAgents(e.publisher);
  }
}
