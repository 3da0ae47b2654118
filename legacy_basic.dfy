/**
 * The older basic sidecar mapping of `helpers/mappings/v2_1/basic.py`: one
 * dict literal whose title and description are lists of Dutch strings,
 * whose single Dutch strings are taken by indexing (`IndexError` when there
 * is none), whose role lists are not filtered on a missing agent, and whose
 * coverage conditional guards the whole concatenation.
 */
module LegacyBasic {
  import opened Wrappers
  import opened Sip
  import opened Langstrings
  import opened Sidecar
  import opened Common
  import LegacyMaterialArtwork

  /**
   * `get_nl_string` of the older basic module: the first Dutch value, taken
   * by indexing the list of Dutch entries, so `IndexError` when there is none.
   */
  function ListNlString(strings: LangStrings): (r: Result<string>)
    ensures r.Ok? <==> NlStrings(strings) != []
    ensures r.Ok? ==> r.value == NlStrings(strings)[0] && IsDutchValue(strings, r.value)
    ensures r.Err? ==> r.error == IndexError
  {
    var nl := NlStrings(strings);
    if nl == [] then Err(IndexError)
    else
      NlStringsExactlyDutch(strings);
      Ok(nl[0])
  }

  /**
   * Indexing and `next` pick the same Dutch value; they differ only in the
   * exception raised when there is none.
   */
  lemma ListNlStringAgreesWithNext(strings: LangStrings)
    ensures ListNlString(strings).Ok? <==> NlString(strings).Ok?
    ensures ListNlString(strings).Ok? ==> ListNlString(strings).value == NlString(strings).value
    ensures ListNlString(strings).Err? ==>
      ListNlString(strings).error == IndexError && NlString(strings).error == StopIteration
  {
  }

  /** `get_nl_string` of the older basic module, for an optional field: `None` when absent. */
  function OptionalListNlString(strings: Option<LangStrings>): (r: Result<Option<string>>)
    ensures strings.None? ==> r == Ok(None)
    ensures strings.Some? ==> (r.Ok? <==> NlStrings(strings.value) != [])
    ensures r.Ok? && strings.Some? ==> r.value.Some? && IsDutchValue(strings.value, r.value.value)
    ensures r.Err? ==> r.error == IndexError
  {
    match strings
    case None => Ok(None)
    case Some(s) =>
      var v :- ListNlString(s);
      Ok(Some(v))
  }

  /** `get_nl_string` over each list in turn; the first list without a Dutch entry raises `IndexError`. */
  function ListEach(lists: seq<LangStrings>): (r: Result<seq<string>>)
    ensures r.Ok? <==> forall i :: 0 <= i < |lists| ==> NlStrings(lists[i]) != []
    ensures r.Ok? ==>
      (&& |r.value| == |lists|
       && forall i :: 0 <= i < |lists| ==> r.value[i] == NlStrings(lists[i])[0])
    ensures r.Err? ==> r.error == IndexError
  {
    if lists == [] then Ok([])
    else
      var head :- ListNlString(lists[0]);
      var rest :- ListEach(lists[1..]);
      assert forall i :: 1 <= i < |lists| ==> lists[i] == lists[1..][i - 1];
      Ok([head] + rest)
  }

  /** Over many lists, indexing and `next` agree except in the exception. */
  lemma ListEachAgreesWithNlEach(lists: seq<LangStrings>)
    ensures ListEach(lists).Ok? <==> NlEach(lists).Ok?
    ensures ListEach(lists).Ok? ==> ListEach(lists).value == NlEach(lists).value
  {
    if ListEach(lists).Ok? {
      var a, b := ListEach(lists).value, NlEach(lists).value;
      assert |a| == |b| && forall i :: 0 <= i < |a| ==> a[i] == b[i];
    }
  }

  /**
   * The role list comprehensions of the older basic module: every role,
   * agent or not, yields `(role_name, get_nl_string(agent name))`. A role
   * without an agent raises `AttributeError` on `name`; an agent without a
   * Dutch name raises `IndexError`; the first such role decides.
   */
  function UnfilteredRolePairs(roles: seq<Role>): (r: Result<seq<(string, string)>>)
    ensures r.Ok? <==> AgentsNamed(roles)
    ensures r.Ok? ==>
      (&& |r.value| == |roles|
       && forall i :: 0 <= i < |roles| ==>
            r.value[i] == (roles[i].roleName, NlStrings(roles[i].agent.value.name)[0]))
    ensures r.Err? ==> r.error == AttributeError("name") || r.error == IndexError
  {
    if roles == [] then Ok([])
    else
      match roles[0].agent
      case None => Err(AttributeError("name"))
      case Some(agent) =>
        var name :- ListNlString(agent.name);
        var rest :- UnfilteredRolePairs(roles[1..]);
        assert forall i :: 1 <= i < |roles| ==> roles[i] == roles[1..][i - 1];
        Ok([(roles[0].roleName, name)] + rest)
  }

  /**
   * The first failing role decides the exception: after roles that all
   * name a Dutch-named agent, a role without an agent raises
   * `AttributeError`, and one whose agent has no Dutch name `IndexError`,
   * whatever follows.
   */
  lemma {:induction false} UnfilteredRolePairsFirstFailure(a: seq<Role>, x: Role, b: seq<Role>)
    requires AgentsNamed(a)
    ensures x.agent.None? ==> UnfilteredRolePairs(a + [x] + b) == Err(AttributeError("name"))
    ensures x.agent.Some? && NlStrings(x.agent.value.name) == [] ==>
      UnfilteredRolePairs(a + [x] + b) == Err(IndexError)
  {
    if a == [] {
      assert a + [x] + b == [x] + b;
      assert ([x] + b)[1..] == b;
    } else {
      UnfilteredRolePairsFirstFailure(a[1..], x, b);
      assert (a + [x] + b)[0] == a[0];
      assert (a + [x] + b)[1..] == a[1..] + [x] + b;
      assert NlStrings(a[0].agent.value.name) != [];
    }
  }

  /** When every role names a Dutch-named agent, the unfiltered pairs are the filtered ones. */
  lemma UnfilteredAgreesWhenAllNamed(roles: seq<Role>)
    requires AgentsNamed(roles)
    ensures UnfilteredRolePairs(roles) == RolePairs(roles)
  {
    WithAgentKeepsAll(roles);
    RolePairsKeepAgents(roles);
    var a, b := UnfilteredRolePairs(roles).value, RolePairs(roles).value;
    assert |a| == |b| && forall i :: 0 <= i < |a| ==> a[i] == b[i];
  }

  /** Roles that all name an agent are all kept by the filter. */
  lemma {:induction false} WithAgentKeepsAll(roles: seq<Role>)
    requires forall i :: 0 <= i < |roles| ==> roles[i].agent.Some?
    ensures WithAgent(roles) == roles
  {
    if roles != [] {
      assert forall i :: 0 <= i < |roles[1..]| ==> roles[1..][i] == roles[i + 1];
      WithAgentKeepsAll(roles[1..]);
      assert roles == [roles[0]] + roles[1..];
    }
  }

  /**
   * Where the material-artwork mapping skips a role without an agent, the
   * basic mapping raises on it.
   */
  lemma UnfilteredRaisesWhereFilteredSkips(a: seq<Role>, x: Role, b: seq<Role>)
    requires AgentsNamed(a) && x.agent.None?
    ensures UnfilteredRolePairs(a + [x] + b) == Err(AttributeError("name"))
    ensures RolePairs(a + [x] + b) == RolePairs(a + b)
  {
    UnfilteredRolePairsFirstFailure(a, x, b);
    RolePairsSkipsAbsentAgent(a, x, b);
  }

  /**
   * `dc_coverages` of the older basic module: without a temporal list the
   * whole value is `[]`; with one, the places' Dutch names (by indexing) then
   * the Dutch temporal strings.
   */
  function BasicCoverages(spatial: seq<Thing>, temporal: Option<LangStrings>): (r: Result<seq<(string, string)>>)
    ensures temporal.None? ==> r == Ok([])
    ensures temporal.Some? ==> (r.Ok? <==> NamedInDutch(spatial))
    ensures r.Err? ==> r.error == IndexError
  {
    if temporal.Some? then
      var places :- ListEach(Names(spatial));
      Ok(Labelled("ruimte", places) + Labelled("tijd", NlStrings(temporal.value)))
    else Ok([])
  }

  /**
   * The basic coverages are the material-artwork ones, except that a place
   * without a Dutch name raises `IndexError` rather than `StopIteration`.
   */
  lemma BasicCoveragesAgree(spatial: seq<Thing>, temporal: Option<LangStrings>)
    ensures var basic, artwork := BasicCoverages(spatial, temporal), LegacyMaterialArtwork.LegacyCoverages(spatial, temporal);
      && (basic.Ok? <==> artwork.Ok?)
      && (basic.Ok? ==> basic.value == artwork.value)
  {
    ListEachAgreesWithNlEach(Names(spatial));
  }

  /** The values of the older basic mapping that can raise, in evaluation order. */
  datatype BasicFields = BasicFields(
    description: seq<string>,
    owners: seq<string>,
    creators: seq<(string, string)>,
    contributors: seq<(string, string)>,
    publishers: seq<(string, string)>,
    coverages: seq<(string, string)>,
    artMedium: Option<string>,
    artform: Option<string>,
    credit: Option<string>,
    comment: Option<string>)

  /**
   * The raising values of the dict literal, in the order Python evaluates
   * them: a missing description raises `AttributeError` on `root`, a role
   * without an agent `AttributeError` on `name`, and every missing Dutch
   * string `IndexError`.
   */
  function ExtractBasicFields(e: Entity): (r: Result<BasicFields>)
    ensures r.Err? ==> r.error in {AttributeError("root"), AttributeError("name"), IndexError}
    ensures e.description.None? ==> r == Err(AttributeError("root"))
    ensures r.Ok? ==> e.description.Some? && r.value.description == NlStrings(e.description.value)
    ensures r.Ok? ==> UnfilteredRolePairs(e.creator).Ok? && r.value.creators == UnfilteredRolePairs(e.creator).value
    ensures r.Ok? ==>
      BasicCoverages(e.spatial, e.temporal).Ok? && r.value.coverages == BasicCoverages(e.spatial, e.temporal).value
  {
    var description :- if e.description.Some? then Ok(NlStrings(e.description.value)) else Err(AttributeError("root"));
    var owners :- ListEach(Names(e.copyrightHolder));
    var creators :- UnfilteredRolePairs(e.creator);
    var contributors :- UnfilteredRolePairs(e.contributor);
    var publishers :- UnfilteredRolePairs(e.publisher);
    var coverages :- BasicCoverages(e.spatial, e.temporal);
    var artMedium :- OptionalListNlString(e.artMedium);
    var artform :- OptionalListNlString(e.artform);
    var credit :- OptionalListNlString(e.creditText);
    var comment :- OptionalListNlString(e.rights);
    Ok(BasicFields(description, owners, creators, contributors, publishers,
                   coverages, artMedium, artform, credit, comment))
  }

  /** The keys of the older basic `"Dynamic"` section, in the order of the literal. */
  const BasicDynamicKeys: seq<string> := [
    "dcterms_created", "dcterms_issued", "dc_rights_rightsOwners", "ContentCategory",
    "dc_subjects", "dc_identifier_localid", "dc_identifier_localids", "dc_languages",
    "dc_titles", "dc_creators", "dc_contributors", "dc_publishers", "dc_types",
    "dc_coverages", "artmedium", "artform", "dc_rights_credit", "dc_rights_comment"
  ]

  /** The first part of the older basic `"Dynamic"` section: dates, owners, category, subjects, identifiers, languages and titles. */
  function BasicTextFields(e: Entity, f: BasicFields): Entries
  {
    [ ("dcterms_created", Str(e.dateCreated)),
      ("dcterms_issued", OptStr(e.datePublished)),
      ("dc_rights_rightsOwners", Pairs(Labelled("Auteursrechthouder", f.owners))),
      ("ContentCategory", Str("image")),
      ("dc_subjects", OptPairs(TaggedNlStrings("Trefwoord", e.keywords))),
      ("dc_identifier_localid", OptStr(LocalId(e.localIdentifier))),
      ("dc_identifier_localids", Pairs(Labelled("local_id", LegacyMaterialArtwork.IdValues(e.localIdentifier)))),
      ("dc_languages", Pairs(Labelled("multiselect", e.inLanguage))),
      ("dc_titles", Pairs(Labelled("title", e.isPartOf))) ]
  }

  /** The second part: the agents, types, coverages and the art and rights texts. */
  function BasicAgentFields(e: Entity, f: BasicFields): Entries
  {
    [ ("dc_creators", Pairs(f.creators)),
      ("dc_contributors", Pairs(f.contributors)),
      ("dc_publishers", Pairs(f.publishers)),
      ("dc_types", OptPairs(TaggedNlStrings("multiselect", e.genre))),
      ("dc_coverages", Pairs(f.coverages)),
      ("artmedium", OptStr(f.artMedium)),
      ("artform", OptStr(f.artform)),
      ("dc_rights_credit", OptStr(f.credit)),
      ("dc_rights_comment", OptStr(f.comment)) ]
  }

  /** The older basic `"Dynamic"` section, given the raising values. */
  function BasicDynamic(e: Entity, f: BasicFields): Entries
  {
    BasicTextFields(e, f) + BasicAgentFields(e, f)
  }

  /** `get_mh_mapping` of the older basic module. */
  function LegacyBasicMapping(sip: SIP): (r: Result<Entries>)
    ensures r.Err? ==> r.error in {AttributeError("root"), AttributeError("name"), IndexError}
  {
    var f :- ExtractBasicFields(sip.entity);
    Ok([ ("Descriptive", Dict([("Title", Strs(NlStrings(sip.entity.name))), ("Description", Strs(f.description))])),
         ("Dynamic", Dict(BasicDynamic(sip.entity, f))) ])
  }

  lemma BasicTextFieldsShape(e: Entity, f: BasicFields)
    ensures var d := BasicTextFields(e, f);
      && Keys(d) == BasicDynamicKeys[..9] && Flat(d)
      && d[3] == ("ContentCategory", Str("image"))
  {
    var d := BasicTextFields(e, f);
    forall i | 0 <= i < |d| ensures d[i].0 == BasicDynamicKeys[..9][i] && !d[i].1.Dict? {}
    KeysMatch(d, BasicDynamicKeys[..9]);
  }

  lemma BasicAgentFieldsShape(e: Entity, f: BasicFields)
    ensures var d := BasicAgentFields(e, f);
      && Keys(d) == BasicDynamicKeys[9..] && Flat(d)
      && d[0] == ("dc_creators", Pairs(f.creators))
      && d[4] == ("dc_coverages", Pairs(f.coverages))
  {
    var d := BasicAgentFields(e, f);
    forall i | 0 <= i < |d| ensures d[i].0 == BasicDynamicKeys[9..][i] && !d[i].1.Dict? {}
    KeysMatch(d, BasicDynamicKeys[9..]);
  }

  /**
   * The older basic `"Dynamic"` section holds the keys of the literal in
   * order, no nested dict, the fixed content category, and list-valued
   * creators and coverages.
   */
  lemma BasicDynamicShape(e: Entity, f: BasicFields)
    ensures var d := BasicDynamic(e, f);
      && Keys(d) == BasicDynamicKeys && Flat(d)
      && d[3] == ("ContentCategory", Str("image"))
      && d[9] == ("dc_creators", Pairs(f.creators))
      && d[13] == ("dc_coverages", Pairs(f.coverages))
  {
    var a, b := BasicTextFields(e, f), BasicAgentFields(e, f);
    BasicTextFieldsShape(e, f);
    BasicAgentFieldsShape(e, f);
    KeysAppend(a, b);
    FlatAppend(a, b);
    assert BasicDynamicKeys[..9] + BasicDynamicKeys[9..] == BasicDynamicKeys;
    assert (a + b)[9] == b[0] && (a + b)[13] == b[4];
  }

  /**
   * A successful older basic mapping has the two sections; `Title` and
   * `Description` are the lists of all Dutch strings, the `"Dynamic"` keys
   * are those of the literal with no dict among them, the content category
   * is always `"image"`, and the creators are every role, unfiltered.
   */
  lemma LegacyBasicMappingShape(sip: SIP)
    requires LegacyBasicMapping(sip).Ok?
    ensures var m, e := LegacyBasicMapping(sip).value, sip.entity;
      && Keys(m) == ["Descriptive", "Dynamic"]
      && m[0].1 == Dict([("Title", Strs(NlStrings(e.name))), ("Description", Strs(NlStrings(e.description.value)))])
      && m[1].1.Dict?
      && Keys(m[1].1.entries) == BasicDynamicKeys && Flat(m[1].1.entries)
      && m[1].1.entries[3] == ("ContentCategory", Str("image"))
      && m[1].1.entries[9] == ("dc_creators", Pairs(UnfilteredRolePairs(e.creator).value))
      && |m[1].1.entries[9].1.pairs| == |e.creator|
      && m[1].1.entries[13] == ("dc_coverages", Pairs(BasicCoverages(e.spatial, e.temporal).value))
  {
    var f := ExtractBasicFields(sip.entity).value;
    BasicDynamicShape(sip.entity, f);
    var m := LegacyBasicMapping(sip).value;
    assert m == [ ("Descriptive", Dict([("Title", Strs(NlStrings(sip.entity.name))), ("Description", Strs(f.description))])),
                  ("Dynamic", Dict(BasicDynamic(sip.entity, f))) ];
  }

  /** The conditions under which every raising value of the older basic mapping succeeds. */
  predicate BasicMappable(e: Entity)
  {
    && e.description.Some?
    && NamedInDutch(e.copyrightHolder)
    && AgentsNamed(e.creator)
    && AgentsNamed(e.contributor)
    && AgentsNamed(e.publisher)
    && (e.temporal.Some? ==> NamedInDutch(e.spatial))
    && DutchIfPresent(e.artMedium)
    && DutchIfPresent(e.artform)
    && DutchIfPresent(e.creditText)
    && DutchIfPresent(e.rights)
  }

  lemma ExtractBasicFieldsOk(e: Entity)
    ensures ExtractBasicFields(e).Ok? <==>
      && e.description.Some?
      && ListEach(Names(e.copyrightHolder)).Ok?
      && UnfilteredRolePairs(e.creator).Ok?
      && UnfilteredRolePairs(e.contributor).Ok?
      && UnfilteredRolePairs(e.publisher).Ok?
      && BasicCoverages(e.spatial, e.temporal).Ok?
      && OptionalListNlString(e.artMedium).Ok?
      && OptionalListNlString(e.artform).Ok?
      && OptionalListNlString(e.creditText).Ok?
      && OptionalListNlString(e.rights).Ok?
  {
  }

  /**
   * The older basic mapping succeeds exactly when a description is present,
   * every owner has a Dutch name, every role of the three lists names an
   * agent with a Dutch name, the places do when a temporal list is present,
   * and every present art or rights text has a Dutch entry. The title never
   * makes it fail.
   */
  lemma LegacyBasicMappingSucceeds(sip: SIP)
    ensures LegacyBasicMapping(sip).Ok? <==> BasicMappable(sip.entity)
  {
    ExtractBasicFieldsOk(sip.entity);
    ListEachNames(sip.entity.copyrightHolder);
  }

  /** The names of the things are all found by indexing exactly when every thing has a Dutch name. */
  lemma ListEachNames(things: seq<Thing>)
    ensures ListEach(Names(things)).Ok? <==> NamedInDutch(things)
  {
    var names := Names(things);
    assert forall i :: 0 <= i < |things| ==> names[i] == things[i].name;
  }

  /**
   * The exception follows the literal's order: a missing description
   * first, then an owner without a Dutch name, then the first failing
   * creator.
   */
  lemma LegacyBasicMappingFirstFailure(sip: SIP)
    ensures sip.entity.description.None? ==> LegacyBasicMapping(sip) == Err(AttributeError("root"))
    ensures sip.entity.description.Some? && !NamedInDutch(sip.entity.copyrightHolder) ==>
      LegacyBasicMapping(sip) == Err(IndexError)
    ensures var e := sip.entity;
      && e.description.Some? && NamedInDutch(e.copyrightHolder) && UnfilteredRolePairs(e.creator).Err?
      ==> LegacyBasicMapping(sip) == Err(UnfilteredRolePairs(e.creator).error)
  {
    ListEachNames(sip.entity.copyrightHolder);
  }
}
