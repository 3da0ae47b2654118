/**
 * The v2.1 common MediaHaven sidecar mapping (`profiles/common.py`): the
 * field extractors that flatten an entity into `(tag, value)` lists and
 * optional strings, and the two-level dict they are assembled into.
 */
module Common {
  import opened Wrappers
  import opened Text
  import opened Sip
  import opened Langstrings
  import opened Sidecar

  /** `[(tag, v) for v in values]`. */
  function Labelled(tag: string, values: seq<string>): (r: seq<(string, string)>)
    ensures |r| == |values|
    ensures forall i :: 0 <= i < |values| ==> r[i] == (tag, values[i])
  {
    if values == [] then [] else [(tag, values[0])] + Labelled(tag, values[1..])
  }

  lemma {:induction false} LabelledAppend(tag: string, a: seq<string>, b: seq<string>)
    ensures Labelled(tag, a + b) == Labelled(tag, a) + Labelled(tag, b)
  {
    if a == [] {
      assert a + b == b;
    } else {
      assert (a + b)[1..] == a[1..] + b;
      LabelledAppend(tag, a[1..], b);
    }
  }

  // ---------------------------------------------------------------------
  // Dimensions

  /** How many millimetres (for `KGM`: kilograms) one unit stands for; 0 for a unit the table lacks. */
  function UnitFactor(unit: string): nat
  {
    match unit
    case "MMT" => 1
    case "CMT" => 10
    case "MTR" => 1000
    case "KGM" => 1
    case _ => 0
  }

  /** `quantitive_value_to_millimetres`: the dimension in millimetres, as a string. */
  function Millimetres(dimension: Option<Quantity>): (r: string)
    ensures dimension.None? ==> r == "0"
    ensures |r| >= 1
  {
    match dimension
    case None => "0"
    case Some(q) =>
      if q.unitCode == "MMT" then IntToString(q.value)
      else if q.unitCode == "CMT" then IntToString(q.value * 10)
      else if q.unitCode == "MTR" then IntToString(q.value * 1000)
      else if q.unitCode == "KGM" then IntToString(q.value)
      else "0"
  }

  /**
   * Every unit is written as its value scaled by the unit's factor: `MMT`
   * by 1, `CMT` by 10, `MTR` by 1000, `KGM` unscaled, and an unknown unit
   * as `"0"` whatever its value.
   */
  lemma MillimetresIsScaled(q: Quantity)
    ensures Millimetres(Some(q)) == IntToString(UnitFactor(q.unitCode) * q.value)
  {
    var u, v := q.unitCode, q.value;
    var f := UnitFactor(u);
    if u == "MMT" || u == "KGM" {
      assert f * v == v;
    } else if u == "CMT" {
      assert f * v == v * 10;
    } else if u == "MTR" {
      assert f * v == v * 1000;
    } else {
      assert f * v == 0;
      assert NatToString(0) == [DigitChar(0)];
    }
  }

  /** For a non-negative quantity the digits written denote exactly the scaled value. */
  lemma MillimetresDenotes(q: Quantity)
    requires q.value >= 0
    ensures IsDigits(Millimetres(Some(q)))
    ensures DecimalValue(Millimetres(Some(q))) == UnitFactor(q.unitCode) * q.value
  {
    MillimetresIsScaled(q);
    NatToStringRoundTrip(UnitFactor(q.unitCode) * q.value);
  }

  // ---------------------------------------------------------------------
  // Licenses

  /** The seven license codes used when the entity declares none. */
  const DefaultLicenseCodes: seq<string> := [
    "VIAA-ONDERWIJS",
    "VIAA-ONDERZOEK",
    "VIAA-INTRA_CP-CONTENT",
    "VIAA-INTRA_CP-METADATA-ALL",
    "VIAA-PUBLIEK-METADATA-LTD",
    "BEZOEKERTOOL-CONTENT",
    "BEZOEKERTOOL-METADATA-ALL"
  ]

  /** How many of the licenses are concepts. */
  function CountConcepts(licenses: seq<License>): (n: nat)
    ensures n <= |licenses|
  {
    if licenses == [] then 0
    else (if licenses[0].Concept? then 1 else 0) + CountConcepts(licenses[1..])
  }

  /** The Dutch label of every concept license, in order; a concept without one raises `StopIteration`. */
  function ConceptLabels(licenses: seq<License>): (r: Result<seq<string>>)
    ensures r.Ok? <==> forall i :: 0 <= i < |licenses| && licenses[i].Concept? ==> NlStrings(licenses[i].prefLabel) != []
    ensures r.Ok? ==> |r.value| == CountConcepts(licenses)
    ensures r.Err? ==> r.error == StopIteration
  {
    if licenses == [] then Ok([])
    else
      var rest := ConceptLabels(licenses[1..]);
      assert rest.Ok? ==> forall i :: 1 <= i < |licenses| && licenses[i].Concept? ==> NlStrings(licenses[i].prefLabel) != [] by {
        if rest.Ok? {
          forall i | 1 <= i < |licenses| && licenses[i].Concept? ensures NlStrings(licenses[i].prefLabel) != [] {
            assert licenses[1..][i - 1] == licenses[i];
          }
        }
      }
      match licenses[0]
      case Concept(tag) =>
        var v :- NlString(tag);
        var labels :- rest;
        Ok([v] + labels)
      case UriRef(_) => rest
  }

  /** The last `/`-segment of every URI-reference license's id, in order. */
  function UriCodes(licenses: seq<License>): (r: seq<string>)
    ensures |r| == |licenses| - CountConcepts(licenses)
  {
    if licenses == [] then []
    else
      match licenses[0]
      case Concept(_) => UriCodes(licenses[1..])
      case UriRef(id) => [LastSegment(id)] + UriCodes(licenses[1..])
  }

  /**
   * `get_licenses`: the seven defaults when the entity has no license;
   * otherwise every concept's Dutch label followed by every URI's last
   * segment, all tagged `"multiselect"`.
   */
  function Licenses(licenses: seq<License>): (r: Result<seq<(string, string)>>)
    ensures licenses == [] ==>
      (&& r.Ok? && |r.value| == 7
       && forall i :: 0 <= i < 7 ==> r.value[i] == ("multiselect", DefaultLicenseCodes[i]))
    ensures licenses != [] ==> (r.Ok? <==> ConceptLabels(licenses).Ok?)
    ensures licenses != [] && r.Ok? ==>
      (&& |r.value| == |licenses|
       && forall i :: 0 <= i < |licenses| ==> r.value[i].0 == "multiselect")
    ensures r.Err? ==> r.error == StopIteration
  {
    if |licenses| == 0 then Ok(Labelled("multiselect", DefaultLicenseCodes))
    else
      var concepts :- ConceptLabels(licenses);
      Ok(Labelled("multiselect", concepts + UriCodes(licenses)))
  }

  /** Two results in sequence: the first failure wins, otherwise the lists are joined. */
  function AppendOk<T>(x: Result<seq<T>>, y: Result<seq<T>>): Result<seq<T>>
  {
    var xs :- x;
    var ys :- y;
    Ok(xs + ys)
  }

  lemma {:induction false} ConceptLabelsAppend(a: seq<License>, b: seq<License>)
    ensures ConceptLabels(a + b) == AppendOk(ConceptLabels(a), ConceptLabels(b))
  {
    if a == [] {
      assert a + b == b;
      var y := ConceptLabels(b);
      if y.Ok? {
        assert [] + y.value == y.value;
      }
    } else {
      assert (a + b)[0] == a[0];
      assert (a + b)[1..] == a[1..] + b;
      ConceptLabelsAppend(a[1..], b);
      var rest, restB := ConceptLabels(a[1..]), ConceptLabels(b);
      if a[0].Concept? && NlString(a[0].prefLabel).Ok? && rest.Ok? && restB.Ok? {
        var v := NlString(a[0].prefLabel).value;
        assert ConceptLabels(a + b) == Ok([v] + (rest.value + restB.value));
        assert [v] + (rest.value + restB.value) == [v] + rest.value + restB.value;
      }
    }
  }

  lemma {:induction false} UriCodesAppend(a: seq<License>, b: seq<License>)
    ensures UriCodes(a + b) == UriCodes(a) + UriCodes(b)
  {
    if a == [] {
      assert a + b == b;
    } else {
      assert (a + b)[0] == a[0];
      assert (a + b)[1..] == a[1..] + b;
      UriCodesAppend(a[1..], b);
    }
  }

  /** Counting the concepts of a prefix one license further. */
  lemma CountConceptsPrefix(licenses: seq<License>, i: nat)
    requires 0 < i <= |licenses|
    ensures CountConcepts(licenses[..i]) == (if licenses[0].Concept? then 1 else 0) + CountConcepts(licenses[1..][..i - 1])
  {
    assert licenses[..i][0] == licenses[0];
    assert licenses[..i][1..] == licenses[1..][..i - 1];
  }

  /**
   * Each concept's label is its first Dutch `prefLabel` value, stored at the
   * position given by the concepts before it: the labels keep source order.
   */
  lemma {:induction false} ConceptLabelsValues(licenses: seq<License>)
    ensures ConceptLabels(licenses).Ok? ==>
      forall i :: 0 <= i < |licenses| && licenses[i].Concept? ==>
        && CountConcepts(licenses[..i]) < |ConceptLabels(licenses).value|
        && ConceptLabels(licenses).value[CountConcepts(licenses[..i])] == NlStrings(licenses[i].prefLabel)[0]
  {
    if licenses != [] && ConceptLabels(licenses).Ok? {
      var tail := licenses[1..];
      ConceptLabelsValues(tail);
      forall i | 0 <= i < |licenses| && licenses[i].Concept?
        ensures CountConcepts(licenses[..i]) < |ConceptLabels(licenses).value|
        ensures ConceptLabels(licenses).value[CountConcepts(licenses[..i])] == NlStrings(licenses[i].prefLabel)[0]
      {
        if i == 0 {
          assert licenses[..0] == [];
        } else {
          CountConceptsPrefix(licenses, i);
          assert tail[i - 1] == licenses[i];
        }
      }
    }
  }

  /**
   * Each URI license's code is the last `/`-segment of its id, stored at the
   * position given by the URI licenses before it: the codes keep source order.
   */
  lemma {:induction false} UriCodesValues(licenses: seq<License>)
    ensures forall i :: 0 <= i < |licenses| && licenses[i].UriRef? ==>
      && CountConcepts(licenses[..i]) <= i
      && i - CountConcepts(licenses[..i]) < |UriCodes(licenses)|
      && UriCodes(licenses)[i - CountConcepts(licenses[..i])] == LastSegment(licenses[i].id)
  {
    if licenses != [] {
      var tail := licenses[1..];
      UriCodesValues(tail);
      forall i | 0 <= i < |licenses| && licenses[i].UriRef?
        ensures CountConcepts(licenses[..i]) <= i
        ensures i - CountConcepts(licenses[..i]) < |UriCodes(licenses)|
        ensures UriCodes(licenses)[i - CountConcepts(licenses[..i])] == LastSegment(licenses[i].id)
      {
        if i == 0 {
          assert licenses[..0] == [];
        } else {
          CountConceptsPrefix(licenses, i);
          assert tail[i - 1] == licenses[i];
        }
      }
    }
  }

  /**
   * The value of every license in `get_licenses`' result: a concept's Dutch
   * label among the concepts in source order, then a URI's last segment
   * among the URIs in source order, each tagged `multiselect`.
   */
  lemma LicensesValues(licenses: seq<License>)
    ensures licenses != [] && Licenses(licenses).Ok? ==>
      forall i :: 0 <= i < |licenses| && licenses[i].Concept? ==>
        && CountConcepts(licenses[..i]) < |Licenses(licenses).value|
        && Licenses(licenses).value[CountConcepts(licenses[..i])] == ("multiselect", NlStrings(licenses[i].prefLabel)[0])
    ensures licenses != [] && Licenses(licenses).Ok? ==>
      forall i :: 0 <= i < |licenses| && licenses[i].UriRef? ==>
        && CountConcepts(licenses[..i]) <= i
        && CountConcepts(licenses) + (i - CountConcepts(licenses[..i])) < |Licenses(licenses).value|
        && Licenses(licenses).value[CountConcepts(licenses) + (i - CountConcepts(licenses[..i]))]
           == ("multiselect", LastSegment(licenses[i].id))
  {
    if licenses != [] && Licenses(licenses).Ok? {
      ConceptLabelsValues(licenses);
      UriCodesValues(licenses);
      var concepts, codes := ConceptLabels(licenses).value, UriCodes(licenses);
      assert Licenses(licenses).value == Labelled("multiselect", concepts + codes);
      forall i | 0 <= i < |licenses| && licenses[i].UriRef?
        ensures (concepts + codes)[CountConcepts(licenses) + (i - CountConcepts(licenses[..i]))] == LastSegment(licenses[i].id)
      {
      }
    }
  }

  /** Swapping a URI license with the concept after it leaves the concept labels unchanged. */
  lemma ConceptLabelsSwap(u: License, c: License, b: seq<License>)
    requires u.UriRef? && c.Concept?
    ensures ConceptLabels([u] + ([c] + b)) == ConceptLabels([c] + ([u] + b))
  {
    assert ([u] + ([c] + b))[1..] == [c] + b;
    assert ([u] + b)[1..] == b;
    ConceptLabelsAppend([c], b);
    ConceptLabelsAppend([c], [u] + b);
  }

  /** Swapping a URI license with the concept after it leaves the URI codes unchanged. */
  lemma UriCodesSwap(u: License, c: License, b: seq<License>)
    requires u.UriRef? && c.Concept?
    ensures UriCodes([u] + ([c] + b)) == UriCodes([c] + ([u] + b))
  {
    assert ([u] + ([c] + b))[1..] == [c] + b;
    assert ([c] + b)[1..] == b;
    assert ([c] + ([u] + b))[1..] == [u] + b;
    assert ([u] + b)[1..] == b;
  }

  /**
   * Concepts are listed before URIs whatever their interleaving: swapping a
   * URI license with a concept license that follows it changes nothing.
   */
  lemma LicensesGroupByKind(a: seq<License>, u: License, c: License, b: seq<License>)
    requires u.UriRef? && c.Concept?
    ensures Licenses(a + [u, c] + b) == Licenses(a + [c, u] + b)
  {
    var p, q := [u] + ([c] + b), [c] + ([u] + b);
    assert a + [u, c] + b == a + p;
    assert a + [c, u] + b == a + q;
    ConceptLabelsSwap(u, c, b);
    UriCodesSwap(u, c, b);
    ConceptLabelsAppend(a, p);
    ConceptLabelsAppend(a, q);
    UriCodesAppend(a, p);
    UriCodesAppend(a, q);
  }

  // ---------------------------------------------------------------------
  // Identifiers

  /** `get_dc_identifier_localid`: the value of the first primary identifier, `None` without one. */
  function LocalId(primary: seq<LocalIdentifier>): (r: Option<string>)
    ensures r.None? <==> primary == []
    ensures r.Some? ==> r.value == primary[0].value
  {
    if primary == [] then None else Some(primary[0].value)
  }

  /** `get_local_id_type`: the last path component of the identifier type's URI. */
  function LocalIdType(url: string): (r: string)
    ensures '/' !in r
  {
    PathName(url)
  }

  /** `get_dc_identifier_localids`: one `(type, value)` pair per local identifier, in order. */
  function LocalIds(ids: seq<LocalIdentifier>): (r: seq<(string, string)>)
    ensures |r| == |ids|
    ensures forall i :: 0 <= i < |ids| ==> r[i] == (LocalIdType(ids[i].idType), ids[i].value)
    ensures forall i :: 0 <= i < |ids| ==> '/' !in r[i].0
  {
    if ids == [] then [] else [(LocalIdType(ids[0].idType), ids[0].value)] + LocalIds(ids[1..])
  }

  // ---------------------------------------------------------------------
  // Names, roles and coverages

  /** `[get_nl_string(s) for s in lists]`: the first failure raises `StopIteration`. */
  function NlEach(lists: seq<LangStrings>): (r: Result<seq<string>>)
    ensures r.Ok? <==> forall i :: 0 <= i < |lists| ==> NlStrings(lists[i]) != []
    ensures r.Ok? ==>
      (&& |r.value| == |lists|
       && forall i :: 0 <= i < |lists| ==> r.value[i] == NlStrings(lists[i])[0])
    ensures r.Err? ==> r.error == StopIteration
  {
    if lists == [] then Ok([])
    else
      var v :- NlString(lists[0]);
      var rest :- NlEach(lists[1..]);
      assert forall i :: 1 <= i < |lists| ==> lists[1..][i - 1] == lists[i];
      Ok([v] + rest)
  }

  /** The multilingual names of the things, in order. */
  function Names(things: seq<Thing>): (r: seq<LangStrings>)
    ensures |r| == |things|
    ensures forall i :: 0 <= i < |things| ==> r[i] == things[i].name
  {
    if things == [] then [] else [things[0].name] + Names(things[1..])
  }

  /** The roles that name an agent, in their order. */
  function WithAgent(roles: seq<Role>): (r: seq<Role>)
    ensures |r| <= |roles|
    ensures forall i :: 0 <= i < |r| ==> r[i].agent.Some?
  {
    if roles == [] then []
    else if roles[0].agent.Some? then [roles[0]] + WithAgent(roles[1..])
    else WithAgent(roles[1..])
  }

  lemma {:induction false} WithAgentAppend(a: seq<Role>, b: seq<Role>)
    ensures WithAgent(a + b) == WithAgent(a) + WithAgent(b)
  {
    if a == [] {
      assert a + b == b;
    } else {
      assert (a + b)[0] == a[0];
      assert (a + b)[1..] == a[1..] + b;
      WithAgentAppend(a[1..], b);
    }
  }

  /**
   * The comprehension shared by `get_creators`, `get_contributors` and
   * `get_publishers`: `(role_name, Dutch agent name)` for each role whose
   * agent is set, in order.
   */
  function RolePairs(roles: seq<Role>): (r: Result<seq<(string, string)>>)
    ensures r.Err? ==> r.error == StopIteration
  {
    if roles == [] then Ok([])
    else
      var rest := RolePairs(roles[1..]);
      match roles[0].agent
      case None => rest
      case Some(agent) =>
        var v :- NlString(agent.name);
        var pairs :- rest;
        Ok([(roles[0].roleName, v)] + pairs)
  }

  /** Every role has an agent with a Dutch name. */
  predicate AgentsNamed(roles: seq<Role>)
  {
    forall i :: 0 <= i < |roles| ==> roles[i].agent.Some? && NlStrings(roles[i].agent.value.name) != []
  }

  /**
   * The role pairs are exactly the roles that name an agent, in order, each
   * with its agent's Dutch name; they fail exactly when one such agent has none.
   */
  lemma {:induction false} RolePairsKeepAgents(roles: seq<Role>)
    ensures var kept, r := WithAgent(roles), RolePairs(roles);
      && (r.Ok? <==> AgentsNamed(kept))
      && (r.Ok? ==> |r.value| == |kept|)
      && (r.Ok? ==> forall i :: 0 <= i < |kept| ==>
            r.value[i] == (kept[i].roleName, NlStrings(kept[i].agent.value.name)[0]))
  {
    if roles != [] {
      RolePairsKeepAgents(roles[1..]);
      var kept, tail := WithAgent(roles), WithAgent(roles[1..]);
      if roles[0].agent.Some? {
        assert kept == [roles[0]] + tail;
        assert forall i :: 1 <= i < |kept| ==> kept[i] == tail[i - 1];
        var r, rest := RolePairs(roles), RolePairs(roles[1..]);
        var name := roles[0].agent.value.name;
        assert r.Ok? <==> NlStrings(name) != [] && rest.Ok?;
        assert kept[0] == roles[0];
        if r.Ok? {
          assert r.value == [(roles[0].roleName, NlStrings(name)[0])] + rest.value;
        } else if NlStrings(name) != [] {
          var i :| 0 <= i < |tail| && !(tail[i].agent.Some? && NlStrings(tail[i].agent.value.name) != []);
          assert kept[i + 1] == tail[i];
          assert NlStrings(kept[i + 1].agent.value.name) == [];
        } else {
          assert NlStrings(kept[0].agent.value.name) == [];
        }
      } else {
        assert kept == tail;
        assert RolePairs(roles) == RolePairs(roles[1..]);
      }
    }
  }

  /** A role without an agent contributes nothing, wherever it stands. */
  lemma RolePairsSkipsAbsentAgent(a: seq<Role>, x: Role, b: seq<Role>)
    requires x.agent.None?
    ensures RolePairs(a + [x] + b) == RolePairs(a + b)
  {
    WithAgentAppend(a + [x], b);
    WithAgentAppend(a, [x]);
    WithAgentAppend(a, b);
    RolePairsKeepAgents(a + [x] + b);
    RolePairsKeepAgents(a + b);
    assert WithAgent([x]) == WithAgent([x][1..]);
    assert WithAgent(a + [x] + b) == WithAgent(a + b);
    var r1, r2 := RolePairs(a + [x] + b), RolePairs(a + b);
    if r1.Ok? {
      assert r1.value == r2.value;
    }
  }

  /**
   * `get_creators`, `get_contributors`, `get_publishers`: the role pairs, or
   * `None` when there are none, i.e. exactly when no role names an agent.
   */
  function Roles(roles: seq<Role>): (r: Result<Option<seq<(string, string)>>>)
    ensures r.Ok? <==> RolePairs(roles).Ok?
    ensures r.Ok? ==> (r.value.None? <==> WithAgent(roles) == [])
    ensures r.Ok? && r.value.Some? ==> r.value.value == RolePairs(roles).value
    ensures r.Err? ==> r.error == StopIteration
  {
    RolePairsKeepAgents(roles);
    var pairs :- RolePairs(roles);
    Ok(if |pairs| > 0 then Some(pairs) else None)
  }

  /** The Dutch strings of an optional list, `[]` when it is absent. */
  function NlStringsIfPresent(strings: Option<LangStrings>): seq<string>
  {
    if strings.Some? then NlStrings(strings.value) else []
  }

  /**
   * `get_coverages`: a `("ruimte", …)` entry per place, then a `("tijd", …)`
   * entry per Dutch temporal string; `None` when both are empty.
   */
  function Coverages(spatial: seq<Thing>, temporal: Option<LangStrings>): (r: Result<Option<seq<(string, string)>>>)
    ensures r.Ok? <==> NlEach(Names(spatial)).Ok?
    ensures r.Err? ==> r.error == StopIteration
  {
    var places :- NlEach(Names(spatial));
    var times := if temporal.Some? then NlStrings(temporal.value) else [];
    var coverages := Labelled("ruimte", places) + Labelled("tijd", times);
    Ok(if |coverages| > 0 then Some(coverages) else None)
  }

  /**
   * A successful coverage list holds one `"ruimte"` entry per place, in
   * order, followed by one `"tijd"` entry per Dutch temporal string; it is
   * `None` exactly when both parts are empty.
   */
  lemma CoveragesPlacesThenTimes(spatial: seq<Thing>, temporal: Option<LangStrings>)
    requires Coverages(spatial, temporal).Ok?
    ensures var r, times := Coverages(spatial, temporal).value, NlStringsIfPresent(temporal);
      && (r.None? <==> spatial == [] && times == [])
      && (r.Some? ==> |r.value| == |spatial| + |times|)
      && (r.Some? ==> forall i :: 0 <= i < |spatial| ==> r.value[i] == ("ruimte", NlStrings(spatial[i].name)[0]))
      && (r.Some? ==> forall i :: 0 <= i < |times| ==> r.value[|spatial| + i] == ("tijd", times[i]))
  {
    var places := NlEach(Names(spatial)).value;
    var times := NlStringsIfPresent(temporal);
    var cov := Labelled("ruimte", places) + Labelled("tijd", times);
    assert Coverages(spatial, temporal).value == if |cov| > 0 then Some(cov) else None;
  }

  /**
   * `get_dc_types` and `get_dc_subjects`: each Dutch string tagged with the
   * given tag, or `None` when the field is absent.
   */
  function TaggedNlStrings(tag: string, strings: Option<LangStrings>): (r: Option<seq<(string, string)>>)
    ensures r.None? <==> strings.None?
    ensures r.Some? ==>
      (&& |r.value| == |NlStrings(strings.value)|
       && forall i :: 0 <= i < |r.value| ==> r.value[i] == (tag, NlStrings(strings.value)[i]))
  {
    if strings.Some? then Some(Labelled(tag, NlStrings(strings.value))) else None
  }

  // ---------------------------------------------------------------------
  // Events

  /** The outcome URIs the outcome mapping recognises. */
  const OutcomeFail: string := "http://id.loc.gov/vocabulary/preservation/eventOutcome/fai"
  const OutcomeSuccess: string := "http://id.loc.gov/vocabulary/preservation/eventOutcome/suc"
  const OutcomeWarning: string := "http://id.loc.gov/vocabulary/preservation/eventOutcome/war"

  /** The event types the mapping reports on. */
  const Inspection: string := "https://data.hetarchief.be/id/event-type/inspection"
  const Repair: string := "https://data.hetarchief.be/id/event-type/repair"
  const Cleaning: string := "https://data.hetarchief.be/id/event-type/cleaning"
  const Baking: string := "https://data.hetarchief.be/id/event-type/baking"
  const Digitization: string := "https://data.hetarchief.be/id/event-type/digitization"
  const QualityControl: string := "https://data.hetarchief.be/id/event-type/quality-control"

  /** None of the first `n` events has the type. */
  predicate NoneOfType(events: seq<Event>, eventType: string, n: nat)
    requires n <= |events|
  {
    forall j :: 0 <= j < n ==> events[j].eventType != eventType
  }

  /** The first event of the type in `sip.events` order, if any. */
  function FirstOfType(events: seq<Event>, eventType: string): Option<Event>
  {
    if events == [] then None
    else if events[0].eventType == eventType then Some(events[0])
    else FirstOfType(events[1..], eventType)
  }

  /** `FirstOfType` is the earliest event of the type, and nothing exactly when there is none. */
  lemma {:induction false} FirstOfTypeIsEarliest(events: seq<Event>, eventType: string)
    ensures FirstOfType(events, eventType).None? <==> NoneOfType(events, eventType, |events|)
    ensures FirstOfType(events, eventType).Some? ==>
      exists i :: (&& 0 <= i < |events| && events[i] == FirstOfType(events, eventType).value
                   && events[i].eventType == eventType && NoneOfType(events, eventType, i))
  {
    if events != [] && events[0].eventType != eventType {
      var tail := events[1..];
      FirstOfTypeIsEarliest(tail, eventType);
      if FirstOfType(tail, eventType).Some? {
        var i :| && 0 <= i < |tail| && tail[i] == FirstOfType(tail, eventType).value
                 && tail[i].eventType == eventType && NoneOfType(tail, eventType, i);
        assert events[i + 1] == tail[i];
        assert NoneOfType(events, eventType, i + 1) by {
          forall j | 0 <= j < i + 1 ensures events[j].eventType != eventType {
            if j > 0 { assert events[j] == tail[j - 1]; }
          }
        }
      } else {
        assert NoneOfType(events, eventType, |events|) by {
          forall j | 0 <= j < |events| ensures events[j].eventType != eventType {
            if j > 0 { assert events[j] == tail[j - 1]; }
          }
        }
      }
    } else if events != [] {
      assert !NoneOfType(events, eventType, |events|) by {
        assert events[0].eventType == eventType;
      }
      assert NoneOfType(events, eventType, 0);
    }
  }

  /** `get_event_with_type`: scan the events and return the first of the type. */
  method EventWithType(events: seq<Event>, eventType: string) returns (r: Option<Event>)
    ensures r == FirstOfType(events, eventType)
    ensures r.None? <==> NoneOfType(events, eventType, |events|)
    ensures r.Some? ==>
      exists i :: (&& 0 <= i < |events| && events[i] == r.value
                   && r.value.eventType == eventType && NoneOfType(events, eventType, i))
  {
    for i := 0 to |events|
      invariant NoneOfType(events, eventType, i)
      invariant FirstOfType(events, eventType) == FirstOfType(events[i..], eventType)
    {
      if events[i].eventType == eventType {
        assert !NoneOfType(events, eventType, |events|);
        return Some(events[i]);
      }
      assert events[i..][1..] == events[i + 1..];
    }
    assert events[|events|..] == [];
    return None;
  }

  /** `get_event_date`: the date part of the first such event's start time. */
  function EventDate(events: seq<Event>, eventType: string): (r: Option<string>)
    ensures r.None? <==> NoneOfType(events, eventType, |events|)
    ensures var e := FirstOfType(events, eventType); e.Some? ==> r == Some(e.value.startedAt.date)
  {
    FirstOfTypeIsEarliest(events, eventType);
    match FirstOfType(events, eventType)
    case None => None
    case Some(e) => Some(e.startedAt.date)
  }

  /** `get_event_time`: the time part of the first such event's start time. */
  function EventTime(events: seq<Event>, eventType: string): (r: Option<string>)
    ensures r.None? <==> NoneOfType(events, eventType, |events|)
    ensures var e := FirstOfType(events, eventType); e.Some? ==> r == Some(e.value.startedAt.time)
  {
    FirstOfTypeIsEarliest(events, eventType);
    match FirstOfType(events, eventType)
    case None => None
    case Some(e) => Some(e.startedAt.time)
  }

  /**
   * `get_event_outcome`: `"y"` for a successful or warning outcome, `"n"`
   * for a failed or missing one, `None` without an event or for any other
   * outcome URI.
   */
  function EventOutcome(events: seq<Event>, eventType: string): (r: Option<string>)
    ensures NoneOfType(events, eventType, |events|) ==> r.None?
    ensures r.Some? ==> r.value == "y" || r.value == "n"
    ensures var e := FirstOfType(events, eventType);
      r == Some("y") <==> e.Some? && (e.value.outcome == Some(OutcomeSuccess) || e.value.outcome == Some(OutcomeWarning))
    ensures var e := FirstOfType(events, eventType);
      r == Some("n") <==> e.Some? && (e.value.outcome.None? || e.value.outcome == Some(OutcomeFail))
  {
    FirstOfTypeIsEarliest(events, eventType);
    match FirstOfType(events, eventType)
    case None => None
    case Some(e) =>
      match e.outcome
      case None => Some("n")
      case Some(id) =>
        if id == OutcomeFail then Some("n")
        else if id == OutcomeSuccess then Some("y")
        else if id == OutcomeWarning then Some("y")
        else None
  }

  /** `get_event_note`: the first such event's note; `None` without an event. */
  function EventNote(events: seq<Event>, eventType: string): (r: Option<string>)
    ensures NoneOfType(events, eventType, |events|) ==> r.None?
    ensures FirstOfType(events, eventType).Some? ==> r == FirstOfType(events, eventType).value.note
  {
    FirstOfTypeIsEarliest(events, eventType);
    match FirstOfType(events, eventType)
    case None => None
    case Some(e) => e.note
  }

  /**
   * `get_event_implementer` (and the identical `get_quality_control_by`):
   * the Dutch name of the first such event's implementer; `None` without an
   * event, `StopIteration` when the implementer has no Dutch name.
   */
  function EventImplementer(events: seq<Event>, eventType: string): (r: Result<Option<string>>)
    ensures r == Ok(None) <==> NoneOfType(events, eventType, |events|)
    ensures var e := FirstOfType(events, eventType);
      r.Err? <==> e.Some? && NlStrings(e.value.implementedBy.name) == []
    ensures var e := FirstOfType(events, eventType);
      e.Some? && NlStrings(e.value.implementedBy.name) != [] ==>
        r == Ok(Some(NlStrings(e.value.implementedBy.name)[0]))
    ensures r.Err? ==> r.error == StopIteration
  {
    FirstOfTypeIsEarliest(events, eventType);
    match FirstOfType(events, eventType)
    case None => Ok(None)
    case Some(e) =>
      var name :- NlString(e.implementedBy.name);
      Ok(Some(name))
  }

  // ---------------------------------------------------------------------
  // Titles

  /** `[(tag, get_nl_string(name))]`. */
  function Tagged(tag: string, name: LangStrings): (r: Result<seq<(string, string)>>)
    ensures r.Ok? <==> NlStrings(name) != []
    ensures r.Ok? ==> r.value == [(tag, NlStrings(name)[0])]
    ensures r.Err? ==> r.error == StopIteration
  {
    var v :- NlString(name);
    Ok([(tag, v)])
  }

  /** The names of the direct children that are archive components, in order. */
  function SubArchiveNames(parts: seq<PartOf>): (r: seq<LangStrings>)
    ensures |r| <= |parts|
    ensures r == [] <==> forall i :: 0 <= i < |parts| ==> !parts[i].ArchiveComponent?
  {
    if parts == [] then []
    else if parts[0].ArchiveComponent? then [parts[0].name] + SubArchiveNames(parts[1..])
    else SubArchiveNames(parts[1..])
  }

  /** One `("deelarchief", …)` entry per sub-archive name. */
  function SubArchiveTitles(names: seq<LangStrings>): (r: Result<seq<(string, string)>>)
    ensures r.Err? ==> r.error == StopIteration
  {
    if names == [] then Ok([])
    else AppendOk(Tagged("deelarchief", names[0]), SubArchiveTitles(names[1..]))
  }

  /** The titles one `schema_is_part_of` item contributes. */
  function ItemTitles(item: PartOf): (r: Result<seq<(string, string)>>)
    ensures r.Err? ==> (r.error == NotImplementedError <==> item.Other?)
    ensures r.Err? ==> r.error == StopIteration || r.error == NotImplementedError
  {
    match item
    case BroadcastEvent(name) => Tagged("programma", name)
    case Newspaper => Ok([])
    case CreativeWorkSeason(name) => Tagged("seizoen", name)
    case CreativeWorkSeries(name) => Tagged("serie", name)
    case ArchiveComponent(name, hasPart) =>
      AppendOk(Tagged("archief", name), SubArchiveTitles(SubArchiveNames(hasPart)))
    case Episode(name) => Tagged("aflevering", name)
    case CreativeWork => Ok([])
    case Other => Err(NotImplementedError)
  }

  /** `get_dc_titles` as a value: the items' titles in order; the first failing item raises. */
  function Titles(items: seq<PartOf>): (r: Result<seq<(string, string)>>)
    ensures r.Err? ==> r.error == StopIteration || r.error == NotImplementedError
  {
    if items == [] then Ok([]) else AppendOk(ItemTitles(items[0]), Titles(items[1..]))
  }

  lemma AppendOkAssoc<T>(x: Result<seq<T>>, y: Result<seq<T>>, z: Result<seq<T>>)
    ensures AppendOk(AppendOk(x, y), z) == AppendOk(x, AppendOk(y, z))
  {
    if x.Ok? && y.Ok? && z.Ok? {
      assert x.value + y.value + z.value == x.value + (y.value + z.value);
    }
  }

  lemma AppendOkUnit<T>(x: Result<seq<T>>)
    ensures AppendOk(Ok([]), x) == x
  {
    if x.Ok? {
      assert [] + x.value == x.value;
    }
  }

  /** `get_dc_titles`: walk the items, appending each one's titles to the list. */
  method DcTitles(items: seq<PartOf>) returns (r: Result<seq<(string, string)>>)
    ensures r == Titles(items)
  {
    var titles: seq<(string, string)> := [];
    AppendOkUnit(Titles(items));
    for i := 0 to |items|
      invariant Titles(items) == AppendOk(Ok(titles), Titles(items[i..]))
    {
      assert items[i..][1..] == items[i + 1..];
      var rest := Titles(items[i + 1..]);
      assert Titles(items[i..]) == AppendOk(ItemTitles(items[i]), rest);
      AppendOkAssoc(Ok(titles), ItemTitles(items[i]), rest);
      AppendOkUnit(rest);
      match items[i]
      case BroadcastEvent(name) =>
        var v := NlString(name);
        if v.Err? {
          return Err(v.error);
        }
        titles := titles + [("programma", v.value)];
      case Newspaper =>
      case CreativeWorkSeason(name) =>
        var v := NlString(name);
        if v.Err? {
          return Err(v.error);
        }
        titles := titles + [("seizoen", v.value)];
      case CreativeWorkSeries(name) =>
        var v := NlString(name);
        if v.Err? {
          return Err(v.error);
        }
        titles := titles + [("serie", v.value)];
      case ArchiveComponent(name, hasPart) =>
        var v := NlString(name);
        if v.Err? {
          AppendOkAssoc(Tagged("archief", name), SubArchiveTitles(SubArchiveNames(hasPart)), rest);
          return Err(v.error);
        }
        var subArchives := SubArchiveNames(hasPart);
        AppendOkAssoc(Ok(titles), Tagged("archief", name), AppendOk(SubArchiveTitles(subArchives), rest));
        AppendOkAssoc(Tagged("archief", name), SubArchiveTitles(subArchives), rest);
        titles := titles + [("archief", v.value)];
        for k := 0 to |subArchives|
          invariant Titles(items) == AppendOk(Ok(titles), AppendOk(SubArchiveTitles(subArchives[k..]), rest))
        {
          assert subArchives[k..][1..] == subArchives[k + 1..];
          var tail := SubArchiveTitles(subArchives[k + 1..]);
          AppendOkAssoc(Tagged("deelarchief", subArchives[k]), tail, rest);
          var s := NlString(subArchives[k]);
          if s.Err? {
            return Err(s.error);
          }
          AppendOkAssoc(Ok(titles), Tagged("deelarchief", subArchives[k]), AppendOk(tail, rest));
          titles := titles + [("deelarchief", s.value)];
        }
        assert subArchives[|subArchives|..] == [];
        AppendOkUnit(rest);
      case Episode(name) =>
        var v := NlString(name);
        if v.Err? {
          return Err(v.error);
        }
        titles := titles + [("aflevering", v.value)];
      case CreativeWork =>
      case Other =>
        return Err(NotImplementedError);
    }
    assert items[|items|..] == [];
    assert titles + [] == titles;
    return Ok(titles);
  }

  /** The titles of a concatenation are those of the two parts in order; the first failure wins. */
  lemma {:induction false} TitlesAppend(a: seq<PartOf>, b: seq<PartOf>)
    ensures Titles(a + b) == AppendOk(Titles(a), Titles(b))
  {
    if a == [] {
      assert a + b == b;
      AppendOkUnit(Titles(b));
    } else {
      assert (a + b)[0] == a[0];
      assert (a + b)[1..] == a[1..] + b;
      TitlesAppend(a[1..], b);
      AppendOkAssoc(ItemTitles(a[0]), Titles(a[1..]), Titles(b));
    }
  }

  /** A newspaper or a generic creative work contributes no title, wherever it stands. */
  lemma TitlesSkipUntitled(a: seq<PartOf>, x: PartOf, b: seq<PartOf>)
    requires x.Newspaper? || x.CreativeWork?
    ensures Titles(a + [x] + b) == Titles(a + b)
  {
    TitlesAppend(a + [x], b);
    TitlesAppend(a, [x]);
    TitlesAppend(a, b);
    var tx := Titles([x]);
    assert [x][1..] == [];
    assert tx == AppendOk(ItemTitles(x), Titles([]));
    assert ItemTitles(x) == Ok([]);
    AppendOkUnit(Titles([]));
    var ta := Titles(a);
    if ta.Ok? {
      assert ta.value + [] == ta.value;
    }
    assert AppendOk(ta, tx) == ta;
  }

  /** Any item of a class the mapping does not handle makes the whole title list fail. */
  lemma {:induction false} TitlesRejectUnknownClass(items: seq<PartOf>)
    requires Other in items
    ensures Titles(items).Err?
  {
    if items[0] != Other {
      assert Other in items[1..];
      TitlesRejectUnknownClass(items[1..]);
    }
  }

  /** The tags a title can carry. */
  const TitleTags: set<string> := {"programma", "seizoen", "serie", "archief", "deelarchief", "aflevering"}

  /** Every pair of the list carries one of the given tags. */
  predicate TagsAmong(pairs: seq<(string, string)>, tags: set<string>)
  {
    forall i :: 0 <= i < |pairs| ==> pairs[i].0 in tags
  }

  lemma AppendOkTags(x: Result<seq<(string, string)>>, y: Result<seq<(string, string)>>, tags: set<string>)
    requires x.Ok? ==> TagsAmong(x.value, tags)
    requires y.Ok? ==> TagsAmong(y.value, tags)
    ensures AppendOk(x, y).Ok? ==> TagsAmong(AppendOk(x, y).value, tags)
  {
    if x.Ok? && y.Ok? {
      var r := x.value + y.value;
      forall i | 0 <= i < |r| ensures r[i].0 in tags {
        if i >= |x.value| {
          assert r[i] == y.value[i - |x.value|];
        }
      }
    }
  }

  lemma {:induction false} SubArchiveTitlesTags(names: seq<LangStrings>)
    ensures SubArchiveTitles(names).Ok? ==> TagsAmong(SubArchiveTitles(names).value, {"deelarchief"})
  {
    if names != [] {
      SubArchiveTitlesTags(names[1..]);
      AppendOkTags(Tagged("deelarchief", names[0]), SubArchiveTitles(names[1..]), {"deelarchief"});
    }
  }

  /** Every title is tagged with one of the six title tags. */
  lemma {:induction false} TitlesTagged(items: seq<PartOf>)
    ensures Titles(items).Ok? ==> TagsAmong(Titles(items).value, TitleTags)
  {
    if items != [] {
      TitlesTagged(items[1..]);
      var item := items[0];
      if item.ArchiveComponent? {
        var subs := SubArchiveNames(item.hasPart);
        SubArchiveTitlesTags(subs);
        AppendOkTags(Tagged("archief", item.name), SubArchiveTitles(subs), TitleTags);
      }
      AppendOkTags(ItemTitles(item), Titles(items[1..]), TitleTags);
    }
  }

  /** The sub-archive names of a concatenation are those of the two parts in order. */
  lemma {:induction false} SubArchiveNamesAppend(a: seq<PartOf>, b: seq<PartOf>)
    ensures SubArchiveNames(a + b) == SubArchiveNames(a) + SubArchiveNames(b)
  {
    if a == [] {
      assert a + b == b;
    } else {
      assert (a + b)[0] == a[0];
      assert (a + b)[1..] == a[1..] + b;
      SubArchiveNamesAppend(a[1..], b);
    }
  }

  /**
   * Every archive-component child contributes its name, at the position
   * given by the archive components before it; nothing else contributes.
   */
  lemma SubArchiveNamesValues(parts: seq<PartOf>, i: nat)
    requires i < |parts|
    ensures parts[i].ArchiveComponent? ==>
      && |SubArchiveNames(parts[..i])| < |SubArchiveNames(parts)|
      && SubArchiveNames(parts)[|SubArchiveNames(parts[..i])|] == parts[i].name
    ensures !parts[i].ArchiveComponent? ==> SubArchiveNames(parts[..i + 1]) == SubArchiveNames(parts[..i])
  {
    assert parts[..i + 1] == parts[..i] + [parts[i]];
    assert parts == parts[..i + 1] + parts[i + 1..];
    SubArchiveNamesAppend(parts[..i], [parts[i]]);
    SubArchiveNamesAppend(parts[..i + 1], parts[i + 1..]);
    assert [parts[i]][1..] == [];
  }

  /** The sub-archive titles are the names' first Dutch values, each tagged `deelarchief`. */
  lemma {:induction false} SubArchiveTitlesValues(names: seq<LangStrings>)
    ensures SubArchiveTitles(names).Ok? <==> NlEach(names).Ok?
    ensures SubArchiveTitles(names).Ok? ==> SubArchiveTitles(names).value == Labelled("deelarchief", NlEach(names).value)
  {
    if names != [] {
      var tail := names[1..];
      SubArchiveTitlesValues(tail);
      if NlEach(names).Ok? {
        var v := NlStrings(names[0])[0];
        assert NlEach(tail).Ok? by {
          forall i | 0 <= i < |tail| ensures NlStrings(tail[i]) != [] {
            assert tail[i] == names[i + 1];
          }
        }
        assert NlEach(names).value == [v] + NlEach(tail).value;
        LabelledAppend("deelarchief", [v], NlEach(tail).value);
      } else if NlStrings(names[0]) != [] {
        assert !NlEach(tail).Ok? by {
          var i :| 0 <= i < |names| && NlStrings(names[i]) == [];
          assert tail[i - 1] == names[i];
        }
      }
    }
  }

  /**
   * The title each kind of item yields: broadcast `programma`, season
   * `seizoen`, series `serie` and episode `aflevering` each give their first
   * Dutch name; a newspaper and a generic creative work give nothing; an
   * archive gives `archief` with its first Dutch name and then one
   * `deelarchief` per archive-component child, in order; any other class
   * raises `NotImplementedError`.
   */
  lemma ItemTitlesValues(item: PartOf)
    ensures item.BroadcastEvent? ==> ItemTitles(item) == Tagged("programma", item.name)
    ensures item.CreativeWorkSeason? ==> ItemTitles(item) == Tagged("seizoen", item.name)
    ensures item.CreativeWorkSeries? ==> ItemTitles(item) == Tagged("serie", item.name)
    ensures item.Episode? ==> ItemTitles(item) == Tagged("aflevering", item.name)
    ensures item.Newspaper? || item.CreativeWork? ==> ItemTitles(item) == Ok([])
    ensures item.Other? ==> ItemTitles(item) == Err(NotImplementedError)
    ensures item.ArchiveComponent? ==>
      && (ItemTitles(item).Ok? <==> NlStrings(item.name) != [] && NlEach(SubArchiveNames(item.hasPart)).Ok?)
      && (NlStrings(item.name) == [] ==> ItemTitles(item) == Err(StopIteration))
      && (ItemTitles(item).Ok? ==>
            ItemTitles(item).value ==
              [("archief", NlStrings(item.name)[0])] + Labelled("deelarchief", NlEach(SubArchiveNames(item.hasPart)).value))
  {
    if item.ArchiveComponent? {
      SubArchiveTitlesValues(SubArchiveNames(item.hasPart));
    }
  }

  /** How many titles an item contributes when it succeeds. */
  function ItemTitleCount(item: PartOf): nat
  {
    match item
    case Newspaper => 0
    case CreativeWork => 0
    case Other => 0
    case ArchiveComponent(_, hasPart) => 1 + |SubArchiveNames(hasPart)|
    case _ => 1
  }

  function TitleCount(items: seq<PartOf>): nat
  {
    if items == [] then 0 else ItemTitleCount(items[0]) + TitleCount(items[1..])
  }

  lemma {:induction false} SubArchiveTitlesCount(names: seq<LangStrings>)
    ensures SubArchiveTitles(names).Ok? ==> |SubArchiveTitles(names).value| == |names|
  {
    if names != [] {
      SubArchiveTitlesCount(names[1..]);
    }
  }

  /**
   * A successful title list has one entry per broadcast, season, series and
   * episode, and one per archive plus one per direct sub-archive.
   */
  lemma {:induction false} TitlesCounted(items: seq<PartOf>)
    ensures Titles(items).Ok? ==> |Titles(items).value| == TitleCount(items)
  {
    if items != [] {
      TitlesCounted(items[1..]);
      if items[0].ArchiveComponent? {
        SubArchiveTitlesCount(SubArchiveNames(items[0].hasPart));
      }
    }
  }

  // ---------------------------------------------------------------------
  // The sidecar mapping

  /** An optional string field: the string, or `None`. */
  function OptStr(o: Option<string>): (v: Value)
    ensures !v.Dict?
  {
    if o.Some? then Str(o.value) else Null
  }

  /** An optional list of pairs: the list, or `None`. */
  function OptPairs(o: Option<seq<(string, string)>>): (v: Value)
    ensures !v.Dict?
  {
    if o.Some? then Pairs(o.value) else Null
  }

  /** The keys of the descriptive fields of the `"Dynamic"` section, in the order the mapping writes them. */
  const MetadataKeys: seq<string> := [
    "dc_title", "dc_description", "dc_description_lang", "dcterms_created", "dcterms_issued",
    "dc_rights_rightsOwners", "dc_subjects", "dc_identifier_localid", "dc_identifier_localids",
    "dc_languages", "dc_titles", "dc_creators", "dc_contributors", "dc_publishers", "dc_types",
    "dc_coverages", "artmedium", "artform", "dc_rights_credit", "dc_rights_comment",
    "dc_rights_licenses", "dimensions"
  ]

  /** The keys of the preservation-event fields, in the order the mapping writes them. */
  const EventKeys: seq<string> := [
    "inspection_date", "inspection_outcome", "inspection_note",
    "repair_date", "repair_outcome", "repair_note",
    "cleaning_date", "cleaning_outcome", "cleaning_note",
    "baking_date", "baking_outcome", "baking_note",
    "digitization_date", "digitization_time", "digitization_outcome", "digitization_note",
    "qc_date", "qc_outcome", "qc_note", "qc_by"
  ]

  /** The keys of the `"Dynamic"` section: the descriptive fields, the events, the content category. */
  const DynamicKeys: seq<string> := MetadataKeys + EventKeys + ["ContentCategory"]

  /** The `"dimensions"` pairs: width, height and depth in millimetres, then the weight. */
  function Dimensions(e: Entity): seq<(string, string)>
  {
    [ ("width_in_mm", Millimetres(e.width)),
      ("height_in_mm", Millimetres(e.height)),
      ("depth_in_mm", Millimetres(e.depth)),
      ("weight_in_kg", Millimetres(e.weight)) ]
  }

  /** The values of the fields whose extraction can raise, in evaluation order. */
  datatype Fields = Fields(
    title: string,
    description: Option<string>,
    owners: seq<string>,
    titles: seq<(string, string)>,
    creators: Option<seq<(string, string)>>,
    contributors: Option<seq<(string, string)>>,
    publishers: Option<seq<(string, string)>>,
    coverages: Option<seq<(string, string)>>,
    artMedium: Option<string>,
    artform: Option<string>,
    credit: Option<string>,
    comment: Option<string>,
    licenses: seq<(string, string)>,
    qcBy: Option<string>)

  /**
   * The raising extractions of `get_mh_mapping`. Python evaluates the dict
   * display value by value, so the first field that raises decides the
   * exception.
   */
  function ExtractFields(sip: SIP): (r: Result<Fields>)
    ensures r.Err? ==> r.error == StopIteration || r.error == NotImplementedError
    ensures r.Ok? ==> NlStrings(sip.entity.name) != [] && r.value.title == NlStrings(sip.entity.name)[0]
  {
    var e, events := sip.entity, sip.events;
    var title :- NlString(e.name);
    var description :- OptionalNlString(e.description);
    var owners :- NlEach(Names(e.copyrightHolder));
    var titles :- Titles(e.schemaIsPartOf);
    var creators :- Roles(e.creator);
    var contributors :- Roles(e.contributor);
    var publishers :- Roles(e.publisher);
    var coverages :- Coverages(e.spatial, e.temporal);
    var artMedium :- OptionalNlString(e.artMedium);
    var artform :- OptionalNlString(e.artform);
    var credit :- OptionalNlString(e.creditText);
    var comment :- OptionalNlString(e.rights);
    var licenses :- Licenses(e.license);
    var qcBy :- EventImplementer(events, QualityControl);
    Ok(Fields(title, description, owners, titles, creators, contributors, publishers,
              coverages, artMedium, artform, credit, comment, licenses, qcBy))
  }

  /** The descriptive fields of the `"Dynamic"` section, given the extracted fields. */
  function MetadataFields(sip: SIP, f: Fields): Entries
  {
    var e := sip.entity;
    [ ("dc_title", Str(f.title)),
      ("dc_description", OptStr(f.description)),
      ("dc_description_lang", OptStr(f.description)),
      ("dcterms_created", Str(e.dateCreated)),
      ("dcterms_issued", OptStr(e.datePublished)),
      ("dc_rights_rightsOwners", Pairs(Labelled("Auteursrechthouder", f.owners))),
      ("dc_subjects", OptPairs(TaggedNlStrings("Trefwoord", e.keywords))),
      ("dc_identifier_localid", OptStr(LocalId(e.primaryIdentifier))),
      ("dc_identifier_localids", Pairs(LocalIds(e.localIdentifier))),
      ("dc_languages", Pairs(Labelled("multiselect", e.inLanguage))),
      ("dc_titles", Pairs(f.titles)),
      ("dc_creators", OptPairs(f.creators)),
      ("dc_contributors", OptPairs(f.contributors)),
      ("dc_publishers", OptPairs(f.publishers)),
      ("dc_types", OptPairs(TaggedNlStrings("multiselect", e.genre))),
      ("dc_coverages", OptPairs(f.coverages)),
      ("artmedium", OptStr(f.artMedium)),
      ("artform", OptStr(f.artform)),
      ("dc_rights_credit", OptStr(f.credit)),
      ("dc_rights_comment", OptStr(f.comment)),
      ("dc_rights_licenses", Pairs(f.licenses)),
      ("dimensions", Pairs(Dimensions(e))) ]
  }

  /** The preservation-event fields of the `"Dynamic"` section. */
  function EventFields(events: seq<Event>, qcBy: Option<string>): Entries
  {
    [ ("inspection_date", OptStr(EventDate(events, Inspection))),
      ("inspection_outcome", OptStr(EventOutcome(events, Inspection))),
      ("inspection_note", OptStr(EventNote(events, Inspection))),
      ("repair_date", OptStr(EventDate(events, Repair))),
      ("repair_outcome", OptStr(EventOutcome(events, Repair))),
      ("repair_note", OptStr(EventNote(events, Repair))),
      ("cleaning_date", OptStr(EventDate(events, Cleaning))),
      ("cleaning_outcome", OptStr(EventOutcome(events, Cleaning))),
      ("cleaning_note", OptStr(EventNote(events, Cleaning))),
      ("baking_date", OptStr(EventDate(events, Baking))),
      ("baking_outcome", OptStr(EventOutcome(events, Baking))),
      ("baking_note", OptStr(EventNote(events, Baking))),
      ("digitization_date", OptStr(EventDate(events, Digitization))),
      ("digitization_time", OptStr(EventTime(events, Digitization))),
      ("digitization_outcome", OptStr(EventOutcome(events, Digitization))),
      ("digitization_note", OptStr(EventNote(events, Digitization))),
      ("qc_date", OptStr(EventDate(events, QualityControl))),
      ("qc_outcome", OptStr(EventOutcome(events, QualityControl))),
      ("qc_note", OptStr(EventNote(events, QualityControl))),
      ("qc_by", OptStr(qcBy)) ]
  }

  /** The `"Dynamic"` section: the descriptive fields, the event fields, then the METS type as content category. */
  function DynamicSection(sip: SIP, f: Fields): Entries
  {
    MetadataFields(sip, f) + EventFields(sip.events, f.qcBy) + [("ContentCategory", Str(sip.metsType))]
  }

  /** `get_mh_mapping` of the common profile: a `"Descriptive"` and a `"Dynamic"` section. */
  function CommonMapping(sip: SIP): (r: Result<Entries>)
    ensures r.Err? ==> r.error == StopIteration || r.error == NotImplementedError
  {
    var f :- ExtractFields(sip);
    Ok([ ("Descriptive", Dict([("mh:Title", Str(f.title)), ("mh:Description", OptStr(f.description))])),
         ("Dynamic", Dict(DynamicSection(sip, f))) ])
  }

  lemma MetadataFieldsFlat(sip: SIP, f: Fields)
    ensures Flat(MetadataFields(sip, f))
  {
    var d := MetadataFields(sip, f);
    forall i | 0 <= i < 11 ensures !d[i].1.Dict? {}
    forall i | 11 <= i < |d| ensures !d[i].1.Dict? {}
  }

  lemma MetadataFieldsKeys(sip: SIP, f: Fields)
    ensures Keys(MetadataFields(sip, f)) == MetadataKeys
  {
    var d := MetadataFields(sip, f);
    assert |d| == |MetadataKeys|;
    forall i | 0 <= i < |d| ensures d[i].0 == MetadataKeys[i] {}
    KeysMatch(d, MetadataKeys);
  }

  lemma EventFieldsFlat(events: seq<Event>, qcBy: Option<string>)
    ensures Flat(EventFields(events, qcBy))
  {
    var d := EventFields(events, qcBy);
    forall i | 0 <= i < |d| ensures !d[i].1.Dict? {}
  }

  lemma EventFieldsKeys(events: seq<Event>, qcBy: Option<string>)
    ensures Keys(EventFields(events, qcBy)) == EventKeys
  {
    var d := EventFields(events, qcBy);
    assert |d| == |EventKeys|;
    forall i | 0 <= i < |d| ensures d[i].0 == EventKeys[i] {}
    KeysMatch(d, EventKeys);
  }

  /**
   * The `"Dynamic"` section holds no nested dict, writes its keys in the
   * documented order, starts with the title and ends with the SIP's METS
   * type as content category.
   */
  lemma DynamicSectionShape(sip: SIP, f: Fields)
    ensures var d := DynamicSection(sip, f);
      && Flat(d)
      && Keys(d) == DynamicKeys
      && d[0] == ("dc_title", Str(f.title))
      && d[|d| - 1] == ("ContentCategory", Str(sip.metsType))
  {
    var a, b, c := MetadataFields(sip, f), EventFields(sip.events, f.qcBy), [("ContentCategory", Str(sip.metsType))];
    MetadataFieldsFlat(sip, f);
    MetadataFieldsKeys(sip, f);
    EventFieldsFlat(sip.events, f.qcBy);
    EventFieldsKeys(sip.events, f.qcBy);
    FlatAppend(a, b);
    FlatAppend(a + b, c);
    KeysAppend(a, b);
    KeysAppend(a + b, c);
    assert Keys(c) == ["ContentCategory"];
    assert (a + b + c)[0] == a[0];
  }

  /**
   * A successful common mapping has exactly the two sections, neither
   * holding a nested dict; the descriptive title and `dc_title` are both the
   * first Dutch name of the entity.
   */
  lemma CommonMappingShape(sip: SIP)
    requires CommonMapping(sip).Ok?
    ensures var m := CommonMapping(sip).value;
      && Keys(m) == ["Descriptive", "Dynamic"]
      && m[0].1.Dict? && m[1].1.Dict?
      && Flat(m[0].1.entries) && Flat(m[1].1.entries)
      && Keys(m[0].1.entries) == ["mh:Title", "mh:Description"]
      && |m[1].1.entries| == |DynamicKeys|
      && m[0].1.entries[0].1 == m[1].1.entries[0].1 == Str(NlStrings(sip.entity.name)[0])
      && m[1].1.entries[|DynamicKeys| - 1] == ("ContentCategory", Str(sip.metsType))
  {
    var f := ExtractFields(sip).value;
    var descriptive := [("mh:Title", Str(f.title)), ("mh:Description", OptStr(f.description))];
    var dynamic := DynamicSection(sip, f);
    var m := CommonMapping(sip).value;
    assert m == [("Descriptive", Dict(descriptive)), ("Dynamic", Dict(dynamic))];
    DynamicSectionShape(sip, f);
    assert Keys(descriptive) == ["mh:Title", "mh:Description"];
    assert Keys(m) == ["Descriptive", "Dynamic"];
  }

  /** Every thing has a Dutch name. */
  predicate NamedInDutch(things: seq<Thing>)
  {
    forall i :: 0 <= i < |things| ==> NlStrings(things[i].name) != []
  }

  /** An optional multilingual field is absent or has a Dutch entry. */
  predicate DutchIfPresent(strings: Option<LangStrings>)
  {
    strings.Some? ==> NlStrings(strings.value) != []
  }

  /** The conditions under which every raising field of the common mapping succeeds. */
  predicate Mappable(sip: SIP)
  {
    var e := sip.entity;
    var qc := FirstOfType(sip.events, QualityControl);
    && NlStrings(e.name) != []
    && DutchIfPresent(e.description)
    && NamedInDutch(e.copyrightHolder)
    && Titles(e.schemaIsPartOf).Ok?
    && AgentsNamed(WithAgent(e.creator))
    && AgentsNamed(WithAgent(e.contributor))
    && AgentsNamed(WithAgent(e.publisher))
    && NamedInDutch(e.spatial)
    && DutchIfPresent(e.artMedium)
    && DutchIfPresent(e.artform)
    && DutchIfPresent(e.creditText)
    && DutchIfPresent(e.rights)
    && Licenses(e.license).Ok?
    && (qc.Some? ==> NlStrings(qc.value.implementedBy.name) != [])
  }

  lemma ExtractFieldsOk(sip: SIP)
    ensures var e := sip.entity;
      ExtractFields(sip).Ok? <==>
        && NlString(e.name).Ok?
        && OptionalNlString(e.description).Ok?
        && NlEach(Names(e.copyrightHolder)).Ok?
        && Titles(e.schemaIsPartOf).Ok?
        && Roles(e.creator).Ok?
        && Roles(e.contributor).Ok?
        && Roles(e.publisher).Ok?
        && Coverages(e.spatial, e.temporal).Ok?
        && OptionalNlString(e.artMedium).Ok?
        && OptionalNlString(e.artform).Ok?
        && OptionalNlString(e.creditText).Ok?
        && OptionalNlString(e.rights).Ok?
        && Licenses(e.license).Ok?
        && EventImplementer(sip.events, QualityControl).Ok?
  {
  }

  lemma NlEachNames(things: seq<Thing>)
    ensures NlEach(Names(things)).Ok? <==> NamedInDutch(things)
  {
    var names := Names(things);
    assert forall i :: 0 <= i < |things| ==> names[i] == things[i].name;
  }

  /**
   * The common mapping succeeds exactly when the entity's name and every
   * present optional text have a Dutch entry, every owner, place and named
   * agent has a Dutch name, the title list and the license list succeed and
   * the first quality-control event, if any, names its implementer in Dutch.
   */
  lemma CommonMappingSucceeds(sip: SIP)
    ensures CommonMapping(sip).Ok? <==> Mappable(sip)
  {
    var e := sip.entity;
    ExtractFieldsOk(sip);
    TextFieldsOk(e);
    AgentFieldsOk(e);
  }

  /** The text fields that `CommonMapping` extracts succeed exactly when each has a Dutch entry. */
  lemma TextFieldsOk(e: Entity)
    ensures (&& NlString(e.name).Ok?
             && OptionalNlString(e.description).Ok?
             && NlEach(Names(e.copyrightHolder)).Ok?
             && OptionalNlString(e.artMedium).Ok?
             && OptionalNlString(e.artform).Ok?
             && OptionalNlString(e.creditText).Ok?
             && OptionalNlString(e.rights).Ok?)
        <==> (&& NlStrings(e.name) != []
              && DutchIfPresent(e.description)
              && NamedInDutch(e.copyrightHolder)
              && DutchIfPresent(e.artMedium)
              && DutchIfPresent(e.artform)
              && DutchIfPresent(e.creditText)
              && DutchIfPresent(e.rights))
  {
    NlEachNames(e.copyrightHolder);
  }

  /** The agent and place fields succeed exactly when every named agent and every place has a Dutch name. */
  lemma AgentFieldsOk(e: Entity)
    ensures (&& Roles(e.creator).Ok?
             && Roles(e.contributor).Ok?
             && Roles(e.publisher).Ok?
             && Coverages(e.spatial, e.temporal).Ok?)
        <==> (&& AgentsNamed(WithAgent(e.creator))
              && AgentsNamed(WithAgent(e.contributor))
              && AgentsNamed(WithAgent(e.publisher))
              && NamedInDutch(e.spatial))
  {
    NlEachNames(e.spatial);
    RolePairsKeepAgents(e.creator);
    RolePairsKeepAgents(e.contributor);
    RolePairsKeepAgents(e.publisher);
  }

  /**
   * The fields are extracted in the mapping's order, so an entity name
   * without a Dutch entry raises `StopIteration` whatever else is wrong, and
   * a failing title list decides the exception once the name, the
   * description and the owners have succeeded.
   */
  lemma CommonMappingFirstFailure(sip: SIP)
    ensures NlStrings(sip.entity.name) == [] ==> CommonMapping(sip) == Err(StopIteration)
    ensures var e := sip.entity;
      && NlStrings(e.name) != [] && DutchIfPresent(e.description) && NamedInDutch(e.copyrightHolder)
      && Titles(e.schemaIsPartOf).Err?
      ==> CommonMapping(sip) == Err(Titles(e.schemaIsPartOf).error)
  {
    NlEachNames(sip.entity.copyrightHolder);
  }
}
