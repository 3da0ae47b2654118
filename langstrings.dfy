/** Selecting the Dutch (`"nl"`) entries of a multilingual string list. */
module Langstrings {
  import opened Wrappers
  import opened Sip

  const Dutch: string := "nl"

  /** `get_nl_strings`: the values of the `"nl"` entries, in source order. */
  function NlStrings(strings: LangStrings): (r: seq<string>)
    ensures |r| <= |strings|
  {
    if strings == [] then []
    else if strings[0].lang == Dutch then [strings[0].value] + NlStrings(strings[1..])
    else NlStrings(strings[1..])
  }

  /** Some entry of the list is the Dutch string `v`. */
  predicate IsDutchValue(strings: LangStrings, v: string)
  {
    exists i :: 0 <= i < |strings| && strings[i] == LangString(Dutch, v)
  }

  /** A value is selected exactly when some entry holds it in Dutch. */
  lemma {:induction false} NlStringsExactlyDutch(strings: LangStrings)
    ensures forall v :: v in NlStrings(strings) <==> IsDutchValue(strings, v)
  {
    if strings == [] {
      assert NlStrings(strings) == [];
    } else {
      var tail := strings[1..];
      NlStringsExactlyDutch(tail);
      forall v
        ensures v in NlStrings(strings) <==> IsDutchValue(strings, v)
      {
        if IsDutchValue(strings, v) {
          var i :| 0 <= i < |strings| && strings[i] == LangString(Dutch, v);
          if i > 0 {
            assert tail[i - 1] == strings[i];
          }
        }
        if IsDutchValue(tail, v) {
          var i :| 0 <= i < |tail| && tail[i] == LangString(Dutch, v);
          assert strings[i + 1] == tail[i];
        }
      }
    }
  }

  /** Selection distributes over concatenation: each entry is judged on its own. */
  lemma {:induction false} NlStringsAppend(a: LangStrings, b: LangStrings)
    ensures NlStrings(a + b) == NlStrings(a) + NlStrings(b)
  {
    if a == [] {
      assert a + b == b;
    } else {
      assert (a + b)[0] == a[0];
      assert (a + b)[1..] == a[1..] + b;
      NlStringsAppend(a[1..], b);
    }
  }

  /** An entry in another language never affects the selection, wherever it stands. */
  lemma NlStringsIgnoresOtherLanguages(a: LangStrings, x: LangString, b: LangStrings)
    requires x.lang != Dutch
    ensures NlStrings(a + [x] + b) == NlStrings(a + b)
  {
    NlStringsAppend(a + [x], b);
    NlStringsAppend(a, [x]);
    NlStringsAppend(a, b);
  }

  /**
   * `get_nl_string`: the value of the first `"nl"` entry; `next` over an
   * empty generator raises `StopIteration` when there is none.
   */
  function NlString(strings: LangStrings): (r: Result<string>)
    ensures r.Ok? <==> NlStrings(strings) != []
    ensures r.Ok? ==> r.value == NlStrings(strings)[0]
    ensures r.Err? ==> r.error == StopIteration
  {
    if strings == [] then Err(StopIteration)
    else if strings[0].lang == Dutch then Ok(strings[0].value)
    else NlString(strings[1..])
  }

  /**
   * `get_nl_string` fails exactly when no entry is Dutch, and otherwise
   * returns the value of the first Dutch entry in source order.
   */
  lemma {:induction false} NlStringIsFirstDutch(strings: LangStrings)
    ensures NlString(strings).Ok? <==> exists i :: 0 <= i < |strings| && strings[i].lang == Dutch
    ensures NlString(strings).Ok? ==>
      exists i :: (&& 0 <= i < |strings| && strings[i].lang == Dutch
                   && strings[i].value == NlString(strings).value
                   && forall j :: 0 <= j < i ==> strings[j].lang != Dutch)
  {
    if strings != [] && strings[0].lang != Dutch {
      var tail := strings[1..];
      NlStringIsFirstDutch(tail);
      if exists i :: 0 <= i < |strings| && strings[i].lang == Dutch {
        var i :| 0 <= i < |strings| && strings[i].lang == Dutch;
        assert tail[i - 1].lang == Dutch;
      }
      if NlString(tail).Ok? {
        var i :| && 0 <= i < |tail| && tail[i].lang == Dutch && tail[i].value == NlString(tail).value
                 && (forall j :: 0 <= j < i ==> tail[j].lang != Dutch);
        assert strings[i + 1] == tail[i];
        forall j | 0 <= j < i + 1
          ensures strings[j].lang != Dutch
        {
          if j > 0 { assert strings[j] == tail[j - 1]; }
        }
      }
    } else if strings != [] {
      assert strings[0].lang == Dutch;
    }
  }

  /** `get_optional_nl_string`: `None` for an absent list, otherwise `get_nl_string`. */
  function OptionalNlString(strings: Option<LangStrings>): (r: Result<Option<string>>)
    ensures strings.None? ==> r == Ok(None)
    ensures strings.Some? ==> (r.Err? <==> NlStrings(strings.value) == [])
    ensures r.Ok? && strings.Some? ==> r.value == Some(NlStrings(strings.value)[0])
    ensures r.Err? ==> r.error == StopIteration
  {
    match strings
    case None => Ok(None)
    case Some(s) =>
      var v :- NlString(s);
      Ok(Some(v))
  }
}
