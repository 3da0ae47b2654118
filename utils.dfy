/**
 * Reading the profile URI of a SIP and choosing the creator functions for
 * its version. The functions chosen are named by a tag.
 */
module Utils {
  import opened Wrappers
  import opened Text

  /** The version 2.1 functions the dispatchers hand out. */
  datatype Creator = CreateMhMetsData | WriteMediahavenSip

  /**
   * `parse_profile_url`: the last and the second-to-last `/`-segment of the
   * profile URI, as `(profile, version)`; indexing `[-2]` raises
   * `IndexError` when the URI has a single segment.
   */
  function ParseProfileUrl(uri: string): (r: Result<(string, string)>)
    ensures r.Err? <==> '/' !in uri
    ensures r.Err? ==> r.error == IndexError
    ensures r.Ok? ==> r.value.0 == LastSegment(uri)
    ensures r.Ok? ==> '/' !in r.value.0 && '/' !in r.value.1
  {
    var parts := Split(uri, '/');
    if |parts| < 2 then Err(IndexError)
    else Ok((parts[|parts| - 1], parts[|parts| - 2]))
  }

  lemma SegmentsFree(prefix: seq<string>, version: string, profile: string)
    requires forall i :: 0 <= i < |prefix| ==> '/' !in prefix[i]
    requires '/' !in version && '/' !in profile
    ensures var parts := prefix + [version, profile];
      forall i :: 0 <= i < |parts| ==> '/' !in parts[i]
  {
    var parts := prefix + [version, profile];
    forall i | 0 <= i < |parts| ensures '/' !in parts[i] {
      if i < |prefix| {
        assert parts[i] == prefix[i];
      } else if i == |prefix| {
        assert parts[i] == version;
      } else {
        assert parts[i] == profile;
      }
    }
  }

  /** A URI assembled from `/`-free segments parses back into its last two segments. */
  lemma ParseJoinedProfileUrl(prefix: seq<string>, version: string, profile: string)
    requires forall i :: 0 <= i < |prefix| ==> '/' !in prefix[i]
    requires '/' !in version && '/' !in profile
    ensures ParseProfileUrl(Join(prefix + [version, profile], '/')) == Ok((profile, version))
  {
    var parts := prefix + [version, profile];
    SegmentsFree(prefix, version, profile);
    SplitJoin(parts, '/');
    var n := |parts|;
    assert parts[n - 1] == profile && parts[n - 2] == version;
  }

  /** The `ValueError` message for a version without creators. */
  function InvalidVersionMessage(version: string): string
  {
    "Received SIP.py SIP with invalid profile version '" + version + "'"
  }

  /** The dispatch shared by both getters: the creator for `"2.1"`, `ValueError` otherwise. */
  function ForVersion(uri: string, creator: Creator): (r: Result<Creator>)
    ensures r.Ok? <==> ParseProfileUrl(uri).Ok? && ParseProfileUrl(uri).value.1 == "2.1"
    ensures r.Ok? ==> r.value == creator
    ensures '/' !in uri ==> r == Err(IndexError)
    ensures var p := ParseProfileUrl(uri);
      p.Ok? && p.value.1 != "2.1" ==> r == Err(ValueError(InvalidVersionMessage(p.value.1)))
  {
    var (_, version) :- ParseProfileUrl(uri);
    if version == "2.1" then Ok(creator)
    else Err(ValueError(InvalidVersionMessage(version)))
  }

  /** `get_mets_creator`: the METS-data creator of version 2.1. */
  function MetsCreator(uri: string): (r: Result<Creator>)
    ensures r.Ok? <==> ParseProfileUrl(uri).Ok? && ParseProfileUrl(uri).value.1 == "2.1"
    ensures r.Ok? ==> r.value == CreateMhMetsData
  {
    ForVersion(uri, CreateMhMetsData)
  }

  /** `get_sip_creator`: the SIP writer of version 2.1. */
  function SipCreator(uri: string): (r: Result<Creator>)
    ensures r.Ok? <==> ParseProfileUrl(uri).Ok? && ParseProfileUrl(uri).value.1 == "2.1"
    ensures r.Ok? ==> r.value == WriteMediahavenSip
  {
    ForVersion(uri, WriteMediahavenSip)
  }

  /** The version dispatchers look at the version segment only, never at the profile. */
  lemma VersionDispatchIgnoresProfile(prefix: seq<string>, version: string, p1: string, p2: string)
    requires forall i :: 0 <= i < |prefix| ==> '/' !in prefix[i]
    requires '/' !in version && '/' !in p1 && '/' !in p2
    ensures var u1, u2 := Join(prefix + [version, p1], '/'), Join(prefix + [version, p2], '/');
      MetsCreator(u1) == MetsCreator(u2) && SipCreator(u1) == SipCreator(u2)
  {
    ParseJoinedProfileUrl(prefix, version, p1);
    ParseJoinedProfileUrl(prefix, version, p2);
  }
}
