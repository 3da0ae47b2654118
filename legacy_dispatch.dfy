/**
 * The older sidecar dispatch of `helpers/mapping.py`: a table keyed by the
 * version and the profile segment of the SIP's profile URI. The mapping
 * functions it selects are named by a tag.
 */
module LegacyDispatch {
  import opened Wrappers
  import opened Text
  import opened Utils
  import Creator

  /** The mapping functions of the table, one per (version, profile) pair. */
  datatype MappingFunction =
    | V20MaterialArtwork
    | V20Basic
    | V21MaterialArtwork
    | V21Film
    | V21Basic

  /** The version a mapping function belongs to. */
  function VersionOf(m: MappingFunction): string
  {
    match m
    case V20MaterialArtwork => "2.0"
    case V20Basic => "2.0"
    case _ => "2.1"
  }

  /** The profile a mapping function maps. */
  function ProfileOf(m: MappingFunction): string
  {
    match m
    case V20MaterialArtwork => "material-artwork"
    case V21MaterialArtwork => "material-artwork"
    case V21Film => "film"
    case _ => "basic"
  }

  /** The `ValueError` message for a known version without the profile. */
  function UnsupportedProfileMessage(profile: string, version: string): string
  {
    "Unsupported profile: " + profile + " for version: " + version
  }

  /** The `ValueError` message for an unknown version. */
  function UnsupportedVersionMessage(version: string, profile: string): string
  {
    "Unsupported version: " + version + " or profile: " + profile
  }

  /** The pairs the table accepts: two profiles for 2.0, three for 2.1. */
  predicate Supported(version: string, profile: string)
  {
    || (version == "2.0" && profile in {"material-artwork", "basic"})
    || (version == "2.1" && profile in {"material-artwork", "film", "basic"})
  }

  /**
   * `generate_mh_sidecar_dict` up to the call: the mapping function of the
   * URI's (version, profile) pair. A URI without `/` has no version segment
   * and raises `IndexError`; a known version with another profile raises
   * "Unsupported profile", any other version "Unsupported version".
   */
  function SelectMapping(uri: string): (r: Result<MappingFunction>)
    ensures '/' !in uri ==> r == Err(IndexError)
    ensures var p := ParseProfileUrl(uri);
      && (r.Ok? <==> p.Ok? && Supported(p.value.1, p.value.0))
      && (r.Ok? ==> VersionOf(r.value) == p.value.1 && ProfileOf(r.value) == p.value.0)
      && (p.Ok? && !Supported(p.value.1, p.value.0) && p.value.1 in {"2.0", "2.1"} ==>
            r == Err(ValueError(UnsupportedProfileMessage(p.value.0, p.value.1))))
      && (p.Ok? && p.value.1 !in {"2.0", "2.1"} ==>
            r == Err(ValueError(UnsupportedVersionMessage(p.value.1, p.value.0))))
  {
    var (profile, version) :- ParseProfileUrl(uri);
    if version == "2.0" then
      if profile == "material-artwork" then Ok(V20MaterialArtwork)
      else if profile == "basic" then Ok(V20Basic)
      else Err(ValueError(UnsupportedProfileMessage(profile, version)))
    else if version == "2.1" then
      if profile == "material-artwork" then Ok(V21MaterialArtwork)
      else if profile == "film" then Ok(V21Film)
      else if profile == "basic" then Ok(V21Basic)
      else Err(ValueError(UnsupportedProfileMessage(profile, version)))
    else Err(ValueError(UnsupportedVersionMessage(version, profile)))
  }

  /**
   * The selection is a function of the (version, profile) pair alone: two
   * URIs that differ only before their last two segments select the same
   * mapping function.
   */
  lemma SelectionByPair(p1: seq<string>, p2: seq<string>, version: string, profile: string)
    requires forall i :: 0 <= i < |p1| ==> '/' !in p1[i]
    requires forall i :: 0 <= i < |p2| ==> '/' !in p2[i]
    requires '/' !in version && '/' !in profile
    ensures SelectMapping(Join(p1 + [version, profile], '/')) == SelectMapping(Join(p2 + [version, profile], '/'))
    ensures Supported(version, profile) ==>
      var r := SelectMapping(Join(p1 + [version, profile], '/'));
      r.Ok? && VersionOf(r.value) == version && ProfileOf(r.value) == profile
  {
    ParseJoinedProfileUrl(p1, version, profile);
    ParseJoinedProfileUrl(p2, version, profile);
  }

  /** Version 2.0 has no film mapping: a 2.0 film SIP is an unsupported profile. */
  lemma FilmNeedsVersion21(uri: string)
    requires ParseProfileUrl(uri).Ok? && ParseProfileUrl(uri).value == ("film", "2.0")
    ensures SelectMapping(uri) == Err(ValueError("Unsupported profile: film for version: 2.0"))
  {
    assert UnsupportedProfileMessage("film", "2.0") == "Unsupported profile: film for version: 2.0";
  }

  /**
   * For version 2.1 the table accepts exactly the profiles the version 2.1
   * creator dispatches on, and picks the same profile.
   */
  lemma AgreesWithCreatorOn21(uri: string)
    requires ParseProfileUrl(uri).Ok? && ParseProfileUrl(uri).value.1 == "2.1"
    ensures SelectMapping(uri).Ok? <==> Creator.SelectProfile(uri).Ok?
    ensures SelectMapping(uri).Ok? ==>
      (SelectMapping(uri).value == V21MaterialArtwork <==> Creator.SelectProfile(uri).value == Creator.MaterialArtworkProfile)
    ensures SelectMapping(uri).Ok? ==>
      (SelectMapping(uri).value == V21Film <==> Creator.SelectProfile(uri).value == Creator.FilmProfile)
  {
  }
}
