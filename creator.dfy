/**
 * Version 2.1 package layout: choosing the sidecar mapping by the profile
 * segment of the SIP's profile URI, and the file records and DMD sections
 * that are handed to the METS template.
 */
module Creator {
  import opened Wrappers
  import opened Sip
  import opened Text
  import opened Sidecar
  import opened Common
  import opened Profiles
  import opened Utils

  // ---------------------------------------------------------------------
  // Sidecar dispatch

  /** The profile modules of version 2.1. */
  datatype ProfileModule = MaterialArtworkProfile | FilmProfile | BasicProfile

  /** The `ValueError` message for a profile without a module. */
  function UnsupportedProfileMessage(profile: string, version: string): string
  {
    "Unsupported profile '" + profile + "' for version '" + version + "'"
  }

  /**
   * The `match` of `generate_mh_sidecar_dict`: the module named by the last
   * `/`-segment; the second-to-last segment only appears in the message.
   */
  function SelectProfile(uri: string): (r: Result<ProfileModule>)
    ensures '/' !in uri ==> r == Err(IndexError)
    ensures r.Ok? <==> '/' in uri && LastSegment(uri) in {"material-artwork", "film", "basic"}
    ensures r.Ok? ==> (r.value == MaterialArtworkProfile <==> LastSegment(uri) == "material-artwork")
    ensures r.Ok? ==> (r.value == FilmProfile <==> LastSegment(uri) == "film")
    ensures var p := ParseProfileUrl(uri);
      p.Ok? && r.Err? ==> r.error == ValueError(UnsupportedProfileMessage(p.value.0, p.value.1))
  {
    var (profile, version) :- ParseProfileUrl(uri);
    if profile == "material-artwork" then Ok(MaterialArtworkProfile)
    else if profile == "film" then Ok(FilmProfile)
    else if profile == "basic" then Ok(BasicProfile)
    else Err(ValueError(UnsupportedProfileMessage(profile, version)))
  }

  /** `generate_mh_sidecar_dict`: the selected profile's mapping of the SIP. */
  function SidecarMapping(sip: SIP): Result<Entries>
  {
    var chosen :- SelectProfile(sip.profile);
    match chosen
    case MaterialArtworkProfile => MaterialArtworkMapping(sip)
    case FilmProfile => FilmMapping(sip)
    case BasicProfile => BasicMapping(sip)
  }

  /**
   * Since the film and basic profiles never return, a sidecar is produced
   * exactly for a material-artwork SIP whose common mapping succeeds, and it
   * is that common mapping.
   */
  lemma SidecarOnlyForMaterialArtwork(sip: SIP)
    ensures SidecarMapping(sip).Ok? <==>
      '/' in sip.profile && LastSegment(sip.profile) == "material-artwork" && CommonMapping(sip).Ok?
    ensures SidecarMapping(sip).Ok? ==> SidecarMapping(sip) == CommonMapping(sip)
  {
    MaterialArtworkIsCommon(sip);
  }

  // ---------------------------------------------------------------------
  // File records

  /** Where the package is archived. */
  datatype ArchiveLocation = Disk | Tape

  /** One entry of `files`; the older layout writes no archive location. */
  datatype FileRecord = FileRecord(
    id: string,
    representationIndex: nat,
    fileIndex: nat,
    originalName: string,
    checksum: string,
    archiveLocation: Option<ArchiveLocation>)

  const MissingPathMessage: string :=
    "The file path on SIP.py File must be present in order to create a MediaHaven SIP."
  const MissingFixityMessage: string :=
    "The fixity on SIP.py File must be present in order to create a MediaHaven SIP."

  /** `FILEID-<PROFILE>-REPRESENTATION-<r>-<f>`, the profile upper-cased. */
  function FileId(profile: string, r: nat, f: nat): string
  {
    "FILEID" + IdTail(profile, r, f)
  }

  /** What follows the leading `FILEID` of a file id: `-<PROFILE>-REPRESENTATION-<r>-<f>`. */
  function IdTail(profile: string, r: nat, f: nat): string
  {
    "-" + Upper(profile) + "-" + "REPRESENTATION" + "-" + NatToString(r) + "-" + NatToString(f)
  }

  /** The `includes` of the digital representations, in order: carriers are skipped. */
  function DigitalIncludes(reps: seq<Representation>): (r: seq<seq<File>>)
    ensures |r| <= |reps|
  {
    if reps == [] then []
    else if reps[0].DigitalRepresentation? then [reps[0].includes] + DigitalIncludes(reps[1..])
    else DigitalIncludes(reps[1..])
  }

  /** A file with both a stored path and a fixity value. */
  predicate Complete(file: File)
  {
    file.filePath.Some? && file.fixity.Some?
  }

  /**
   * The record of file `f` of digital representation `r`, as a one-element
   * list; the path is checked before the fixity.
   */
  function FileRecordOf(profile: string, location: ArchiveLocation, r: nat, f: nat, file: File): (rec: Result<seq<FileRecord>>)
    ensures file.filePath.None? ==> rec == Err(ValueError(MissingPathMessage))
    ensures file.filePath.Some? && file.fixity.None? ==> rec == Err(ValueError(MissingFixityMessage))
    ensures rec.Ok? <==> Complete(file)
  {
    if file.filePath.None? then Err(ValueError(MissingPathMessage))
    else if file.fixity.None? then Err(ValueError(MissingFixityMessage))
    else Ok([Record(profile, location, r, f, file)])
  }

  /**
   * The record of a complete file: the name is the last component of the
   * stored path, not the declared original name, and the checksum is the
   * fixity value.
   */
  function Record(profile: string, location: ArchiveLocation, r: nat, f: nat, file: File): FileRecord
    requires Complete(file)
  {
    FileRecord(FileId(profile, r, f), r, f, PathName(file.filePath.value), file.fixity.value, Some(location))
  }

  /** The records of the files of representation `r` from position `f` on. */
  function RepresentationRecords(profile: string, location: ArchiveLocation, r: nat, files: seq<File>, f: nat): Result<seq<FileRecord>>
    requires f <= |files|
    decreases |files| - f
  {
    if f == |files| then Ok([])
    else AppendOk(FileRecordOf(profile, location, r, f, files[f]), RepresentationRecords(profile, location, r, files, f + 1))
  }

  /** The records of the digital representations from position `r` on. */
  function FileRecords(profile: string, location: ArchiveLocation, includes: seq<seq<File>>, r: nat): Result<seq<FileRecord>>
    requires r <= |includes|
    decreases |includes| - r
  {
    if r == |includes| then Ok([])
    else AppendOk(RepresentationRecords(profile, location, r, includes[r], 0), FileRecords(profile, location, includes, r + 1))
  }

  /** One turn of the inner loop: a failing file ends the layout, a complete one adds its record. */
  lemma RecordStep(
    profile: string, location: ArchiveLocation, r: nat, files: seq<File>, f: nat,
    records: seq<FileRecord>, rest: Result<seq<FileRecord>>)
    requires f < |files|
    ensures var file := files[f];
      var acc := AppendOk(Ok(records), AppendOk(RepresentationRecords(profile, location, r, files, f), rest));
      && (file.filePath.None? ==> acc == Err(ValueError(MissingPathMessage)))
      && (file.filePath.Some? && file.fixity.None? ==> acc == Err(ValueError(MissingFixityMessage)))
      && (Complete(file) ==>
            (acc == AppendOk(Ok(records + [Record(profile, location, r, f, file)]),
                             AppendOk(RepresentationRecords(profile, location, r, files, f + 1), rest))))
  {
    var one := FileRecordOf(profile, location, r, f, files[f]);
    var tail := RepresentationRecords(profile, location, r, files, f + 1);
    AppendOkAssoc(one, tail, rest);
    AppendOkAssoc(Ok(records), one, AppendOk(tail, rest));
  }

  /**
   * The nested loops of `generate_mets_from_sip`: one record per file of
   * every digital representation, stopping at the first file that lacks a
   * path or a fixity.
   */
  method BuildFileRecords(profile: string, location: ArchiveLocation, reps: seq<Representation>)
    returns (r: Result<seq<FileRecord>>)
    ensures r == FileRecords(profile, location, DigitalIncludes(reps), 0)
  {
    var digital := DigitalIncludes(reps);
    var files: seq<FileRecord> := [];
    AppendOkUnit(FileRecords(profile, location, digital, 0));
    for ri := 0 to |digital|
      invariant FileRecords(profile, location, digital, 0) == AppendOk(Ok(files), FileRecords(profile, location, digital, ri))
    {
      var includes := digital[ri];
      var rest := FileRecords(profile, location, digital, ri + 1);
      AppendOkUnit(rest);
      for fi := 0 to |includes|
        invariant FileRecords(profile, location, digital, 0)
          == AppendOk(Ok(files), AppendOk(RepresentationRecords(profile, location, ri, includes, fi), rest))
      {
        var file := includes[fi];
        RecordStep(profile, location, ri, includes, fi, files, rest);
        if file.filePath.None? {
          return Err(ValueError(MissingPathMessage));
        }
        var fileName := PathName(file.filePath.value);
        if file.fixity.None? {
          return Err(ValueError(MissingFixityMessage));
        }
        files := files + [FileRecord(FileId(profile, ri, fi), ri, fi, fileName, file.fixity.value, Some(location))];
      }
    }
    assert files + [] == files;
    return Ok(files);
  }

  /** The number of files of the digital representations from position `r` on. */
  function TotalFiles(includes: seq<seq<File>>, r: nat): nat
    requires r <= |includes|
    decreases |includes| - r
  {
    if r == |includes| then 0 else |includes[r]| + TotalFiles(includes, r + 1)
  }

  /** `rec` is the record of a complete file of the digital representations. */
  predicate RecordOfFile(profile: string, location: ArchiveLocation, includes: seq<seq<File>>, rec: FileRecord)
  {
    var ri, fi := rec.representationIndex, rec.fileIndex;
    && ri < |includes| && fi < |includes[ri]| && Complete(includes[ri][fi])
    && rec == Record(profile, location, ri, fi, includes[ri][fi])
  }

  /** Record `a` comes before record `b` in representation-then-file order. */
  predicate Before(a: FileRecord, b: FileRecord)
  {
    || a.representationIndex < b.representationIndex
    || (a.representationIndex == b.representationIndex && a.fileIndex < b.fileIndex)
  }

  /** The records of one representation exist exactly when every remaining file is complete. */
  lemma {:induction false} RepresentationRecordsSucceed(
    profile: string, location: ArchiveLocation, r: nat, files: seq<File>, f: nat)
    requires f <= |files|
    ensures RepresentationRecords(profile, location, r, files, f).Ok? <==>
      forall j :: f <= j < |files| ==> Complete(files[j])
    decreases |files| - f
  {
    if f < |files| {
      RepresentationRecordsSucceed(profile, location, r, files, f + 1);
    }
  }

  /**
   * The records of one representation: one per remaining file, the `k`-th
   * describing file `f + k`.
   */
  lemma {:induction false} RepresentationRecordsDescribe(
    profile: string, location: ArchiveLocation, includes: seq<seq<File>>, r: nat, f: nat)
    requires r < |includes| && f <= |includes[r]|
    ensures var res := RepresentationRecords(profile, location, r, includes[r], f);
      && (res.Ok? ==> |res.value| == |includes[r]| - f)
      && (res.Ok? ==> forall k :: 0 <= k < |res.value| ==>
            && res.value[k].representationIndex == r && res.value[k].fileIndex == f + k
            && RecordOfFile(profile, location, includes, res.value[k]))
    decreases |includes[r]| - f
  {
    var files := includes[r];
    if f < |files| {
      RepresentationRecordsDescribe(profile, location, includes, r, f + 1);
      var res := RepresentationRecords(profile, location, r, files, f);
      var one := FileRecordOf(profile, location, r, f, files[f]);
      var tail := RepresentationRecords(profile, location, r, files, f + 1);
      assert res == AppendOk(one, tail);
      if res.Ok? {
        var rec := Record(profile, location, r, f, files[f]);
        assert one.value == [rec];
        assert res.value == [rec] + tail.value;
        assert RecordOfFile(profile, location, includes, rec);
        forall k | 0 <= k < |res.value|
          ensures res.value[k].representationIndex == r && res.value[k].fileIndex == f + k
          ensures RecordOfFile(profile, location, includes, res.value[k])
        {
          if k > 0 {
            assert res.value[k] == tail.value[k - 1];
          }
        }
      }
    }
  }

  /** The records exist exactly when every file of every digital representation is complete. */
  lemma {:induction false} FileRecordsSucceed(profile: string, location: ArchiveLocation, includes: seq<seq<File>>, r: nat)
    requires r <= |includes|
    ensures FileRecords(profile, location, includes, r).Ok? <==>
      forall i, j :: r <= i < |includes| && 0 <= j < |includes[i]| ==> Complete(includes[i][j])
    decreases |includes| - r
  {
    if r < |includes| {
      FileRecordsSucceed(profile, location, includes, r + 1);
      RepresentationRecordsSucceed(profile, location, r, includes[r], 0);
    }
  }

  /** There is one record per file of the digital representations. */
  lemma {:induction false} FileRecordsCount(profile: string, location: ArchiveLocation, includes: seq<seq<File>>, r: nat)
    requires r <= |includes|
    ensures var res := FileRecords(profile, location, includes, r);
      res.Ok? ==> |res.value| == TotalFiles(includes, r)
    decreases |includes| - r
  {
    if r < |includes| {
      FileRecordsCount(profile, location, includes, r + 1);
      RepresentationRecordsDescribe(profile, location, includes, r, 0);
    }
  }

  /** Every record describes a complete file of a digital representation at or after `r`. */
  lemma {:induction false} FileRecordsDescribeFiles(
    profile: string, location: ArchiveLocation, includes: seq<seq<File>>, r: nat)
    requires r <= |includes|
    ensures var res := FileRecords(profile, location, includes, r);
      res.Ok? ==> forall k :: 0 <= k < |res.value| ==>
        r <= res.value[k].representationIndex && RecordOfFile(profile, location, includes, res.value[k])
    decreases |includes| - r
  {
    if r < |includes| {
      FileRecordsDescribeFiles(profile, location, includes, r + 1);
      RepresentationRecordsDescribe(profile, location, includes, r, 0);
      var res := FileRecords(profile, location, includes, r);
      var head := RepresentationRecords(profile, location, r, includes[r], 0);
      var rest := FileRecords(profile, location, includes, r + 1);
      if res.Ok? {
        var a, b := head.value, rest.value;
        assert res.value == a + b;
        forall k | 0 <= k < |res.value|
          ensures r <= res.value[k].representationIndex && RecordOfFile(profile, location, includes, res.value[k])
        {
          if k >= |a| {
            assert res.value[k] == b[k - |a|];
          }
        }
      }
    }
  }

  /** The records follow representation-then-file order, so no file is described twice. */
  lemma {:induction false} FileRecordsOrdered(
    profile: string, location: ArchiveLocation, includes: seq<seq<File>>, r: nat)
    requires r <= |includes|
    ensures var res := FileRecords(profile, location, includes, r);
      res.Ok? ==> forall k :: 0 <= k < |res.value| - 1 ==> Before(res.value[k], res.value[k + 1])
    decreases |includes| - r
  {
    if r < |includes| {
      FileRecordsOrdered(profile, location, includes, r + 1);
      FileRecordsDescribeFiles(profile, location, includes, r + 1);
      RepresentationRecordsDescribe(profile, location, includes, r, 0);
      var res := FileRecords(profile, location, includes, r);
      var head := RepresentationRecords(profile, location, r, includes[r], 0);
      var rest := FileRecords(profile, location, includes, r + 1);
      if res.Ok? {
        var a, b := head.value, rest.value;
        assert res.value == a + b;
        forall k | 0 <= k < |res.value| - 1
          ensures Before(res.value[k], res.value[k + 1])
        {
          if k + 1 < |a| {
            assert res.value[k] == a[k] && res.value[k + 1] == a[k + 1];
          } else if k + 1 == |a| {
            assert res.value[k] == a[k] && res.value[k + 1] == b[0];
          } else {
            assert res.value[k] == b[k - |a|] && res.value[k + 1] == b[k + 1 - |a|];
          }
        }
      }
    }
  }

  lemma {:induction false} DigitalIncludesAppend(a: seq<Representation>, b: seq<Representation>)
    ensures DigitalIncludes(a + b) == DigitalIncludes(a) + DigitalIncludes(b)
  {
    if a == [] {
      assert a + b == b;
    } else {
      assert (a + b)[0] == a[0];
      assert (a + b)[1..] == a[1..] + b;
      DigitalIncludesAppend(a[1..], b);
    }
  }

  /**
   * A carrier representation takes no index: removing it leaves the
   * numbering of the digital representations, and so every file id, as it was.
   */
  lemma CarrierTakesNoIndex(a: seq<Representation>, b: seq<Representation>)
    ensures DigitalIncludes(a + [CarrierRepresentation] + b) == DigitalIncludes(a + b)
  {
    DigitalIncludesAppend(a + [CarrierRepresentation], b);
    DigitalIncludesAppend(a, [CarrierRepresentation]);
    DigitalIncludesAppend(a, b);
    assert DigitalIncludes([CarrierRepresentation]) == DigitalIncludes([]);
  }

  // ---------------------------------------------------------------------
  // DMD sections

  /** One entry of `dmd_secs`. */
  datatype DmdSection = DmdSection(
    id: string,
    originalName: string,
    externalId: string,
    pid: string,
    cpId: string,
    spName: string)

  /** `<pid>_<r>_<f>`. */
  function ExternalId(pid: string, r: nat, f: nat): string
  {
    pid + "_" + NatToString(r) + "_" + NatToString(f)
  }

  /** The DMD section of a file record. */
  function DmdSectionOf(rec: FileRecord, pid: string, cpId: string): DmdSection
  {
    DmdSection(
      ReplaceAll(rec.id, "FILEID", "DMDID"),
      rec.originalName,
      ExternalId(pid, rec.representationIndex, rec.fileIndex),
      pid, cpId, "sipin")
  }

  /** The loop over `files`: one DMD section per file record, in the same order. */
  method BuildDmdSections(files: seq<FileRecord>, pid: string, cpId: string) returns (dmd: seq<DmdSection>)
    ensures |dmd| == |files|
    ensures forall i :: 0 <= i < |files| ==> dmd[i] == DmdSectionOf(files[i], pid, cpId)
  {
    dmd := [];
    for i := 0 to |files|
      invariant |dmd| == i
      invariant forall j :: 0 <= j < i ==> dmd[j] == DmdSectionOf(files[j], pid, cpId)
    {
      dmd := dmd + [DmdSectionOf(files[i], pid, cpId)];
    }
  }

  /** The tail of a file id holds no `FILEID` when the upper-cased profile holds none. */
  lemma FileIdTailFree(profile: string, r: nat, f: nat)
    requires NoOccurrence("FILEID", Upper(profile))
    ensures NoOccurrence("FILEID", IdTail(profile, r, f))
  {
    var pat := "FILEID";
    var up, rs, fs := Upper(profile), NatToString(r), NatToString(f);
    NoOccurrenceWithoutFirstChar(pat, "");
    NoOccurrenceWithoutFirstChar(pat, "REPRESENTATION");
    NoOccurrenceWithoutFirstChar(pat, rs);
    NoOccurrenceWithoutFirstChar(pat, fs);
    NoOccurrenceJoin(pat, "", '-', up);
    var s1 := "" + ['-'] + up;
    assert s1 == "-" + up;
    NoOccurrenceJoin(pat, s1, '-', "REPRESENTATION");
    var s2 := s1 + ['-'] + "REPRESENTATION";
    NoOccurrenceJoin(pat, s2, '-', rs);
    var s3 := s2 + ['-'] + rs;
    NoOccurrenceJoin(pat, s3, '-', fs);
  }

  /**
   * When the upper-cased profile does not itself contain `FILEID`, the DMD
   * id is the file id with its leading `FILEID` turned into `DMDID`.
   */
  lemma DmdIdOfFileId(profile: string, r: nat, f: nat)
    requires NoOccurrence("FILEID", Upper(profile))
    ensures ReplaceAll(FileId(profile, r, f), "FILEID", "DMDID") == "DMDID" + IdTail(profile, r, f)
  {
    FileIdTailFree(profile, r, f);
    ReplaceLeading("FILEID", "DMDID", IdTail(profile, r, f));
  }

  // ---------------------------------------------------------------------
  // The data handed to the METS template

  /** The template context, without the creation time, the entity and the events. */
  datatype MetsData = MetsData(
    mhSidecarVersion: string,
    profile: string,
    pid: string,
    files: seq<FileRecord>,
    dmdSections: seq<DmdSection>,
    archiveLocation: ArchiveLocation,
    sidecar: Entries)

  /**
   * `generate_mets_from_sip` up to rendering: the file records first, then
   * the sidecar, then the DMD sections; a file problem is reported before
   * any sidecar problem.
   */
  method GenerateMetsData(sip: SIP, pid: string, location: ArchiveLocation, sidecarVersion: string)
    returns (r: Result<MetsData>)
    ensures var profile := LastSegment(sip.profile);
      var records := FileRecords(profile, location, DigitalIncludes(sip.entity.isRepresentedBy), 0);
      && (records.Err? ==> r == Err(records.error))
      && (records.Ok? ==> r.Ok? == SidecarMapping(sip).Ok?)
      && (records.Ok? && r.Err? ==> r.error == SidecarMapping(sip).error)
      && (r.Ok? ==>
            && r.value.profile == profile
            && r.value.pid == pid
            && r.value.mhSidecarVersion == sidecarVersion
            && r.value.archiveLocation == location
            && r.value.files == records.value
            && r.value.sidecar == SidecarMapping(sip).value
            && |r.value.dmdSections| == |records.value|
            && forall i :: 0 <= i < |records.value| ==>
                 r.value.dmdSections[i] == DmdSectionOf(records.value[i], pid, sip.entity.maintainerId))
    ensures r.Ok? ==> LastSegment(sip.profile) == "material-artwork"
  {
    var profile := LastSegment(sip.profile);
    var files :- BuildFileRecords(profile, location, sip.entity.isRepresentedBy);
    SidecarOnlyForMaterialArtwork(sip);
    var sidecar :- SidecarMapping(sip);
    var dmd := BuildDmdSections(files, pid, sip.entity.maintainerId);
    return Ok(MetsData(sidecarVersion, profile, pid, files, dmd, location, sidecar));
  }
}
