/**
 * The older package layout of `helpers/template.py`: the profile is read
 * from the entity's type by `lstrip`, every representation takes an index,
 * a record names the file by its declared original name, and only the
 * fixity is required (by attribute access, not by an explicit check).
 */
module Template {
  import opened Wrappers
  import opened Sip
  import opened Text
  import opened Common
  import opened Creator

  // ---------------------------------------------------------------------
  // The profile

  /** The argument of `lstrip`. */
  const ClassPrefix: string := "EntityClass."

  /** `lstrip` reads its argument as a set of characters: those of `ClassPrefix`. */
  const EntityClassChars: set<char> := {'E', 'n', 't', 'i', 'y', 'C', 'l', 'a', 's', '.'}

  /** Every character of the class prefix is one that `lstrip` removes. */
  lemma ClassPrefixStripped()
    ensures forall i :: 0 <= i < |ClassPrefix| ==> ClassPrefix[i] in EntityClassChars
  {
    assert ClassPrefix == ['E', 'n', 't', 'i', 't', 'y', 'C', 'l', 'a', 's', 's', '.'];
  }

  /** `str(sip.type).lstrip("EntityClass.")`. */
  function TemplateProfile(entityType: string): (r: string)
    ensures r == [] || r[0] !in EntityClassChars
  {
    LStrip(entityType, EntityClassChars)
  }

  /** Stripping a set of characters passes over any leading run of them. */
  lemma {:induction false} LStripSkipsRun(run: string, s: string, chars: set<char>)
    requires forall i :: 0 <= i < |run| ==> run[i] in chars
    ensures LStrip(run + s, chars) == LStrip(s, chars)
  {
    if run != [] {
      assert (run + s)[0] == run[0];
      assert (run + s)[1..] == run[1..] + s;
      LStripSkipsRun(run[1..], s, chars);
    } else {
      assert run + s == s;
    }
  }

  /**
   * The class prefix is removed whenever the class name does not itself
   * start with one of its characters; the name is then the profile.
   */
  lemma ProfileOfClassName(name: string)
    requires name == [] || name[0] !in EntityClassChars
    ensures TemplateProfile(ClassPrefix + name) == name
  {
    ClassPrefixStripped();
    LStripSkipsRun(ClassPrefix, name, EntityClassChars);
  }

  lemma OKeptByStrip()
    ensures 'o' !in EntityClassChars
  {
  }

  /**
   * `lstrip` takes a set of characters, not a prefix: the `s` of
   * `sound_film` is in the set, so it is stripped too, where removing the
   * prefix would keep it.
   */
  lemma SoundFilmLosesItsS()
    ensures TemplateProfile(ClassPrefix + "sound_film") == "ound_film"
    ensures RemovePrefix(ClassPrefix + "sound_film", ClassPrefix) == "sound_film"
  {
    ClassPrefixStripped();
    LStripSkipsRun(ClassPrefix, "sound_film", EntityClassChars);
    var name := "sound_film";
    assert name[0] == 's' && name[1..] == "ound_film";
    assert LStrip(name, EntityClassChars) == LStrip("ound_film", EntityClassChars);
    var rest := "ound_film";
    assert rest[0] == 'o';
    OKeptByStrip();
    assert LStrip(rest, EntityClassChars) == rest;
    assert ClassPrefix <= ClassPrefix + name;
  }

  // ---------------------------------------------------------------------
  // File records

  /**
   * The record of file `f` of representation `r`: the declared original
   * name, the fixity value, no archive location.
   */
  function LegacyRecord(profile: string, r: nat, f: nat, file: File): FileRecord
    requires file.fixity.Some?
  {
    FileRecord(FileId(profile, r, f), r, f, file.originalName, file.fixity.value, None)
  }

  /**
   * The record of one file as a one-element list; `file.fixity.value` on a
   * missing fixity raises `AttributeError`. The path is not looked at.
   */
  function LegacyRecordOf(profile: string, r: nat, f: nat, file: File): (rec: Result<seq<FileRecord>>)
    ensures rec.Ok? <==> file.fixity.Some?
    ensures rec.Err? ==> rec.error == AttributeError("value")
  {
    if file.fixity.None? then Err(AttributeError("value"))
    else Ok([LegacyRecord(profile, r, f, file)])
  }

  /** The records of the files of representation `r` from position `f` on. */
  function LegacyFilesRecords(profile: string, r: nat, files: seq<File>, f: nat): (res: Result<seq<FileRecord>>)
    requires f <= |files|
    ensures res.Err? ==> res.error == AttributeError("value")
    decreases |files| - f
  {
    if f == |files| then Ok([])
    else AppendOk(LegacyRecordOf(profile, r, f, files[f]), LegacyFilesRecords(profile, r, files, f + 1))
  }

  /** The records of the representations from position `r` on; a carrier adds none but keeps its index. */
  function LegacyRecords(profile: string, reps: seq<Representation>, r: nat): (res: Result<seq<FileRecord>>)
    requires r <= |reps|
    ensures res.Err? ==> res.error == AttributeError("value")
    decreases |reps| - r
  {
    if r == |reps| then Ok([])
    else if reps[r].DigitalRepresentation? then
      AppendOk(LegacyFilesRecords(profile, r, reps[r].includes, 0), LegacyRecords(profile, reps, r + 1))
    else LegacyRecords(profile, reps, r + 1)
  }

  /** One turn of the inner loop: a file without fixity ends the layout, any other adds its record. */
  lemma LegacyStep(
    profile: string, r: nat, files: seq<File>, f: nat,
    records: seq<FileRecord>, rest: Result<seq<FileRecord>>)
    requires f < |files|
    ensures var file := files[f];
      var acc := AppendOk(Ok(records), AppendOk(LegacyFilesRecords(profile, r, files, f), rest));
      && (file.fixity.None? ==> acc == Err(AttributeError("value")))
      && (file.fixity.Some? ==>
            (acc == AppendOk(Ok(records + [LegacyRecord(profile, r, f, file)]),
                             AppendOk(LegacyFilesRecords(profile, r, files, f + 1), rest))))
  {
    var one := LegacyRecordOf(profile, r, f, files[f]);
    var tail := LegacyFilesRecords(profile, r, files, f + 1);
    AppendOkAssoc(one, tail, rest);
    AppendOkAssoc(Ok(records), one, AppendOk(tail, rest));
  }

  /**
   * The nested loops of the older `generate_mets_from_sip`: every
   * representation is enumerated, the files of the digital ones become
   * records, and a file without fixity stops the layout.
   */
  method BuildLegacyFileRecords(profile: string, reps: seq<Representation>) returns (r: Result<seq<FileRecord>>)
    ensures r == LegacyRecords(profile, reps, 0)
  {
    var files: seq<FileRecord> := [];
    AppendOkUnit(LegacyRecords(profile, reps, 0));
    for ri := 0 to |reps|
      invariant LegacyRecords(profile, reps, 0) == AppendOk(Ok(files), LegacyRecords(profile, reps, ri))
    {
      var representation := reps[ri];
      if representation.DigitalRepresentation? {
        var includes := representation.includes;
        var rest := LegacyRecords(profile, reps, ri + 1);
        AppendOkUnit(rest);
        for fi := 0 to |includes|
          invariant LegacyRecords(profile, reps, 0)
            == AppendOk(Ok(files), AppendOk(LegacyFilesRecords(profile, ri, includes, fi), rest))
        {
          var file := includes[fi];
          LegacyStep(profile, ri, includes, fi, files, rest);
          if file.fixity.None? {
            return Err(AttributeError("value"));
          }
          files := files + [FileRecord(FileId(profile, ri, fi), ri, fi, file.originalName, file.fixity.value, None)];
        }
      }
    }
    assert files + [] == files;
    return Ok(files);
  }

  /** Every file of every digital representation from position `r` on has a fixity. */
  predicate FixitiesFrom(reps: seq<Representation>, r: nat)
  {
    forall i, j :: r <= i < |reps| && reps[i].DigitalRepresentation? && 0 <= j < |reps[i].includes| ==>
      reps[i].includes[j].fixity.Some?
  }

  lemma {:induction false} LegacyFilesRecordsSucceed(profile: string, r: nat, files: seq<File>, f: nat)
    requires f <= |files|
    ensures LegacyFilesRecords(profile, r, files, f).Ok? <==> forall j :: f <= j < |files| ==> files[j].fixity.Some?
    decreases |files| - f
  {
    if f < |files| {
      LegacyFilesRecordsSucceed(profile, r, files, f + 1);
    }
  }

  /**
   * The older layout fails exactly when a file of a digital representation
   * has no fixity; a missing path is never noticed.
   */
  lemma {:induction false} LegacyRecordsSucceed(profile: string, reps: seq<Representation>, r: nat)
    requires r <= |reps|
    ensures LegacyRecords(profile, reps, r).Ok? <==> FixitiesFrom(reps, r)
    decreases |reps| - r
  {
    if r < |reps| {
      LegacyRecordsSucceed(profile, reps, r + 1);
      if reps[r].DigitalRepresentation? {
        LegacyFilesRecordsSucceed(profile, r, reps[r].includes, 0);
      }
    }
  }

  /** `rec` is the record of a file with fixity of a digital representation, at its position in `reps`. */
  predicate LegacyRecordOfFile(profile: string, reps: seq<Representation>, rec: FileRecord)
  {
    var ri, fi := rec.representationIndex, rec.fileIndex;
    && ri < |reps| && reps[ri].DigitalRepresentation?
    && fi < |reps[ri].includes| && reps[ri].includes[fi].fixity.Some?
    && rec == LegacyRecord(profile, ri, fi, reps[ri].includes[fi])
  }

  /** The records of one digital representation: one per remaining file, the `k`-th describing file `f + k`. */
  lemma {:induction false} LegacyFilesRecordsDescribe(profile: string, reps: seq<Representation>, r: nat, f: nat)
    requires r < |reps| && reps[r].DigitalRepresentation? && f <= |reps[r].includes|
    ensures var res := LegacyFilesRecords(profile, r, reps[r].includes, f);
      && (res.Ok? ==> |res.value| == |reps[r].includes| - f)
      && (res.Ok? ==> forall k :: 0 <= k < |res.value| ==>
            && res.value[k].representationIndex == r && res.value[k].fileIndex == f + k
            && LegacyRecordOfFile(profile, reps, res.value[k]))
    decreases |reps[r].includes| - f
  {
    var files := reps[r].includes;
    if f < |files| {
      LegacyFilesRecordsDescribe(profile, reps, r, f + 1);
      var res := LegacyFilesRecords(profile, r, files, f);
      var one := LegacyRecordOf(profile, r, f, files[f]);
      var tail := LegacyFilesRecords(profile, r, files, f + 1);
      assert res == AppendOk(one, tail);
      if res.Ok? {
        var rec := LegacyRecord(profile, r, f, files[f]);
        assert one.value == [rec];
        assert res.value == [rec] + tail.value;
        assert LegacyRecordOfFile(profile, reps, rec);
        forall k | 0 <= k < |res.value|
          ensures res.value[k].representationIndex == r && res.value[k].fileIndex == f + k
          ensures LegacyRecordOfFile(profile, reps, res.value[k])
        {
          if k > 0 {
            assert res.value[k] == tail.value[k - 1];
          }
        }
      }
    }
  }

  /** The number of files of the digital representations from position `r` on. */
  function DigitalFileCount(reps: seq<Representation>, r: nat): nat
    requires r <= |reps|
    decreases |reps| - r
  {
    if r == |reps| then 0
    else if reps[r].DigitalRepresentation? then |reps[r].includes| + DigitalFileCount(reps, r + 1)
    else DigitalFileCount(reps, r + 1)
  }

  /**
   * The older layout writes one record per file of a digital
   * representation, each describing that file at its position among all
   * representations.
   */
  lemma {:induction false} LegacyRecordsDescribe(profile: string, reps: seq<Representation>, r: nat)
    requires r <= |reps|
    ensures var res := LegacyRecords(profile, reps, r);
      && (res.Ok? ==> |res.value| == DigitalFileCount(reps, r))
      && (res.Ok? ==> forall k :: 0 <= k < |res.value| ==>
            r <= res.value[k].representationIndex && LegacyRecordOfFile(profile, reps, res.value[k]))
    decreases |reps| - r
  {
    if r < |reps| {
      LegacyRecordsDescribe(profile, reps, r + 1);
      var res := LegacyRecords(profile, reps, r);
      var rest := LegacyRecords(profile, reps, r + 1);
      if reps[r].DigitalRepresentation? {
        LegacyFilesRecordsDescribe(profile, reps, r, 0);
        var head := LegacyFilesRecords(profile, r, reps[r].includes, 0);
        if res.Ok? {
          var a, b := head.value, rest.value;
          assert res.value == a + b;
          forall k | 0 <= k < |res.value|
            ensures r <= res.value[k].representationIndex && LegacyRecordOfFile(profile, reps, res.value[k])
          {
            if k >= |a| {
              assert res.value[k] == b[k - |a|];
            }
          }
        }
      }
    }
  }

  /**
   * The two layouts number representations differently: behind a carrier,
   * the older one gives the first digital representation index 1, the
   * version 2.1 layout index 0.
   */
  lemma CarrierShiftsIndex(profile: string, location: ArchiveLocation, file: File)
    requires Complete(file)
    ensures var reps := [CarrierRepresentation, DigitalRepresentation([file])];
      && LegacyRecords(profile, reps, 0) == Ok([LegacyRecord(profile, 1, 0, file)])
      && FileRecords(profile, location, DigitalIncludes(reps), 0) == Ok([Record(profile, location, 0, 0, file)])
  {
    var reps := [CarrierRepresentation, DigitalRepresentation([file])];
    assert reps[1..] == [DigitalRepresentation([file])];
    assert DigitalIncludes(reps) == [[file]];
    var legacy := LegacyRecord(profile, 1, 0, file);
    assert LegacyFilesRecords(profile, 1, [file], 1) == Ok([]);
    assert [legacy] + [] == [legacy];
    assert LegacyFilesRecords(profile, 1, [file], 0) == Ok([legacy]);
    assert LegacyRecords(profile, reps, 2) == Ok([]);
    assert LegacyRecords(profile, reps, 1) == Ok([legacy]);
    var rec := Record(profile, location, 0, 0, file);
    assert RepresentationRecords(profile, location, 0, [file], 1) == Ok([]);
    assert [rec] + [] == [rec];
    assert RepresentationRecords(profile, location, 0, [file], 0) == Ok([rec]);
    assert FileRecords(profile, location, [[file]], 1) == Ok([]);
  }

  /**
   * A file with a fixity but no stored path gets a record in the older
   * layout; the version 2.1 layout rejects it.
   */
  lemma PathOnlyCheckedIn21(profile: string, location: ArchiveLocation, fixity: string, name: string)
    ensures var file := File(None, Some(fixity), name);
      && LegacyRecords(profile, [DigitalRepresentation([file])], 0) == Ok([LegacyRecord(profile, 0, 0, file)])
      && FileRecords(profile, location, [[file]], 0) == Err(ValueError(MissingPathMessage))
  {
    var file := File(None, Some(fixity), name);
    var legacy := LegacyRecord(profile, 0, 0, file);
    assert LegacyFilesRecords(profile, 0, [file], 1) == Ok([]);
    assert [legacy] + [] == [legacy];
    assert LegacyFilesRecords(profile, 0, [file], 0) == Ok([legacy]);
    assert LegacyRecords(profile, [DigitalRepresentation([file])], 1) == Ok([]);
    assert RepresentationRecords(profile, location, 0, [file], 0) == Err(ValueError(MissingPathMessage));
  }

  // ---------------------------------------------------------------------
  // The data handed to the template

  /** The template context, without the creation time and the entity. */
  datatype TemplateData = TemplateData(
    profile: string,
    pid: string,
    files: seq<FileRecord>,
    dmdSections: seq<DmdSection>)

  /**
   * The older `generate_mets_from_sip` up to rendering: the records of all
   * representations, then one DMD section per record with the maintainer's
   * identifier.
   */
  method GenerateTemplateData(sip: SIP, pid: string) returns (r: Result<TemplateData>)
    ensures var profile := TemplateProfile(sip.entity.entityType);
      var records := LegacyRecords(profile, sip.entity.isRepresentedBy, 0);
      && (r.Ok? <==> records.Ok?)
      && (r.Err? ==> r.error == AttributeError("value"))
      && (r.Ok? ==>
            && r.value.profile == profile
            && r.value.pid == pid
            && r.value.files == records.value
            && |r.value.dmdSections| == |records.value|
            && forall i :: 0 <= i < |records.value| ==>
                 r.value.dmdSections[i] == DmdSectionOf(records.value[i], pid, sip.entity.maintainerId))
  {
    var profile := TemplateProfile(sip.entity.entityType);
    LegacyRecordsSucceed(profile, sip.entity.isRepresentedBy, 0);
    var files :- BuildLegacyFileRecords(profile, sip.entity.isRepresentedBy);
    var dmd := BuildDmdSections(files, pid, sip.entity.maintainerId);
    return Ok(TemplateData(profile, pid, files, dmd));
  }
}
