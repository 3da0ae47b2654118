# MediaHaven SIP creator: sidecar mapping and package layout

This project models the core of the MediaHaven SIP creator (version 2.1). The creator turns a
parsed SIP.py SIP into what a MediaHaven package needs:

- the **sidecar mapping**: a two-level dict with a `"Descriptive"` and a `"Dynamic"` section,
  filled from the intellectual entity and its preservation events;
- the **package layout**: one file record per file of every digital representation, and one
  descriptive-metadata (dmd) section per file record.

It covers both generations of that code:

- The version 2.1 path:
  - the Dutch-string helpers;
  - the common profile mapping and its field extractors;
  - `deepmerge` and the three profiles (material artwork, film and basic);
  - the profile-URI parser and the version dispatchers;
  - `generate_mets_from_sip` up to the template render.
- The older path:
  - the `(version, profile)` dispatch table;
  - the material-artwork and basic mappings of version 2.1;
  - `generate_mets_from_sip` of the template helper.

Python exceptions become a `Result` whose failure names the exception class, and `None` becomes
`Option`. A dict is an association list that keeps Python's insertion order. Dispatchers that
return a Python function return a tag naming it. The loops of the source are methods, each proved
equal to a pure specification function:

- `deepmerge`;
- `get_event_with_type`;
- `get_dc_titles`;
- the file-record and dmd-section loops of both generators.

The lemmas state what the callers rely on:

- which keys a mapping writes, and in which order;
- exactly when a mapping or the layout succeeds;
- which exception wins when several fields would raise;
- that the file identifiers turn into dmd identifiers;
- how the older code differs from the newer.

The modules:

- `Wrappers`: Option, Result and the Python exception classes.
- `Text`: the Python string operations used (`split`, last path segment, `Path.name`, `str(int)`,
  `upper`, `lstrip`, `removeprefix`, `replace`).
- `Sip`: the SIP.py entities the core reads.
- `Langstrings`: `get_nl_strings`, `get_nl_string` and `get_optional_nl_string`.
- `Sidecar`: the dict value.
- `Common`: the common profile.
- `ProfileHelpers`: `deepmerge`.
- `Profiles`: the three version 2.1 profiles.
- `Utils`: the profile URI and the version dispatchers.
- `Creator`: the sidecar dispatch and the METS data of version 2.1.
- `LegacyDispatch`, `Template`, `LegacyMaterialArtwork` and `LegacyBasic`: the older path.

## Model

| member | source | states |
|---|---|---|
| Text.Split | app/utils.py:18 | `split` on one character gives at least one part, none holding the separator, and a single part (the input) exactly when the separator is absent |
| Text.JoinSplit | app/utils.py:18 | joining the parts of a split with the separator gives back the string |
| Text.SplitJoin | app/utils.py:17-22 | splitting a join of separator-free parts gives back the parts |
| Text.LastSegmentIsSuffix | app/utils.py:19 | the last `/`-segment is a `/`-free suffix, preceded by `/` unless it is the whole string |
| Text.PathName | app/v2_1/creator.py:67-68 | `Path(...).name` holds no `/` and is never `.` |
| Text.PathNameIsLastSegment | app/v2_1/creator.py:67-68 | where the last segment is a real name, `Path.name` is that segment |
| Text.PathNameTrailingSlash | app/v2_1/creator.py:67-68 | a trailing `/` does not change `Path.name` |
| Text.NatToStringRoundTrip | app/v2_1/creator.py:77 | the decimal digits written for an index read back as that index |
| Text.IntToString | app/v2_1/profiles/common.py:126-134 | `str` of an integer starts with `-` exactly when it is negative |
| Text.Upper | app/v2_1/creator.py:77 | `upper` keeps the length and upper-cases each letter in place |
| Text.LStrip | app/helpers/template.py:26 | `lstrip` removes a prefix made only of characters of the set, and what remains does not start with one |
| Text.RemovePrefix | app/helpers/template.py:26 | `removeprefix` removes the prefix exactly when it is one, and otherwise leaves the string unchanged |
| Text.ReplaceAllNoOccurrence | app/v2_1/creator.py:92 | `replace` leaves a string without the pattern unchanged |
| Text.ReplaceLeading | app/v2_1/creator.py:92 | a leading occurrence is replaced and a pattern-free rest is kept |
| Langstrings.NlStrings | app/v2_1/langstrings.py:4-7 | the Dutch values in source order, never more than the entries (the copies at app/v2_1/profiles/material_artwork.py:38-41, app/helpers/mappings/v2_1/material_artwork.py:110-113 are the same helper) |
| Langstrings.NlStringsExactlyDutch | app/v2_1/langstrings.py:4-7 | a value is selected exactly when some entry holds it with language `nl` |
| Langstrings.NlStringsAppend | app/v2_1/langstrings.py:4-7 | selection distributes over concatenation |
| Langstrings.NlStringsIgnoresOtherLanguages | app/v2_1/langstrings.py:4-7 | an entry in another language never changes the selection |
| Langstrings.NlString | app/v2_1/langstrings.py:10-13 | succeeds exactly when some value is Dutch and returns the first one; otherwise `StopIteration` (the copies at app/v2_1/profiles/material_artwork.py:44-47, app/helpers/mappings/v2_1/material_artwork.py:116-119 are the same helper) |
| Langstrings.NlStringIsFirstDutch | app/v2_1/langstrings.py:10-13 | the value returned is held by a Dutch entry with no Dutch entry before it |
| Langstrings.OptionalNlString | app/v2_1/langstrings.py:16-21 | `None` for an absent list, otherwise the first Dutch value or `StopIteration` (the copies at app/v2_1/profiles/material_artwork.py:50-55, app/helpers/mappings/v2_1/material_artwork.py:122-127 are the same helper) |
| Sidecar.Keys | app/v2_1/profiles/helpers.py:4-14 | a dict's keys in insertion order, one per item |
| Sidecar.Lookup | app/v2_1/profiles/helpers.py:7-8 | `key in result` and `result[key]`: found exactly when the key is present |
| Sidecar.Put | app/v2_1/profiles/helpers.py:13 | `result[key] = value` replaces the value in place or appends the key, keeping every other item |
| Sidecar.PutSame | app/v2_1/profiles/helpers.py:13 | storing the value a key already holds leaves the dict unchanged |
| Common.Labelled | app/v2_1/profiles/common.py:32 | one `(tag, v)` pair per value, in order |
| Common.LabelledAppend | app/v2_1/profiles/common.py:32 | labelling distributes over concatenation |
| Common.Millimetres | app/v2_1/profiles/common.py:119-136 | `"0"` without a dimension, and never the empty string (the copies at app/v2_1/profiles/material_artwork.py:18-35, app/helpers/mappings/v2_1/material_artwork.py:90-107 are the same helper) |
| Common.MillimetresIsScaled | app/v2_1/profiles/common.py:119-136 | `MMT` is written as is, `CMT` ×10, `MTR` ×1000, `KGM` unscaled, and any other unit as `"0"` |
| Common.MillimetresDenotes | app/v2_1/profiles/common.py:119-136 | for a non-negative quantity the digits written denote exactly the scaled value |
| Common.CountConcepts | app/v2_1/profiles/common.py:151-155 | the concept licenses, never more than the licenses |
| Common.ConceptLabels | app/v2_1/profiles/common.py:151-155 | succeeds exactly when every concept has a Dutch label, with one label per concept; otherwise `StopIteration` |
| Common.ConceptLabelsValues | app/v2_1/profiles/common.py:151-155 | each concept's label is the first Dutch value of its `prefLabel`, at the position counted by the concepts before it, so the labels keep source order |
| Common.UriCodes | app/v2_1/profiles/common.py:157-161 | one code per URI license |
| Common.UriCodesValues | app/v2_1/profiles/common.py:157-161 | each URI license's code is the last `/`-segment of its id, at the position counted by the URI licenses before it, so the codes keep source order |
| Common.Licenses | app/v2_1/profiles/common.py:139-163 | the seven default codes without a license; otherwise success exactly when every concept has a Dutch label, one entry per license, all tagged `multiselect`, and otherwise `StopIteration` |
| Common.LicensesValues | app/v2_1/profiles/common.py:151-163 | the value of every license: a concept's first Dutch label among the concepts in source order, then a URI's last `/`-segment among the URIs in source order after all concepts |
| Common.ConceptLabelsAppend | app/v2_1/profiles/common.py:151-155 | the labels of a concatenation are the two parts' labels, and the first failure wins |
| Common.UriCodesAppend | app/v2_1/profiles/common.py:157-161 | the codes of a concatenation are the two parts' codes |
| Common.ConceptLabelsSwap | app/v2_1/profiles/common.py:151-155 | a URI license before a concept does not change the concept labels when the two swap |
| Common.UriCodesSwap | app/v2_1/profiles/common.py:157-161 | a concept after a URI license does not change the URI codes when the two swap |
| Common.LicensesGroupByKind | app/v2_1/profiles/common.py:151-163 | swapping a URI license with a concept license after it changes nothing: concepts always come first |
| Common.LocalId | app/v2_1/profiles/common.py:175-176 | `None` exactly without a primary identifier, otherwise the first one's value |
| Common.LocalIdType | app/v2_1/profiles/common.py:179-181 | the type is a `/`-free final path component |
| Common.LocalIds | app/v2_1/profiles/common.py:166-172 | one `(type, value)` pair per local identifier, in order |
| Common.NlEach | app/v2_1/profiles/common.py:25-28 | succeeds exactly when every list has a Dutch entry, with each first Dutch value in order; otherwise `StopIteration` |
| Common.Names | app/v2_1/profiles/common.py:25-28 | the names of the things, in order |
| Common.WithAgent | app/v2_1/profiles/common.py:184-189 | every role the `if creator.creator` filter keeps has an agent |
| Common.WithAgentAppend | app/v2_1/profiles/common.py:184-189 | the filter distributes over concatenation |
| Common.RolePairsKeepAgents | app/v2_1/profiles/common.py:184-216 | the role pairs are exactly the roles with an agent, in order, each with its agent's Dutch name; they fail exactly when such an agent has none |
| Common.RolePairsSkipsAbsentAgent | app/v2_1/profiles/common.py:184-216 | a role without an agent contributes nothing, wherever it stands |
| Common.Roles | app/v2_1/profiles/common.py:184-216 | the role pairs, or `None` exactly when no role names an agent |
| Common.Coverages | app/v2_1/profiles/common.py:219-228 | fails, with `StopIteration`, exactly when a place has no Dutch name |
| Common.CoveragesPlacesThenTimes | app/v2_1/profiles/common.py:219-228 | one `ruimte` entry per place, then one `tijd` entry per Dutch temporal string; `None` exactly when both parts are empty |
| Common.TaggedNlStrings | app/v2_1/profiles/common.py:231-244 | `None` exactly for an absent field; otherwise each Dutch string under the tag |
| Common.FirstOfTypeIsEarliest | app/v2_1/profiles/common.py:247-254 | the event found has the type and no earlier event has it; nothing is found exactly when no event has it |
| Common.EventWithType | app/v2_1/profiles/common.py:247-254 | the loop returns the earliest event of the type, or `None` when there is none |
| Common.EventDate | app/v2_1/profiles/common.py:257-261 | `None` exactly without such an event, otherwise the date of its start time |
| Common.EventTime | app/v2_1/profiles/common.py:264-268 | `None` exactly without such an event, otherwise the time of its start time |
| Common.EventOutcome | app/v2_1/profiles/common.py:271-284 | `y` for a success or warning outcome, `n` for a failure or a missing outcome, `None` without an event or for another outcome URI |
| Common.EventNote | app/v2_1/profiles/common.py:287-291 | the first such event's note, `None` without an event |
| Common.EventImplementer | app/v2_1/profiles/common.py:294-305 | `None` exactly without such an event, otherwise the implementer's Dutch name or `StopIteration` |
| Common.Tagged | app/v2_1/profiles/common.py:313 | one `(tag, Dutch name)` pair, or `StopIteration` |
| Common.SubArchiveNames | app/v2_1/profiles/common.py:323-327 | at most one name per direct child, and none exactly when no child is an archive component |
| Common.SubArchiveNamesAppend | app/v2_1/profiles/common.py:323-327 | the names of a concatenation are the two parts' names in order |
| Common.SubArchiveNamesValues | app/v2_1/profiles/common.py:323-327 | each archive-component child contributes its name at the position counted by the archive components before it, and any other child contributes nothing |
| Common.SubArchiveTitlesValues | app/v2_1/profiles/common.py:328-329 | the sub-archive titles succeed exactly when every name has a Dutch value, and are those first Dutch values in order, each tagged `deelarchief` |
| Common.ItemTitles | app/v2_1/profiles/common.py:311-337 | an unknown class raises `NotImplementedError`, and only it does; any other failure is `StopIteration` |
| Common.ItemTitlesValues | app/v2_1/profiles/common.py:311-337 | the title of each class: `programma`, `seizoen`, `serie` and `aflevering` with the first Dutch name; nothing for a newspaper or creative work; for an archive `archief` with its Dutch name, then one `deelarchief` per archive-component child in order, `StopIteration` when a name has no Dutch value; `NotImplementedError` otherwise |
| Common.Titles | app/v2_1/profiles/common.py:308-339 | fails only with `StopIteration` or `NotImplementedError`; its values per item are those of ItemTitlesValues, joined in item order by TitlesAppend |
| Common.DcTitles | app/v2_1/profiles/common.py:308-339 | the loop builds exactly the title list of the items |
| Common.TitlesAppend | app/v2_1/profiles/common.py:308-339 | the titles of a concatenation are the parts' titles in order, and the first failure wins |
| Common.TitlesSkipUntitled | app/v2_1/profiles/common.py:314-316 | a newspaper or a generic creative work contributes no title, wherever it stands |
| Common.TitlesRejectUnknownClass | app/v2_1/profiles/common.py:336-337 | any item of an unhandled class makes the title list fail |
| Common.TitlesTagged | app/v2_1/profiles/common.py:308-339 | every title carries one of the six title tags |
| Common.SubArchiveTitlesTags | app/v2_1/profiles/common.py:328-329 | every sub-archive title is tagged `deelarchief` |
| Common.SubArchiveTitlesCount | app/v2_1/profiles/common.py:328-329 | one title per sub-archive |
| Common.TitlesCounted | app/v2_1/profiles/common.py:308-339 | one title per broadcast, season, series and episode, and one per archive plus one per direct sub-archive |
| Common.OptStr | app/v2_1/profiles/common.py:17-24 | an optional string field is a string or `None`, never a dict |
| Common.OptPairs | app/v2_1/profiles/common.py:29-38 | an optional pair-list field is a list or `None`, never a dict |
| Common.ExtractFields | app/v2_1/profiles/common.py:14-113 | fails only with `StopIteration` or `NotImplementedError`; on success the title is the first Dutch name |
| Common.CommonMapping | app/v2_1/profiles/common.py:11-116 | fails only with `StopIteration` or `NotImplementedError` |
| Common.MetadataFieldsFlat | app/v2_1/profiles/common.py:20-49 | no descriptive field of `"Dynamic"` holds a dict |
| Common.MetadataFieldsKeys | app/v2_1/profiles/common.py:20-49 | the descriptive fields are written under their keys in the literal's order |
| Common.EventFieldsFlat | app/v2_1/profiles/common.py:52-111 | no event field holds a dict |
| Common.EventFieldsKeys | app/v2_1/profiles/common.py:52-111 | the event fields are written under their keys in the literal's order |
| Common.DynamicSectionShape | app/v2_1/profiles/common.py:19-113 | `"Dynamic"` holds its keys in order and no dict; it starts with `dc_title` and ends with the METS type as `ContentCategory` |
| Common.CommonMappingShape | app/v2_1/profiles/common.py:11-116 | a successful mapping has exactly the two sections; `mh:Title` and `dc_title` are both the first Dutch name |
| Common.NlEachNames | app/v2_1/profiles/common.py:25-28 | the owners' names succeed exactly when every owner has a Dutch name |
| Common.ExtractFieldsOk | app/v2_1/profiles/common.py:14-113 | the extraction succeeds exactly when every raising field does |
| Common.TextFieldsOk | app/v2_1/profiles/common.py:16-42 | the text fields succeed exactly when each present one has a Dutch entry |
| Common.AgentFieldsOk | app/v2_1/profiles/common.py:34-38 | the agent and place fields succeed exactly when every named agent and every place has a Dutch name |
| Common.CommonMappingSucceeds | app/v2_1/profiles/common.py:11-116 | the mapping succeeds exactly when its success condition holds on the SIP |
| Common.CommonMappingFirstFailure | app/v2_1/profiles/common.py:14-33 | a name without Dutch raises `StopIteration` whatever else is wrong; a failing title list decides the exception once the fields before it succeed |
| ProfileHelpers.MergeFrom | app/v2_1/profiles/helpers.py:6-13 | the loop over `dict2` from a position on fails only with a bare `ValueError` |
| ProfileHelpers.DeepMerge | app/v2_1/profiles/helpers.py:4-14 | the method computes the merge; an empty `dict2` gives `dict1` back; a collision raises `ValueError` |
| ProfileHelpers.NewKeys | app/v2_1/profiles/helpers.py:12-13 | exactly the keys of the list that are not yet present |
| ProfileHelpers.MergeKeysFrom | app/v2_1/profiles/helpers.py:6-13 | each loop step appends a new key or keeps the key list, so the keys stay unique |
| ProfileHelpers.DeepMergeKeys | app/v2_1/profiles/helpers.py:4-14 | the merged keys are `dict1`'s in order, then the keys only `dict2` has, in `dict2`'s order; the key set is the union |
| ProfileHelpers.MergeLookupFrom | app/v2_1/profiles/helpers.py:6-13 | what the loop stores under each key, by where the key came from |
| ProfileHelpers.DeepMergeLookup | app/v2_1/profiles/helpers.py:4-14 | a key of one side keeps that side's value; a shared key held dicts on both sides and now holds their merge |
| ProfileHelpers.SharedKeyConflict | app/v2_1/profiles/helpers.py:7-11 | a shared key that is not a dict on both sides raises `ValueError`, even for equal leaves |
| ProfileHelpers.DisjointMerge | app/v2_1/profiles/helpers.py:4-14 | dicts without a common key merge into `dict1`'s items followed by `dict2`'s |
| ProfileHelpers.MergeEmptySubDict | app/v2_1/profiles/helpers.py:4-14 | merging `{key: {}}` into a dict holding a dict under `key` changes nothing |
| Profiles.MaterialArtworkIsCommon | app/v2_1/profiles/material_artwork.py:9-15 | the material-artwork mapping is the common mapping, failing with the same exception |
| Profiles.FilmMapping | app/v2_1/profiles/film.py:6-17 | always fails; once the common mapping succeeds, with `AttributeError` on `deepmerge` |
| Profiles.BasicMapping | app/v2_1/profiles/basic.py:8-16 | always fails; once the common mapping succeeds, with `AttributeError` on `deepmerge` |
| Profiles.ImageFragmentConflicts | app/v2_1/profiles/film.py:8-17 | even through `deepmerge`, the `ContentCategory` fragment would collide with the common one and raise `ValueError` |
| Profiles.MaterialLicenses | app/v2_1/profiles/material_artwork.py:58-74 | the defaults without a license; otherwise only the concepts' Dutch labels, or `StopIteration` (the copy at app/helpers/mappings/v2_1/material_artwork.py:130-146 is the same helper) |
| Profiles.MaterialLicensesValues | app/v2_1/profiles/material_artwork.py:58-74 | each concept's first Dutch label, at the position counted by the concepts before it, tagged `multiselect` |
| Profiles.MaterialLicensesDropUris | app/v2_1/profiles/material_artwork.py:58-74 | agrees with the common licenses on success and on the concepts, and drops the URI codes |
| Utils.ParseProfileUrl | app/utils.py:17-22 | fails, with `IndexError`, exactly without a `/`; the profile is the last segment; neither part holds `/` |
| Utils.ParseJoinedProfileUrl | app/utils.py:17-22 | a URI made of `/`-free segments parses back into its last two segments |
| Utils.ForVersion | app/utils.py:28-34 | the creator exactly for version `2.1`; `IndexError` without `/`; otherwise the invalid-version `ValueError` |
| Utils.MetsCreator | app/utils.py:25-34 | `create_mh_mets_data` exactly for version `2.1` |
| Utils.SipCreator | app/utils.py:37-48 | `write_mediahaven_sip` exactly for version `2.1` |
| Utils.VersionDispatchIgnoresProfile | app/utils.py:25-48 | the dispatchers look only at the version segment, never at the profile |
| Creator.SelectProfile | app/v2_1/creator.py:14-27 | `IndexError` without `/`; succeeds exactly for the three known profiles and picks the one named by the last segment |
| Creator.SidecarOnlyForMaterialArtwork | app/v2_1/creator.py:14-29 | the sidecar succeeds exactly for a material-artwork URI whose common mapping succeeds, and then equals it |
| Creator.DigitalIncludes | app/v2_1/creator.py:55-59 | at most one file list per representation |
| Creator.FileRecordOf | app/v2_1/creator.py:62-84 | a missing path raises the path `ValueError` before a missing fixity raises the fixity one; succeeds exactly for complete files |
| Creator.RecordStep | app/v2_1/creator.py:61-84 | one step of the inner loop adds the file's record or its failure |
| Creator.BuildFileRecords | app/v2_1/creator.py:53-84 | the nested loops build exactly the file records of the digital representations |
| Creator.RepresentationRecordsSucceed | app/v2_1/creator.py:61-84 | a representation's records succeed exactly when all its remaining files are complete |
| Creator.RepresentationRecordsDescribe | app/v2_1/creator.py:61-84 | each record carries its representation index and consecutive file indices, and describes its file |
| Creator.FileRecordsSucceed | app/v2_1/creator.py:60-84 | the records succeed exactly when every file of every digital representation is complete |
| Creator.FileRecordsCount | app/v2_1/creator.py:60-84 | one record per file |
| Creator.FileRecordsDescribeFiles | app/v2_1/creator.py:60-84 | every record describes the file at its indices: id, name, checksum and location |
| Creator.FileRecordsOrdered | app/v2_1/creator.py:60-84 | records are in strictly increasing (representation, file) order |
| Creator.DigitalIncludesAppend | app/v2_1/creator.py:55-59 | the filter distributes over concatenation |
| Creator.CarrierTakesNoIndex | app/v2_1/creator.py:55-60 | a carrier representation does not shift the indices of the digital ones |
| Creator.BuildDmdSections | app/v2_1/creator.py:88-99 | one dmd section per file record, in order, each derived from its record |
| Creator.FileIdTailFree | app/v2_1/creator.py:77 | after `FILEID` the identifier holds no further `FILEID` when the upper-cased profile has none |
| Creator.DmdIdOfFileId | app/v2_1/creator.py:92 | the dmd id is the file id with only its leading `FILEID` turned into `DMDID` |
| Creator.GenerateMetsData | app/v2_1/creator.py:40-114 | a file error comes before the sidecar; on success the pid, sidecar version and archive location are the arguments passed in, and the profile, files, sidecar and per-file dmd sections are as specified, and only for material artwork |
| LegacyDispatch.SelectMapping | app/helpers/mapping.py:5-28 | `IndexError` without `/`; succeeds exactly for the supported (version, profile) pairs, picking that pair's function; otherwise the profile or the version message |
| LegacyDispatch.SelectionByPair | app/helpers/mapping.py:6-7 | the choice depends only on the last two segments of the URI |
| LegacyDispatch.FilmNeedsVersion21 | app/helpers/mapping.py:9-15 | a version 2.0 film SIP is an unsupported profile |
| LegacyDispatch.AgreesWithCreatorOn21 | app/helpers/mapping.py:16-24 | for version 2.1 the table accepts exactly what the version 2.1 dispatcher accepts, and picks the same profile |
| Template.TemplateProfile | app/helpers/template.py:26 | the profile never starts with a character of the stripped set |
| Template.ProfileOfClassName | app/helpers/template.py:26 | a class name that does not start with a character of the set is recovered exactly |
| Template.SoundFilmLosesItsS | app/helpers/template.py:26 | `lstrip` removes a character set, not a prefix: `EntityClass.sound_film` becomes `ound_film` |
| Template.LegacyRecordOf | app/helpers/template.py:35-41 | succeeds exactly with a fixity; otherwise `AttributeError` on `value` |
| Template.LegacyFilesRecords | app/helpers/template.py:31-41 | fails only with `AttributeError` on `value` |
| Template.LegacyRecords | app/helpers/template.py:29-41 | fails only with `AttributeError` on `value` |
| Template.LegacyStep | app/helpers/template.py:31-41 | one step of the inner loop adds the file's record or its failure |
| Template.BuildLegacyFileRecords | app/helpers/template.py:28-41 | the nested loops build exactly the older file records |
| Template.LegacyFilesRecordsSucceed | app/helpers/template.py:31-41 | a representation's records succeed exactly when all its remaining files have a fixity |
| Template.LegacyRecordsSucceed | app/helpers/template.py:29-41 | the records succeed exactly when every file of every digital representation has a fixity |
| Template.LegacyFilesRecordsDescribe | app/helpers/template.py:31-41 | each record carries its representation index and consecutive file indices, and describes its file |
| Template.LegacyRecordsDescribe | app/helpers/template.py:29-41 | one record per file of the digital representations, each describing its file |
| Template.CarrierShiftsIndex | app/helpers/template.py:29-30 | the older code indexes every representation, so a carrier shifts the digital ones; the version 2.1 code does not |
| Template.PathOnlyCheckedIn21 | app/helpers/template.py:35-41 | a file without a path is accepted by the older code and rejected by the version 2.1 code |
| Template.GenerateTemplateData | app/helpers/template.py:20-63 | succeeds exactly when the records do, else `AttributeError`; the profile, pid, files and per-file dmd sections are as specified |
| LegacyMaterialArtwork.IdValues | app/helpers/mappings/v2_1/material_artwork.py:41-43 | the values of the local identifiers, in order |
| LegacyMaterialArtwork.LegacyCoverages | app/helpers/mappings/v2_1/material_artwork.py:67-72 | `[]` without a temporal list; with one, fails exactly when a place has no Dutch name, with `StopIteration` |
| LegacyMaterialArtwork.CoveragesDropPlacesWithoutTime | app/helpers/mappings/v2_1/material_artwork.py:67-72 | without a temporal list the places are dropped, where the common mapping lists them |
| LegacyMaterialArtwork.CoveragesAgreeWithTime | app/helpers/mappings/v2_1/material_artwork.py:67-72 | with a temporal list the older coverages match the common ones, with `[]` for `None` |
| LegacyMaterialArtwork.ExtractLegacyFields | app/helpers/mappings/v2_1/material_artwork.py:16-83 | fails only with `StopIteration`; on success the title is the first Dutch name, and the creators and coverages are those of their extractors |
| LegacyMaterialArtwork.LegacyMaterialArtworkMapping | app/helpers/mappings/v2_1/material_artwork.py:9-87 | fails only with `StopIteration` |
| LegacyMaterialArtwork.LegacyTextFieldsShape | app/helpers/mappings/v2_1/material_artwork.py:21-45 | the first part holds the literal's keys in order and no dict |
| LegacyMaterialArtwork.LegacyAgentFieldsShape | app/helpers/mappings/v2_1/material_artwork.py:46-83 | the second part holds the literal's keys in order and no dict |
| LegacyMaterialArtwork.LegacyDynamicShape | app/helpers/mappings/v2_1/material_artwork.py:20-84 | `"Dynamic"` holds the literal's keys in order and no dict; it fixes `ContentCategory` to `image` and labels identifiers and titles |
| LegacyMaterialArtwork.LegacyMappingShape | app/helpers/mappings/v2_1/material_artwork.py:9-87 | a successful mapping has both sections; the titles, category, identifiers, creators and coverages are as listed |
| LegacyMaterialArtwork.ExtractLegacyFieldsOk | app/helpers/mappings/v2_1/material_artwork.py:16-83 | the extraction succeeds exactly when every raising value does |
| LegacyMaterialArtwork.LegacyMappingSucceeds | app/helpers/mappings/v2_1/material_artwork.py:9-87 | the mapping succeeds exactly when its success condition holds; roles without an agent, and places without a temporal list, never make it fail |
| LegacyBasic.ListNlString | app/helpers/mappings/v2_1/basic.py:106-118 | the first Dutch value, held by a Dutch entry; `IndexError` when there is none |
| LegacyBasic.ListNlStringAgreesWithNext | app/helpers/mappings/v2_1/basic.py:106-118 | indexing and `next` pick the same value; only the exception differs |
| LegacyBasic.OptionalListNlString | app/helpers/mappings/v2_1/basic.py:73-84 | `None` for an absent field; otherwise a Dutch value, or `IndexError` |
| LegacyBasic.ListEach | app/helpers/mappings/v2_1/basic.py:26-29 | succeeds exactly when every list has a Dutch entry, with each first Dutch value; otherwise `IndexError` |
| LegacyBasic.ListEachAgreesWithNlEach | app/helpers/mappings/v2_1/basic.py:26-29 | agrees with the `next`-based version on success and on the values |
| LegacyBasic.ListEachNames | app/helpers/mappings/v2_1/basic.py:26-29 | the owners' names are found by indexing exactly when every owner has a Dutch name |
| LegacyBasic.UnfilteredRolePairs | app/helpers/mappings/v2_1/basic.py:45-59 | succeeds exactly when every role names an agent with a Dutch name, giving one pair per role; otherwise `AttributeError` or `IndexError` |
| LegacyBasic.UnfilteredRolePairsFirstFailure | app/helpers/mappings/v2_1/basic.py:45-59 | the first failing role decides: no agent raises `AttributeError` on `name`, an agent without Dutch raises `IndexError` |
| LegacyBasic.UnfilteredAgreesWhenAllNamed | app/helpers/mappings/v2_1/basic.py:45-59 | when every role names a Dutch-named agent, the unfiltered pairs equal the filtered ones |
| LegacyBasic.UnfilteredRaisesWhereFilteredSkips | app/helpers/mappings/v2_1/basic.py:45-59 | a role without an agent raises here where the material-artwork mapping skips it |
| LegacyBasic.BasicCoverages | app/helpers/mappings/v2_1/basic.py:66-72 | `[]` without a temporal list; with one, fails exactly when a place has no Dutch name, with `IndexError` |
| LegacyBasic.BasicCoveragesAgree | app/helpers/mappings/v2_1/basic.py:66-72 | the same success and value as the older material-artwork coverages |
| LegacyBasic.ExtractBasicFields | app/helpers/mappings/v2_1/basic.py:16-84 | a missing description raises `AttributeError` on `root`; only the three listed exceptions occur; on success the description and creators are those of their extractors |
| LegacyBasic.LegacyBasicMapping | app/helpers/mappings/v2_1/basic.py:13-88 | fails only with `AttributeError` on `root` or `name`, or with `IndexError` |
| LegacyBasic.BasicTextFieldsShape | app/helpers/mappings/v2_1/basic.py:22-44 | the first part holds the literal's keys in order and no dict |
| LegacyBasic.BasicAgentFieldsShape | app/helpers/mappings/v2_1/basic.py:45-84 | the second part holds the literal's keys in order and no dict |
| LegacyBasic.BasicDynamicShape | app/helpers/mappings/v2_1/basic.py:21-85 | `"Dynamic"` holds the literal's keys in order and no dict, with `ContentCategory` fixed to `image` |
| LegacyBasic.LegacyBasicMappingShape | app/helpers/mappings/v2_1/basic.py:13-88 | `Title` and `Description` are the lists of all Dutch strings; the keys, category, one creator pair per role and the coverages are as listed |
| LegacyBasic.ExtractBasicFieldsOk | app/helpers/mappings/v2_1/basic.py:16-84 | the extraction succeeds exactly when every raising value does |
| LegacyBasic.LegacyBasicMappingSucceeds | app/helpers/mappings/v2_1/basic.py:13-88 | the mapping succeeds exactly when its success condition holds; the title never makes it fail |
| LegacyBasic.LegacyBasicMappingFirstFailure | app/helpers/mappings/v2_1/basic.py:16-48 | a missing description raises first, then an owner without a Dutch name, then the first failing creator |

## Left out

- Common.Millimetres: quantity values are integers, so `round` of a fractional value and the float
  text `str(value)` writes for `KGM` (such as `5.0`) are not modelled.
- Common.LocalIdType: `Path(urlparse(url).path).name` is approximated by the last path component of
  the whole URL. A query string or fragment is therefore not cut off. A host-only URL (`https://host`
  or `https://host/`) gives `host` here, where the source gives the empty string. An opaque URI such
  as `urn:a:b` keeps its scheme here (`urn:a:b`), where the source gives `a:b`. A network location
  holding a `[` without a matching `]`, or the other way round, makes `urlparse` raise
  `ValueError("Invalid IPv6 URL")`; the model returns a segment there instead.
- Text.PathName: `Path(...).name` is modelled for POSIX paths only.
- Common.EventDate, Common.EventTime: the event start time comes already split into its date and its
  time, so `datetime.fromisoformat` parsing and its failures are not modelled.
- Text.Upper: only ASCII letters are upper-cased.
- Common.TaggedNlStrings, Common.Coverages, LegacyMaterialArtwork.LegacyCoverages,
  LegacyBasic.BasicCoverages, LegacyBasic.OptionalListNlString: the truthiness test on an optional multilingual field is read as
  "present". A present but empty list therefore counts as present.
- Creator.GenerateMetsData and Template.GenerateTemplateData stop before the template.
  - The data handed to Jinja omits the entity, the events and `createdate` (`datetime.now()`).
  - Jinja template loading and rendering is not part of this model.
- Template.LegacyFilesRecords: the `isinstance(file, File)` test always holds in the typed model.
- The version 2.0 mapping modules and `mappings/v2_1/film.py` are not part of this model. The older
  dispatch returns a tag naming the mapping function it would call.
- `app.py`, `services/pid.py` and `mh_sip.py` are not part of this model:
  - HTTP handling;
  - pid retrieval;
  - writing the package to disk.
- Python's value semantics stand in for object identity: `dict1.copy()` in `deepmerge` being shallow
  is not observable in the model.
- No SIP.py validation is modelled. Every field of an entity is present with its declared type.
