/**
 * The already-typed SIP object graph that the mapping and layout code reads.
 * Only the attributes that code touches are kept; class tests (`isinstance`,
 * class patterns in `match`) become closed datatypes whose constructors keep
 * the order in which the code tests them.
 */
module Sip {
  import opened Wrappers

  /** One `(lang, value)` entry of a multilingual string list. */
  datatype LangString = LangString(lang: string, value: string)

  /** `LangStrings` / `UniqueLangStrings`: the entries in source order. */
  type LangStrings = seq<LangString>

  /** Anything that is only read through its multilingual `name`: agents, places, owners. */
  datatype Thing = Thing(name: LangStrings)

  /** A creator, contributor or publisher entry: a role name and an optional agent. */
  datatype Role = Role(roleName: string, agent: Option<Thing>)

  /** A license: a controlled-vocabulary concept or a bare URI reference. */
  datatype License = Concept(prefLabel: LangStrings) | UriRef(id: string)

  /** A `QuantitativeValue`: an integer amount and its unit code (MMT, CMT, MTR, KGM, ...). */
  datatype Quantity = Quantity(value: int, unitCode: string)

  /** A `LocalIdentifier`: its value and the URI naming its kind. */
  datatype LocalIdentifier = LocalIdentifier(value: string, idType: string)

  /**
   * A work the entity is part of (`schema_is_part_of`), in the order the
   * title mapping tests them; `Other` is any class that mapping does not handle.
   */
  datatype PartOf =
    | BroadcastEvent(name: LangStrings)
    | Newspaper
    | CreativeWorkSeason(name: LangStrings)
    | CreativeWorkSeries(name: LangStrings)
    | ArchiveComponent(name: LangStrings, hasPart: seq<PartOf>)
    | Episode(name: LangStrings)
    | CreativeWork
    | Other

  /** A stored file: its path and fixity value may be missing. */
  datatype File = File(filePath: Option<string>, fixity: Option<string>, originalName: string)

  /** A representation: digital ones include files, carrier ones are physical. */
  datatype Representation = DigitalRepresentation(includes: seq<File>) | CarrierRepresentation

  /** The start time of an event, already parsed into its ISO date and time parts. */
  datatype StartTime = StartTime(date: string, time: string)

  /** A preservation event; `outcome` is the outcome URI, if any. */
  datatype Event = Event(
    eventType: string,
    startedAt: StartTime,
    outcome: Option<string>,
    note: Option<string>,
    implementedBy: Thing)

  /** The intellectual entity with the attributes the mappings read. */
  datatype Entity = Entity(
    entityType: string,                 // `str(ie.type)`
    name: LangStrings,
    description: Option<LangStrings>,
    dateCreated: string,
    datePublished: Option<string>,
    copyrightHolder: seq<Thing>,
    keywords: Option<LangStrings>,
    primaryIdentifier: seq<LocalIdentifier>,
    localIdentifier: seq<LocalIdentifier>,
    inLanguage: seq<string>,
    schemaIsPartOf: seq<PartOf>,
    isPartOf: seq<string>,              // the ids of `is_part_of` references
    creator: seq<Role>,
    contributor: seq<Role>,
    publisher: seq<Role>,
    genre: Option<LangStrings>,
    spatial: seq<Thing>,
    temporal: Option<LangStrings>,
    artMedium: Option<LangStrings>,
    artform: Option<LangStrings>,
    creditText: Option<LangStrings>,
    rights: Option<LangStrings>,
    license: seq<License>,
    width: Option<Quantity>,
    height: Option<Quantity>,
    depth: Option<Quantity>,
    weight: Option<Quantity>,
    maintainerId: string,               // `ie.maintainer.identifier`
    isRepresentedBy: seq<Representation>)

  /** The SIP: its profile URI, METS type, entity and events. */
  datatype SIP = SIP(profile: string, metsType: string, entity: Entity, events: seq<Event>)
}
