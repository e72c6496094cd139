/** The record type registry of model.py: the closed set of kinds a frame can
    have, and for each kind the table from child tag to the kind expected under
    that tag (the class attribute `mapping`). The tables are literal data. */
module Schema {

  import opened Wrappers

  /** The thirteen top-level entity classes (subclasses of `Entity`). */
  datatype EntityName =
    | Area | Artist | Collection | Event | Instrument | Label | Place
    | Recording | Release | ReleaseGroup | Series | Url | Work

  /** Plain record classes: a `mapping` and an `__init__` that collapses every
      child list to its first element. */
  datatype RecordName =
    | Tag | Genre | LabelInfo | NameCredit | Track | Disc | Medium | Annotation
    | CDStubTrack | CDStub | LifeSpan | TextRepresentation | Coordinates
    | ReleaseEvent | PUID | ISRC | CoverArtArchive | Relation | Metadata

  /** Subclasses of `Child`: attributes plus the element text. */
  datatype ChildName =
    | Alias | Format | Gender | Offset | Packaging | PrimaryType
    | RelationAttribute | SecondaryType | Status | WorkAttribute

  /** The `parse_*` functions used as leaf constructors. */
  datatype Coercer = ParseStr | ParseInt | ParseBool | ParseDirection | ParseQuality

  /** What a frame is constructed as when it closes. `ListOf(tag, element)` is
      the class `list_factory(name, element, tag)` returns. */
  datatype Kind =
    | Root
    | Entity(entity: EntityName)
    | Record(record: RecordName)
    | Child(child: ChildName)
    | Rating
    | ListOf(tag: string, element: Kind)
    | Scalar(coercer: Coercer)

  /** A kind that is not the root at any level of list nesting. */
  predicate NotRoot(k: Kind)
  {
    k != Root && (k.ListOf? ==> NotRoot(k.element))
  }

  const StrField := Scalar(ParseStr)
  const IntField := Scalar(ParseInt)
  const BoolField := Scalar(ParseBool)
  const DirectionField := Scalar(ParseDirection)
  const QualityField := Scalar(ParseQuality)

  // list_factory wrappers over entities
  const AreaList := ListOf("area", Entity(Area))
  const ArtistList := ListOf("artist", Entity(Artist))
  const CollectionList := ListOf("collection", Entity(Collection))
  const EventList := ListOf("event", Entity(Event))
  const InstrumentList := ListOf("instrument", Entity(Instrument))
  const LabelList := ListOf("label", Entity(Label))
  const PlaceList := ListOf("place", Entity(Place))
  const RecordingList := ListOf("recording", Entity(Recording))
  const ReleaseGroupList := ListOf("release-group", Entity(ReleaseGroup))
  const ReleaseList := ListOf("release", Entity(Release))
  const SeriesList := ListOf("series", Entity(Series))
  const UrlList := ListOf("url", Entity(Url))
  const WorkList := ListOf("work", Entity(Work))

  // list_factory wrappers over Child kinds and strings
  const AliasList := ListOf("alias", Child(Alias))
  const IPIList := ListOf("ipi", StrField)
  const ISNIList := ListOf("isni", StrField)
  const Iso31661CodeList := ListOf("iso-3166-1-code", StrField)
  const Iso31662CodeList := ListOf("iso-3166-2-code", StrField)
  const Iso31663CodeList := ListOf("iso-3166-3-code", StrField)
  const OffsetList := ListOf("offset", Child(Offset))
  const RelationAttributeList := ListOf("attribute", Child(RelationAttribute))
  const SecondaryTypeList := ListOf("secondary-type", Child(SecondaryType))
  const WorkAttributeList := ListOf("attribute", Child(WorkAttribute))
  const LanguageList := ListOf("language", StrField)
  const ISWCList := ListOf("iswc", StrField)

  // list_factory wrappers over plain records
  const TagList := ListOf("tag", Record(Tag))
  const GenreList := ListOf("genre", Record(Genre))
  const LabelInfoList := ListOf("label-info", Record(LabelInfo))
  const ArtistCredit := ListOf("name-credit", Record(NameCredit))
  const TrackList := ListOf("track", Record(Track))
  const DiscList := ListOf("disc", Record(Disc))
  const MediumList := ListOf("medium", Record(Medium))
  const AnnotationList := ListOf("annotation", Record(Annotation))
  const CDStubTrackList := ListOf("track", Record(CDStubTrack))
  const CDStubList := ListOf("cdstub", Record(CDStub))
  const ReleaseEventList := ListOf("release-event", Record(ReleaseEvent))
  const PUIDList := ListOf("puid", Record(PUID))
  const ISRCList := ListOf("isrc", Record(ISRC))
  const RelationList := ListOf("relation", Record(Relation))

  /** `Entity.init()` tables of the thirteen entity classes. */
  function EntityMapping(e: EntityName): map<string, Kind>
  {
    match e
    case Area => map[
      "alias-list" := AliasList,
      "annotation" := Record(Annotation),
      "disambiguation" := StrField,
      "genre-list" := GenreList,
      "iso-3166-1-code-list" := Iso31661CodeList,
      "iso-3166-2-code-list" := Iso31662CodeList,
      "iso-3166-3-code-list" := Iso31663CodeList,
      "life-span" := Record(LifeSpan),
      "name" := StrField,
      "relation-list" := RelationList,
      "sort-name" := StrField,
      "tag-list" := TagList,
      "user-genre-list" := GenreList,
      "user-tag-list" := TagList]
    case Artist => map[
      "alias-list" := AliasList,
      "annotation" := Record(Annotation),
      "area" := Entity(Area),
      "begin-area" := Entity(Area),
      "country" := StrField,
      "disambiguation" := StrField,
      "end-area" := Entity(Area),
      "gender" := Child(Gender),
      "genre-list" := GenreList,
      "ipi" := StrField,
      "ipi-list" := IPIList,
      "isni-list" := ISNIList,
      "life-span" := Record(LifeSpan),
      "name" := StrField,
      "rating" := Rating,
      "recording-list" := RecordingList,
      "relation-list" := RelationList,
      "release-group-list" := ReleaseGroupList,
      "release-list" := ReleaseList,
      "sort-name" := StrField,
      "tag-list" := TagList,
      "user-genre-list" := GenreList,
      "user-rating" := IntField,
      "user-tag-list" := TagList,
      "work-list" := WorkList]
    case Collection => map[
      "name" := StrField,
      "editor" := StrField,
      "area-list" := AreaList,
      "artlist-list" := ArtistList,
      "event-list" := EventList,
      "instrument-list" := InstrumentList,
      "label-list" := LabelList,
      "place-list" := PlaceList,
      "recording-list" := RecordingList,
      "release-list" := ReleaseList,
      "release-group-list" := ReleaseGroupList,
      "series-list" := SeriesList,
      "work-list" := WorkList]
    case Event => map[
      "alias-list" := AliasList,
      "annotation" := Record(Annotation),
      "cancelled" := BoolField,
      "disambiguation" := StrField,
      "genre-list" := GenreList,
      "life-span" := Record(LifeSpan),
      "name" := StrField,
      "rating" := Rating,
      "relation-list" := RelationList,
      "setlist" := StrField,
      "tag-list" := TagList,
      "time" := StrField,
      "user-genre-list" := GenreList,
      "user-rating" := IntField,
      "user-tag-list" := TagList]
    case Instrument => map[
      "alias-list" := AliasList,
      "annotation" := Record(Annotation),
      "description" := StrField,
      "disambiguation" := StrField,
      "genre-list" := GenreList,
      "name" := StrField,
      "relation-list" := RelationList,
      "tag-list" := TagList,
      "user-genre-list" := GenreList,
      "user-tag-list" := TagList]
    case Label => map[
      "alias-list" := AliasList,
      "annotation" := Record(Annotation),
      "area" := Entity(Area),
      "country" := StrField,
      "disambiguation" := StrField,
      "genre-list" := GenreList,
      "ipi" := StrField,
      "ipi-list" := IPIList,
      "isni-list" := ISNIList,
      "label-code" := IntField,
      "life-span" := Record(LifeSpan),
      "name" := StrField,
      "rating" := Rating,
      "relation-list" := RelationList,
      "release-list" := ReleaseList,
      "sort-name" := StrField,
      "tag-list" := TagList,
      "user-genre-list" := GenreList,
      "user-rating" := IntField,
      "user-tag-list" := TagList]
    case Place => map[
      "address" := StrField,
      "alias-list" := AliasList,
      "annotation" := Record(Annotation),
      "area" := Entity(Area),
      "coordinates" := Record(Coordinates),
      "disambiguation" := StrField,
      "genre-list" := GenreList,
      "life-span" := Record(LifeSpan),
      "name" := StrField,
      "relation-list" := RelationList,
      "tag-list" := TagList,
      "user-genre-list" := GenreList,
      "user-tag-list" := TagList]
    case Recording => map[
      "alias-list" := AliasList,
      "annotation" := Record(Annotation),
      "artist-credit" := ArtistCredit,
      "disambiguation" := StrField,
      "genre-list" := GenreList,
      "isrc-list" := ISRCList,
      "length" := IntField,
      "puid-list" := PUIDList,
      "rating" := Rating,
      "relation-list" := RelationList,
      "release-list" := ReleaseList,
      "tag-list" := TagList,
      "title" := StrField,
      "user-genre-list" := GenreList,
      "user-rating" := IntField,
      "user-tag-list" := TagList,
      "video" := BoolField]
    case Release => map[
      "alias-list" := AliasList,
      "annotation" := Record(Annotation),
      "artist-credit" := ArtistCredit,
      "asin" := StrField,
      "barcode" := StrField,
      "collection-list" := CollectionList,
      "country" := StrField,
      "cover-art-archive" := Record(CoverArtArchive),
      "date" := StrField,
      "disambiguation" := StrField,
      "genre-list" := GenreList,
      "label-info-list" := LabelInfoList,
      "medium-list" := MediumList,
      "packaging" := Child(Packaging),
      "quality" := QualityField,
      "relation-list" := RelationList,
      "release-event-list" := ReleaseEventList,
      "release-group" := Entity(ReleaseGroup),
      "status" := Child(Status),
      "tag-list" := TagList,
      "text-representation" := Record(TextRepresentation),
      "title" := StrField,
      "user-genre-list" := GenreList,
      "user-tag-list" := TagList]
    case ReleaseGroup => map[
      "alias-list" := AliasList,
      "annotation" := Record(Annotation),
      "artist-credit" := ArtistCredit,
      "disambiguation" := StrField,
      "first-release-date" := StrField,
      "genre-list" := GenreList,
      "primary-type" := Child(PrimaryType),
      "rating" := Rating,
      "relation-list" := RelationList,
      "release-list" := ReleaseList,
      "secondary-type-list" := SecondaryTypeList,
      "tag-list" := TagList,
      "title" := StrField,
      "user-genre-list" := GenreList,
      "user-rating" := IntField,
      "user-tag-list" := TagList]
    case Series => map[
      "alias-list" := AliasList,
      "annotation" := Record(Annotation),
      "disambiguation" := StrField,
      "genre-list" := GenreList,
      "name" := StrField,
      "ordering-attribute" := StrField,
      "relation-list" := RelationList,
      "tag-list" := TagList,
      "user-genre-list" := GenreList,
      "user-tag-list" := TagList]
    case Url => map[
      "relation-list" := RelationList,
      "resource" := StrField]
    case Work => map[
      "alias-list" := AliasList,
      "annotation" := Record(Annotation),
      "artist-credit" := ArtistCredit,
      "attribute-list" := WorkAttributeList,
      "disambiguation" := StrField,
      "genre-list" := GenreList,
      "iswc" := StrField,
      "iswc-list" := ISWCList,
      "language" := StrField,
      "language-list" := LanguageList,
      "rating" := Rating,
      "relation-list" := RelationList,
      "tag-list" := TagList,
      "title" := StrField,
      "user-genre-list" := GenreList,
      "user-rating" := IntField,
      "user-tag-list" := TagList]
  }

  /** Class-level `mapping` tables of the plain record classes. */
  function RecordMapping(r: RecordName): map<string, Kind>
  {
    match r
    case Tag => map["name" := StrField]
    case Genre => map["name" := StrField, "disambiguation" := StrField]
    case LabelInfo => map["catalog-number" := StrField, "label" := Entity(Label)]
    case NameCredit => map["artist" := Entity(Artist), "name" := StrField]
    case Track => map[
      "artist-credit" := ArtistCredit,
      "length" := IntField,
      "number" := StrField,
      "position" := IntField,
      "recording" := Entity(Recording),
      "title" := StrField]
    case Disc => map[
      "offset-list" := OffsetList,
      "release-list" := ReleaseList,
      "sectors" := IntField]
    case Medium => map[
      "title" := StrField,
      "position" := IntField,
      "format" := Child(Format),
      "disc-list" := DiscList,
      "pregap" := Record(Track),
      "track-list" := TrackList,
      "data-track-list" := TrackList]
    case Annotation => map[
      "entity" := StrField,
      "name" := StrField,
      "text" := StrField]
    case CDStubTrack => map[
      "artist" := StrField,
      "length" := IntField,
      "title" := StrField]
    case CDStub => map[
      "title" := StrField,
      "artist" := StrField,
      "barcode" := StrField,
      "disambiguation" := StrField,
      "track-list" := CDStubTrackList]
    case LifeSpan => map["begin" := StrField, "end" := StrField, "ended" := BoolField]
    case TextRepresentation => map["language" := StrField, "script" := StrField]
    case Coordinates => map["latitude" := StrField, "longitude" := StrField]
    case ReleaseEvent => map["date" := StrField, "area" := Entity(Area)]
    case PUID => map["recording-list" := RecordingList]
    case ISRC => map["recording-list" := RecordingList]
    case CoverArtArchive => map[
      "artwork" := BoolField,
      "back" := BoolField,
      "count" := IntField,
      "darkened" := BoolField,
      "front" := BoolField]
    case Relation => map[
      "area" := Entity(Area),
      "artist" := Entity(Artist),
      "attribute-list" := RelationAttributeList,
      "begin" := StrField,
      "direction" := DirectionField,
      "end" := StrField,
      "ended" := BoolField,
      "event" := Entity(Event),
      "instrument" := Entity(Instrument),
      "label" := Entity(Label),
      "ordering-key" := IntField,
      "place" := Entity(Place),
      "recording" := Entity(Recording),
      "release" := Entity(Release),
      "release-group" := Entity(ReleaseGroup),
      "series" := Entity(Series),
      "source-credit" := StrField,
      "target" := StrField,
      "target-credit" := StrField,
      "work" := Entity(Work)]
    case Metadata => map[
      "annotation-list" := AnnotationList,
      "area" := Entity(Area),
      "area-list" := AreaList,
      "artist" := Entity(Artist),
      "artist-list" := ArtistList,
      "cdstub" := Record(CDStub),
      "cdstub-list" := CDStubList,
      "collection" := Entity(Collection),
      "collection-list" := CollectionList,
      "disc" := Record(Disc),
      "event" := Entity(Event),
      "event-list" := EventList,
      "genre" := Record(Genre),
      "genre-list" := GenreList,
      "instrument" := Entity(Instrument),
      "instrument-list" := InstrumentList,
      "isrc" := Record(ISRC),
      "isrc-list" := ISRCList,
      "label" := Entity(Label),
      "label-list" := LabelList,
      "place" := Entity(Place),
      "place-list" := PlaceList,
      "puid" := Record(PUID),
      "rating" := Rating,
      "recording" := Entity(Recording),
      "recording-list" := RecordingList,
      "release" := Entity(Release),
      "release-group" := Entity(ReleaseGroup),
      "release-group-list" := ReleaseGroupList,
      "release-list" := ReleaseList,
      "series" := Entity(Series),
      "series-list" := SeriesList,
      "tag-list" := TagList,
      "url" := Entity(Url),
      "url-list" := UrlList,
      "user-genre-list" := GenreList,
      "user-rating" := IntField,
      "user-tag-list" := TagList,
      "work" := Entity(Work),
      "work-list" := WorkList]
  }

  /** The `mapping` attribute of a kind's class, if it has one. The `Child`
      subclasses and the `parse_*` functions have none. */
  function Mapping(k: Kind): (m: Option<map<string, Kind>>)
    ensures m.None? <==> k.Child? || k.Scalar?
    ensures k.ListOf? ==> m == Some(map[k.tag := k.element])
  {
    match k
    case Root => Some(map["metadata" := Record(Metadata)])
    case Entity(e) => Some(EntityMapping(e))
    case Record(r) => Some(RecordMapping(r))
    case Rating => Some(map["votes-count" := IntField])
    case ListOf(tag, element) => Some(map[tag := element])
    case Child(_) => None
    case Scalar(_) => None
  }

  /** `cls.mapping[tag]`: the kind expected under `tag` inside a frame of kind
      `k`, or None when the lookup raises. */
  function Lookup(k: Kind, tag: string): (r: Option<Kind>)
    ensures r.Some? <==> Mapping(k).Some? && tag in Mapping(k).value
    ensures r.Some? ==> r.value == Mapping(k).value[tag]
  {
    match Mapping(k)
    case None => None
    case Some(m) => if tag in m then Some(m[tag]) else None
  }

  /** A `list_factory` wrapper accepts its one element tag and nothing else. */
  lemma ListWrapperTable(tag: string, element: Kind, t: string)
    ensures Lookup(ListOf(tag, element), t) == (if t == tag then Some(element) else None)
  {
  }

  /** Scalars and `Child` kinds have no table: no element may open inside them. */
  lemma LeafKindsHaveNoTable(k: Kind, t: string)
    requires k.Child? || k.Scalar?
    ensures Lookup(k, t) == None
  {
  }

  /** The root accepts only a `metadata` element. */
  lemma RootTable(t: string)
    ensures Lookup(Root, t).Some? <==> t == "metadata"
    ensures Lookup(Root, "metadata") == Some(Record(Metadata))
  {
  }

  /** `Collection` lists artists under the misspelt tag "artlist-list", so an
      "artist-list" inside a collection has no entry. */
  lemma CollectionTableQuirks()
    ensures Lookup(Entity(Collection), "artlist-list") == Some(ArtistList)
    ensures Lookup(Entity(Collection), "artist-list") == None
  {
  }

  /** Every entity but `Collection` has a "relation-list". */
  lemma RelationListEverywhereButCollection(e: EntityName)
    ensures Lookup(Entity(e), "relation-list") == (if e == Collection then None else Some(RelationList))
  {
  }

  /** No entry of an entity table is the root kind, at any level of list
      nesting. */
  lemma EntityTableNotRoot(e: EntityName, t: string)
    ensures t in EntityMapping(e) ==> NotRoot(EntityMapping(e)[t])
  {
    var m := EntityMapping(e);
    if t in m { assert NotRoot(m[t]); }
  }

  /** No entry of a record table is the root kind, at any level of list
      nesting. */
  lemma RecordTableNotRoot(r: RecordName, t: string)
    ensures t in RecordMapping(r) ==> NotRoot(RecordMapping(r)[t])
  {
    var m := RecordMapping(r);
    if t in m { assert NotRoot(m[t]); }
  }

  /** No table of the registry yields the root kind: looking a tag up in the
      root or in any other kind yields a kind that is not the root. */
  lemma TablesNeverYieldRoot(k: Kind, t: string)
    requires k == Root || NotRoot(k)
    ensures Lookup(k, t).Some? ==> NotRoot(Lookup(k, t).value)
  {
    match k
    case Entity(e) => EntityTableNotRoot(e, t);
    case Record(r) => RecordTableNotRoot(r, t);
    case _ =>
  }
}
