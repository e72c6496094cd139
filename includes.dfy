/** The include and link vocabularies of the thirteen entity classes:
    `valid_lookup_include` and `valid_linked`. */
module Includes {

  import opened Schema

  /** `Entity.valid_lookup_include`: the relationship includes every entity
      accepts. */
  const RelationshipIncludes: set<string> := {
    "area-rels", "artist-rels", "event-rels", "instrument-rels", "label-rels",
    "place-rels", "recording-rels", "release-group-rels", "release-rels",
    "series-rels", "url-rels", "work-rels"
  }

  /** The set each class's own `valid_lookup_include` tests before deferring to
      `Entity`; `Url` does not override it. */
  function OwnIncludes(e: EntityName): set<string>
  {
    match e
    case Area => {"aliases", "annotation", "genres", "ratings", "tags", "user-genres", "user-ratings", "user-tags"}
    case Artist => {
      "aliases", "annotation", "genres", "ratings", "recordings", "release-groups", "releases",
      "tags", "user-genres", "user-ratings", "user-tags", "works"}
    case Collection => {"user-collections"}
    case Event => {"aliases", "annotation", "genres", "ratings", "tags", "user-genres", "user-ratings", "user-tags"}
    case Instrument => {"aliases", "annotation", "genres", "tags", "user-genres", "user-tags"}
    case Label => {
      "aliases", "annotation", "genres", "ratings", "releases", "tags", "user-genres",
      "user-ratings", "user-tags"}
    case Place => {"aliases", "annotation", "genres", "tags", "user-genres", "user-tags"}
    case Recording => {
      "aliases", "annotation", "artist-credits", "artists", "genres", "isrcs", "ratings",
      "releases", "tags", "user-genres", "user-ratings", "user-tags", "work-level-rels"}
    case Release => {
      "aliases", "annotation", "artist-credits", "artists", "collections", "discids", "genres",
      "labels", "media", "ratings", "recording-level-rels", "recordings", "release-groups",
      "tags", "user-genres", "user-ratings", "user-tags", "work-level-rels"}
    case ReleaseGroup => {
      "aliases", "annotation", "artist-credits", "artists", "genres", "ratings", "releases",
      "tags", "user-genres", "user-ratings", "user-tags"}
    case Series => {"aliases", "annotation", "genres", "tags", "user-genres", "user-tags"}
    case Url => {}
    case Work => {"aliases", "annotation", "genres", "ratings", "tags", "user-genres", "user-ratings", "user-tags"}
  }

  /** `K.valid_lookup_include(inc)`: the class's own set first, then the
      `Entity` base set. */
  function ValidLookupInclude(e: EntityName, inc: string): (b: bool)
    ensures b <==> inc in OwnIncludes(e) + RelationshipIncludes
  {
    if inc in OwnIncludes(e) then true else inc in RelationshipIncludes
  }

  /** The set `K.valid_linked` tests. */
  function LinkTargets(e: EntityName): set<string>
  {
    match e
    case Area => {"collection"}
    case Artist => {"area", "collection", "recording", "release", "release-group", "work"}
    case Collection => {
      "area", "artist", "editor", "event", "label", "place", "recording", "release",
      "release-group", "work"}
    case Event => {"area", "artist", "place", "collection"}
    case Instrument => {"collection"}
    case Label => {"area", "collection", "release"}
    case Place => {"area", "collection"}
    case Recording => {"area", "collection", "release", "work"}
    case Release => {
      "area", "artist", "collection", "label", "recording", "release-group", "track",
      "track_artist"}
    case ReleaseGroup => {"artist", "collection", "release"}
    case Series => {"collection"}
    case Url => {"resource"}
    case Work => {"artist", "collection"}
  }

  /** The element tag of an entity class. */
  function EntityTag(e: EntityName): string
  {
    match e
    case Area => "area"
    case Artist => "artist"
    case Collection => "collection"
    case Event => "event"
    case Instrument => "instrument"
    case Label => "label"
    case Place => "place"
    case Recording => "recording"
    case Release => "release"
    case ReleaseGroup => "release-group"
    case Series => "series"
    case Url => "url"
    case Work => "work"
  }

  /** The tags of all thirteen entity classes. */
  const EntityTags: set<string> := {
    "area", "artist", "collection", "event", "instrument", "label", "place", "recording",
    "release", "release-group", "series", "url", "work"}

  /** `K.valid_linked(linked)`: an entity never links to its own kind, and
      every link target is another entity's tag or one of four sub-resources. */
  function ValidLinked(e: EntityName, linked: string): (b: bool)
    ensures b ==> linked != EntityTag(e)
    ensures b ==> linked in EntityTags || linked in {"resource", "track", "track_artist", "editor"}
  {
    linked in LinkTargets(e)
  }

  /** Every entity accepts every relationship include, and `Url`, which adds
      nothing of its own, accepts exactly those. */
  lemma RelationshipIncludesEverywhere(e: EntityName, inc: string)
    ensures inc in RelationshipIncludes ==> ValidLookupInclude(e, inc)
    ensures ValidLookupInclude(Url, inc) <==> inc in RelationshipIncludes
  {
  }

  /** No entity accepts "various-artists" as an include, which is why the
      artist lookup admits it separately. */
  lemma VariousArtistsNeverValid(e: EntityName)
    ensures !ValidLookupInclude(e, "various-artists")
  {
  }

  /** "user-collections" is a collection include only. */
  lemma UserCollectionsOnlyForCollections(e: EntityName)
    ensures ValidLookupInclude(e, "user-collections") <==> e == Collection
  {
  }

  /** `Url` links only to its resource, only `Release` links to tracks, and
      every entity but `Url` and `Collection` itself links to collections. */
  lemma LinkTargetFacts(e: EntityName)
    ensures ValidLinked(e, "resource") <==> e == Url
    ensures ValidLinked(e, "track") <==> e == Release
    ensures ValidLinked(e, "collection") <==> e != Url && e != Collection
  {
  }
}
