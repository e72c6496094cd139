# pymusicbrainz: the streaming MusicBrainz XML parser, modelled in Dafny

This project models the core of pymusicbrainz. That core is the schema-driven,
stack-based parser in `pymusicbrainz/model.py`. It turns the start/data/end
events of a MusicBrainz web-service XML document into nested records. The model
also covers the pure request checks of `pymusicbrainz/session.py`: the
identifier check, the OAuth scope whitelist, and the include checks of the
lookups.

Modules, one per component:

- `Wrappers`: `Option`, and `Result` with one failure outcome. Every Python exception
  (KeyError, IndexError, TypeError, AttributeError, ValueError,
  `decimal.InvalidOperation`) is that one failure.
- `Values`: the finished values. A record (a `UserDict` instance) is `Rec(map)`, a Python
  list is `List(seq)`. Text is `Str`, no text is `Null`. There are also `Int`, `Bool`,
  `Dir`, `Qual` and `Dec`.
- `Schema`: the record type registry. `Kind` is the closed set of classes a frame can be
  constructed as. `ListOf(tag, element)` is the class `list_factory` builds. The
  `mapping` tables are literal data (`EntityMapping`, `RecordMapping`, `Mapping`, `Lookup`).
- `Coercers`: `parse_str`, `parse_int`, `parse_bool`, `parse_direction`, `parse_quality`,
  and the text syntax `decimal.Decimal` accepts.
- `Records`: the construction rules, meaning what `cls(attrs, childs, data)` builds.
  `Construct` is the imperative `__init__` (a loop that collapses child lists in place).
  `Finished` is the function that specifies it.
- `StreamParser`: the `Parser` class (stack of frames updated in place) and one step
  function per event. `Run` feeds a sequence of events. `Parse` feeds them and closes.
- `Documents`: a reference semantics. An XML document is a tree, and `Build` constructs
  its value by structural recursion. The module proves that the stack machine, fed the
  tree's events, computes exactly `Build`.
- `Scenarios`: concrete documents (an artist, an alias list, an unknown tag, a relation
  direction, empty leaves).
- `Includes`: `valid_lookup_include` and `valid_linked` of the thirteen entity classes.
- `Session`: `_check_valid_id`, the scope loop of `AsyncSession.__init__`, and the include
  loops of `_lookup` and `lookup_artist`.

Behaviours of the code worth knowing:

- `data` overwrites the frame's text, so the last text event wins. Text is not
  concatenated (`StreamParser.DataLastWins`).
- A repeated child tag collapses to its FIRST occurrence. It is neither overwritten by
  the later one nor an error.
- An element with no text gives `None` (`Null`) for `parse_str`, not an empty string.
  `parse_int` and the enumerations fail on it (`Scenarios.EmptyLeaves`).
- `close` does not pop or construct the root frame. It checks that the stack has depth
  one and returns the first value filed under `metadata`.
- The parser never checks that a closing tag matches the tag that opened the frame. The
  value is filed under the closing tag (`StreamParser.MismatchedCloseTag`).
- `Collection` maps the misspelt `artlist-list`. An `artist-list` inside a collection is
  an unknown tag (`Schema.CollectionTableQuirks`).

## Model

| member | source | states |
|---|---|---|
| `Schema.Mapping` | pymusicbrainz/model.py:44-52 | every class has a `mapping` except the `Child` subclasses and the `parse_*` functions; a `list_factory` class maps exactly its one element tag |
| `Schema.Lookup` | pymusicbrainz/model.py:1277-1281 | `cls.mapping[tag]` succeeds exactly when the class has a table with an entry for the tag, and yields that entry |
| `Schema.ListWrapperTable` | pymusicbrainz/model.py:44-52 | inside a list wrapper, only its element tag is legal, and it maps to the element kind |
| `Schema.LeafKindsHaveNoTable` | pymusicbrainz/model.py:783-787 | no element can open inside a scalar or a `Child` element |
| `Schema.RootTable` | pymusicbrainz/model.py:1255-1256 | the root accepts only `metadata`, read as a `Metadata` record |
| `Schema.CollectionTableQuirks` | pymusicbrainz/model.py:197-211 | `Collection` maps `artlist-list`, not `artist-list`, so an `artist-list` in a collection has no entry |
| `Schema.EntityTableNotRoot` | pymusicbrainz/model.py:74-761 | no entry of the thirteen entity `init()` tables (`EntityMapping`) is the root kind, at any level of list nesting |
| `Schema.RecordTableNotRoot` | pymusicbrainz/model.py:857-1253 | no entry of the plain record `mapping` tables (`RecordMapping`) is the root kind, at any level of list nesting |
| `Schema.RelationListEverywhereButCollection` | pymusicbrainz/model.py:74-761 | every entity table except `Collection`'s maps `relation-list` to the relation list |
| `Schema.TablesNeverYieldRoot` | pymusicbrainz/model.py:1255-1256 | looking a tag up in the root or in any kind that is not the root never yields the root kind, at any level of list nesting |
| `Coercers.ParseIntText` | pymusicbrainz/model.py:12-13 | `int(text)` succeeds only on non-empty text; an all-digit text reads as its decimal value; a negative result needs a leading `-` |
| `Coercers.DigitsRoundTrip` | pymusicbrainz/model.py:12-13 | decimal digits read back to the number they were written from |
| `Coercers.IntTextRoundTrip` | pymusicbrainz/model.py:12-13 | `int(str(n)) == n` for every integer |
| `Coercers.CoerceStr` | pymusicbrainz/model.py:16-17 | `parse_str` never fails and returns the text itself, or None when there is no text |
| `Coercers.CoerceInt` | pymusicbrainz/model.py:12-13 | `parse_int` fails on no text and on text that is not an integer; otherwise it returns the integer read |
| `Coercers.CoerceBool` | pymusicbrainz/model.py:20-21 | `parse_bool` never fails and is true exactly when the text is `"true"` |
| `Coercers.CoerceDirection` | pymusicbrainz/model.py:24-31 | `parse_direction` succeeds exactly on `both`, `forward` and `backward`, and yields the member with that name; anything else fails, with no default |
| `Coercers.CoerceQuality` | pymusicbrainz/model.py:34-41 | `parse_quality` succeeds exactly on `low`, `normal` and `high`, and yields the member with that name |
| `Coercers.EnumNamesRoundTrip` | pymusicbrainz/model.py:24-41 | every direction and every quality is read back from its member name |
| `Coercers.IntTextIsDecimal` | pymusicbrainz/model.py:898 | `Decimal(str(n))` never raises for an integer `n` |
| `Coercers.DecimalTextAccepts` | pymusicbrainz/model.py:898 | `Decimal` accepts `4.5`, `.5` and `NaN` |
| `Coercers.DecimalTextExponent` | pymusicbrainz/model.py:898 | `Decimal` strips surrounding blanks and reads a sign and a signed exponent: ` -1e3 ` and `2E-7` |
| `Coercers.DecimalTextRejects` | pymusicbrainz/model.py:898 | `Decimal` rejects the empty text, `abc` and a lone `.` |
| `Coercers.Coerce` | pymusicbrainz/model.py:12-41 | each coercer kind applies its own `parse_*` function; `parse_str` and `parse_bool` never fail; with no text, every other coercer fails |
| `Coercers.TrimStartSpec` | pymusicbrainz/model.py:898 | the leading half of the whitespace strip `Decimal` applies first: the result is a suffix of the text, does not start with a blank, and every character dropped is a blank |
| `Coercers.TrimEndSpec` | pymusicbrainz/model.py:898 | the trailing half of the strip: the result is a prefix of the text, does not end with a blank, and every character dropped is a blank |
| `Records.Collapsed` | pymusicbrainz/model.py:118-121 | collapsing keeps exactly the child keys |
| `Records.CollapseChildren` | pymusicbrainz/model.py:118-120 | the in-place loop maps every key outside `keep` to its first occurrence and every key in `keep` to its whole list |
| `Records.EntityFields` | pymusicbrainz/model.py:185-191 | an entity has every attribute and every child key; each child key except `relation-list` is its first occurrence; `relation-list` keeps the whole list in document order; a child overrides an attribute of the same name |
| `Records.RecordFields` | pymusicbrainz/model.py:862-867 | a plain record has every attribute and child key, and each child key is its first occurrence |
| `Records.ChildrenOnlyFields` | pymusicbrainz/model.py:1059-1063 | `LifeSpan`, `TextRepresentation` and `Coordinates` hold only their children (each its first occurrence), with no attribute |
| `Records.ChildFields` | pymusicbrainz/model.py:783-787 | a `Child` has its attributes plus `"data"`, the raw text or None |
| `Records.ListFields` | pymusicbrainz/model.py:44-48 | a list wrapper has its attributes plus `"data"`, the values under its element tag in document order, or the empty list |
| `Records.RatingFields` | pymusicbrainz/model.py:895-898 | a rating fails without text and on text `Decimal` rejects; otherwise it has its attributes plus `"data"`, the decimal |
| `Records.Finished` | pymusicbrainz/model.py:1287-1290 | constructing fails exactly for the root, a failing coercer, or a rating whose text is missing or not a decimal; otherwise an entity, record, list wrapper or `Child` gets its construction rule's fields, a scalar leaf gets its coercer's value, and a rating gets its attributes plus the decimal |
| `Records.Construct` | pymusicbrainz/model.py:1290 | the step-by-step `__init__` computes the value its construction rule specifies |
| `StreamParser.RemoveAllAbsent` | pymusicbrainz/model.py:1273 | `replace` leaves a string alone when the pattern's first character does not occur in it |
| `StreamParser.Normalize` | pymusicbrainz/model.py:1271-1273 | normalising never lengthens a tag, and leaves a tag without `{` unchanged |
| `StreamParser.NormalizeStripsNamespace` | pymusicbrainz/model.py:1271-1273 | a tag qualified by the MusicBrainz namespace normalises to its local name |
| `StreamParser.Appended` | pymusicbrainz/model.py:1291 | appending to the `defaultdict(list)` adds the value at the end of its tag's list and leaves every other tag's list unchanged |
| `StreamParser.StartStep` | pymusicbrainz/model.py:1275-1285 | `start` succeeds iff the stack is non-empty and the top kind maps the normalised tag; it then pushes exactly one frame (that kind, the attributes, no children, no text) above the unchanged frames; on failure the stack is unchanged |
| `StreamParser.EndStep` | pymusicbrainz/model.py:1287-1291 | `end` succeeds iff at least two frames are open and the top frame constructs; it then pops exactly one frame and appends its value at the end of the new top frame's list for the normalised closing tag; kind, attributes, text, the other keys and all lower frames are unchanged; a failed construction still loses the frame |
| `StreamParser.DataStep` | pymusicbrainz/model.py:1293-1294 | `data` fails only on an empty stack; otherwise it replaces the top frame's text and changes nothing else |
| `StreamParser.Finish` | pymusicbrainz/model.py:1296-1299 | `close` succeeds exactly at depth one with a `metadata` value filed under the root, and returns the first one |
| `StreamParser.DataLastWins` | pymusicbrainz/model.py:1293-1294 | two data events in a row leave only the second text |
| `StreamParser.EndIgnoresClosingTag` | pymusicbrainz/model.py:1287-1291 | whether `end` succeeds, and the stack it leaves on failure, do not depend on the closing tag |
| `StreamParser.Apply` | pymusicbrainz/model.py:1275-1294 | every event keeps every frame's child lists non-empty |
| `StreamParser.Run` | pymusicbrainz/session.py:80-85 | feeding events one by one, aborting at the first that raises, keeps every frame's child lists non-empty |
| `StreamParser.Parse` | pymusicbrainz/session.py:80-85 | a parse that succeeds fed every event without raising, and saw as many start events as end events |
| `StreamParser.ApplyKeepsRootAtBottom` | pymusicbrainz/model.py:1275-1294 | no event pushes a root frame above the bottom one |
| `StreamParser.RunKeepsRootAtBottom` | pymusicbrainz/model.py:1268-1294 | the root frame the parser starts with is the only root frame it ever holds |
| `StreamParser.RunConcat` | pymusicbrainz/session.py:80-85 | feeding the events in two chunks is the same as feeding them at once |
| `StreamParser.RunDepth` | pymusicbrainz/model.py:1275-1291 | a feed that raises nowhere changes the depth by the number of starts minus the number of ends |
| `StreamParser.MismatchedCloseTag` | pymusicbrainz/model.py:1287-1291 | a value is filed under the closing tag, not the opening one |
| `StreamParser.Parser.constructor` | pymusicbrainz/model.py:1268-1269 | a new parser holds only the root frame |
| `StreamParser.Parser.Start` | pymusicbrainz/model.py:1275-1285 | the in-place `start` does what `StartStep` specifies and keeps the stack well formed |
| `StreamParser.Parser.End` | pymusicbrainz/model.py:1287-1291 | the in-place `end` does what `EndStep` specifies and keeps the stack well formed |
| `StreamParser.Parser.Data` | pymusicbrainz/model.py:1293-1294 | the in-place `data` does what `DataStep` specifies and keeps the stack well formed |
| `StreamParser.Parser.Close` | pymusicbrainz/model.py:1296-1299 | `close` succeeds exactly at depth one with a `metadata` value under the root, and returns the first one |
| `Documents.Gather` | pymusicbrainz/model.py:1287-1294 | gathering a content keeps every earlier child key and every list non-empty |
| `Documents.ElementEventsBuild` | pymusicbrainz/model.py:1275-1291 | feeding a whole element appends exactly its tree-built value to the enclosing frame's list for its tag and leaves depth and lower frames as they were; if the element does not build, the feed fails |
| `Documents.ContentEventsGather` | pymusicbrainz/model.py:1275-1294 | feeding an element's content leaves its frame holding the gathered children in document order and the last text |
| `Documents.DocumentParse` | pymusicbrainz/model.py:1263-1299 | parsing a document succeeds with the value of its `metadata` root built as a `Metadata` record, and fails if the root is anything else |
| `Scenarios.ArtistWithName` | tests/test_mbxml_artist.py:15-18 | an artist's attributes and its name are fields of one record |
| `Scenarios.AliasListOrder` | tests/test_mbxml_artist.py:35-39 | the aliases of an alias list keep document order, each with its text under `"data"` |
| `Scenarios.EmptyAliasList` | pymusicbrainz/model.py:44-48 | a wrapper with no element still has an empty `"data"` list |
| `Scenarios.UnknownTagUnderArtist` | pymusicbrainz/model.py:1277-1281 | an undeclared tag under an artist aborts the parse |
| `Scenarios.RelationDirection` | pymusicbrainz/model.py:1160-1166 | a relation's `both` direction is the `Both` member; `sideways` aborts |
| `Scenarios.EmptyLeaves` | pymusicbrainz/model.py:12-17 | an empty string leaf gives None, and an empty integer leaf aborts |
| `Includes.ValidLookupInclude` | pymusicbrainz/model.py:94-107 | an include is valid for a kind iff it is in the kind's own set or in the `Entity` base set |
| `Includes.RelationshipIncludesEverywhere` | pymusicbrainz/model.py:55-71 | every entity accepts the twelve `*-rels` includes, and `Url`, which has no own set, accepts exactly those |
| `Includes.VariousArtistsNeverValid` | pymusicbrainz/model.py:155-172 | no entity accepts `various-artists` |
| `Includes.UserCollectionsOnlyForCollections` | pymusicbrainz/model.py:213-219 | only `Collection` accepts `user-collections` |
| `Includes.ValidLinked` | pymusicbrainz/model.py:109-113 | an entity never links to its own kind, and every link target is an entity tag or one of `resource`, `track`, `track_artist` and `editor` |
| `Includes.LinkTargetFacts` | pymusicbrainz/model.py:697-701 | only `Url` links to `resource`, only `Release` to `track`, and every entity but `Url` and `Collection` to `collection` |
| `Session.CheckValidId` | pymusicbrainz/session.py:87-90 | an id passes iff its first 36 characters are hex groups of 8-4-4-4-12 joined by `-`, either case; otherwise the error is an invalid id |
| `Session.GroupStep` | pymusicbrainz/session.py:31-33 | one group of the pattern matches its hex digits and a dash, then the rest of the pattern |
| `Session.UuidMatchIsLayout` | pymusicbrainz/session.py:31-33 | the group-by-group match of `uuid_regex` is exactly the 36-character layout |
| `Session.TrailingTextIgnored` | pymusicbrainz/session.py:89 | the match is anchored at the start only, so text after a valid id does not change the verdict |
| `Session.BlahIsRejected` | tests/test_lookup.py:8-10 | `blah` is an invalid id |
| `Session.FirstOutside` | pymusicbrainz/session.py:52-54 | finds the first element outside a set; none exists iff every element is in it |
| `Session.CheckScopes` | pymusicbrainz/session.py:46-54 | construction passes iff there are no scopes or every scope is in `valid_scope`; otherwise it fails on a requested scope outside the set |
| `Session.LoginCheckAsWritten` | pymusicbrainz/session.py:92-95 | as written, the login check fails on every `user-` include |
| `Session.LoginCheck` | pymusicbrainz/session.py:92-95 | as intended, the login check fails exactly on a `user-` include when not logged in |
| `Session.LoginCheckCounterexample` | pymusicbrainz/session.py:92-95 | `user-tags` is a valid artist include that a logged-in session may use, yet the code as written rejects it |
| `Session.CheckInclude` | pymusicbrainz/session.py:101-105 | one loop turn passes iff the login check passes and the lookup admits the include; otherwise the include is invalid |
| `Session.CheckIncludes` | pymusicbrainz/session.py:101-105 | the include loop passes iff every turn passes; otherwise it fails with the first failing turn |
| `Session.CheckLookup` | pymusicbrainz/session.py:97-105 | with the corrected login check, `_lookup` checks the id before any include, and passes iff the id is valid and every include is valid for the class (a `user-` one only when logged in); `None` means no includes |
| `Session.CheckArtistLookup` | pymusicbrainz/session.py:109-121 | with the corrected login check, `lookup_artist` checks the id first, and passes iff every include is a valid artist include or is `various-artists` requested together with `releases` (a `user-` one only when logged in) |
| `Session.LookupAsWritten` | pymusicbrainz/session.py:97-105 | as written, `_lookup` passes exactly when the id is valid and every include is valid for the class and does not start with `user-`: the corrected check on a session that is not logged in |
| `Session.ArtistLookupAsWritten` | pymusicbrainz/session.py:109-121 | as written, `lookup_artist` passes exactly when the id is valid and every include passes the as-written login check and is a valid artist include or `various-artists` next to `releases` |
| `Session.ArtistLookupExtendsGeneric` | pymusicbrainz/session.py:113-121 | the artist lookup admits everything the generic lookup of `Artist` admits |
| `Session.VariousArtistsNeedsReleases` | pymusicbrainz/session.py:113-121 | `various-artists` without `releases` is rejected; with `releases`, a valid id and otherwise valid includes that do not start with `user-`, the lookup passes |

## Left out

- XML tokenisation by `lxml.etree.XMLParser` (session.py:69-85). The model takes its output
  as a sequence of start/data/end events or as an `Xml` tree. Whether lxml splits one text
  node into several data events is not modelled; if it does, only the last piece survives
  (`StreamParser.DataLastWins`).
- HTTP transport, streaming, OAuth, rate limiting, the asyncio loop of `Session`,
  `request.py`, `oauth.py` and `config.py`. These are network, clock, concurrency or
  settings code. The lookups are modelled only as their checks; the request and the final
  `metadata[name]` are not.
- Python exception types and messages. Every exception is one failure. The parser's
  `except IndexError` around a lookup that raises `KeyError` therefore changes nothing.
- `Coercers.CoerceInt`: does not accept the surrounding whitespace, `_` digit separators
  or non-ASCII digits that Python's `int()` also accepts.
- `Coercers.ParseIntText`: the same restriction as `CoerceInt`.
- `Records.RatingFields`: the decimal is kept as its text, not as a number. The
  accepted syntax leaves out `_` between digits, non-ASCII digits and non-ASCII
  whitespace, which `Decimal` also accepts.
- `Records.Finished`: the same restriction on a rating's text as `Records.RatingFields`.
- `Metadata.parse_date` (model.py:1239-1252) is not modelled. Its guard
  `hasattr(self, "created")` tests an object attribute that a `UserDict` never has, so it
  never runs.
- `StreamParser.Parser.Close`: reading `childs["metadata"]` from the `defaultdict` inserts
  an empty list under that key. This is not modelled. An empty list behaves like an absent
  key in every later operation.
- Python dictionaries are ordered; `map` is not. The key order of a finished record is not
  modelled. The order of values under one tag is modelled.
- The dynamic class creation of `list_factory` and the module-level `init()` loop. These
  are static data here.
- The `Parser` frames hold no Python object identity. `list_factory` stores the
  accumulator's own list object, which is never mutated afterwards, so aliasing is not
  observable.

## Findings

| source | as written | input that shows it | evidently intended | confidence | as-written member | corrected member |
|---|---|---|---|---|---|---|
| pymusicbrainz/session.py:92-95 | `_check_login_required` is a static method that reads `self._oauth`; `self` is unbound there, so every include starting with `user-` raises `NameError` | `lookup_artist` with a valid id and `includes=["user-tags"]` on a logged-in session | raise only when the session is not logged in | not executed; high | `Session.LoginCheckAsWritten` | `Session.LoginCheck` |
