/** Record construction rules: what `cls(attrs, childs, data)` builds when a
    frame of kind `cls` closes. `childs` maps each child tag to the values
    closed under it, in document order. */
module Records {

  import opened Wrappers
  import opened Values
  import opened Schema
  import opened Coercers

  /** The only key an entity keeps as a whole list. */
  const RelationListTag := "relation-list"

  /** A children accumulator only ever gains a key together with a value. */
  predicate NonEmptyLists(childs: map<string, seq<Value>>)
  {
    forall t :: t in childs ==> |childs[t]| > 0
  }

  /** The children accumulator after the `__init__` loop that replaces every
      list whose key is not in `keep` by its first element. */
  function Collapsed(childs: map<string, seq<Value>>, keep: set<string>): (r: map<string, Value>)
    requires NonEmptyLists(childs)
    ensures r.Keys == childs.Keys
  {
    map t | t in childs :: if t in keep then List(childs[t]) else childs[t][0]
  }

  /** The `__init__` loop that visits every key of the children dictionary and
      replaces its list by the first element, skipping the keys in `keep`. */
  method CollapseChildren(childs: map<string, seq<Value>>, keep: set<string>)
    returns (r: map<string, Value>)
    requires NonEmptyLists(childs)
    ensures r.Keys == childs.Keys
    ensures forall t :: t in childs && t !in keep ==> r[t] == childs[t][0]
    ensures forall t :: t in childs && t in keep ==> r[t] == List(childs[t])
    ensures r == Collapsed(childs, keep)
  {
    r := map t | t in childs :: List(childs[t]);
    var pending := childs.Keys;
    while pending != {}
      invariant pending <= childs.Keys
      invariant r.Keys == childs.Keys
      invariant forall t :: t in r && (t in pending || t in keep) ==> r[t] == List(childs[t])
      invariant forall t :: t in r && t !in pending && t !in keep ==> r[t] == childs[t][0]
      decreases pending
    {
      var t :| t in pending;
      if t !in keep {
        r := r[t := childs[t][0]];
      }
      pending := pending - {t};
    }
  }

  /** `Entity.__init__` (identical in all thirteen entity classes): the
      attributes, then the children on top of them, each child collapsed to
      its first occurrence except `relation-list`. */
  function EntityFields(attrs: map<string, string>, childs: map<string, seq<Value>>): (r: map<string, Value>)
    requires NonEmptyLists(childs)
    ensures r.Keys == attrs.Keys + childs.Keys
    ensures forall t :: t in childs && t != RelationListTag ==> r[t] == childs[t][0]
    ensures RelationListTag in childs ==> r[RelationListTag] == List(childs[RelationListTag])
    ensures forall a :: a in attrs && a !in childs ==> r[a] == Str(attrs[a])
  {
    AttrFields(attrs) + Collapsed(childs, {RelationListTag})
  }

  /** The `__init__` of the plain record classes (`Tag`, `Track`, `Relation`,
      `Metadata`, ...): the attributes, then every child collapsed to its first
      occurrence. */
  function RecordFields(attrs: map<string, string>, childs: map<string, seq<Value>>): (r: map<string, Value>)
    requires NonEmptyLists(childs)
    ensures r.Keys == attrs.Keys + childs.Keys
    ensures forall t :: t in childs ==> r[t] == childs[t][0]
    ensures forall a :: a in attrs && a !in childs ==> r[a] == Str(attrs[a])
  {
    AttrFields(attrs) + Collapsed(childs, {})
  }

  /** `LifeSpan`, `TextRepresentation` and `Coordinates` never copy their
      attributes. */
  predicate KeepsAttributes(r: RecordName)
  {
    r != LifeSpan && r != TextRepresentation && r != Coordinates
  }

  /** The `__init__` of the three attribute-dropping records. */
  function ChildrenOnlyFields(childs: map<string, seq<Value>>): (r: map<string, Value>)
    requires NonEmptyLists(childs)
    ensures r.Keys == childs.Keys
    ensures forall t :: t in childs ==> r[t] == childs[t][0]
  {
    Collapsed(childs, {})
  }

  /** `Child.__init__`: the attributes plus `"data"`, the raw text. */
  function ChildFields(attrs: map<string, string>, data: Option<string>): (r: map<string, Value>)
    ensures r.Keys == attrs.Keys + {"data"}
    ensures r["data"] == TextValue(data)
    ensures forall a :: a in attrs && a != "data" ==> r[a] == Str(attrs[a])
  {
    AttrFields(attrs)["data" := TextValue(data)]
  }

  /** The `__init__` that `list_factory` generates for element tag `tag`: the
      attributes plus `"data"`, the values closed under `tag` in document
      order (the empty list when there are none). */
  function ListFields(tag: string, attrs: map<string, string>, childs: map<string, seq<Value>>): (r: map<string, Value>)
    ensures r.Keys == attrs.Keys + {"data"}
    ensures tag in childs ==> r["data"] == List(childs[tag])
    ensures tag !in childs ==> r["data"] == List([])
    ensures forall a :: a in attrs && a != "data" ==> r[a] == Str(attrs[a])
  {
    AttrFields(attrs)["data" := List(if tag in childs then childs[tag] else [])]
  }

  /** `Rating.__init__`: the attributes plus `"data"`, `Decimal(text)`;
      `Decimal(None)` raises, and so does text that is not a decimal. */
  function RatingFields(attrs: map<string, string>, data: Option<string>): (r: Result<map<string, Value>>)
    ensures r.Ok? <==> data.Some? && DecimalText(data.value)
    ensures r.Ok? ==> r.value.Keys == attrs.Keys + {"data"} && r.value["data"] == Dec(data.value)
    ensures r.Ok? ==> forall a :: a in attrs && a != "data" ==> r.value[a] == Str(attrs[a])
  {
    if data.None? || !DecimalText(data.value) then Failed else Ok(AttrFields(attrs)["data" := Dec(data.value)])
  }

  /** The finished value of a frame of kind `k`. `Root.__init__` takes a single
      argument, so constructing a root frame this way raises. */
  function Finished(k: Kind, attrs: map<string, string>, childs: map<string, seq<Value>>, data: Option<string>)
    : (r: Result<Value>)
    requires NonEmptyLists(childs)
    ensures r.Failed? <==> (k.Root? || (k.Scalar? && Coerce(k.coercer, data).Failed?)
                            || (k.Rating? && (data.None? || !DecimalText(data.value))))
    ensures k.Entity? ==> r == Ok(Rec(EntityFields(attrs, childs)))
    ensures k.Record? ==> r == Ok(Rec(if KeepsAttributes(k.record) then RecordFields(attrs, childs) else ChildrenOnlyFields(childs)))
    ensures k.ListOf? ==> r == Ok(Rec(ListFields(k.tag, attrs, childs)))
    ensures k.Child? ==> r == Ok(Rec(ChildFields(attrs, data)))
    ensures k.Scalar? ==> r == Coerce(k.coercer, data)
    ensures k.Rating? && r.Ok? ==> r.value == Rec(RatingFields(attrs, data).value)
  {
    match k
    case Root => Failed
    case Scalar(c) => Coerce(c, data)
    case Child(_) => Ok(Rec(ChildFields(attrs, data)))
    case ListOf(tag, _) => Ok(Rec(ListFields(tag, attrs, childs)))
    case Rating =>
      (match RatingFields(attrs, data)
       case Failed => Failed
       case Ok(fields) => Ok(Rec(fields)))
    case Entity(_) => Ok(Rec(EntityFields(attrs, childs)))
    case Record(r) =>
      Ok(Rec(if KeepsAttributes(r) then RecordFields(attrs, childs) else ChildrenOnlyFields(childs)))
  }

  /** `obj = cls(attrs, childs, data)` as the parser executes it: the record
      `__init__`s update their dictionary step by step. */
  method Construct(k: Kind, attrs: map<string, string>, childs: map<string, seq<Value>>, data: Option<string>)
    returns (r: Result<Value>)
    requires NonEmptyLists(childs)
    ensures r == Finished(k, attrs, childs, data)
  {
    match k {
      case Root =>
        r := Failed;
      case Scalar(c) =>
        r := Coerce(c, data);
      case Child(_) =>
        var fields := AttrFields(attrs);
        fields := fields["data" := TextValue(data)];
        r := Ok(Rec(fields));
      case ListOf(tag, _) =>
        var fields := AttrFields(attrs);
        fields := fields["data" := List(if tag in childs then childs[tag] else [])];
        r := Ok(Rec(fields));
      case Rating =>
        if data.None? || !DecimalText(data.value) {
          r := Failed;
        } else {
          var fields := AttrFields(attrs);
          fields := fields["data" := Dec(data.value)];
          r := Ok(Rec(fields));
        }
      case Entity(_) =>
        var collapsed := CollapseChildren(childs, {RelationListTag});
        r := Ok(Rec(AttrFields(attrs) + collapsed));
      case Record(name) =>
        var collapsed := CollapseChildren(childs, {});
        if KeepsAttributes(name) {
          r := Ok(Rec(AttrFields(attrs) + collapsed));
        } else {
          r := Ok(Rec(collapsed));
        }
    }
  }
}
