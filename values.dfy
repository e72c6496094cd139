/** The values the parser materialises: every finished record is a mapping from
    field name to value, every list wrapper a mapping holding a list. */
module Values {

  import opened Wrappers

  /** `Direction` enumeration of model.py. */
  datatype Direction = Both | Forward | Backward

  /** `Quality` enumeration of model.py. */
  datatype Quality = Low | Normal | High

  datatype Value =
    | Null                              // Python None (a leaf element without text)
    | Str(s: string)
    | Int(i: int)
    | Bool(b: bool)
    | Dir(direction: Direction)
    | Qual(quality: Quality)
    | Dec(digits: string)               // decimal.Decimal, kept as its text
    | List(items: seq<Value>)
    | Rec(fields: map<string, Value>)   // a UserDict subclass instance

  /** Attributes are raw strings; as record fields they are string values. */
  function AttrFields(attrs: map<string, string>): (r: map<string, Value>)
    ensures r.Keys == attrs.Keys
    ensures forall a :: a in attrs ==> r[a] == Str(attrs[a])
  {
    map a | a in attrs :: Str(attrs[a])
  }

  /** A text accumulator as a value: no text is None. */
  function TextValue(data: Option<string>): (r: Value)
    ensures r == Null <==> data.None?
    ensures data.Some? ==> r == Str(data.value)
  {
    if data.Some? then Str(data.value) else Null
  }
}
