/** A reference semantics for the parser: an XML document as a tree, its
    construction by structural recursion, and the proof that the stack-based
    parser, fed the tree's events in document order, builds the same value. */
module Documents {

  import opened Wrappers
  import opened Values
  import opened Schema
  import opened Records
  import opened StreamParser

  /** An XML element with its attributes and its content in document order,
      or a text node. */
  datatype Xml =
    | Element(tag: string, attrs: map<string, string>, content: seq<Xml>)
    | Text(text: string)

  /** The events a tokenizer emits for a node, in document order. */
  function Events(x: Xml): seq<XmlEvent>
    decreases x, 1
  {
    match x
    case Text(t) => [DataEvent(t)]
    case Element(tag, attrs, content) => [StartEvent(tag, attrs)] + ContentEvents(x, 0) + [EndEvent(tag)]
  }

  /** The events of an element's content from position `i` on. */
  function ContentEvents(x: Xml, i: nat): seq<XmlEvent>
    requires x.Element? && i <= |x.content|
    decreases x, 0, |x.content| - i
  {
    if i == |x.content| then [] else Events(x.content[i]) + ContentEvents(x, i + 1)
  }

  /** The value an element denotes when it is read as kind `k`: the children
      gathered in document order, then the kind's construction rule. */
  function Build(k: Kind, x: Xml): Result<Value>
    requires x.Element?
    decreases x, 1
  {
    match Gather(k, x, 0, map[], None)
    case Failed => Failed
    case Ok(acc) => Finished(k, x.attrs, acc.0, acc.1)
  }

  /** The children accumulator and text of an element of kind `k` after its
      content from position `i` on: each child element is looked up in `k`'s
      table, built, and appended under its tag; each text node replaces the
      text. */
  function Gather(k: Kind, x: Xml, i: nat, childs: map<string, seq<Value>>, data: Option<string>)
    : (r: Result<(map<string, seq<Value>>, Option<string>)>)
    requires x.Element? && i <= |x.content| && NonEmptyLists(childs)
    ensures r.Ok? ==> NonEmptyLists(r.value.0) && childs.Keys <= r.value.0.Keys
    decreases x, 0, |x.content| - i
  {
    if i == |x.content| then Ok((childs, data))
    else match x.content[i]
      case Text(t) => Gather(k, x, i + 1, childs, Some(t))
      case Element(tag, _, _) =>
        match Lookup(k, Normalize(tag))
        case None => Failed
        case Some(ck) =>
          match Build(ck, x.content[i])
          case Failed => Failed
          case Ok(v) => Gather(k, x, i + 1, Appended(childs, Normalize(tag), v), data)
  }

  /** Feeding an element's events to a parser whose top frame maps the
      element's tag to `k` appends exactly the value `Build(k, x)` to that
      frame's list for the tag, and leaves the depth and every lower frame as
      they were; if the element does not build, the feed raises. */
  lemma {:induction false} ElementEventsBuild(stack: seq<Frame>, x: Xml, k: Kind)
    requires WellFormed(stack) && stack != [] && x.Element?
    requires Lookup(Top(stack).kind, Normalize(x.tag)) == Some(k)
    ensures Build(k, x).Ok? ==> Run(stack, Events(x)) == Step(true, AppendToTop(stack, Normalize(x.tag), Build(k, x).value))
    ensures Build(k, x).Failed? ==> !Run(stack, Events(x)).ok
    decreases x, 1
  {
    var start := StartEvent(x.tag, x.attrs);
    var body := ContentEvents(x, 0);
    var end := EndEvent(x.tag);
    assert Events(x) == [start] + body + [end];
    RunConcat(stack, [start] + body, [end]);
    RunConcat(stack, [start], body);
    var pushed := stack + [Frame(k, x.attrs, map[], None)];
    assert Run(stack, [start]) == Step(true, pushed);
    ContentEventsGather(stack, x, 0, k, x.attrs, map[], None);
    match Gather(k, x, 0, map[], None)
    case Failed =>
    case Ok(acc) =>
      var filled := stack + [Frame(k, x.attrs, acc.0, acc.1)];
      assert Run(stack, [start] + body) == Step(true, filled);
      assert filled[..|filled| - 1] == stack;
      assert Run(filled, [end]) == EndStep(filled, x.tag);
  }

  /** Feeding the events of an element's content from position `i` on to a
      parser whose top frame is that element's frame does what `Gather`
      computes: the frame ends with the gathered children and text. */
  lemma {:induction false} ContentEventsGather(
    stack: seq<Frame>, x: Xml, i: nat, k: Kind, attrs: map<string, string>,
    childs: map<string, seq<Value>>, data: Option<string>)
    requires WellFormed(stack) && x.Element? && i <= |x.content| && NonEmptyLists(childs)
    ensures var r := Run(stack + [Frame(k, attrs, childs, data)], ContentEvents(x, i));
      match Gather(k, x, i, childs, data)
      case Ok(acc) => r == Step(true, stack + [Frame(k, attrs, acc.0, acc.1)])
      case Failed => !r.ok
    decreases x, 0, |x.content| - i
  {
    var here := stack + [Frame(k, attrs, childs, data)];
    assert WellFormed(here);
    if i < |x.content| {
      var c := x.content[i];
      var rest := ContentEvents(x, i + 1);
      assert ContentEvents(x, i) == Events(c) + rest;
      RunConcat(here, Events(c), rest);
      match c
      case Text(t) =>
        assert Events(c) == [DataEvent(t)];
        assert here[..|here| - 1] == stack;
        assert Run(here, Events(c)) == Step(true, stack + [Frame(k, attrs, childs, Some(t))]);
        ContentEventsGather(stack, x, i + 1, k, attrs, childs, Some(t));
      case Element(tag, _, _) =>
        match Lookup(k, Normalize(tag))
        case None =>
          assert Events(c)[0] == StartEvent(tag, c.attrs);
          assert !Run(here, Events(c)).ok;
        case Some(ck) =>
          ElementEventsBuild(here, c, ck);
          match Build(ck, c)
          case Failed =>
          case Ok(v) =>
            assert here[..|here| - 1] == stack;
            var next := Appended(childs, Normalize(tag), v);
            assert AppendToTop(here, Normalize(tag), v) == stack + [Frame(k, attrs, next, data)];
            ContentEventsGather(stack, x, i + 1, k, attrs, next, data);
    }
  }

  /** The streaming parse of a whole document is its tree construction: the
      root element must be `metadata`, and the result is that element built as
      a `Metadata` record. */
  lemma DocumentParse(doc: Xml)
    requires doc.Element?
    ensures Normalize(doc.tag) != "metadata" ==> Parse(Events(doc)).Failed?
    ensures Normalize(doc.tag) == "metadata" ==> Parse(Events(doc)) == Build(Record(Metadata), doc)
  {
    var root := [RootFrame];
    assert WellFormed(root);
    if Normalize(doc.tag) != "metadata" {
      assert Events(doc) == [StartEvent(doc.tag, doc.attrs)] + (ContentEvents(doc, 0) + [EndEvent(doc.tag)]);
      RunConcat(root, [StartEvent(doc.tag, doc.attrs)], ContentEvents(doc, 0) + [EndEvent(doc.tag)]);
    } else {
      ElementEventsBuild(root, doc, Record(Metadata));
    }
  }
}
