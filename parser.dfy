/** `Parser` of model.py: the lxml target that turns start/data/end events into
    finished records on a stack of frames. */
module StreamParser {

  import opened Wrappers
  import opened Values
  import opened Schema
  import opened Records

  /** `Parser.StackElement`: the kind to construct, the attributes captured at
      start, the values closed so far under each child tag (the
      `defaultdict(list)`), and the latest text. */
  datatype Frame = Frame(
    kind: Kind,
    attrs: map<string, string>,
    childs: map<string, seq<Value>>,
    data: Option<string>)

  /** The frame the parser starts with. */
  const RootFrame := Frame(Root, map[], map[], None)

  /** The MusicBrainz XML namespace as lxml writes it in front of tag names. */
  const Namespace := "{http://musicbrainz.org/ns/mmd-2.0#}"

  /** `s.replace(pat, "")`: every non-overlapping occurrence of `pat`, leftmost
      first, removed. */
  function RemoveAll(s: string, pat: string): (r: string)
    requires |pat| > 0
    ensures |r| <= |s|
    decreases |s|
  {
    if |s| < |pat| then s
    else if s[..|pat|] == pat then RemoveAll(s[|pat|..], pat)
    else [s[0]] + RemoveAll(s[1..], pat)
  }

  /** `replace` leaves a string alone when the first character of the
      pattern does not occur in it. */
  lemma {:induction false} RemoveAllAbsent(s: string, pat: string)
    requires |pat| > 0 && pat[0] !in s
    ensures RemoveAll(s, pat) == s
    decreases |s|
  {
    if |s| >= |pat| {
      assert s[..|pat|] != pat by {
        assert s[0] != pat[0];
      }
      RemoveAllAbsent(s[1..], pat);
      assert [s[0]] + s[1..] == s;
    }
  }

  /** `Parser._normalize`: strips the namespace prefix wherever it occurs, and
      leaves a tag without a brace unchanged. */
  function Normalize(tag: string): (r: string)
    ensures |r| <= |tag|
    ensures '{' !in tag ==> r == tag
  {
    var r := RemoveAll(tag, Namespace);
    assert '{' !in tag ==> r == tag by {
      if '{' !in tag {
        RemoveAllAbsent(tag, Namespace);
      }
    }
    r
  }

  /** A namespace-qualified tag normalises to its local name. */
  lemma NormalizeStripsNamespace(local: string)
    requires '{' !in local
    ensures Normalize(Namespace + local) == local
  {
    var s := Namespace + local;
    assert s[..|Namespace|] == Namespace;
    assert s[|Namespace|..] == local;
    RemoveAllAbsent(local, Namespace);
  }

  /** Every frame's accumulator holds at least one value per key. */
  predicate WellFormed(stack: seq<Frame>)
  {
    forall i :: 0 <= i < |stack| ==> NonEmptyLists(stack[i].childs)
  }

  function Top(stack: seq<Frame>): Frame
    requires stack != []
  {
    stack[|stack| - 1]
  }

  /** Appending `v` under `tag` in a dictionary whose missing keys start as empty lists. */
  function Appended(childs: map<string, seq<Value>>, tag: string, v: Value): (r: map<string, seq<Value>>)
    ensures r.Keys == childs.Keys + {tag}
    ensures r[tag] == (if tag in childs then childs[tag] else []) + [v]
    ensures forall t :: t in childs && t != tag ==> r[t] == childs[t]
  {
    childs[tag := (if tag in childs then childs[tag] else []) + [v]]
  }

  /** The stack after appending `v` to the top frame's list for `tag`. */
  function AppendToTop(stack: seq<Frame>, tag: string, v: Value): (r: seq<Frame>)
    requires stack != []
    ensures |r| == |stack|
  {
    var f := Top(stack);
    stack[..|stack| - 1] + [f.(childs := Appended(f.childs, tag, v))]
  }

  /** The result of one event: whether it raised, and the stack it leaves. */
  datatype Step = Step(ok: bool, stack: seq<Frame>)

  /** `Parser.start`: push a frame for the kind the enclosing frame maps the
      normalised tag to. The lookup raises when the enclosing kind has no
      `mapping` or no entry for the tag; the stack is then unchanged. */
  function StartStep(stack: seq<Frame>, tag: string, attrs: map<string, string>): (r: Step)
    requires WellFormed(stack)
    ensures WellFormed(r.stack)
    ensures r.ok <==> stack != [] && Lookup(Top(stack).kind, Normalize(tag)).Some?
    ensures r.ok ==> |r.stack| == |stack| + 1 && r.stack[..|stack|] == stack
    ensures r.ok ==> Top(r.stack) == Frame(Lookup(Top(stack).kind, Normalize(tag)).value, attrs, map[], None)
    ensures !r.ok ==> r.stack == stack
  {
    if stack == [] then Step(false, stack)
    else match Lookup(Top(stack).kind, Normalize(tag))
      case None => Step(false, stack)
      case Some(k) => Step(true, stack + [Frame(k, attrs, map[], None)])
  }

  /** `Parser.end`: pop the top frame, construct its value, and append it under
      the normalised closing tag to the new top frame. The closing tag is never
      compared with the tag that opened the frame. The pop happens before the
      construction, so a construction that raises still loses the frame. */
  function EndStep(stack: seq<Frame>, tag: string): (r: Step)
    requires WellFormed(stack)
    ensures WellFormed(r.stack)
    ensures stack == [] ==> !r.ok && r.stack == []
    ensures stack != [] && !r.ok ==> r.stack == stack[..|stack| - 1]
    ensures r.ok <==>
      |stack| >= 2 && Finished(Top(stack).kind, Top(stack).attrs, Top(stack).childs, Top(stack).data).Ok?
    ensures r.ok ==>
      var v := Finished(Top(stack).kind, Top(stack).attrs, Top(stack).childs, Top(stack).data).value;
      var parent := stack[|stack| - 2];
      && |r.stack| == |stack| - 1
      && r.stack[..|stack| - 2] == stack[..|stack| - 2]
      && Top(r.stack) == parent.(childs := Appended(parent.childs, Normalize(tag), v))
  {
    if stack == [] then Step(false, stack)
    else
      var f := Top(stack);
      var rest := stack[..|stack| - 1];
      match Finished(f.kind, f.attrs, f.childs, f.data)
      case Failed => Step(false, rest)
      case Ok(v) => if rest == [] then Step(false, rest) else Step(true, AppendToTop(rest, Normalize(tag), v))
  }

  /** `Parser.data`: replace the top frame's text; the latest call wins. */
  function DataStep(stack: seq<Frame>, text: string): (r: Step)
    requires WellFormed(stack)
    ensures WellFormed(r.stack)
    ensures r.ok <==> stack != []
    ensures r.ok ==> |r.stack| == |stack| && r.stack[..|stack| - 1] == stack[..|stack| - 1]
    ensures r.ok ==> Top(r.stack) == Top(stack).(data := Some(text))
    ensures !r.ok ==> r.stack == stack
  {
    if stack == [] then Step(false, stack)
    else Step(true, stack[..|stack| - 1] + [Top(stack).(data := Some(text))])
  }

  /** `Parser.close`: the stack must hold exactly the root frame, and the
      result is the first value closed under `metadata`. */
  function Finish(stack: seq<Frame>): (r: Result<Value>)
    ensures r.Ok? <==> |stack| == 1 && "metadata" in stack[0].childs && |stack[0].childs["metadata"]| > 0
    ensures r.Ok? ==> r.value == stack[0].childs["metadata"][0]
  {
    if |stack| != 1 then Failed
    else if "metadata" in stack[0].childs && |stack[0].childs["metadata"]| > 0 then
      Ok(stack[0].childs["metadata"][0])
    else Failed
  }

  /** Text is replaced, never concatenated: of two data events in a row only
      the second survives. */
  lemma DataLastWins(stack: seq<Frame>, first: string, second: string)
    requires WellFormed(stack)
    ensures DataStep(DataStep(stack, first).stack, second) == DataStep(stack, second)
  {
    if stack != [] {
      var s1 := DataStep(stack, first).stack;
      assert s1[..|s1| - 1] == stack[..|stack| - 1];
    }
  }

  /** Whether `end` succeeds never depends on the closing tag: it is only
      used as the key the finished value is filed under. */
  lemma EndIgnoresClosingTag(stack: seq<Frame>, tag1: string, tag2: string)
    requires WellFormed(stack)
    ensures EndStep(stack, tag1).ok == EndStep(stack, tag2).ok
    ensures !EndStep(stack, tag1).ok ==> EndStep(stack, tag1).stack == EndStep(stack, tag2).stack
  {
  }

  /** The events lxml delivers to the parser target. */
  datatype XmlEvent =
    | StartEvent(tag: string, attrs: map<string, string>)
    | DataEvent(text: string)
    | EndEvent(tag: string)

  function Apply(stack: seq<Frame>, e: XmlEvent): (r: Step)
    requires WellFormed(stack)
    ensures WellFormed(r.stack)
  {
    match e
    case StartEvent(tag, attrs) => StartStep(stack, tag, attrs)
    case DataEvent(text) => DataStep(stack, text)
    case EndEvent(tag) => EndStep(stack, tag)
  }

  /** Feeding events one by one; the first event that raises aborts the feed. */
  function Run(stack: seq<Frame>, events: seq<XmlEvent>): (r: Step)
    requires WellFormed(stack)
    ensures WellFormed(r.stack)
    decreases |events|
  {
    if events == [] then Step(true, stack)
    else
      var r := Apply(stack, events[0]);
      if r.ok then Run(r.stack, events[1..]) else r
  }

  /** Feeding two event sequences one after the other. */
  lemma {:induction false} RunConcat(stack: seq<Frame>, a: seq<XmlEvent>, b: seq<XmlEvent>)
    requires WellFormed(stack)
    ensures Run(stack, a + b) == (var r := Run(stack, a); if r.ok then Run(r.stack, b) else r)
    decreases |a|
  {
    if a != [] {
      assert (a + b)[0] == a[0];
      assert (a + b)[1..] == a[1..] + b;
      var r := Apply(stack, a[0]);
      if r.ok {
        RunConcat(r.stack, a[1..], b);
      }
    } else {
      assert a + b == b;
    }
  }

  /** Start events minus end events. */
  function Balance(events: seq<XmlEvent>): int
    decreases |events|
  {
    if events == [] then 0
    else (if events[0].StartEvent? then 1 else if events[0].EndEvent? then -1 else 0) + Balance(events[1..])
  }

  /** Every start pushes exactly one frame and every end pops exactly one, so
      a feed that raises nowhere changes the depth by the balance of its
      events; a balanced feed from the initial stack ends at depth one. */
  lemma {:induction false} RunDepth(stack: seq<Frame>, events: seq<XmlEvent>)
    requires WellFormed(stack)
    requires Run(stack, events).ok
    ensures |Run(stack, events).stack| == |stack| + Balance(events)
    decreases |events|
  {
    if events != [] {
      RunDepth(Apply(stack, events[0]).stack, events[1..]);
    }
  }

  /** An element opened as `opening` and closed as `closing` is filed under
      `closing`: a text-less string leaf opened inside the top frame lands as
      None under the closing tag. */
  lemma MismatchedCloseTag(stack: seq<Frame>, opening: string, closing: string, attrs: map<string, string>)
    requires WellFormed(stack) && stack != []
    requires Lookup(Top(stack).kind, Normalize(opening)) == Some(StrField)
    ensures Run(stack, [StartEvent(opening, attrs), EndEvent(closing)]) ==
      Step(true, AppendToTop(stack, Normalize(closing), Null))
  {
    var pushed := stack + [Frame(StrField, attrs, map[], None)];
    assert Apply(stack, StartEvent(opening, attrs)) == Step(true, pushed);
    assert pushed[..|pushed| - 1] == stack;
    assert Finished(StrField, attrs, map[], None) == Ok(Null);
    assert EndStep(pushed, closing) == Step(true, AppendToTop(stack, Normalize(closing), Null));
    assert Run(pushed, [EndEvent(closing)]) == EndStep(pushed, closing);
    assert [StartEvent(opening, attrs), EndEvent(closing)][1..] == [EndEvent(closing)];
  }

  /** The whole parse: feed every event to a fresh parser, then close it. A
      parse that succeeds has seen as many start events as end events. */
  function Parse(events: seq<XmlEvent>): (r: Result<Value>)
    ensures r.Ok? ==> Run([RootFrame], events).ok && Balance(events) == 0
  {
    var s := Run([RootFrame], events);
    if s.ok then
      RunDepth([RootFrame], events);
      Finish(s.stack)
    else Failed
  }

  /** Only the bottom frame may be a root frame. */
  predicate RootAtBottomOnly(stack: seq<Frame>)
  {
    forall i :: 0 <= i < |stack| ==> NotRoot(stack[i].kind) || (i == 0 && stack[i].kind == Root)
  }

  /** No event pushes a root frame, and no event changes the kind of a frame
      that stays on the stack. */
  lemma ApplyKeepsRootAtBottom(stack: seq<Frame>, e: XmlEvent)
    requires WellFormed(stack) && RootAtBottomOnly(stack)
    ensures RootAtBottomOnly(Apply(stack, e).stack)
  {
    match e
    case StartEvent(tag, attrs) =>
      var r := StartStep(stack, tag, attrs);
      if r.ok {
        assert NotRoot(Top(stack).kind) || Top(stack).kind == Root by {
          assert Top(stack) == stack[|stack| - 1];
        }
        TablesNeverYieldRoot(Top(stack).kind, Normalize(tag));
        forall i | 0 <= i < |r.stack|
          ensures NotRoot(r.stack[i].kind) || (i == 0 && r.stack[i].kind == Root)
        {
          if i < |stack| {
            assert r.stack[i] == r.stack[..|stack|][i] == stack[i];
          } else {
            assert r.stack[i] == Top(r.stack);
          }
        }
      }
    case DataEvent(text) =>
    case EndEvent(tag) =>
  }

  /** The root frame the parser starts with is the only root frame it ever
      holds: no feed pushes another. */
  lemma {:induction false} RunKeepsRootAtBottom(stack: seq<Frame>, events: seq<XmlEvent>)
    requires WellFormed(stack) && RootAtBottomOnly(stack)
    ensures RootAtBottomOnly(Run(stack, events).stack)
    decreases |events|
  {
    if events != [] {
      ApplyKeepsRootAtBottom(stack, events[0]);
      var r := Apply(stack, events[0]);
      if r.ok {
        RunKeepsRootAtBottom(r.stack, events[1..]);
      }
    }
  }

  /** The parser object: a stack of frames updated in place. */
  class Parser {
    var stack: seq<Frame>

    ghost predicate Valid()
      reads this
    {
      WellFormed(stack)
    }

    /** `Parser.__init__`: a single root frame. */
    constructor ()
      ensures Valid()
      ensures stack == [RootFrame]
    {
      stack := [RootFrame];
    }

    /** `Parser.start`; `ok` is false where the Python code raises. */
    method Start(tag: string, attrs: map<string, string>) returns (ok: bool)
      requires Valid()
      modifies this
      ensures Valid()
      ensures Step(ok, stack) == StartStep(old(stack), tag, attrs)
    {
      var t := Normalize(tag);
      if |stack| == 0 {
        return false;
      }
      var cls := stack[|stack| - 1].kind;
      var newKind := Lookup(cls, t);
      if newKind.None? {
        return false;
      }
      stack := stack + [Frame(newKind.value, attrs, map[], None)];
      ok := true;
    }

    /** `Parser.end`; `ok` is false where the Python code raises. */
    method End(tag: string) returns (ok: bool)
      requires Valid()
      modifies this
      ensures Valid()
      ensures Step(ok, stack) == EndStep(old(stack), tag)
    {
      var t := Normalize(tag);
      if |stack| == 0 {
        return false;
      }
      var f := stack[|stack| - 1];
      stack := stack[..|stack| - 1];
      var obj := Construct(f.kind, f.attrs, f.childs, f.data);
      if obj.Failed? || |stack| == 0 {
        return false;
      }
      var parent := stack[|stack| - 1];
      stack := stack[..|stack| - 1] + [parent.(childs := Appended(parent.childs, t, obj.value))];
      ok := true;
    }

    /** `Parser.data`; `ok` is false where the Python code raises. */
    method Data(text: string) returns (ok: bool)
      requires Valid()
      modifies this
      ensures Valid()
      ensures Step(ok, stack) == DataStep(old(stack), text)
    {
      if |stack| == 0 {
        return false;
      }
      stack := stack[..|stack| - 1] + [stack[|stack| - 1].(data := Some(text))];
      ok := true;
    }

    /** `Parser.close`. */
    method Close() returns (r: Result<Value>)
      requires Valid()
      ensures r.Ok? <==> |stack| == 1 && "metadata" in stack[0].childs
      ensures r.Ok? ==> r.value == stack[0].childs["metadata"][0]
    {
      if |stack| != 1 {
        return Failed;
      }
      if "metadata" !in stack[0].childs {
        return Failed;
      }
      r := Ok(stack[0].childs["metadata"][0]);
    }
  }
}
