/**
 Call sequences on one writer. A session is a list of calls of the public
 API; running it threads the writer state through the calls and appends each
 call's text to the sink, so the sink after a session is the concatenation
 of what its calls wrote.
 */
module Session {
  import opened Wrappers
  import Escaping
  import XmlWriter
  import opened SeqFacts

  /** One call of the writer's public API. */
  datatype Call =
    | Dtd(encoding: string)
    | Write(text: string)
    | SetNamespace(ns: Option<string>)
    | SetCompactMode
    | SetPrettyMode
    | SetVeryPrettyMode
    | NsDecl(nsMap: seq<(Option<string>, string)>)
    | Elem(name: string)
    | ElemText(name: string, text: string)
    | BeginElem(name: string)
    | EndElem
    | EmptyElem(name: string)
    | Attr(name: string, value: string)
    | AttrEsc(name: string, value: string)
    | Text(text: string)
    | Cdata(text: string)
    | Comment(text: string)
    | Close

  /** The calls the writer accepts in state `w`; every other call panics. */
  predicate Allowed(w: XmlWriter.Writer, c: Call) {
    match c
    case EndElem => 0 < |w.nsStack| && 0 < |w.stack|
    case NsDecl(_) => w.tagOpen
    case Attr(_, _) => w.tagOpen
    case AttrEsc(_, _) => w.tagOpen
    case Close => |w.stack| <= |w.nsStack|
    case _ => true
  }

  /** One call: the next state and the text it appends. Every call keeps the
      writer invariant. */
  function Step(w: XmlWriter.Writer, c: Call): (r: XmlWriter.Written)
    requires Allowed(w, c)
    ensures XmlWriter.Valid(w) ==> XmlWriter.Valid(r.w)
    ensures !c.Close? ==> |r.w.stack| == |w.stack| + (if c.BeginElem? then 1 else 0) - (if c.EndElem? then 1 else 0)
  {
    match c
    case Dtd(encoding) => XmlWriter.Dtd(w, encoding)
    case Write(text) => XmlWriter.Write(w, text)
    case SetNamespace(ns) => XmlWriter.Written(XmlWriter.SetNamespace(w, ns), "")
    case SetCompactMode => XmlWriter.Written(XmlWriter.SetCompactMode(w), "")
    case SetPrettyMode => XmlWriter.Written(XmlWriter.SetPrettyMode(w), "")
    case SetVeryPrettyMode => XmlWriter.Written(XmlWriter.SetVeryPrettyMode(w), "")
    case NsDecl(nsMap) => XmlWriter.NsDecl(w, nsMap)
    case Elem(name) => XmlWriter.Elem(w, name)
    case ElemText(name, text) => XmlWriter.ElemText(w, name, text)
    case BeginElem(name) => XmlWriter.BeginElem(w, name)
    case EndElem => XmlWriter.EndElem(w)
    case EmptyElem(name) => XmlWriter.EmptyElem(w, name)
    case Attr(name, value) => XmlWriter.Attr(w, name, value)
    case AttrEsc(name, value) => XmlWriter.AttrEsc(w, name, value)
    case Text(text) => XmlWriter.Text(w, text)
    case Cdata(text) => XmlWriter.Cdata(w, text)
    case Comment(text) => XmlWriter.Comment(w, text)
    case Close => XmlWriter.Close(w)
  }

  /** True when no call of the session panics. */
  predicate Runs(w: XmlWriter.Writer, calls: seq<Call>)
    decreases |calls|
  {
    |calls| == 0 || (Allowed(w, calls[0]) && Runs(Step(w, calls[0]).w, calls[1..]))
  }

  /** Runs a session: the final state and everything the calls wrote, in
      order. Starting from a valid writer, every state reached is valid. */
  function Run(w: XmlWriter.Writer, calls: seq<Call>): (r: XmlWriter.Written)
    requires Runs(w, calls)
    ensures XmlWriter.Valid(w) ==> XmlWriter.Valid(r.w)
    decreases |calls|
  {
    if |calls| == 0 then XmlWriter.Written(w, "")
    else
      var s := Step(w, calls[0]);
      var rest := Run(s.w, calls[1..]);
      XmlWriter.Written(rest.w, s.text + rest.text)
  }

  /** In a valid state the only misuse left is `end_elem` on an empty stack
      and writing attributes with no start tag open. */
  lemma ValidAllowed(w: XmlWriter.Writer, c: Call)
    requires XmlWriter.Valid(w)
    ensures Allowed(w, c) <==> match c
      case EndElem => 0 < |w.stack|
      case NsDecl(_) => w.tagOpen
      case Attr(_, _) => w.tagOpen
      case AttrEsc(_, _) => w.tagOpen
      case _ => true
  {
  }

  /** A session that starts with call `c`: `c` runs first, then the rest
      from the state it leaves. */
  lemma RunCons(w: XmlWriter.Writer, c: Call, rest: seq<Call>)
    requires Allowed(w, c) && Runs(Step(w, c).w, rest)
    ensures Runs(w, [c] + rest)
    ensures Run(w, [c] + rest).w == Run(Step(w, c).w, rest).w
    ensures Run(w, [c] + rest).text == Step(w, c).text + Run(Step(w, c).w, rest).text
  {
    assert ([c] + rest)[0] == c;
    assert ([c] + rest)[1..] == rest;
  }

  /** Running two sessions one after the other is running their
      concatenation, and the sink only grows: what the first part wrote is a
      prefix of what both wrote. */
  lemma {:induction false} RunConcat(w: XmlWriter.Writer, a: seq<Call>, b: seq<Call>)
    requires Runs(w, a) && Runs(Run(w, a).w, b)
    ensures Runs(w, a + b)
    ensures Run(w, a + b).w == Run(Run(w, a).w, b).w
    ensures Run(w, a + b).text == Run(w, a).text + Run(Run(w, a).w, b).text
    decreases |a|
  {
    if |a| == 0 {
      assert a + b == b;
    } else {
      var s := Step(w, a[0]);
      var mid := Run(s.w, a[1..]);
      SplitHead(a, b);
      assert Runs(s.w, a[1..]) && Run(w, a).w == mid.w && Run(w, a).text == s.text + mid.text by {
        RunCons(w, a[0], a[1..]);
      }
      RunConcat(s.w, a[1..], b);
      var tail := Run(mid.w, b);
      var both := Run(s.w, a[1..] + b);
      assert Runs(w, a + b) && Run(w, a + b).w == both.w && Run(w, a + b).text == s.text + both.text by {
        RunCons(w, a[0], a[1..] + b);
      }
      ConcatAssoc(s.text, mid.text, tail.text);
    }
  }

  /** Appending one call to a session runs that call from the state the
      session left. */
  lemma RunSnoc(w: XmlWriter.Writer, calls: seq<Call>, c: Call)
    requires Runs(w, calls) && Allowed(Run(w, calls).w, c)
    ensures Runs(w, calls + [c])
    ensures Run(w, calls + [c]).w == Step(Run(w, calls).w, c).w
    ensures Run(w, calls + [c]).text == Run(w, calls).text + Step(Run(w, calls).w, c).text
  {
    var mid := Run(w, calls).w;
    assert [c] + [] == [c];
    RunCons(mid, c, []);
    RunConcat(w, calls, [c]);
    assert Step(mid, c).text + "" == Step(mid, c).text;
  }

  // ------------------------------------------------------ nesting depth

  /** The number of `begin_elem` calls in a session. */
  function Opens(calls: seq<Call>): nat
    decreases |calls|
  {
    if |calls| == 0 then 0 else (if calls[0].BeginElem? then 1 else 0) + Opens(calls[1..])
  }

  /** The number of `end_elem` calls in a session. */
  function Ends(calls: seq<Call>): nat
    decreases |calls|
  {
    if |calls| == 0 then 0 else (if calls[0].EndElem? then 1 else 0) + Ends(calls[1..])
  }

  /** True when no call of the session is `close`. */
  predicate NoClose(calls: seq<Call>) {
    forall i :: 0 <= i < |calls| ==> !calls[i].Close?
  }

  /** Without `close`, the depth of the stack after a session is the depth
      before it plus the `begin_elem` calls minus the `end_elem` calls. */
  lemma {:induction false} RunDepth(w: XmlWriter.Writer, calls: seq<Call>)
    requires Runs(w, calls) && NoClose(calls)
    ensures |Run(w, calls).w.stack| == |w.stack| + Opens(calls) - Ends(calls)
    decreases |calls|
  {
    if |calls| > 0 {
      assert NoClose(calls[1..]) by {
        forall i | 0 <= i < |calls[1..]| ensures !calls[1..][i].Close? {
          assert calls[1..][i] == calls[i + 1];
        }
      }
      assert !calls[0].Close?;
      var s := Step(w, calls[0]);
      RunDepth(s.w, calls[1..]);
      assert Run(w, calls).w == Run(s.w, calls[1..]).w;
      assert Opens(calls) == (if calls[0].BeginElem? then 1 else 0) + Opens(calls[1..]);
      assert Ends(calls) == (if calls[0].EndElem? then 1 else 0) + Ends(calls[1..]);
    }
  }

  /** A balanced session (as many `end_elem` as `begin_elem` calls, no
      `close`) from a fresh writer ends with an empty stack. */
  lemma BalancedRunEmptiesStack(w: XmlWriter.Writer, calls: seq<Call>)
    requires |w.stack| == 0 && Runs(w, calls) && NoClose(calls) && Opens(calls) == Ends(calls)
    ensures |Run(w, calls).w.stack| == 0
  {
    RunDepth(w, calls);
  }

  /** Ending any session of a valid writer with `close` is always allowed and
      leaves no element open and no start tag pending. */
  lemma CloseEndsDocument(w: XmlWriter.Writer, calls: seq<Call>)
    requires XmlWriter.Valid(w) && Runs(w, calls)
    ensures Runs(w, calls + [Close])
    ensures var r := Run(w, calls + [Close]).w;
            |r.stack| == 0 && |r.nsStack| == 0 && !r.tagOpen
  {
    var mid := Run(w, calls).w;
    assert [Close] + [] == [Close];
    RunCons(mid, Close, []);
    RunConcat(w, calls, [Close]);
  }
}
