/**
 Properties of call pairs and short call sequences: how elements open and
 close in each mode, which namespace a closing tag carries, and the
 irregularities of `elem`, `elem_text` and root-level pretty printing.
 */
module Behaviour {
  import opened Wrappers
  import Escaping
  import opened XmlWriter
  import opened SeqFacts
  import AttrReading

  /** `begin_elem` then `end_elem` pops what was pushed: both stacks are back
      to their old length and contents, except that the parent, if any, is
      now flagged as having children. */
  lemma BeginEndRestoresStacks(w: Writer, name: string)
    ensures var e := EndElem(BeginElem(w, name).w).w;
            e.stack == MarkParent(w.stack) && e.nsStack == w.nsStack && !e.tagOpen
  {
    var b := BeginElem(w, name).w;
    assert b.stack[..|b.stack| - 1] == MarkParent(w.stack);
    assert b.nsStack[..|b.nsStack| - 1] == w.nsStack;
  }

  /** The tag-closing rule in a valid writer: `/>` is written exactly when a
      start tag is pending in very-pretty mode, because the `children` flag
      is always down between calls. */
  lemma SelfCloseOnlyInVeryPretty(w: Writer)
    requires Valid(w)
    ensures CloseElem(w).text == "/>" <==> w.tagOpen && ModeOf(w) == VeryPretty
    ensures CloseElem(w).text == ">" <==> w.tagOpen && ModeOf(w) != VeryPretty
  {
  }

  /** `end_elem` in a valid very-pretty writer: an element with no child
      closes as `/>` (or with nothing more, if something already closed its
      start tag), and one with children gets its closing tag indented for
      its own depth, on a new line unless nothing has been indented yet
      (possible only when the mode was switched with elements open). */
  lemma VeryPrettyEndElem(w: Writer)
    requires Valid(w) && ModeOf(w) == VeryPretty && 0 < |w.stack|
    ensures var top := w.stack[|w.stack| - 1];
            var ns := w.nsStack[|w.nsStack| - 1];
            EndElem(w).text ==
              if top.hasChildren then (if w.newline then "\n" else "") + Spaces(|w.stack| - 1) + EndTag(ns, top.name)
              else if w.tagOpen then "/>"
              else ""
  {
  }

  /** In very-pretty mode an element opened and closed with nothing in
      between is written self-closed: `<ns:name/>`. */
  lemma VeryPrettyEmptyElementSelfCloses(w: Writer, name: string)
    requires Valid(w) && ModeOf(w) == VeryPretty
    ensures var b := BeginElem(w, name);
            var e := EndElem(b.w);
            e.text == "/>" &&
            b.text + e.text == (if w.tagOpen then ">" else "") + Indent(w).text + StartTag(w.namespace, name) + "/>"
  {
  }

  /** Outside very-pretty mode the same pair writes a start tag and a
      closing tag: `<ns:name></ns:name>`. */
  lemma EmptyElementPairedTags(w: Writer, name: string)
    requires Valid(w) && ModeOf(w) != VeryPretty
    ensures var b := BeginElem(w, name);
            var e := EndElem(b.w);
            e.text == ">" + EndTag(w.namespace, name)
  {
  }

  /** An element flagged as having children, whose start tag is therefore
      already closed, always gets a closing tag with the namespace pushed
      alongside it; in very-pretty mode on a new line indented for its
      depth. */
  lemma EndElemWithChildren(u: Writer)
    requires 0 < |u.stack| && |u.stack| == |u.nsStack| && !u.tagOpen
    requires u.stack[|u.stack| - 1].hasChildren && (u.veryPretty ==> u.newline)
    ensures EndElem(u).text == (if u.veryPretty then "\n" + Spaces(|u.stack| - 1) else "")
      + EndTag(u.nsStack[|u.nsStack| - 1], u.stack[|u.stack| - 1].name)
  {
    if !u.veryPretty {
      assert CloseElem(u).text == "";
    }
  }

  /** What `begin_elem` leaves on top of the stacks. */
  lemma BeginElemTop(w: Writer, name: string)
    ensures var b := BeginElem(w, name).w;
            && |b.stack| == |w.stack| + 1 && |b.nsStack| == |w.nsStack| + 1
            && b.stack[|w.stack|] == Frame(name, false) && b.nsStack[|w.nsStack|] == w.namespace
            && b.tagOpen && b.veryPretty == w.veryPretty && (w.veryPretty ==> b.newline)
  {
  }

  /** What `text` does to the top of the stacks. */
  lemma TextTop(w: Writer, t: string)
    requires 0 < |w.stack|
    ensures var x := Text(w, t).w;
            && |x.stack| == |w.stack| && x.nsStack == w.nsStack
            && x.stack[|w.stack| - 1] == w.stack[|w.stack| - 1].(hasChildren := true)
            && !x.tagOpen && x.veryPretty == w.veryPretty && (w.newline ==> x.newline)
  {
  }

  /** The closing tag carries the namespace that was current when the element
      was opened, even when the namespace changes inside it. Here `p` is
      current at `begin_elem`, `q` is set inside the element, and a text
      child makes sure that the closing tag is written in every mode. */
  lemma ClosingTagUsesOpeningNamespace(w: Writer, p: Option<string>, q: Option<string>, name: string, t: string)
    requires Valid(w)
    ensures var b := BeginElem(SetNamespace(w, p), name);
            var x := Text(SetNamespace(b.w, q), t);
            var e := EndElem(x.w);
            e.text == (if ModeOf(w) == VeryPretty then "\n" + Spaces(|w.stack|) else "") + EndTag(p, name)
  {
    var w1 := SetNamespace(w, p);
    var b := BeginElem(w1, name);
    var b1 := SetNamespace(b.w, q);
    var x := Text(b1, t);
    var k := |w.stack|;
    BeginElemTop(w1, name);
    assert |b1.stack| == k + 1 && b1.stack == b.w.stack && b1.nsStack == b.w.nsStack;
    TextTop(b1, t);
    assert x.w.stack[k] == Frame(name, true) && x.w.nsStack[k] == p;
    EndElemWithChildren(x.w);
  }

  /** Pretty mode: an element at depth `d > 0` starts on a new line indented
      by `2d` spaces; at the root it gets neither. */
  lemma PrettyBeginIndent(w: Writer, name: string)
    requires ModeOf(w) == Pretty
    ensures BeginElem(w, name).text ==
      (if w.tagOpen then ">" else "")
      + (if |w.stack| == 0 then "" else "\n" + Spaces(|w.stack|))
      + StartTag(w.namespace, name)
  {
  }

  /** As written, pretty mode indents nothing at the root, so two root-level
      comments are written one straight after the other, with no line break
      or indentation before either. */
  lemma PrettyRootSiblingsShareLine(w: Writer, a: string, b: string)
    requires Valid(w) && ModeOf(w) == Pretty && |w.stack| == 0
    ensures var c1 := Comment(w, a);
            && c1.text == "<!-- " + Escaping.Escape(a, false) + " -->"
            && Comment(c1.w, b).text == "<!-- " + Escaping.Escape(b, false) + " -->"
  {
    var c1 := Comment(w, a);
    UnindentedComment(w, a);
    assert c1.w.stack == [] && !c1.w.tagOpen && ModeOf(c1.w) == Pretty;
    UnindentedComment(c1.w, b);
  }

  /** A comment with no pending start tag and nothing to indent is written
      bare. */
  lemma UnindentedComment(w: Writer, a: string)
    requires !w.tagOpen && Indent(w).text == ""
    ensures Comment(w, a).text == "<!-- " + Escaping.Escape(a, false) + " -->"
  {
    var e := Escaping.Escape(a, false);
    assert "" + "" + "<!-- " + e + " -->" == "<!-- " + e + " -->";
  }

  /** As written, `elem` inside an element in very-pretty mode does not flag
      the parent, so the parent's start tag is self-closed before the child
      is written and `end_elem` writes nothing for the parent: the child ends
      up after `<parent/>` instead of inside it. */
  lemma VeryPrettyElemSelfClosesParent(w: Writer, parent: string, child: string)
    requires Valid(w) && ModeOf(w) == VeryPretty
    ensures var b := BeginElem(w, parent);
            var c := Elem(b.w, child);
            var e := EndElem(c.w);
            c.text == "/>\n" + Spaces(|w.stack| + 1) + StartTag(w.namespace, child) + "/>" &&
            e.text == ""
  {
    var b := BeginElem(w, parent);
    var k := |w.stack|;
    BeginElemTop(w, parent);
    assert b.w.newline && b.w.tagOpen && |b.w.stack| == k + 1 && !b.w.children;
    assert Indent(b.w).text == "\n" + Spaces(k + 1);
    var c := Elem(b.w, child);
    assert c.w.stack == b.w.stack && !c.w.tagOpen;
    assert !c.w.stack[k].hasChildren;
  }

  /** As written, `elem_text` prefixes its start tag with the namespace but
      not its closing tag, in every mode and whether or not a start tag is
      pending. */
  lemma ElemTextClosingTagUnprefixed(w: Writer, p: string, name: string, t: string)
    ensures ElemText(SetNamespace(w, Some(p)), name, t).text
      == CloseElem(w).text + Indent(w).text + ("<" + (p + ":") + name) + ">"
         + Escaping.Escape(t, false) + ("</" + name + ">")
  {
    var u := SetNamespace(w, Some(p));
    assert CloseElem(u).text == CloseElem(w).text;
    assert Indent(u).text == Indent(w).text;
    assert StartTag(u.namespace, name) == "<" + (p + ":") + name;
    assert EndTag(None, name) == "</" + name + ">";
  }

  /** A start tag can only be pending inside an open element, so on an empty
      stack `close_elem` writes nothing; in particular `end_elem` on an
      empty stack panics before writing anything. */
  lemma EmptyStackNothingPending(w: Writer)
    requires Valid(w) && |w.stack| == 0
    ensures CloseElem(w).text == "" && !w.tagOpen
  {
  }

  // ------------------------------------------------------ qualified names

  /** Reference reader for a qualified name: the text before the first `:`
      is the namespace prefix, the rest is the local name. */
  function SplitQName(q: string): (r: (Option<string>, string))
    ensures ':' !in q ==> r == (None, q)
  {
    var i := AttrReading.IndexOf(q, ':');
    if i < |q| then (Some(q[..i]), q[i + 1..]) else (None, q)
  }

  /** What `ns_prefix` writes in front of a name reads back as the namespace
      and the name, provided neither holds a colon. */
  lemma PrefixTextReadsBack(ns: Option<string>, name: string)
    requires ns.Some? ==> ':' !in ns.value
    requires ':' !in name
    ensures SplitQName(PrefixText(ns) + name) == (ns, name)
  {
    match ns
    case None =>
      assert PrefixText(ns) + name == name;
    case Some(p) =>
      var q := PrefixText(ns) + name;
      assert q == p + ":" + name;
      assert q[|p|] == ':';
      assert forall j :: 0 <= j < |p| ==> q[j] == p[j];
      AttrReading.IndexOfFirst(q, ':', |p|);
      assert q[..|p|] == p;
      assert q[|p| + 1..] == name;
  }

  /** The attribute name `ns_decl` writes for a prefix reads as `xmlns`
      itself for the default namespace and as `prefix` in the `xmlns`
      namespace otherwise. */
  lemma XmlnsNameReadsBack(prefix: Option<string>)
    requires prefix.Some? ==> ':' !in prefix.value
    ensures SplitQName(XmlnsName(prefix))
      == if prefix.None? then (None, "xmlns") else (Some("xmlns"), prefix.value)
  {
    match prefix
    case None =>
      assert ':' !in "xmlns";
    case Some(p) =>
      assert XmlnsName(prefix) == PrefixText(Some("xmlns")) + p;
      PrefixTextReadsBack(Some("xmlns"), p);
  }

  /** The closing tag repeats the start tag's qualified name. */
  lemma EndTagMirrorsStartTag(ns: Option<string>, name: string)
    ensures EndTag(ns, name) == "</" + StartTag(ns, name)[1..] + ">"
  {
    assert StartTag(ns, name)[1..] == PrefixText(ns) + name;
  }

  // ----------------------------------------------------------- closing all

  /** Reference definition: the closing tags of a stack of open elements,
      innermost first, each with the namespace pushed alongside it. */
  function ClosingTags(stack: seq<Frame>, nsStack: seq<Option<string>>): (r: string)
    requires |stack| <= |nsStack|
    ensures |stack| == 0 <==> r == ""
    decreases |stack|
  {
    if |stack| == 0 then ""
    else
      EndTag(nsStack[|nsStack| - 1], stack[|stack| - 1].name)
        + ClosingTags(stack[..|stack| - 1], nsStack[..|nsStack| - 1])
  }

  /** One `end_elem` outside very-pretty mode: the pending start tag, if
      any, is closed and the innermost closing tag written. */
  lemma EndElemClosingTag(w: Writer)
    requires 0 < |w.stack| && |w.stack| == |w.nsStack| && ModeOf(w) != VeryPretty
    ensures var e := EndElem(w);
            && e.text == (if w.tagOpen then ">" else "") + EndTag(w.nsStack[|w.nsStack| - 1], w.stack[|w.stack| - 1].name)
            && e.w.stack == w.stack[..|w.stack| - 1] && e.w.nsStack == w.nsStack[..|w.nsStack| - 1]
            && !e.w.tagOpen && ModeOf(e.w) == ModeOf(w)
  {
  }

  lemma ClosingTagsFirst(stack: seq<Frame>, nsStack: seq<Option<string>>)
    requires 0 < |stack| <= |nsStack|
    ensures ClosingTags(stack, nsStack) == EndTag(nsStack[|nsStack| - 1], stack[|stack| - 1].name)
      + ClosingTags(stack[..|stack| - 1], nsStack[..|nsStack| - 1])
  {
  }

  /** Outside very-pretty mode, ending every open element closes a pending
      start tag and writes the closing tags innermost first. */
  lemma {:induction false} EndAllWritesClosingTags(w: Writer)
    requires |w.stack| == |w.nsStack| && ModeOf(w) != VeryPretty
    ensures EndElems(w, |w.stack|).text == (if 0 < |w.stack| && w.tagOpen then ">" else "")
      + ClosingTags(w.stack, w.nsStack)
    decreases |w.stack|
  {
    var k := |w.stack|;
    if 0 < k {
      var e := EndElem(w);
      var pre := if w.tagOpen then ">" else "";
      var top := EndTag(w.nsStack[k - 1], w.stack[k - 1].name);
      var restTags := ClosingTags(e.w.stack, e.w.nsStack);
      EndElemClosingTag(w);
      EndAllWritesClosingTags(e.w);
      EmptyConcat(restTags);
      EndElemsFirst(w, k);
      ClosingTagsFirst(w.stack, w.nsStack);
      ConcatAssoc(pre, top, restTags);
    }
  }

  /** Outside very-pretty mode, `close` closes a pending start tag and then
      writes the closing tag of every open element, innermost first. */
  lemma CloseWritesClosingTags(w: Writer)
    requires Valid(w) && ModeOf(w) != VeryPretty
    ensures Close(w).text == (if w.tagOpen then ">" else "") + ClosingTags(w.stack, w.nsStack)
  {
    EndAllWritesClosingTags(w);
  }
}
