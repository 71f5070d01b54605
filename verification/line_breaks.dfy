/**
 Where line breaks come from. In compact mode the writer adds no whitespace
 of its own, so a session whose arguments hold no line break writes none;
 the only line break the writer itself writes in compact mode is the one that
 ends the `dtd` declaration.
 */
module LineBreaks {
  import opened Wrappers
  import Escaping
  import XmlWriter
  import opened Session

  /** A string with no line break. */
  predicate NoBreak(s: string) {
    '\n' !in s
  }

  /** A namespace whose prefix, if any, holds no line break. */
  predicate NsNoBreak(ns: Option<string>) {
    ns.Some? ==> NoBreak(ns.value)
  }

  /** Every name and namespace the writer remembers is free of line breaks:
      these are what closing tags are built from. */
  predicate StateNoBreak(w: XmlWriter.Writer) {
    && NsNoBreak(w.namespace)
    && (forall i :: 0 <= i < |w.nsStack| ==> NsNoBreak(w.nsStack[i]))
    && (forall i :: 0 <= i < |w.stack| ==> NoBreak(w.stack[i].name))
  }

  /** Every (prefix, uri) pair of a namespace declaration list is free of
      line breaks. */
  predicate DeclsNoBreak(nsMap: seq<(Option<string>, string)>) {
    forall i :: 0 <= i < |nsMap| ==> NsNoBreak(nsMap[i].0) && NoBreak(nsMap[i].1)
  }

  /** A call whose arguments hold no line break and which keeps the writer in
      compact mode. `dtd` is excluded: its declaration ends with a line break
      in every mode. */
  predicate CallNoBreak(c: Call) {
    match c
    case Dtd(_) => false
    case Write(text) => NoBreak(text)
    case SetNamespace(ns) => NsNoBreak(ns)
    case SetCompactMode => true
    case SetPrettyMode => false
    case SetVeryPrettyMode => false
    case NsDecl(nsMap) => DeclsNoBreak(nsMap)
    case Elem(name) => NoBreak(name)
    case ElemText(name, text) => NoBreak(name) && NoBreak(text)
    case BeginElem(name) => NoBreak(name)
    case EndElem => true
    case EmptyElem(name) => NoBreak(name)
    case Attr(name, value) => NoBreak(name) && NoBreak(value)
    case AttrEsc(name, value) => NoBreak(name) && NoBreak(value)
    case Text(text) => NoBreak(text)
    case Cdata(text) => NoBreak(text)
    case Comment(text) => NoBreak(text)
    case Close => true
  }

  /** Escaping never introduces a line break. */
  lemma EscapeNoBreak(s: string, ident: bool)
    ensures NoBreak(Escaping.Escape(s, ident)) <==> NoBreak(s)
  {
    Escaping.EscapeKeepsPlainChar(s, ident, '\n');
  }

  lemma TagsNoBreak(ns: Option<string>, name: string)
    requires NsNoBreak(ns) && NoBreak(name)
    ensures NoBreak(XmlWriter.StartTag(ns, name)) && NoBreak(XmlWriter.EndTag(ns, name))
  {
  }

  lemma {:induction false} NsDeclNoBreak(w: XmlWriter.Writer, nsMap: seq<(Option<string>, string)>)
    requires w.tagOpen && DeclsNoBreak(nsMap)
    ensures NoBreak(XmlWriter.NsDecl(w, nsMap).text)
    decreases |nsMap|
  {
    if 0 < |nsMap| {
      assert NsNoBreak(nsMap[0].0) && NoBreak(nsMap[0].1);
      assert DeclsNoBreak(nsMap[1..]) by {
        forall i | 0 <= i < |nsMap[1..]| ensures NsNoBreak(nsMap[1..][i].0) && NoBreak(nsMap[1..][i].1) {
          assert nsMap[1..][i] == nsMap[i + 1];
        }
      }
      NsDeclNoBreak(w, nsMap[1..]);
    }
  }

  /** A writer whose remembered names are free of line breaks keeps them
      free of line breaks when elements are popped. */
  lemma PopNoBreak(w: XmlWriter.Writer)
    requires 0 < |w.nsStack| && 0 < |w.stack| && StateNoBreak(w)
    ensures StateNoBreak(XmlWriter.Pop(w))
    ensures NsNoBreak(w.nsStack[|w.nsStack| - 1]) && NoBreak(w.stack[|w.stack| - 1].name)
  {
  }

  /** What a call may leave behind for the next one: a compact writer
      whose remembered names are free of line breaks. */
  predicate Clean(w: XmlWriter.Writer) {
    XmlWriter.ModeOf(w) == XmlWriter.Compact && StateNoBreak(w)
  }

  /** The same pair, with a text: nothing written holds a line break. */
  predicate CleanWritten(r: XmlWriter.Written) {
    NoBreak(r.text) && Clean(r.w)
  }

  lemma ElemNoBreak(w: XmlWriter.Writer, name: string)
    requires Clean(w) && NoBreak(name)
    ensures CleanWritten(XmlWriter.Elem(w, name))
  {
    TagsNoBreak(w.namespace, name);
  }

  lemma ElemTextNoBreak(w: XmlWriter.Writer, name: string, text: string)
    requires Clean(w) && NoBreak(name) && NoBreak(text)
    ensures CleanWritten(XmlWriter.ElemText(w, name, text))
  {
    TagsNoBreak(w.namespace, name);
    TagsNoBreak(None, name);
    EscapeNoBreak(text, false);
  }

  lemma BeginElemNoBreak(w: XmlWriter.Writer, name: string)
    requires Clean(w) && NoBreak(name)
    ensures CleanWritten(XmlWriter.BeginElem(w, name))
  {
    TagsNoBreak(w.namespace, name);
    var r := XmlWriter.BeginElem(w, name).w;
    assert forall i :: 0 <= i < |r.stack| ==> NoBreak(r.stack[i].name) by {
      forall i | 0 <= i < |r.stack| ensures NoBreak(r.stack[i].name) {
        if i < |w.stack| {
          assert r.stack[i].name == XmlWriter.MarkParent(w.stack)[i].name == w.stack[i].name;
        }
      }
    }
  }

  lemma EndElemNoBreak(w: XmlWriter.Writer)
    requires 0 < |w.nsStack| && 0 < |w.stack| && Clean(w)
    ensures CleanWritten(XmlWriter.EndElem(w))
  {
    PopNoBreak(w);
    TagsNoBreak(w.nsStack[|w.nsStack| - 1], w.stack[|w.stack| - 1].name);
  }

  /** Flagging the parent keeps every name. */
  lemma MarkParentNoBreak(w: XmlWriter.Writer)
    requires StateNoBreak(w)
    ensures StateNoBreak(w.(stack := XmlWriter.MarkParent(w.stack)))
  {
    var m := XmlWriter.MarkParent(w.stack);
    assert forall i :: 0 <= i < |m| ==> NoBreak(m[i].name) by {
      forall i | 0 <= i < |m| ensures NoBreak(m[i].name) {
        assert m[i].name == w.stack[i].name;
      }
    }
  }

  lemma EmptyElemNoBreak(w: XmlWriter.Writer, name: string)
    requires Clean(w) && NoBreak(name)
    ensures CleanWritten(XmlWriter.EmptyElem(w, name))
  {
    TagsNoBreak(w.namespace, name);
    MarkParentNoBreak(w);
  }

  lemma AttrEscNoBreak(w: XmlWriter.Writer, name: string, value: string)
    requires w.tagOpen && Clean(w) && NoBreak(name) && NoBreak(value)
    ensures CleanWritten(XmlWriter.AttrEsc(w, name, value))
  {
    EscapeNoBreak(name, true);
    EscapeNoBreak(value, false);
  }

  lemma TextNoBreak(w: XmlWriter.Writer, text: string)
    requires Clean(w) && NoBreak(text)
    ensures CleanWritten(XmlWriter.Text(w, text))
  {
    EscapeNoBreak(text, false);
    MarkParentNoBreak(w);
  }

  lemma CdataNoBreak(w: XmlWriter.Writer, text: string)
    requires Clean(w) && NoBreak(text)
    ensures CleanWritten(XmlWriter.Cdata(w, text))
  {
    MarkParentNoBreak(w);
  }

  lemma CommentNoBreak(w: XmlWriter.Writer, text: string)
    requires Clean(w) && NoBreak(text)
    ensures CleanWritten(XmlWriter.Comment(w, text))
  {
    EscapeNoBreak(text, false);
    MarkParentNoBreak(w);
  }

  lemma NoBreakConcat(a: string, b: string)
    requires NoBreak(a) && NoBreak(b)
    ensures NoBreak(a + b)
  {
  }

  /** A run of `end_elem` calls on a clean writer writes no line break. */
  lemma {:induction false} EndElemsNoBreak(w: XmlWriter.Writer, n: nat)
    requires n <= |w.stack| && n <= |w.nsStack| && Clean(w)
    ensures NoBreak(XmlWriter.EndElems(w, n).text)
    decreases n
  {
    if 0 < n {
      var e := XmlWriter.EndElem(w);
      EndElemNoBreak(w);
      EndElemsNoBreak(e.w, n - 1);
      var rest := XmlWriter.EndElems(e.w, n - 1);
      XmlWriter.EndElemsFirst(w, n);
      NoBreakConcat(e.text, rest.text);
    }
  }

  lemma CloseNoBreak(w: XmlWriter.Writer)
    requires |w.stack| <= |w.nsStack| && Clean(w)
    ensures CleanWritten(XmlWriter.Close(w))
  {
    EndElemsNoBreak(w, |w.stack|);
  }

  /** One compact-mode call with line-break-free arguments writes no line
      break and leaves a compact writer whose names are line-break free. */
  lemma StepNoBreak(w: XmlWriter.Writer, c: Call)
    requires Allowed(w, c) && CallNoBreak(c) && Clean(w)
    ensures CleanWritten(Step(w, c))
  {
    match c
    case NsDecl(nsMap) => NsDeclNoBreak(w, nsMap);
    case Elem(name) => ElemNoBreak(w, name);
    case ElemText(name, text) => ElemTextNoBreak(w, name, text);
    case BeginElem(name) => BeginElemNoBreak(w, name);
    case EndElem => EndElemNoBreak(w);
    case EmptyElem(name) => EmptyElemNoBreak(w, name);
    case AttrEsc(name, value) => AttrEscNoBreak(w, name, value);
    case Text(text) => TextNoBreak(w, text);
    case Cdata(text) => CdataNoBreak(w, text);
    case Comment(text) => CommentNoBreak(w, text);
    case Close => CloseNoBreak(w);
    case _ =>
  }

  /** A compact-mode session whose arguments, and the writer's remembered
      names, hold no line break writes no line break. */
  lemma {:induction false} CompactRunNoBreak(w: XmlWriter.Writer, calls: seq<Call>)
    requires Runs(w, calls)
    requires forall i :: 0 <= i < |calls| ==> CallNoBreak(calls[i])
    requires Clean(w)
    ensures NoBreak(Run(w, calls).text)
    decreases |calls|
  {
    if 0 < |calls| {
      var s := Step(w, calls[0]);
      StepNoBreak(w, calls[0]);
      assert forall i :: 0 <= i < |calls[1..]| ==> CallNoBreak(calls[1..][i]) by {
        forall i | 0 <= i < |calls[1..]| ensures CallNoBreak(calls[1..][i]) {
          assert calls[1..][i] == calls[i + 1];
        }
      }
      CompactRunNoBreak(s.w, calls[1..]);
      assert Run(w, calls).text == s.text + Run(s.w, calls[1..]).text;
    }
  }

  /** A fresh compact writer starts with nothing remembered, so every
      session of line-break-free calls from it writes no line break. */
  lemma CompactDocumentNoBreak(calls: seq<Call>)
    requires Runs(XmlWriter.CompactMode(), calls)
    requires forall i :: 0 <= i < |calls| ==> CallNoBreak(calls[i])
    ensures NoBreak(Run(XmlWriter.CompactMode(), calls).text)
  {
    CompactRunNoBreak(XmlWriter.CompactMode(), calls);
  }

  /** The one line break the writer writes on its own in compact mode. */
  lemma DtdEndsWithBreak(w: XmlWriter.Writer, encoding: string)
    ensures !NoBreak(XmlWriter.Dtd(w, encoding).text)
  {
    var t := XmlWriter.Dtd(w, encoding).text;
    assert t[|t| - 1] == '\n';
  }
}
