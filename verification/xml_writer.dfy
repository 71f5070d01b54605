/**
 The streaming writer of src/xml_writer.rs as an immutable state machine.
 A call takes the writer's state to its next state and appends some text to
 the sink; the model returns both, as a `Written` value, and the sink itself
 is the concatenation of the texts of all calls made so far (see module
 Session). Nothing written is ever taken back.
 */
module XmlWriter {
  import opened Wrappers
  import Escaping

  /** One entry of the open-element stack: the element name and whether a
      child has been appended under it. */
  datatype Frame = Frame(name: string, hasChildren: bool)

  /** The writer's fields, less the sink. */
  datatype Writer = Writer(
    stack: seq<Frame>,
    nsStack: seq<Option<string>>,
    tagOpen: bool,
    pretty: bool,
    namespace: Option<string>,
    veryPretty: bool,
    children: bool,
    newline: bool)

  /** What one call leaves behind: the next state and the text appended to
      the sink. */
  datatype Written = Written(w: Writer, text: string)

  /** The three output modes the two mode flags encode. */
  datatype Mode = Compact | Pretty | VeryPretty

  function ModeOf(w: Writer): Mode {
    if w.veryPretty then VeryPretty else if w.pretty then Pretty else Compact
  }

  /** What holds of every writer the public operations can produce: the two
      stacks move in lockstep, an unterminated start tag belongs to an open
      element with no child yet, very-pretty mode includes pretty mode, and
      the transient `children` flag is down between calls. */
  predicate Valid(w: Writer) {
    && |w.stack| == |w.nsStack|
    && (w.tagOpen ==> 0 < |w.stack| && !w.stack[|w.stack| - 1].hasChildren)
    && (w.veryPretty ==> w.pretty)
    && !w.children
  }

  // ---------------------------------------------------------------- creation

  function Fresh(pretty: bool, veryPretty: bool): Writer {
    Writer([], [], false, pretty, None, veryPretty, false, false)
  }

  /** `compact_mode`: a writer that adds no whitespace. */
  function CompactMode(): (w: Writer)
    ensures Valid(w) && ModeOf(w) == Compact
    ensures |w.stack| == 0 && !w.tagOpen && w.namespace == None && !w.newline
  {
    Fresh(false, false)
  }

  /** `pretty_mode`: a writer that indents nested nodes. */
  function PrettyMode(): (w: Writer)
    ensures Valid(w) && ModeOf(w) == Pretty
    ensures |w.stack| == 0 && !w.tagOpen && w.namespace == None && !w.newline
  {
    Fresh(true, false)
  }

  /** `very_pretty_mode`: a writer that also puts closing tags on lines of
      their own and self-closes elements without children. */
  function VeryPrettyMode(): (w: Writer)
    ensures Valid(w) && ModeOf(w) == VeryPretty
    ensures |w.stack| == 0 && !w.tagOpen && w.namespace == None && !w.newline
  {
    Fresh(true, true)
  }

  /** `set_compact_mode`: switches the mode and nothing else. */
  function SetCompactMode(w: Writer): (r: Writer)
    ensures ModeOf(r) == Compact
    ensures r.(pretty := w.pretty, veryPretty := w.veryPretty) == w
    ensures Valid(w) ==> Valid(r)
  {
    w.(pretty := false, veryPretty := false)
  }

  /** `set_pretty_mode`: switches the mode and nothing else. */
  function SetPrettyMode(w: Writer): (r: Writer)
    ensures ModeOf(r) == Pretty
    ensures r.(pretty := w.pretty, veryPretty := w.veryPretty) == w
    ensures Valid(w) ==> Valid(r)
  {
    w.(pretty := true, veryPretty := false)
  }

  /** `set_very_pretty_mode`: switches the mode and nothing else. */
  function SetVeryPrettyMode(w: Writer): (r: Writer)
    ensures ModeOf(r) == VeryPretty
    ensures r.(pretty := w.pretty, veryPretty := w.veryPretty) == w
    ensures Valid(w) ==> Valid(r)
  {
    w.(pretty := true, veryPretty := true)
  }

  /** Assigning the public `namespace` field. */
  function SetNamespace(w: Writer, ns: Option<string>): (r: Writer)
    ensures r.namespace == ns && r.(namespace := w.namespace) == w
    ensures Valid(w) ==> Valid(r)
  {
    w.(namespace := ns)
  }

  // ------------------------------------------------------------- raw output

  /** `write`: appends `text` to the sink as it is, touching no state. */
  function Write(w: Writer, text: string): (r: Written)
    ensures r.w == w && r.text == text
  {
    Written(w, text)
  }

  /** `dtd`: the XML declaration line with the given encoding, unescaped;
      no state is touched. */
  function Dtd(w: Writer, encoding: string): (r: Written)
    ensures r.w == w
    ensures r.text == "<?xml version=\"1.0\" encoding=\"" + encoding + "\" ?>\n"
  {
    Written(w, "<?xml version=\"1.0\" encoding=\"" + encoding + "\" ?>\n")
  }

  /** The text of `n` writes of two spaces. */
  function Spaces(n: nat): (s: string)
    ensures |s| == 2 * n
    ensures forall i :: 0 <= i < |s| ==> s[i] == ' '
  {
    if n == 0 then [] else "  " + Spaces(n - 1)
  }

  /** `indent`: compact mode writes nothing; pretty mode writes a line break
      and two spaces per open element, but only inside an element; very-pretty
      mode writes two spaces per open element, after a line break on every
      call but its first, and the first call raises `newline`. */
  function Indent(w: Writer): (r: Written)
    ensures r.w == w.(newline := w.newline || w.veryPretty)
    ensures ModeOf(w) == Compact ==> r.text == ""
    ensures ModeOf(w) == Pretty ==> r.text == (if |w.stack| == 0 then "" else "\n" + Spaces(|w.stack|))
    ensures ModeOf(w) == VeryPretty ==> r.text == (if w.newline then "\n" else "") + Spaces(|w.stack|)
  {
    var depth := |w.stack|;
    if w.veryPretty then
      if w.newline then Written(w, "\n" + Spaces(depth))
      else Written(w.(newline := true), Spaces(depth))
    else if w.pretty && 0 < depth then
      Written(w, "\n" + Spaces(depth))
    else
      Written(w, "")
  }

  /** The qualified-name prefix `ns:` of a namespace, empty without one. */
  function PrefixText(ns: Option<string>): string {
    match ns
    case None => ""
    case Some(p) => p + ":"
  }

  /** A start tag `<ns:name`, not yet terminated. */
  function StartTag(ns: Option<string>, name: string): string {
    "<" + PrefixText(ns) + name
  }

  /** A closing tag `</ns:name>`. */
  function EndTag(ns: Option<string>, name: string): string {
    "</" + PrefixText(ns) + name + ">"
  }

  // ------------------------------------------------------------ tag closing

  /** `close_elem`: terminates a pending start tag, with `/>` in very-pretty
      mode while `children` is down and with `>` otherwise; without a pending
      start tag it does nothing. */
  function CloseElem(w: Writer): (r: Written)
    ensures r.w == w.(tagOpen := false)
    ensures !w.tagOpen ==> r.text == ""
    ensures w.tagOpen ==> r.text == (if ModeOf(w) == VeryPretty && !w.children then "/>" else ">")
  {
    if w.tagOpen then
      Written(w.(tagOpen := false), if w.veryPretty && !w.children then "/>" else ">")
    else
      Written(w, "")
  }

  /** Flags the innermost open element, if any, as having children. */
  function MarkParent(stack: seq<Frame>): (r: seq<Frame>)
    ensures |r| == |stack|
    ensures forall i :: 0 <= i < |r| ==> r[i].name == stack[i].name
    ensures forall i :: 0 <= i < |r| - 1 ==> r[i] == stack[i]
    ensures 0 < |r| ==> r[|r| - 1].hasChildren
  {
    if |stack| == 0 then stack
    else stack[..|stack| - 1] + [stack[|stack| - 1].(hasChildren := true)]
  }

  /** The steps every operation that appends a child node begins with:
      raise `children`, close a pending start tag, which therefore gets `>`
      and never `/>`, and flag the parent. */
  function OpenChild(w: Writer): (r: Written)
    ensures r.w == w.(stack := MarkParent(w.stack), tagOpen := false, children := true)
    ensures r.text == (if w.tagOpen then ">" else "")
  {
    var c := CloseElem(w.(children := true));
    Written(c.w.(stack := MarkParent(c.w.stack)), c.text)
  }

  // ------------------------------------------------------------- elements

  /** `begin_elem`: closes a pending start tag with `>`, flags the parent,
      indents for the depth before the push, writes `<ns:name`, pushes the
      element and the current namespace, and leaves the start tag open. */
  function BeginElem(w: Writer, name: string): (r: Written)
    ensures r.w == w.(stack := MarkParent(w.stack) + [Frame(name, false)],
                      nsStack := w.nsStack + [w.namespace],
                      tagOpen := true, children := false, newline := w.newline || w.veryPretty)
    ensures r.text == (if w.tagOpen then ">" else "") + Indent(w).text + StartTag(w.namespace, name)
    ensures Valid(w) ==> Valid(r.w)
  {
    var c := OpenChild(w);
    var i := Indent(c.w);
    var pushed := i.w.(stack := i.w.stack + [Frame(name, false)], nsStack := i.w.nsStack + [i.w.namespace]);
    Written(pushed.(tagOpen := true, children := false), c.text + i.text + StartTag(pushed.namespace, name))
  }

  /** The writer with the innermost element popped from both stacks. */
  function Pop(w: Writer): (r: Writer)
    requires 0 < |w.nsStack| && 0 < |w.stack|
    ensures r == w.(stack := w.stack[..|w.stack| - 1], nsStack := w.nsStack[..|w.nsStack| - 1])
  {
    var ns := w.nsStack[..|w.nsStack| - 1];
    w.(nsStack := ns).(stack := w.stack[..|w.stack| - 1])
  }

  /** `end_elem`: closes a pending start tag and pops both stacks; outside
      very-pretty mode it then writes `</ns:name>` with the namespace that
      was pushed when the element was opened; in very-pretty mode it writes
      nothing more for an element never flagged as having children (its
      start tag was self-closed) and an indented closing tag for one that
      was. Both stacks must be non-empty. */
  function EndElem(w: Writer): (r: Written)
    requires 0 < |w.nsStack| && 0 < |w.stack|
    ensures r.w == Pop(w).(tagOpen := false,
                           newline := w.newline || (w.veryPretty && w.stack[|w.stack| - 1].hasChildren))
    ensures !w.veryPretty ==>
      r.text == CloseElem(w).text + EndTag(w.nsStack[|w.nsStack| - 1], w.stack[|w.stack| - 1].name)
    ensures w.veryPretty && !w.stack[|w.stack| - 1].hasChildren ==> r.text == CloseElem(w).text
    ensures w.veryPretty && w.stack[|w.stack| - 1].hasChildren ==>
      r.text == CloseElem(w).text + Indent(Pop(w)).text + EndTag(w.nsStack[|w.nsStack| - 1], w.stack[|w.stack| - 1].name)
    ensures Valid(w) ==> Valid(r.w)
  {
    var c := CloseElem(w);
    var ns := c.w.nsStack[|c.w.nsStack| - 1];
    var top := c.w.stack[|c.w.stack| - 1];
    var popped := Pop(c.w);
    if popped.veryPretty && !top.hasChildren then
      Written(popped, c.text)
    else if popped.veryPretty then
      var i := Indent(popped);
      Written(i.w, c.text + i.text + EndTag(ns, top.name))
    else
      Written(popped, c.text + EndTag(ns, top.name))
  }

  /** `elem`: writes a self-closed `<ns:name/>`. It neither raises
      `children` nor flags the parent, so a pending start tag is closed by
      the tag-closing rule as if its element had no child. */
  function Elem(w: Writer, name: string): (r: Written)
    ensures r.w == w.(tagOpen := false, newline := w.newline || w.veryPretty)
    ensures r.text == CloseElem(w).text + Indent(w).text + StartTag(w.namespace, name) + "/>"
    ensures Valid(w) ==> Valid(r.w)
  {
    var c := CloseElem(w);
    var i := Indent(c.w);
    Written(i.w, c.text + i.text + StartTag(i.w.namespace, name) + "/>")
  }

  /** `elem_text`: writes `<ns:name>`, the escaped text and `</name>`. The
      closing tag carries no namespace prefix, and like `elem` it leaves the
      stack and `children` alone. */
  function ElemText(w: Writer, name: string, text: string): (r: Written)
    ensures r.w == w.(tagOpen := false, newline := w.newline || w.veryPretty)
    ensures r.text == CloseElem(w).text + Indent(w).text + StartTag(w.namespace, name) + ">"
                      + Escaping.Escape(text, false) + EndTag(None, name)
    ensures Valid(w) ==> Valid(r.w)
  {
    var c := CloseElem(w);
    var i := Indent(c.w);
    var closing := "</" + name + ">";
    assert closing == EndTag(None, name);
    Written(i.w, c.text + i.text + StartTag(i.w.namespace, name) + ">"
                 + Escaping.Escape(text, false) + closing)
  }

  /** `empty_elem`: like `elem`, but as a child node it closes a pending
      start tag with `>` and flags the parent as having children. */
  function EmptyElem(w: Writer, name: string): (r: Written)
    ensures r.w == w.(stack := MarkParent(w.stack), tagOpen := false, children := false, newline := w.newline || w.veryPretty)
    ensures r.text == (if w.tagOpen then ">" else "") + Indent(w).text + StartTag(w.namespace, name) + "/>"
    ensures Valid(w) ==> Valid(r.w)
  {
    var c := OpenChild(w);
    var i := Indent(c.w.(children := false));
    Written(i.w, c.text + i.text + StartTag(i.w.namespace, name) + "/>")
  }

  // ------------------------------------------------------------ attributes

  /** `attr`: appends ` name="value"` with neither part escaped and changes
      no state. Only allowed while a start tag is open. */
  function Attr(w: Writer, name: string, value: string): (r: Written)
    requires w.tagOpen
    ensures r.w == w && r.text == " " + name + "=\"" + value + "\""
  {
    Written(w, " " + name + "=\"" + value + "\"")
  }

  /** `attr_esc`: like `attr`, with the name escaped as an identifier and the
      value as text. Only allowed while a start tag is open. */
  function AttrEsc(w: Writer, name: string, value: string): (r: Written)
    requires w.tagOpen
    ensures r.w == w
    ensures r.text == " " + Escaping.Escape(name, true) + "=\"" + Escaping.Escape(value, false) + "\""
  {
    Written(w, " " + Escaping.Escape(name, true) + "=\"" + Escaping.Escape(value, false) + "\"")
  }

  /** The attribute name declaring a namespace prefix, or the default one. */
  function XmlnsName(prefix: Option<string>): string {
    match prefix
    case None => "xmlns"
    case Some(p) => "xmlns:" + p
  }

  /** `ns_decl`: one unescaped `xmlns` attribute per (prefix, uri) pair, in
      order, and no change of state. Only allowed while a start tag is open,
      even for an empty list. */
  function NsDecl(w: Writer, nsMap: seq<(Option<string>, string)>): (r: Written)
    requires w.tagOpen
    ensures r.w == w
    ensures |nsMap| == 0 <==> r.text == []
    decreases |nsMap|
  {
    if |nsMap| == 0 then Written(w, [])
    else
      var a := Attr(w, XmlnsName(nsMap[0].0), nsMap[0].1);
      var rest := NsDecl(a.w, nsMap[1..]);
      Written(rest.w, a.text + rest.text)
  }

  // ------------------------------------------------------------ other nodes

  /** `text`: escaped character data as a child node, on a line of its own
      only in very-pretty mode. */
  function Text(w: Writer, text: string): (r: Written)
    ensures r.w == w.(stack := MarkParent(w.stack), tagOpen := false, children := false, newline := w.newline || w.veryPretty)
    ensures r.text == (if w.tagOpen then ">" else "") + (if w.veryPretty then Indent(w).text else "")
                      + Escaping.Escape(text, false)
    ensures Valid(w) ==> Valid(r.w)
  {
    var c := OpenChild(w);
    var i := if c.w.veryPretty then Indent(c.w.(children := false)) else Written(c.w.(children := false), "");
    Written(i.w, c.text + i.text + Escaping.Escape(text, false))
  }

  /** `cdata`: a raw `<![CDATA[...]]>` section as a child node, on a line of
      its own only in very-pretty mode. */
  function Cdata(w: Writer, cdata: string): (r: Written)
    ensures r.w == w.(stack := MarkParent(w.stack), tagOpen := false, children := false, newline := w.newline || w.veryPretty)
    ensures r.text == (if w.tagOpen then ">" else "") + (if w.veryPretty then Indent(w).text else "")
                      + "<![CDATA[" + cdata + "]]>"
    ensures Valid(w) ==> Valid(r.w)
  {
    var c := OpenChild(w);
    var i := if c.w.veryPretty then Indent(c.w) else Written(c.w, "");
    Written(i.w.(children := false), c.text + i.text + "<![CDATA[" + cdata + "]]>")
  }

  /** `comment`: `<!-- text -->` with the text escaped, as a child node,
      indented in every mode that indents. */
  function Comment(w: Writer, comment: string): (r: Written)
    ensures r.w == w.(stack := MarkParent(w.stack), tagOpen := false, children := false, newline := w.newline || w.veryPretty)
    ensures r.text == (if w.tagOpen then ">" else "") + Indent(w).text
                      + "<!-- " + Escaping.Escape(comment, false) + " -->"
    ensures Valid(w) ==> Valid(r.w)
  {
    var c := OpenChild(w);
    var i := Indent(c.w);
    Written(i.w.(children := false), c.text + i.text + "<!-- " + Escaping.Escape(comment, false) + " -->")
  }

  // ---------------------------------------------------------------- closing

  /** `n` consecutive `end_elem` calls. */
  function EndElems(w: Writer, n: nat): (r: Written)
    requires n <= |w.stack| && n <= |w.nsStack|
    ensures r.w.stack == w.stack[..|w.stack| - n]
    ensures r.w.nsStack == w.nsStack[..|w.nsStack| - n]
    ensures 0 < n ==> !r.w.tagOpen
    ensures n == 0 ==> r == Written(w, "")
    ensures ModeOf(r.w) == ModeOf(w) && r.w.namespace == w.namespace && r.w.children == w.children
    ensures Valid(w) ==> Valid(r.w)
    decreases n
  {
    if n == 0 then Written(w, "")
    else
      var e := EndElem(w);
      var rest := EndElems(e.w, n - 1);
      assert e.w.stack[..|e.w.stack| - (n - 1)] == w.stack[..|w.stack| - n];
      assert e.w.nsStack[..|e.w.nsStack| - (n - 1)] == w.nsStack[..|w.nsStack| - n];
      Written(rest.w, e.text + rest.text)
  }

  /** The first of `n` consecutive `end_elem` calls, split off. */
  lemma EndElemsFirst(w: Writer, n: nat)
    requires 0 < n <= |w.stack| && n <= |w.nsStack|
    ensures EndElems(w, n).w == EndElems(EndElem(w).w, n - 1).w
    ensures EndElems(w, n).text == EndElem(w).text + EndElems(EndElem(w).w, n - 1).text
  {
  }

  /** `close`: one `end_elem` per element open at the time of the call,
      which empties the stack; on an empty stack it writes nothing and
      changes nothing. */
  function Close(w: Writer): (r: Written)
    requires |w.stack| <= |w.nsStack|
    ensures |r.w.stack| == 0 && r.w.nsStack == w.nsStack[..|w.nsStack| - |w.stack|]
    ensures |w.stack| == 0 ==> r == Written(w, "")
    ensures 0 < |w.stack| ==> !r.w.tagOpen
    ensures ModeOf(r.w) == ModeOf(w) && r.w.namespace == w.namespace
    ensures Valid(w) ==> Valid(r.w) && |r.w.nsStack| == 0 && !r.w.tagOpen
  {
    EndElems(w, |w.stack|)
  }
}
