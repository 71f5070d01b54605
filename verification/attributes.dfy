/**
 A reader for the attribute text the writer produces, used to state what
 `attr`, `attr_esc` and `ns_decl` write as a round trip: the pairs that were
 written are the pairs that can be read back.
 */
module AttrReading {
  import opened Wrappers
  import Escaping
  import XmlWriter

  predicate QuoteFree(s: string) {
    '"' !in s
  }

  /** The position of the first `c` in `s`, or `|s|` when there is none. */
  function IndexOf(s: string, c: char): (i: nat)
    ensures i <= |s|
    ensures i < |s| ==> s[i] == c
    ensures forall j :: 0 <= j < i ==> s[j] != c
    decreases |s|
  {
    if |s| == 0 then 0 else if s[0] == c then 0 else 1 + IndexOf(s[1..], c)
  }

  /** Reads one attribute ` name="value"` from the front of `s`: the name
      runs up to the first double quote, which must follow `=`, and the value
      up to the next one. Gives the name, the value and the rest of `s`. */
  function ReadAttr(s: string): (r: Option<(string, string, string)>)
    ensures r.Some? ==> |r.value.2| < |s|
  {
    if |s| == 0 || s[0] != ' ' then None
    else
      var i := IndexOf(s, '"');
      if i == |s| || i < 2 || s[i - 1] != '=' then None
      else
        var tail := s[i + 1..];
        var j := IndexOf(tail, '"');
        if j == |tail| then None
        else Some((s[1..i - 1], tail[..j], tail[j + 1..]))
  }

  /** Reads a whole run of attributes. */
  function ReadAttrs(s: string): Option<seq<(string, string)>>
    decreases |s|
  {
    if |s| == 0 then Some([])
    else
      match ReadAttr(s)
      case None => None
      case Some((name, value, rest)) =>
        match ReadAttrs(rest)
        case None => None
        case Some(more) => Some([(name, value)] + more)
  }

  lemma IndexOfFirst(s: string, c: char, k: nat)
    requires k < |s| && s[k] == c
    requires forall j :: 0 <= j < k ==> s[j] != c
    ensures IndexOf(s, c) == k
  {
  }

  /** An attribute whose name and value hold no double quote reads back as
      itself, whatever follows it. */
  lemma {:induction false} ReadAttrText(name: string, value: string, rest: string)
    requires QuoteFree(name) && QuoteFree(value)
    ensures ReadAttr(" " + name + "=\"" + value + "\"" + rest) == Some((name, value, rest))
  {
    var s := " " + name + "=\"" + value + "\"" + rest;
    var k := |name| + 2;
    assert s[k] == '"';
    forall j | 0 <= j < k ensures s[j] != '"' {
      if 1 <= j <= |name| {
        assert s[j] == name[j - 1];
      }
    }
    IndexOfFirst(s, '"', k);
    var tail := s[k + 1..];
    assert tail == value + "\"" + rest;
    assert tail[|value|] == '"';
    forall j | 0 <= j < |value| ensures tail[j] != '"' {
      assert tail[j] == value[j];
    }
    IndexOfFirst(tail, '"', |value|);
    assert s[1..k - 1] == name;
    assert tail[..|value|] == value;
    assert tail[|value| + 1..] == rest;
  }

  /** `attr` with a quote-free name and value writes an attribute that reads
      back as exactly that pair. */
  lemma AttrReadsBack(w: XmlWriter.Writer, name: string, value: string)
    requires w.tagOpen && QuoteFree(name) && QuoteFree(value)
    ensures ReadAttr(XmlWriter.Attr(w, name, value).text) == Some((name, value, ""))
  {
    ReadAttrText(name, value, "");
    assert XmlWriter.Attr(w, name, value).text == " " + name + "=\"" + value + "\"" + "";
  }

  /** `attr_esc` writes an attribute that always reads back, and unescaping
      the pair read gives the name and value that were written. */
  lemma AttrEscReadsBack(w: XmlWriter.Writer, name: string, value: string)
    requires w.tagOpen
    ensures var r := ReadAttr(XmlWriter.AttrEsc(w, name, value).text);
            && r.Some? && r.value.2 == ""
            && Escaping.Unescape(r.value.0, true) == name
            && Escaping.Unescape(r.value.1, false) == value
  {
    var en := Escaping.Escape(name, true);
    var ev := Escaping.Escape(value, false);
    assert QuoteFree(en) && QuoteFree(ev);
    ReadAttrText(en, ev, "");
    assert XmlWriter.AttrEsc(w, name, value).text == " " + en + "=\"" + ev + "\"" + "";
    Escaping.UnescapeEscape(name, true);
    Escaping.UnescapeEscape(value, false);
  }

  /** A raw value holding double quotes does not read back: the call
      `attr("'unescaped'", "\"123\"")` of the writer's own tests writes text
      that reads as the same name with an empty value, followed by stray
      text. */
  lemma RawQuotedValueMisreads(w: XmlWriter.Writer)
    requires w.tagOpen
    ensures ReadAttr(XmlWriter.Attr(w, "'unescaped'", "\"123\"").text) == Some(("'unescaped'", "", "123\"\""))
  {
    var name := "'unescaped'";
    assert QuoteFree(name);
    ReadAttrText(name, "", "123\"\"");
    assert XmlWriter.Attr(w, name, "\"123\"").text == " " + name + "=\"" + "" + "\"" + "123\"\"";
  }

  /** A namespace prefix that can be read back inside an attribute name. */
  predicate PrefixQuoteFree(p: Option<string>) {
    match p
    case None => true
    case Some(x) => QuoteFree(x)
  }

  /** The attribute pairs a namespace map is declared with. */
  function Decls(nsMap: seq<(Option<string>, string)>): (r: seq<(string, string)>)
    ensures |r| == |nsMap|
    decreases |nsMap|
  {
    if |nsMap| == 0 then [] else [(XmlWriter.XmlnsName(nsMap[0].0), nsMap[0].1)] + Decls(nsMap[1..])
  }

  /** `ns_decl` writes, in order, one readable `xmlns` attribute per pair
      of the map, provided no prefix or uri holds a double quote. */
  lemma {:induction false} NsDeclReadsBack(w: XmlWriter.Writer, nsMap: seq<(Option<string>, string)>)
    requires w.tagOpen
    requires forall i :: 0 <= i < |nsMap| ==> PrefixQuoteFree(nsMap[i].0) && QuoteFree(nsMap[i].1)
    ensures ReadAttrs(XmlWriter.NsDecl(w, nsMap).text) == Some(Decls(nsMap))
    decreases |nsMap|
  {
    if |nsMap| > 0 {
      var name := XmlWriter.XmlnsName(nsMap[0].0);
      var uri := nsMap[0].1;
      assert PrefixQuoteFree(nsMap[0].0) && QuoteFree(uri);
      assert QuoteFree(name) by {
        match nsMap[0].0
        case None =>
        case Some(p) => assert name == "xmlns:" + p;
      }
      var rest := XmlWriter.NsDecl(w, nsMap[1..]).text;
      NsDeclReadsBack(w, nsMap[1..]);
      ReadAttrText(name, uri, rest);
      assert XmlWriter.NsDecl(w, nsMap).text == " " + name + "=\"" + uri + "\"" + rest;
    }
  }
}
