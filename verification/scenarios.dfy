/**
 The writer's unit tests as evaluation lemmas: each runs the test's calls
 on a fresh writer and states that the texts the calls write concatenate
 to the document the test expects, spelled out piece by piece in the order
 the calls write them. The `Document` lemmas then join the pieces into
 consecutive stretches of the test's expected string.
 */
module Scenarios {
  import opened Wrappers
  import XmlWriter
  import Escaping

  /** The namespace declarations the tests write on the root element. */
  function TestNsMap(): seq<(Option<string>, string)> {
    [(None, "http://localhost/"), (Some("st"), "http://127.0.0.1/")]
  }

  /** Escaping a string with no escaped character leaves it alone. */
  lemma EscapePlain(s: string, ident: bool)
    requires forall i :: 0 <= i < |s| ==> !Escaping.IsEscaped(s[i], ident)
    ensures Escaping.Escape(s, ident) == s
  {
    Escaping.EscapeIdentity(s, ident);
  }

  /** Escaping a plain string between two quote characters escapes just
      the quotes. */
  lemma EscapeQuoted(q: char, inner: string)
    requires forall i :: 0 <= i < |inner| ==> !Escaping.IsEscaped(inner[i], false)
    ensures Escaping.Escape([q] + inner + [q], false)
      == Escaping.EscapeChar(q, false) + inner + Escaping.EscapeChar(q, false)
  {
    var e := Escaping.EscapeChar(q, false);
    assert Escaping.Escape([q], false) == e by {
      assert Escaping.Escape([q], false) == e + Escaping.Escape([], false);
    }
    EscapePlain(inner, false);
    assert Escaping.Escape([q] + inner, false) == e + inner by {
      Escaping.EscapeConcat([q], inner, false);
    }
    Escaping.EscapeConcat([q] + inner, [q], false);
  }

  /** The comment the tests write needs no escaping. */
  lemma EscapeNice()
    ensures Escaping.Escape("nice to see you", false) == "nice to see you"
  {
    var nice := "nice to see you";
    assert forall i :: 0 <= i < |nice| ==> !Escaping.IsEscaped(nice[i], false);
    EscapePlain(nice, false);
  }

  /** Neither does the first attribute name. */
  lemma EscapeName()
    ensures Escaping.Escape("name", true) == "name"
  {
    var name := "name";
    assert forall i :: 0 <= i < |name| ==> !Escaping.IsEscaped(name[i], true);
    EscapePlain(name, true);
  }

  /** The quoted attribute value escapes its two quotes. */
  lemma EscapeQuoted123()
    ensures Escaping.Escape("\"123\"", false) == "&quot;123&quot;"
  {
    var n := "123";
    assert forall i :: 0 <= i < |n| ==> !Escaping.IsEscaped(n[i], false);
    EscapeQuoted('"', n);
    assert ['"'] + n + ['"'] == "\"123\"";
    assert "&quot;" + n + "&quot;" == "&quot;123&quot;";
  }

  /** So does the single-quoted text. */
  lemma EscapeQuotedText()
    ensures Escaping.Escape("'text'", false) == "&apos;text&apos;"
  {
    var t := "text";
    assert forall i :: 0 <= i < |t| ==> !Escaping.IsEscaped(t[i], false);
    EscapeQuoted('\'', t);
    assert ['\''] + t + ['\''] == "'text'";
    assert "&apos;" + t + "&apos;" == "&apos;text&apos;";
  }

  lemma EscapeCommentWord()
    ensures Escaping.Escape("comment", false) == "comment"
  {
    var c := "comment";
    assert forall i :: 0 <= i < |c| ==> !Escaping.IsEscaped(c[i], false);
    EscapePlain(c, false);
  }

  // ---------------------------------------------------------------- compact

  /* Each step lemma evaluates one call of a test on the state the
     previous calls leave; the test lemma chains them. */
  lemma CompactStep0()
    ensures XmlWriter.BeginElem(XmlWriter.Writer([], [], false, false, None, false, false, false), "OTDS").w == XmlWriter.Writer([XmlWriter.Frame("OTDS", false)], [None], true, false, None, false, false, false)
    ensures XmlWriter.BeginElem(XmlWriter.Writer([], [], false, false, None, false, false, false), "OTDS").text == "<OTDS"
  {
    assert XmlWriter.Indent(XmlWriter.Writer([], [], false, false, None, false, false, false)).text == "";
    assert XmlWriter.StartTag(None, "OTDS") == "<OTDS";
  }

  lemma CompactStep1()
    ensures XmlWriter.NsDecl(XmlWriter.Writer([XmlWriter.Frame("OTDS", false)], [None], true, false, None, false, false, false), TestNsMap()).w == XmlWriter.Writer([XmlWriter.Frame("OTDS", false)], [None], true, false, None, false, false, false)
    ensures XmlWriter.NsDecl(XmlWriter.Writer([XmlWriter.Frame("OTDS", false)], [None], true, false, None, false, false, false), TestNsMap()).text == " " + "xmlns" + "=\"" + "http://localhost/" + "\"" + (" " + "xmlns:st" + "=\"" + "http://127.0.0.1/" + "\"")
  {
    assert XmlWriter.XmlnsName(None) == "xmlns";
    assert XmlWriter.XmlnsName(Some("st")) == "xmlns:st";
  }

  lemma CompactStep2(w: XmlWriter.Writer, c: string)
    requires w == XmlWriter.Writer([XmlWriter.Frame("OTDS", false)], [None], true, false, None, false, false, false) && Escaping.Escape(c, false) == c
    ensures XmlWriter.Comment(w, c).w == XmlWriter.Writer([XmlWriter.Frame("OTDS", true)], [None], false, false, None, false, false, false)
    ensures XmlWriter.Comment(w, c).text == ">" + "<!-- " + c + " -->"
  {
    assert XmlWriter.Indent(XmlWriter.Writer([XmlWriter.Frame("OTDS", false)], [None], true, false, None, false, false, false)).text == "";
  }

  lemma CompactStep3()
    ensures XmlWriter.SetNamespace(XmlWriter.Writer([XmlWriter.Frame("OTDS", true)], [None], false, false, None, false, false, false), Some("st")) == XmlWriter.Writer([XmlWriter.Frame("OTDS", true)], [None], false, false, Some("st"), false, false, false)
  {
  }

  lemma CompactStep4()
    ensures XmlWriter.EmptyElem(XmlWriter.Writer([XmlWriter.Frame("OTDS", true)], [None], false, false, Some("st"), false, false, false), "success").w == XmlWriter.Writer([XmlWriter.Frame("OTDS", true)], [None], false, false, Some("st"), false, false, false)
    ensures XmlWriter.EmptyElem(XmlWriter.Writer([XmlWriter.Frame("OTDS", true)], [None], false, false, Some("st"), false, false, false), "success").text == "<st:success" + "/>"
  {
    assert XmlWriter.Indent(XmlWriter.Writer([XmlWriter.Frame("OTDS", true)], [None], false, false, Some("st"), false, false, false)).text == "";
    assert XmlWriter.StartTag(Some("st"), "success") == "<st:success";
  }

  lemma CompactStep5()
    ensures XmlWriter.BeginElem(XmlWriter.Writer([XmlWriter.Frame("OTDS", true)], [None], false, false, Some("st"), false, false, false), "node").w == XmlWriter.Writer([XmlWriter.Frame("OTDS", true), XmlWriter.Frame("node", false)], [None, Some("st")], true, false, Some("st"), false, false, false)
    ensures XmlWriter.BeginElem(XmlWriter.Writer([XmlWriter.Frame("OTDS", true)], [None], false, false, Some("st"), false, false, false), "node").text == "<st:node"
  {
    assert XmlWriter.Indent(XmlWriter.Writer([XmlWriter.Frame("OTDS", true)], [None], false, false, Some("st"), false, false, false)).text == "";
    assert XmlWriter.StartTag(Some("st"), "node") == "<st:node";
  }

  lemma CompactStep6()
    ensures XmlWriter.AttrEsc(XmlWriter.Writer([XmlWriter.Frame("OTDS", true), XmlWriter.Frame("node", false)], [None, Some("st")], true, false, Some("st"), false, false, false), "name", "\"123\"").w == XmlWriter.Writer([XmlWriter.Frame("OTDS", true), XmlWriter.Frame("node", false)], [None, Some("st")], true, false, Some("st"), false, false, false)
    ensures XmlWriter.AttrEsc(XmlWriter.Writer([XmlWriter.Frame("OTDS", true), XmlWriter.Frame("node", false)], [None, Some("st")], true, false, Some("st"), false, false, false), "name", "\"123\"").text == " " + "name" + "=\"" + "&quot;123&quot;" + "\""
  {
    EscapeName();
    EscapeQuoted123();
  }

  lemma CompactStep7()
    ensures XmlWriter.Attr(XmlWriter.Writer([XmlWriter.Frame("OTDS", true), XmlWriter.Frame("node", false)], [None, Some("st")], true, false, Some("st"), false, false, false), "id", "abc").w == XmlWriter.Writer([XmlWriter.Frame("OTDS", true), XmlWriter.Frame("node", false)], [None, Some("st")], true, false, Some("st"), false, false, false)
    ensures XmlWriter.Attr(XmlWriter.Writer([XmlWriter.Frame("OTDS", true), XmlWriter.Frame("node", false)], [None, Some("st")], true, false, Some("st"), false, false, false), "id", "abc").text == " " + "id" + "=\"" + "abc" + "\""
  {
  }

  lemma CompactStep8()
    ensures XmlWriter.Attr(XmlWriter.Writer([XmlWriter.Frame("OTDS", true), XmlWriter.Frame("node", false)], [None, Some("st")], true, false, Some("st"), false, false, false), "'unescaped'", "\"123\"").w == XmlWriter.Writer([XmlWriter.Frame("OTDS", true), XmlWriter.Frame("node", false)], [None, Some("st")], true, false, Some("st"), false, false, false)
    ensures XmlWriter.Attr(XmlWriter.Writer([XmlWriter.Frame("OTDS", true), XmlWriter.Frame("node", false)], [None, Some("st")], true, false, Some("st"), false, false, false), "'unescaped'", "\"123\"").text == " " + "'unescaped'" + "=\"" + "\"123\"" + "\""
  {
  }

  lemma CompactStep9()
    ensures XmlWriter.Text(XmlWriter.Writer([XmlWriter.Frame("OTDS", true), XmlWriter.Frame("node", false)], [None, Some("st")], true, false, Some("st"), false, false, false), "'text'").w == XmlWriter.Writer([XmlWriter.Frame("OTDS", true), XmlWriter.Frame("node", true)], [None, Some("st")], false, false, Some("st"), false, false, false)
    ensures XmlWriter.Text(XmlWriter.Writer([XmlWriter.Frame("OTDS", true), XmlWriter.Frame("node", false)], [None, Some("st")], true, false, Some("st"), false, false, false), "'text'").text == ">" + "&apos;text&apos;"
  {
    EscapeQuotedText();
  }

  lemma CompactStep10()
    ensures XmlWriter.EndElem(XmlWriter.Writer([XmlWriter.Frame("OTDS", true), XmlWriter.Frame("node", true)], [None, Some("st")], false, false, Some("st"), false, false, false)).w == XmlWriter.Writer([XmlWriter.Frame("OTDS", true)], [None], false, false, Some("st"), false, false, false)
    ensures XmlWriter.EndElem(XmlWriter.Writer([XmlWriter.Frame("OTDS", true), XmlWriter.Frame("node", true)], [None, Some("st")], false, false, Some("st"), false, false, false)).text == "</st:node>"
  {
    assert XmlWriter.EndTag(Some("st"), "node") == "</st:node>";
  }

  lemma CompactStep11()
    ensures XmlWriter.SetNamespace(XmlWriter.Writer([XmlWriter.Frame("OTDS", true)], [None], false, false, Some("st"), false, false, false), None) == XmlWriter.Writer([XmlWriter.Frame("OTDS", true)], [None], false, false, None, false, false, false)
  {
  }

  lemma CompactStep12()
    ensures XmlWriter.BeginElem(XmlWriter.Writer([XmlWriter.Frame("OTDS", true)], [None], false, false, None, false, false, false), "stuff").w == XmlWriter.Writer([XmlWriter.Frame("OTDS", true), XmlWriter.Frame("stuff", false)], [None, None], true, false, None, false, false, false)
    ensures XmlWriter.BeginElem(XmlWriter.Writer([XmlWriter.Frame("OTDS", true)], [None], false, false, None, false, false, false), "stuff").text == "<stuff"
  {
    assert XmlWriter.Indent(XmlWriter.Writer([XmlWriter.Frame("OTDS", true)], [None], false, false, None, false, false, false)).text == "";
    assert XmlWriter.StartTag(None, "stuff") == "<stuff";
  }

  lemma CompactStep13()
    ensures XmlWriter.Cdata(XmlWriter.Writer([XmlWriter.Frame("OTDS", true), XmlWriter.Frame("stuff", false)], [None, None], true, false, None, false, false, false), "blablab").w == XmlWriter.Writer([XmlWriter.Frame("OTDS", true), XmlWriter.Frame("stuff", true)], [None, None], false, false, None, false, false, false)
    ensures XmlWriter.Cdata(XmlWriter.Writer([XmlWriter.Frame("OTDS", true), XmlWriter.Frame("stuff", false)], [None, None], true, false, None, false, false, false), "blablab").text == ">" + "<![CDATA[" + "blablab" + "]]>"
  {
  }

  lemma CompactStep14()
    ensures XmlWriter.Close(XmlWriter.Writer([XmlWriter.Frame("OTDS", true), XmlWriter.Frame("stuff", true)], [None, None], false, false, None, false, false, false)).w == XmlWriter.Writer([], [], false, false, None, false, false, false)
    ensures XmlWriter.Close(XmlWriter.Writer([XmlWriter.Frame("OTDS", true), XmlWriter.Frame("stuff", true)], [None, None], false, false, None, false, false, false)).text == "</stuff>" + "</OTDS>"
  {
    var e0 := XmlWriter.EndElem(XmlWriter.Writer([XmlWriter.Frame("OTDS", true), XmlWriter.Frame("stuff", true)], [None, None], false, false, None, false, false, false));
    assert XmlWriter.EndTag(None, "stuff") == "</stuff>";
    assert e0.text == "</stuff>" && e0.w == XmlWriter.Writer([XmlWriter.Frame("OTDS", true)], [None], false, false, None, false, false, false);
    var e1 := XmlWriter.EndElem(e0.w);
    assert XmlWriter.EndTag(None, "OTDS") == "</OTDS>";
    assert e1.text == "</OTDS>" && e1.w == XmlWriter.Writer([], [], false, false, None, false, false, false);
    assert XmlWriter.EndElems(e1.w, 0) == XmlWriter.Written(e1.w, "");
    assert XmlWriter.EndElems(e0.w, 1) == XmlWriter.Written(e1.w, e1.text + "");
    assert XmlWriter.EndElems(XmlWriter.Writer([XmlWriter.Frame("OTDS", true), XmlWriter.Frame("stuff", true)], [None, None], false, false, None, false, false, false), 2) == XmlWriter.Written(e1.w, e0.text + XmlWriter.EndElems(e0.w, 1).text);
  }

  /** The `compact` test: the calls written out, and the document it expects. */
  lemma CompactTest()
    ensures
    var r0 := XmlWriter.BeginElem(XmlWriter.CompactMode(), "OTDS");
    r0.w.tagOpen && (
    var r1 := XmlWriter.NsDecl(r0.w, TestNsMap());
    var r2 := XmlWriter.Comment(r1.w, "nice to see you");
    var w3 := XmlWriter.SetNamespace(r2.w, Some("st"));
    var r4 := XmlWriter.EmptyElem(w3, "success");
    var r5 := XmlWriter.BeginElem(r4.w, "node");
    r5.w.tagOpen && (
    var r6 := XmlWriter.AttrEsc(r5.w, "name", "\"123\"");
    r6.w.tagOpen && (
    var r7 := XmlWriter.Attr(r6.w, "id", "abc");
    r7.w.tagOpen && (
    var r8 := XmlWriter.Attr(r7.w, "'unescaped'", "\"123\"");
    var r9 := XmlWriter.Text(r8.w, "'text'");
    0 < |r9.w.stack| && 0 < |r9.w.nsStack| && (
    var r10 := XmlWriter.EndElem(r9.w);
    var w11 := XmlWriter.SetNamespace(r10.w, None);
    var r12 := XmlWriter.BeginElem(w11, "stuff");
    var r13 := XmlWriter.Cdata(r12.w, "blablab");
    |r13.w.stack| <= |r13.w.nsStack| && (
    var r14 := XmlWriter.Close(r13.w);
    r0.text + r1.text + r2.text + r4.text + r5.text + r6.text + r7.text + r8.text + r9.text + r10.text + r12.text + r13.text + r14.text
      == "<OTDS"
      + (" " + "xmlns" + "=\"" + "http://localhost/" + "\"" + (" " + "xmlns:st" + "=\"" + "http://127.0.0.1/" + "\""))
      + (">" + "<!-- " + "nice to see you" + " -->")
      + ("<st:success" + "/>")
      + "<st:node"
      + (" " + "name" + "=\"" + "&quot;123&quot;" + "\"")
      + (" " + "id" + "=\"" + "abc" + "\"")
      + (" " + "'unescaped'" + "=\"" + "\"123\"" + "\"")
      + (">" + "&apos;text&apos;")
      + "</st:node>"
      + "<stuff"
      + (">" + "<![CDATA[" + "blablab" + "]]>")
      + ("</stuff>" + "</OTDS>")))))))
  {
    assert XmlWriter.CompactMode() == XmlWriter.Writer([], [], false, false, None, false, false, false);
    CompactStep0();
    CompactStep1();
    EscapeNice();
    CompactStep2(XmlWriter.Writer([XmlWriter.Frame("OTDS", false)], [None], true, false, None, false, false, false), "nice to see you");
    CompactStep3();
    CompactStep4();
    CompactStep5();
    CompactStep6();
    CompactStep7();
    CompactStep8();
    CompactStep9();
    CompactStep10();
    CompactStep11();
    CompactStep12();
    CompactStep13();
    CompactStep14();
  }

  // ---------------------------------------------------------------- pretty

  lemma PrettyStep0()
    ensures XmlWriter.BeginElem(XmlWriter.Writer([], [], false, true, None, false, false, false), "OTDS").w == XmlWriter.Writer([XmlWriter.Frame("OTDS", false)], [None], true, true, None, false, false, false)
    ensures XmlWriter.BeginElem(XmlWriter.Writer([], [], false, true, None, false, false, false), "OTDS").text == "<OTDS"
  {
    assert XmlWriter.Indent(XmlWriter.Writer([], [], false, true, None, false, false, false)).text == "";
    assert XmlWriter.StartTag(None, "OTDS") == "<OTDS";
  }

  lemma PrettyStep1()
    ensures XmlWriter.NsDecl(XmlWriter.Writer([XmlWriter.Frame("OTDS", false)], [None], true, true, None, false, false, false), TestNsMap()).w == XmlWriter.Writer([XmlWriter.Frame("OTDS", false)], [None], true, true, None, false, false, false)
    ensures XmlWriter.NsDecl(XmlWriter.Writer([XmlWriter.Frame("OTDS", false)], [None], true, true, None, false, false, false), TestNsMap()).text == " " + "xmlns" + "=\"" + "http://localhost/" + "\"" + (" " + "xmlns:st" + "=\"" + "http://127.0.0.1/" + "\"")
  {
    assert XmlWriter.XmlnsName(None) == "xmlns";
    assert XmlWriter.XmlnsName(Some("st")) == "xmlns:st";
  }

  lemma PrettyStep2(w: XmlWriter.Writer, c: string)
    requires w == XmlWriter.Writer([XmlWriter.Frame("OTDS", false)], [None], true, true, None, false, false, false) && Escaping.Escape(c, false) == c
    ensures XmlWriter.Comment(w, c).w == XmlWriter.Writer([XmlWriter.Frame("OTDS", true)], [None], false, true, None, false, false, false)
    ensures XmlWriter.Comment(w, c).text == ">" + "\n  " + "<!-- " + c + " -->"
  {
    assert XmlWriter.Indent(XmlWriter.Writer([XmlWriter.Frame("OTDS", false)], [None], true, true, None, false, false, false)).text == "\n  ";
  }

  lemma PrettyStep3()
    ensures XmlWriter.SetNamespace(XmlWriter.Writer([XmlWriter.Frame("OTDS", true)], [None], false, true, None, false, false, false), Some("st")) == XmlWriter.Writer([XmlWriter.Frame("OTDS", true)], [None], false, true, Some("st"), false, false, false)
  {
  }

  lemma PrettyStep4()
    ensures XmlWriter.EmptyElem(XmlWriter.Writer([XmlWriter.Frame("OTDS", true)], [None], false, true, Some("st"), false, false, false), "success").w == XmlWriter.Writer([XmlWriter.Frame("OTDS", true)], [None], false, true, Some("st"), false, false, false)
    ensures XmlWriter.EmptyElem(XmlWriter.Writer([XmlWriter.Frame("OTDS", true)], [None], false, true, Some("st"), false, false, false), "success").text == "\n  " + "<st:success" + "/>"
  {
    assert XmlWriter.Indent(XmlWriter.Writer([XmlWriter.Frame("OTDS", true)], [None], false, true, Some("st"), false, false, false)).text == "\n  ";
    assert XmlWriter.StartTag(Some("st"), "success") == "<st:success";
  }

  lemma PrettyStep5()
    ensures XmlWriter.BeginElem(XmlWriter.Writer([XmlWriter.Frame("OTDS", true)], [None], false, true, Some("st"), false, false, false), "node").w == XmlWriter.Writer([XmlWriter.Frame("OTDS", true), XmlWriter.Frame("node", false)], [None, Some("st")], true, true, Some("st"), false, false, false)
    ensures XmlWriter.BeginElem(XmlWriter.Writer([XmlWriter.Frame("OTDS", true)], [None], false, true, Some("st"), false, false, false), "node").text == "\n  " + "<st:node"
  {
    assert XmlWriter.Indent(XmlWriter.Writer([XmlWriter.Frame("OTDS", true)], [None], false, true, Some("st"), false, false, false)).text == "\n  ";
    assert XmlWriter.StartTag(Some("st"), "node") == "<st:node";
  }

  lemma PrettyStep6()
    ensures XmlWriter.AttrEsc(XmlWriter.Writer([XmlWriter.Frame("OTDS", true), XmlWriter.Frame("node", false)], [None, Some("st")], true, true, Some("st"), false, false, false), "name", "\"123\"").w == XmlWriter.Writer([XmlWriter.Frame("OTDS", true), XmlWriter.Frame("node", false)], [None, Some("st")], true, true, Some("st"), false, false, false)
    ensures XmlWriter.AttrEsc(XmlWriter.Writer([XmlWriter.Frame("OTDS", true), XmlWriter.Frame("node", false)], [None, Some("st")], true, true, Some("st"), false, false, false), "name", "\"123\"").text == " " + "name" + "=\"" + "&quot;123&quot;" + "\""
  {
    EscapeName();
    EscapeQuoted123();
  }

  lemma PrettyStep7()
    ensures XmlWriter.Attr(XmlWriter.Writer([XmlWriter.Frame("OTDS", true), XmlWriter.Frame("node", false)], [None, Some("st")], true, true, Some("st"), false, false, false), "id", "abc").w == XmlWriter.Writer([XmlWriter.Frame("OTDS", true), XmlWriter.Frame("node", false)], [None, Some("st")], true, true, Some("st"), false, false, false)
    ensures XmlWriter.Attr(XmlWriter.Writer([XmlWriter.Frame("OTDS", true), XmlWriter.Frame("node", false)], [None, Some("st")], true, true, Some("st"), false, false, false), "id", "abc").text == " " + "id" + "=\"" + "abc" + "\""
  {
  }

  lemma PrettyStep8()
    ensures XmlWriter.Attr(XmlWriter.Writer([XmlWriter.Frame("OTDS", true), XmlWriter.Frame("node", false)], [None, Some("st")], true, true, Some("st"), false, false, false), "'unescaped'", "\"123\"").w == XmlWriter.Writer([XmlWriter.Frame("OTDS", true), XmlWriter.Frame("node", false)], [None, Some("st")], true, true, Some("st"), false, false, false)
    ensures XmlWriter.Attr(XmlWriter.Writer([XmlWriter.Frame("OTDS", true), XmlWriter.Frame("node", false)], [None, Some("st")], true, true, Some("st"), false, false, false), "'unescaped'", "\"123\"").text == " " + "'unescaped'" + "=\"" + "\"123\"" + "\""
  {
  }

  lemma PrettyStep9()
    ensures XmlWriter.Text(XmlWriter.Writer([XmlWriter.Frame("OTDS", true), XmlWriter.Frame("node", false)], [None, Some("st")], true, true, Some("st"), false, false, false), "'text'").w == XmlWriter.Writer([XmlWriter.Frame("OTDS", true), XmlWriter.Frame("node", true)], [None, Some("st")], false, true, Some("st"), false, false, false)
    ensures XmlWriter.Text(XmlWriter.Writer([XmlWriter.Frame("OTDS", true), XmlWriter.Frame("node", false)], [None, Some("st")], true, true, Some("st"), false, false, false), "'text'").text == ">" + "&apos;text&apos;"
  {
    EscapeQuotedText();
  }

  lemma PrettyStep10()
    ensures XmlWriter.EndElem(XmlWriter.Writer([XmlWriter.Frame("OTDS", true), XmlWriter.Frame("node", true)], [None, Some("st")], false, true, Some("st"), false, false, false)).w == XmlWriter.Writer([XmlWriter.Frame("OTDS", true)], [None], false, true, Some("st"), false, false, false)
    ensures XmlWriter.EndElem(XmlWriter.Writer([XmlWriter.Frame("OTDS", true), XmlWriter.Frame("node", true)], [None, Some("st")], false, true, Some("st"), false, false, false)).text == "</st:node>"
  {
    assert XmlWriter.EndTag(Some("st"), "node") == "</st:node>";
  }

  lemma PrettyStep11()
    ensures XmlWriter.SetNamespace(XmlWriter.Writer([XmlWriter.Frame("OTDS", true)], [None], false, true, Some("st"), false, false, false), None) == XmlWriter.Writer([XmlWriter.Frame("OTDS", true)], [None], false, true, None, false, false, false)
  {
  }

  lemma PrettyStep12()
    ensures XmlWriter.BeginElem(XmlWriter.Writer([XmlWriter.Frame("OTDS", true)], [None], false, true, None, false, false, false), "stuff").w == XmlWriter.Writer([XmlWriter.Frame("OTDS", true), XmlWriter.Frame("stuff", false)], [None, None], true, true, None, false, false, false)
    ensures XmlWriter.BeginElem(XmlWriter.Writer([XmlWriter.Frame("OTDS", true)], [None], false, true, None, false, false, false), "stuff").text == "\n  " + "<stuff"
  {
    assert XmlWriter.Indent(XmlWriter.Writer([XmlWriter.Frame("OTDS", true)], [None], false, true, None, false, false, false)).text == "\n  ";
    assert XmlWriter.StartTag(None, "stuff") == "<stuff";
  }

  lemma PrettyStep13()
    ensures XmlWriter.Cdata(XmlWriter.Writer([XmlWriter.Frame("OTDS", true), XmlWriter.Frame("stuff", false)], [None, None], true, true, None, false, false, false), "blablab").w == XmlWriter.Writer([XmlWriter.Frame("OTDS", true), XmlWriter.Frame("stuff", true)], [None, None], false, true, None, false, false, false)
    ensures XmlWriter.Cdata(XmlWriter.Writer([XmlWriter.Frame("OTDS", true), XmlWriter.Frame("stuff", false)], [None, None], true, true, None, false, false, false), "blablab").text == ">" + "<![CDATA[" + "blablab" + "]]>"
  {
  }

  lemma PrettyStep14()
    ensures XmlWriter.Close(XmlWriter.Writer([XmlWriter.Frame("OTDS", true), XmlWriter.Frame("stuff", true)], [None, None], false, true, None, false, false, false)).w == XmlWriter.Writer([], [], false, true, None, false, false, false)
    ensures XmlWriter.Close(XmlWriter.Writer([XmlWriter.Frame("OTDS", true), XmlWriter.Frame("stuff", true)], [None, None], false, true, None, false, false, false)).text == "</stuff>" + "</OTDS>"
  {
    var e0 := XmlWriter.EndElem(XmlWriter.Writer([XmlWriter.Frame("OTDS", true), XmlWriter.Frame("stuff", true)], [None, None], false, true, None, false, false, false));
    assert XmlWriter.EndTag(None, "stuff") == "</stuff>";
    assert e0.text == "</stuff>" && e0.w == XmlWriter.Writer([XmlWriter.Frame("OTDS", true)], [None], false, true, None, false, false, false);
    var e1 := XmlWriter.EndElem(e0.w);
    assert XmlWriter.EndTag(None, "OTDS") == "</OTDS>";
    assert e1.text == "</OTDS>" && e1.w == XmlWriter.Writer([], [], false, true, None, false, false, false);
    assert XmlWriter.EndElems(e1.w, 0) == XmlWriter.Written(e1.w, "");
    assert XmlWriter.EndElems(e0.w, 1) == XmlWriter.Written(e1.w, e1.text + "");
    assert XmlWriter.EndElems(XmlWriter.Writer([XmlWriter.Frame("OTDS", true), XmlWriter.Frame("stuff", true)], [None, None], false, true, None, false, false, false), 2) == XmlWriter.Written(e1.w, e0.text + XmlWriter.EndElems(e0.w, 1).text);
  }

  /** The `pretty` test: children of the root start on their own indented
      line; the text inside `st:node` and the root's closing tag do not. */
  lemma PrettyTest()
    ensures
    var r0 := XmlWriter.BeginElem(XmlWriter.PrettyMode(), "OTDS");
    r0.w.tagOpen && (
    var r1 := XmlWriter.NsDecl(r0.w, TestNsMap());
    var r2 := XmlWriter.Comment(r1.w, "nice to see you");
    var w3 := XmlWriter.SetNamespace(r2.w, Some("st"));
    var r4 := XmlWriter.EmptyElem(w3, "success");
    var r5 := XmlWriter.BeginElem(r4.w, "node");
    r5.w.tagOpen && (
    var r6 := XmlWriter.AttrEsc(r5.w, "name", "\"123\"");
    r6.w.tagOpen && (
    var r7 := XmlWriter.Attr(r6.w, "id", "abc");
    r7.w.tagOpen && (
    var r8 := XmlWriter.Attr(r7.w, "'unescaped'", "\"123\"");
    var r9 := XmlWriter.Text(r8.w, "'text'");
    0 < |r9.w.stack| && 0 < |r9.w.nsStack| && (
    var r10 := XmlWriter.EndElem(r9.w);
    var w11 := XmlWriter.SetNamespace(r10.w, None);
    var r12 := XmlWriter.BeginElem(w11, "stuff");
    var r13 := XmlWriter.Cdata(r12.w, "blablab");
    |r13.w.stack| <= |r13.w.nsStack| && (
    var r14 := XmlWriter.Close(r13.w);
    r0.text + r1.text + r2.text + r4.text + r5.text + r6.text + r7.text + r8.text + r9.text + r10.text + r12.text + r13.text + r14.text
      == "<OTDS"
      + (" " + "xmlns" + "=\"" + "http://localhost/" + "\"" + (" " + "xmlns:st" + "=\"" + "http://127.0.0.1/" + "\""))
      + (">" + "\n  " + "<!-- " + "nice to see you" + " -->")
      + ("\n  " + "<st:success" + "/>")
      + ("\n  " + "<st:node")
      + (" " + "name" + "=\"" + "&quot;123&quot;" + "\"")
      + (" " + "id" + "=\"" + "abc" + "\"")
      + (" " + "'unescaped'" + "=\"" + "\"123\"" + "\"")
      + (">" + "&apos;text&apos;")
      + "</st:node>"
      + ("\n  " + "<stuff")
      + (">" + "<![CDATA[" + "blablab" + "]]>")
      + ("</stuff>" + "</OTDS>")))))))
  {
    assert XmlWriter.PrettyMode() == XmlWriter.Writer([], [], false, true, None, false, false, false);
    PrettyStep0();
    PrettyStep1();
    EscapeNice();
    PrettyStep2(XmlWriter.Writer([XmlWriter.Frame("OTDS", false)], [None], true, true, None, false, false, false), "nice to see you");
    PrettyStep3();
    PrettyStep4();
    PrettyStep5();
    PrettyStep6();
    PrettyStep7();
    PrettyStep8();
    PrettyStep9();
    PrettyStep10();
    PrettyStep11();
    PrettyStep12();
    PrettyStep13();
    PrettyStep14();
  }

  // ---------------------------------------------------------------- very pretty

  lemma VeryPrettyStep0()
    ensures XmlWriter.BeginElem(XmlWriter.Writer([], [], false, true, None, true, false, false), "OTDS").w == XmlWriter.Writer([XmlWriter.Frame("OTDS", false)], [None], true, true, None, true, false, true)
    ensures XmlWriter.BeginElem(XmlWriter.Writer([], [], false, true, None, true, false, false), "OTDS").text == "<OTDS"
  {
    assert XmlWriter.Indent(XmlWriter.Writer([], [], false, true, None, true, false, false)).text == "";
    assert XmlWriter.StartTag(None, "OTDS") == "<OTDS";
  }

  lemma VeryPrettyStep1()
    ensures XmlWriter.NsDecl(XmlWriter.Writer([XmlWriter.Frame("OTDS", false)], [None], true, true, None, true, false, true), TestNsMap()).w == XmlWriter.Writer([XmlWriter.Frame("OTDS", false)], [None], true, true, None, true, false, true)
    ensures XmlWriter.NsDecl(XmlWriter.Writer([XmlWriter.Frame("OTDS", false)], [None], true, true, None, true, false, true), TestNsMap()).text == " " + "xmlns" + "=\"" + "http://localhost/" + "\"" + (" " + "xmlns:st" + "=\"" + "http://127.0.0.1/" + "\"")
  {
    assert XmlWriter.XmlnsName(None) == "xmlns";
    assert XmlWriter.XmlnsName(Some("st")) == "xmlns:st";
  }

  lemma VeryPrettyStep2(w: XmlWriter.Writer, c: string)
    requires w == XmlWriter.Writer([XmlWriter.Frame("OTDS", false)], [None], true, true, None, true, false, true) && Escaping.Escape(c, false) == c
    ensures XmlWriter.Comment(w, c).w == XmlWriter.Writer([XmlWriter.Frame("OTDS", true)], [None], false, true, None, true, false, true)
    ensures XmlWriter.Comment(w, c).text == ">" + "\n  " + "<!-- " + c + " -->"
  {
    assert XmlWriter.Indent(XmlWriter.Writer([XmlWriter.Frame("OTDS", false)], [None], true, true, None, true, false, true)).text == "\n  ";
  }

  lemma VeryPrettyStep3()
    ensures XmlWriter.SetNamespace(XmlWriter.Writer([XmlWriter.Frame("OTDS", true)], [None], false, true, None, true, false, true), Some("st")) == XmlWriter.Writer([XmlWriter.Frame("OTDS", true)], [None], false, true, Some("st"), true, false, true)
  {
  }

  lemma VeryPrettyStep4()
    ensures XmlWriter.EmptyElem(XmlWriter.Writer([XmlWriter.Frame("OTDS", true)], [None], false, true, Some("st"), true, false, true), "success").w == XmlWriter.Writer([XmlWriter.Frame("OTDS", true)], [None], false, true, Some("st"), true, false, true)
    ensures XmlWriter.EmptyElem(XmlWriter.Writer([XmlWriter.Frame("OTDS", true)], [None], false, true, Some("st"), true, false, true), "success").text == "\n  " + "<st:success" + "/>"
  {
    assert XmlWriter.Indent(XmlWriter.Writer([XmlWriter.Frame("OTDS", true)], [None], false, true, Some("st"), true, false, true)).text == "\n  ";
    assert XmlWriter.StartTag(Some("st"), "success") == "<st:success";
  }

  lemma VeryPrettyStep5()
    ensures XmlWriter.BeginElem(XmlWriter.Writer([XmlWriter.Frame("OTDS", true)], [None], false, true, Some("st"), true, false, true), "node").w == XmlWriter.Writer([XmlWriter.Frame("OTDS", true), XmlWriter.Frame("node", false)], [None, Some("st")], true, true, Some("st"), true, false, true)
    ensures XmlWriter.BeginElem(XmlWriter.Writer([XmlWriter.Frame("OTDS", true)], [None], false, true, Some("st"), true, false, true), "node").text == "\n  " + "<st:node"
  {
    assert XmlWriter.Indent(XmlWriter.Writer([XmlWriter.Frame("OTDS", true)], [None], false, true, Some("st"), true, false, true)).text == "\n  ";
    assert XmlWriter.StartTag(Some("st"), "node") == "<st:node";
  }

  lemma VeryPrettyStep6()
    ensures XmlWriter.AttrEsc(XmlWriter.Writer([XmlWriter.Frame("OTDS", true), XmlWriter.Frame("node", false)], [None, Some("st")], true, true, Some("st"), true, false, true), "name", "\"123\"").w == XmlWriter.Writer([XmlWriter.Frame("OTDS", true), XmlWriter.Frame("node", false)], [None, Some("st")], true, true, Some("st"), true, false, true)
    ensures XmlWriter.AttrEsc(XmlWriter.Writer([XmlWriter.Frame("OTDS", true), XmlWriter.Frame("node", false)], [None, Some("st")], true, true, Some("st"), true, false, true), "name", "\"123\"").text == " " + "name" + "=\"" + "&quot;123&quot;" + "\""
  {
    EscapeName();
    EscapeQuoted123();
  }

  lemma VeryPrettyStep7()
    ensures XmlWriter.Attr(XmlWriter.Writer([XmlWriter.Frame("OTDS", true), XmlWriter.Frame("node", false)], [None, Some("st")], true, true, Some("st"), true, false, true), "id", "abc").w == XmlWriter.Writer([XmlWriter.Frame("OTDS", true), XmlWriter.Frame("node", false)], [None, Some("st")], true, true, Some("st"), true, false, true)
    ensures XmlWriter.Attr(XmlWriter.Writer([XmlWriter.Frame("OTDS", true), XmlWriter.Frame("node", false)], [None, Some("st")], true, true, Some("st"), true, false, true), "id", "abc").text == " " + "id" + "=\"" + "abc" + "\""
  {
  }

  lemma VeryPrettyStep8()
    ensures XmlWriter.Attr(XmlWriter.Writer([XmlWriter.Frame("OTDS", true), XmlWriter.Frame("node", false)], [None, Some("st")], true, true, Some("st"), true, false, true), "'unescaped'", "\"123\"").w == XmlWriter.Writer([XmlWriter.Frame("OTDS", true), XmlWriter.Frame("node", false)], [None, Some("st")], true, true, Some("st"), true, false, true)
    ensures XmlWriter.Attr(XmlWriter.Writer([XmlWriter.Frame("OTDS", true), XmlWriter.Frame("node", false)], [None, Some("st")], true, true, Some("st"), true, false, true), "'unescaped'", "\"123\"").text == " " + "'unescaped'" + "=\"" + "\"123\"" + "\""
  {
  }

  lemma VeryPrettyStep9()
    ensures XmlWriter.Text(XmlWriter.Writer([XmlWriter.Frame("OTDS", true), XmlWriter.Frame("node", false)], [None, Some("st")], true, true, Some("st"), true, false, true), "'text'").w == XmlWriter.Writer([XmlWriter.Frame("OTDS", true), XmlWriter.Frame("node", true)], [None, Some("st")], false, true, Some("st"), true, false, true)
    ensures XmlWriter.Text(XmlWriter.Writer([XmlWriter.Frame("OTDS", true), XmlWriter.Frame("node", false)], [None, Some("st")], true, true, Some("st"), true, false, true), "'text'").text == ">" + "\n    " + "&apos;text&apos;"
  {
    assert XmlWriter.Indent(XmlWriter.Writer([XmlWriter.Frame("OTDS", true), XmlWriter.Frame("node", false)], [None, Some("st")], true, true, Some("st"), true, false, true)).text == "\n    ";
    EscapeQuotedText();
  }

  lemma VeryPrettyStep10()
    ensures XmlWriter.EndElem(XmlWriter.Writer([XmlWriter.Frame("OTDS", true), XmlWriter.Frame("node", true)], [None, Some("st")], false, true, Some("st"), true, false, true)).w == XmlWriter.Writer([XmlWriter.Frame("OTDS", true)], [None], false, true, Some("st"), true, false, true)
    ensures XmlWriter.EndElem(XmlWriter.Writer([XmlWriter.Frame("OTDS", true), XmlWriter.Frame("node", true)], [None, Some("st")], false, true, Some("st"), true, false, true)).text == "\n  " + "</st:node>"
  {
    assert XmlWriter.Indent(XmlWriter.Pop(XmlWriter.Writer([XmlWriter.Frame("OTDS", true), XmlWriter.Frame("node", true)], [None, Some("st")], false, true, Some("st"), true, false, true))).text == "\n  ";
    assert XmlWriter.EndTag(Some("st"), "node") == "</st:node>";
  }

  lemma VeryPrettyStep11()
    ensures XmlWriter.SetNamespace(XmlWriter.Writer([XmlWriter.Frame("OTDS", true)], [None], false, true, Some("st"), true, false, true), None) == XmlWriter.Writer([XmlWriter.Frame("OTDS", true)], [None], false, true, None, true, false, true)
  {
  }

  lemma VeryPrettyStep12()
    ensures XmlWriter.BeginElem(XmlWriter.Writer([XmlWriter.Frame("OTDS", true)], [None], false, true, None, true, false, true), "stuff").w == XmlWriter.Writer([XmlWriter.Frame("OTDS", true), XmlWriter.Frame("stuff", false)], [None, None], true, true, None, true, false, true)
    ensures XmlWriter.BeginElem(XmlWriter.Writer([XmlWriter.Frame("OTDS", true)], [None], false, true, None, true, false, true), "stuff").text == "\n  " + "<stuff"
  {
    assert XmlWriter.Indent(XmlWriter.Writer([XmlWriter.Frame("OTDS", true)], [None], false, true, None, true, false, true)).text == "\n  ";
    assert XmlWriter.StartTag(None, "stuff") == "<stuff";
  }

  lemma VeryPrettyStep13()
    ensures XmlWriter.Cdata(XmlWriter.Writer([XmlWriter.Frame("OTDS", true), XmlWriter.Frame("stuff", false)], [None, None], true, true, None, true, false, true), "blablab").w == XmlWriter.Writer([XmlWriter.Frame("OTDS", true), XmlWriter.Frame("stuff", true)], [None, None], false, true, None, true, false, true)
    ensures XmlWriter.Cdata(XmlWriter.Writer([XmlWriter.Frame("OTDS", true), XmlWriter.Frame("stuff", false)], [None, None], true, true, None, true, false, true), "blablab").text == ">" + "\n    " + "<![CDATA[" + "blablab" + "]]>"
  {
    assert XmlWriter.Indent(XmlWriter.Writer([XmlWriter.Frame("OTDS", true), XmlWriter.Frame("stuff", false)], [None, None], true, true, None, true, false, true)).text == "\n    ";
  }

  lemma VeryPrettyStep14()
    ensures XmlWriter.Close(XmlWriter.Writer([XmlWriter.Frame("OTDS", true), XmlWriter.Frame("stuff", true)], [None, None], false, true, None, true, false, true)).w == XmlWriter.Writer([], [], false, true, None, true, false, true)
    ensures XmlWriter.Close(XmlWriter.Writer([XmlWriter.Frame("OTDS", true), XmlWriter.Frame("stuff", true)], [None, None], false, true, None, true, false, true)).text == "\n  " + "</stuff>" + ("\n" + "</OTDS>")
  {
    var e0 := XmlWriter.EndElem(XmlWriter.Writer([XmlWriter.Frame("OTDS", true), XmlWriter.Frame("stuff", true)], [None, None], false, true, None, true, false, true));
    assert XmlWriter.Indent(XmlWriter.Pop(XmlWriter.Writer([XmlWriter.Frame("OTDS", true), XmlWriter.Frame("stuff", true)], [None, None], false, true, None, true, false, true))).text == "\n  ";
    assert XmlWriter.EndTag(None, "stuff") == "</stuff>";
    assert e0.text == "\n  " + "</stuff>" && e0.w == XmlWriter.Writer([XmlWriter.Frame("OTDS", true)], [None], false, true, None, true, false, true);
    var e1 := XmlWriter.EndElem(e0.w);
    assert XmlWriter.Indent(XmlWriter.Pop(e0.w)).text == "\n";
    assert XmlWriter.EndTag(None, "OTDS") == "</OTDS>";
    assert e1.text == "\n" + "</OTDS>" && e1.w == XmlWriter.Writer([], [], false, true, None, true, false, true);
    assert XmlWriter.EndElems(e1.w, 0) == XmlWriter.Written(e1.w, "");
    assert XmlWriter.EndElems(e0.w, 1) == XmlWriter.Written(e1.w, e1.text + "");
    assert XmlWriter.EndElems(XmlWriter.Writer([XmlWriter.Frame("OTDS", true), XmlWriter.Frame("stuff", true)], [None, None], false, true, None, true, false, true), 2) == XmlWriter.Written(e1.w, e0.text + XmlWriter.EndElems(e0.w, 1).text);
  }

  /** The `very_pretty` test: every child and every closing tag of an
      element with children starts on its own indented line. */
  lemma VeryPrettyTest()
    ensures
    var r0 := XmlWriter.BeginElem(XmlWriter.VeryPrettyMode(), "OTDS");
    r0.w.tagOpen && (
    var r1 := XmlWriter.NsDecl(r0.w, TestNsMap());
    var r2 := XmlWriter.Comment(r1.w, "nice to see you");
    var w3 := XmlWriter.SetNamespace(r2.w, Some("st"));
    var r4 := XmlWriter.EmptyElem(w3, "success");
    var r5 := XmlWriter.BeginElem(r4.w, "node");
    r5.w.tagOpen && (
    var r6 := XmlWriter.AttrEsc(r5.w, "name", "\"123\"");
    r6.w.tagOpen && (
    var r7 := XmlWriter.Attr(r6.w, "id", "abc");
    r7.w.tagOpen && (
    var r8 := XmlWriter.Attr(r7.w, "'unescaped'", "\"123\"");
    var r9 := XmlWriter.Text(r8.w, "'text'");
    0 < |r9.w.stack| && 0 < |r9.w.nsStack| && (
    var r10 := XmlWriter.EndElem(r9.w);
    var w11 := XmlWriter.SetNamespace(r10.w, None);
    var r12 := XmlWriter.BeginElem(w11, "stuff");
    var r13 := XmlWriter.Cdata(r12.w, "blablab");
    |r13.w.stack| <= |r13.w.nsStack| && (
    var r14 := XmlWriter.Close(r13.w);
    r0.text + r1.text + r2.text + r4.text + r5.text + r6.text + r7.text + r8.text + r9.text + r10.text + r12.text + r13.text + r14.text
      == "<OTDS"
      + (" " + "xmlns" + "=\"" + "http://localhost/" + "\"" + (" " + "xmlns:st" + "=\"" + "http://127.0.0.1/" + "\""))
      + (">" + "\n  " + "<!-- " + "nice to see you" + " -->")
      + ("\n  " + "<st:success" + "/>")
      + ("\n  " + "<st:node")
      + (" " + "name" + "=\"" + "&quot;123&quot;" + "\"")
      + (" " + "id" + "=\"" + "abc" + "\"")
      + (" " + "'unescaped'" + "=\"" + "\"123\"" + "\"")
      + (">" + "\n    " + "&apos;text&apos;")
      + ("\n  " + "</st:node>")
      + ("\n  " + "<stuff")
      + (">" + "\n    " + "<![CDATA[" + "blablab" + "]]>")
      + ("\n  " + "</stuff>" + ("\n" + "</OTDS>"))))))))
  {
    assert XmlWriter.VeryPrettyMode() == XmlWriter.Writer([], [], false, true, None, true, false, false);
    VeryPrettyStep0();
    VeryPrettyStep1();
    EscapeNice();
    VeryPrettyStep2(XmlWriter.Writer([XmlWriter.Frame("OTDS", false)], [None], true, true, None, true, false, true), "nice to see you");
    VeryPrettyStep3();
    VeryPrettyStep4();
    VeryPrettyStep5();
    VeryPrettyStep6();
    VeryPrettyStep7();
    VeryPrettyStep8();
    VeryPrettyStep9();
    VeryPrettyStep10();
    VeryPrettyStep11();
    VeryPrettyStep12();
    VeryPrettyStep13();
    VeryPrettyStep14();
  }

  // ---------------------------------------------------------------- comment

  lemma CommentStep(w: XmlWriter.Writer, c: string)
    requires w == XmlWriter.Writer([], [], false, true, None, false, false, false)
    requires Escaping.Escape(c, false) == c
    ensures XmlWriter.Comment(w, c).text == "<!-- " + c + " -->"
  {
    assert XmlWriter.Indent(w).text == "";
  }

  lemma CommentPieces()
    ensures XmlWriter.Comment(XmlWriter.PrettyMode(), "comment").text == "<!-- " + "comment" + " -->"
  {
    assert XmlWriter.PrettyMode() == XmlWriter.Writer([], [], false, true, None, false, false, false);
    EscapeCommentWord();
    CommentStep(XmlWriter.PrettyMode(), "comment");
  }

  lemma CommentDocument()
    ensures "<!-- " + "comment" + " -->" == "<!-- comment -->"
  {
  }

  /** The `comment` test: a comment on a fresh pretty writer is written
      without a leading line break. */
  lemma CommentTest()
    ensures XmlWriter.Comment(XmlWriter.PrettyMode(), "comment").text == "<!-- comment -->"
  {
    CommentPieces();
    CommentDocument();
  }

  // ------------------------------------------------- the expected documents

  /* Each `Join` lemma joins the pieces one call group writes into one
     stretch of an expected document. */

  lemma Join1()
    ensures " " + "xmlns" + "=\"" + "http://localhost/" + "\"" == " xmlns=\"http://localhost/\""
  {
  }

  lemma Join2()
    ensures (" " + "xmlns:st" + "=\"" + "http://127.0.0.1/" + "\"") == " xmlns:st=\"http://127.0.0.1/\""
  {
  }

  lemma Join3()
    ensures (">" + "<!-- " + "nice to see you" + " -->") == "><!-- nice to see you -->"
  {
  }

  lemma Join4()
    ensures ("<st:success" + "/>") == "<st:success/>"
  {
  }

  lemma Join5()
    ensures (" " + "name" + "=\"" + "&quot;123&quot;" + "\"") == " name=\"&quot;123&quot;\""
  {
  }

  lemma Join6()
    ensures (" " + "id" + "=\"" + "abc" + "\"") == " id=\"abc\""
  {
  }

  lemma Join7()
    ensures (" " + "'unescaped'" + "=\"" + "\"123\"" + "\"") == " 'unescaped'=\"\"123\"\""
  {
  }

  lemma Join8()
    ensures (">" + "&apos;text&apos;") == ">&apos;text&apos;"
  {
  }

  lemma Join9()
    ensures (">" + "<![CDATA[" + "blablab" + "]]>") == "><![CDATA[blablab]]>"
  {
  }

  lemma Join10()
    ensures ("</stuff>" + "</OTDS>") == "</stuff></OTDS>"
  {
  }

  lemma Join11()
    ensures (">" + "\n  " + "<!-- " + "nice to see you" + " -->") == ">\n  <!-- nice to see you -->"
  {
  }

  lemma Join12()
    ensures ("\n  " + "<st:success" + "/>") == "\n  <st:success/>"
  {
  }

  lemma Join13()
    ensures ("\n  " + "<st:node") == "\n  <st:node"
  {
  }

  lemma Join14()
    ensures ("\n  " + "<stuff") == "\n  <stuff"
  {
  }

  lemma Join15()
    ensures (">" + "\n    " + "&apos;text&apos;") == ">\n    &apos;text&apos;"
  {
  }

  lemma Join16()
    ensures ("\n  " + "</st:node>") == "\n  </st:node>"
  {
  }

  lemma Join17()
    ensures (">" + "\n    " + "<![CDATA[" + "blablab" + "]]>") == ">\n    <![CDATA[blablab]]>"
  {
  }

  lemma Join18()
    ensures ("\n  " + "</stuff>" + ("\n" + "</OTDS>")) == "\n  </stuff>\n</OTDS>"
  {
  }

  /** The pieces of `CompactTest` join, group by group, to consecutive stretches
      of the literal the test compares with. */
  lemma CompactDocument()
    ensures "<OTDS"
      + (" " + "xmlns" + "=\"" + "http://localhost/" + "\"" + (" " + "xmlns:st" + "=\"" + "http://127.0.0.1/" + "\""))
      + (">" + "<!-- " + "nice to see you" + " -->")
      + ("<st:success" + "/>")
      + "<st:node"
      + (" " + "name" + "=\"" + "&quot;123&quot;" + "\"")
      + (" " + "id" + "=\"" + "abc" + "\"")
      + (" " + "'unescaped'" + "=\"" + "\"123\"" + "\"")
      + (">" + "&apos;text&apos;")
      + "</st:node>"
      + "<stuff"
      + (">" + "<![CDATA[" + "blablab" + "]]>")
      + ("</stuff>" + "</OTDS>")
      == "<OTDS"
         + (" xmlns=\"http://localhost/\"" + " xmlns:st=\"http://127.0.0.1/\"")
         + "><!-- nice to see you -->"
         + "<st:success/>"
         + "<st:node"
         + " name=\"&quot;123&quot;\""
         + " id=\"abc\""
         + " 'unescaped'=\"\"123\"\""
         + ">&apos;text&apos;"
         + "</st:node>"
         + "<stuff"
         + "><![CDATA[blablab]]>"
         + "</stuff></OTDS>"
  {
    Join1();
    Join2();
    Join3();
    Join4();
    Join5();
    Join6();
    Join7();
    Join8();
    Join9();
    Join10();
  }

  /** The pieces of `PrettyTest` join, group by group, to consecutive stretches
      of the literal the test compares with. */
  lemma PrettyDocument()
    ensures "<OTDS"
      + (" " + "xmlns" + "=\"" + "http://localhost/" + "\"" + (" " + "xmlns:st" + "=\"" + "http://127.0.0.1/" + "\""))
      + (">" + "\n  " + "<!-- " + "nice to see you" + " -->")
      + ("\n  " + "<st:success" + "/>")
      + ("\n  " + "<st:node")
      + (" " + "name" + "=\"" + "&quot;123&quot;" + "\"")
      + (" " + "id" + "=\"" + "abc" + "\"")
      + (" " + "'unescaped'" + "=\"" + "\"123\"" + "\"")
      + (">" + "&apos;text&apos;")
      + "</st:node>"
      + ("\n  " + "<stuff")
      + (">" + "<![CDATA[" + "blablab" + "]]>")
      + ("</stuff>" + "</OTDS>")
      == "<OTDS"
         + (" xmlns=\"http://localhost/\"" + " xmlns:st=\"http://127.0.0.1/\"")
         + ">\n  <!-- nice to see you -->"
         + "\n  <st:success/>"
         + "\n  <st:node"
         + " name=\"&quot;123&quot;\""
         + " id=\"abc\""
         + " 'unescaped'=\"\"123\"\""
         + ">&apos;text&apos;"
         + "</st:node>"
         + "\n  <stuff"
         + "><![CDATA[blablab]]>"
         + "</stuff></OTDS>"
  {
    Join1();
    Join2();
    Join11();
    Join12();
    Join13();
    Join5();
    Join6();
    Join7();
    Join8();
    Join14();
    Join9();
    Join10();
  }

  /** The pieces of `VeryPrettyTest` join, group by group, to consecutive stretches
      of the literal the test compares with. */
  lemma VeryPrettyDocument()
    ensures "<OTDS"
      + (" " + "xmlns" + "=\"" + "http://localhost/" + "\"" + (" " + "xmlns:st" + "=\"" + "http://127.0.0.1/" + "\""))
      + (">" + "\n  " + "<!-- " + "nice to see you" + " -->")
      + ("\n  " + "<st:success" + "/>")
      + ("\n  " + "<st:node")
      + (" " + "name" + "=\"" + "&quot;123&quot;" + "\"")
      + (" " + "id" + "=\"" + "abc" + "\"")
      + (" " + "'unescaped'" + "=\"" + "\"123\"" + "\"")
      + (">" + "\n    " + "&apos;text&apos;")
      + ("\n  " + "</st:node>")
      + ("\n  " + "<stuff")
      + (">" + "\n    " + "<![CDATA[" + "blablab" + "]]>")
      + ("\n  " + "</stuff>" + ("\n" + "</OTDS>"))
      == "<OTDS"
         + (" xmlns=\"http://localhost/\"" + " xmlns:st=\"http://127.0.0.1/\"")
         + ">\n  <!-- nice to see you -->"
         + "\n  <st:success/>"
         + "\n  <st:node"
         + " name=\"&quot;123&quot;\""
         + " id=\"abc\""
         + " 'unescaped'=\"\"123\"\""
         + ">\n    &apos;text&apos;"
         + "\n  </st:node>"
         + "\n  <stuff"
         + ">\n    <![CDATA[blablab]]>"
         + "\n  </stuff>\n</OTDS>"
  {
    Join1();
    Join2();
    Join11();
    Join12();
    Join13();
    Join5();
    Join6();
    Join7();
    Join15();
    Join16();
    Join14();
    Join17();
    Join18();
  }
}
