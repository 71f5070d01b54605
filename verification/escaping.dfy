/**
 The character escaper of the writer (`escape` in src/xml_writer.rs), as a
 pure function from a text to its escaped form, together with its inverse.
 */
module Escaping {

  /** The characters escaped output never contains literally. */
  predicate IsReserved(c: char) {
    c == '<' || c == '>' || c == '"' || c == '\''
  }

  /** True when the escaper rewrites `c` instead of copying it through. */
  predicate IsEscaped(c: char, ident: bool) {
    c == '"' || c == '\'' || c == '&' || c == '<' || c == '>' || (ident && c == '\\')
  }

  /** The replacement text for one character: a named entity for the five
      markup characters, a doubled backslash inside identifiers, and the
      character itself otherwise. */
  function EscapeChar(c: char, ident: bool): (r: string)
    ensures IsEscaped(c, ident) <==> r != [c]
    ensures 1 <= |r|
  {
    if c == '"' then "&quot;"
    else if c == '\'' then "&apos;"
    else if c == '&' then "&amp;"
    else if c == '<' then "&lt;"
    else if c == '>' then "&gt;"
    else if c == '\\' && ident then "\\\\"
    else [c]
  }

  /** `escape(text, ident)`: every character replaced by `EscapeChar`. */
  function Escape(text: string, ident: bool): (r: string)
    ensures forall i :: 0 <= i < |r| ==> !IsReserved(r[i])
    ensures |text| <= |r|
    decreases |text|
  {
    if |text| == 0 then [] else EscapeChar(text[0], ident) + Escape(text[1..], ident)
  }

  /** Reads escaped text back: each entity and (for identifiers) each doubled
      backslash becomes the character it stands for. */
  function Unescape(s: string, ident: bool): string
    decreases |s|
  {
    if |s| == 0 then []
    else if s[0] == '&' then
      if "&quot;" <= s then ['"'] + Unescape(s[6..], ident)
      else if "&apos;" <= s then ['\''] + Unescape(s[6..], ident)
      else if "&amp;" <= s then ['&'] + Unescape(s[5..], ident)
      else if "&lt;" <= s then ['<'] + Unescape(s[4..], ident)
      else if "&gt;" <= s then ['>'] + Unescape(s[4..], ident)
      else ['&'] + Unescape(s[1..], ident)
    else if ident && s[0] == '\\' && 2 <= |s| && s[1] == '\\' then ['\\'] + Unescape(s[2..], ident)
    else [s[0]] + Unescape(s[1..], ident)
  }

  /** Escaping is applied character by character, so it distributes over
      concatenation. */
  lemma {:induction false} EscapeConcat(a: string, b: string, ident: bool)
    ensures Escape(a + b, ident) == Escape(a, ident) + Escape(b, ident)
    decreases |a|
  {
    if |a| == 0 {
      assert a + b == b;
    } else {
      assert (a + b)[0] == a[0];
      assert (a + b)[1..] == a[1..] + b;
      EscapeConcat(a[1..], b, ident);
    }
  }

  /** Reading an entity back from the front of a text. */
  lemma UnescapeEntity(e: string, c: char, rest: string, ident: bool)
    requires (e, c) in {("&quot;", '"'), ("&apos;", '\''), ("&amp;", '&'), ("&lt;", '<'), ("&gt;", '>')}
    ensures Unescape(e + rest, ident) == [c] + Unescape(rest, ident)
  {
    var u := e + rest;
    assert u[..|e|] == e;
    assert u[|e|..] == rest;
    assert u[0] == '&';
    if c == '\'' {
      assert !("&quot;" <= u) by { assert u[1] != 'q'; }
    } else if c == '&' {
      assert !("&quot;" <= u) by { assert u[1] != 'q'; }
      assert !("&apos;" <= u) by { assert u[2] != 'p'; }
    } else if c == '<' || c == '>' {
      assert !("&quot;" <= u) && !("&apos;" <= u) && !("&amp;" <= u) by {
        assert u[1] != 'q' && u[1] != 'a';
      }
      if c == '>' {
        assert !("&lt;" <= u) by { assert u[1] != 'l'; }
      }
    }
  }

  /** Unescaping one replacement text gives back exactly its character and
      leaves the rest of the input to be read on. */
  lemma UnescapeEscapeChar(c: char, ident: bool, rest: string)
    ensures Unescape(EscapeChar(c, ident) + rest, ident) == [c] + Unescape(rest, ident)
  {
    var e := EscapeChar(c, ident);
    if c == '"' {
      UnescapeEntity("&quot;", c, rest, ident);
    } else if c == '\'' {
      UnescapeEntity("&apos;", c, rest, ident);
    } else if c == '&' {
      UnescapeEntity("&amp;", c, rest, ident);
    } else if c == '<' {
      UnescapeEntity("&lt;", c, rest, ident);
    } else if c == '>' {
      UnescapeEntity("&gt;", c, rest, ident);
    } else if c == '\\' && ident {
      var u := "\\\\" + rest;
      assert u[0] == '\\' && u[1] == '\\' && u[2..] == rest;
    } else {
      assert e == [c];
      var u := [c] + rest;
      assert u[0] == c && u[1..] == rest;
    }
  }

  /** Round trip: unescaping undoes escaping, for texts and identifiers alike. */
  lemma {:induction false} UnescapeEscape(s: string, ident: bool)
    ensures Unescape(Escape(s, ident), ident) == s
    decreases |s|
  {
    if |s| > 0 {
      UnescapeEscapeChar(s[0], ident, Escape(s[1..], ident));
      UnescapeEscape(s[1..], ident);
      assert [s[0]] + s[1..] == s;
    }
  }

  /** Two texts with the same escaped form are the same text. */
  lemma EscapeInjective(a: string, b: string, ident: bool)
    requires Escape(a, ident) == Escape(b, ident)
    ensures a == b
  {
    UnescapeEscape(a, ident);
    UnescapeEscape(b, ident);
  }

  /** Escaping leaves a text unchanged exactly when it holds no character
      the escaper rewrites. */
  lemma {:induction false} EscapeIdentity(s: string, ident: bool)
    ensures Escape(s, ident) == s <==> forall i :: 0 <= i < |s| ==> !IsEscaped(s[i], ident)
    decreases |s|
  {
    if |s| > 0 {
      EscapeIdentity(s[1..], ident);
      var e := EscapeChar(s[0], ident);
      if IsEscaped(s[0], ident) {
        assert 1 < |e|;
        assert |Escape(s, ident)| > |s|;
      } else {
        assert Escape(s, ident) == [s[0]] + Escape(s[1..], ident);
        assert s == [s[0]] + s[1..];
        assert (forall i :: 0 <= i < |s| ==> !IsEscaped(s[i], ident))
          <==> (forall i :: 0 <= i < |s[1..]| ==> !IsEscaped(s[1..][i], ident)) by {
          forall i | 0 < i < |s| ensures s[i] == s[1..][i - 1] { }
        }
      }
    }
  }

  /** A character that is neither rewritten nor part of any replacement text
      (a line break, say) occurs in the escaped text exactly when it occurs in
      the original. */
  lemma {:induction false} EscapeKeepsPlainChar(s: string, ident: bool, c: char)
    requires !IsEscaped(c, ident) && c !in "&quot;apos;amp;lt;gt;\\"
    ensures c in Escape(s, ident) <==> c in s
    decreases |s|
  {
    if |s| > 0 {
      EscapeKeepsPlainChar(s[1..], ident, c);
      var e := EscapeChar(s[0], ident);
      assert s == [s[0]] + s[1..];
      assert c in e <==> c == s[0];
    }
  }

  // ------------------------------------------------------------ backslashes

  /** The number of occurrences of `c` in `s`. */
  function Count(s: string, c: char): (n: nat)
    ensures n == 0 <==> c !in s
    ensures n <= |s|
    decreases |s|
  {
    if |s| == 0 then 0 else (if s[0] == c then 1 else 0) + Count(s[1..], c)
  }

  lemma {:induction false} CountConcat(a: string, b: string, c: char)
    ensures Count(a + b, c) == Count(a, c) + Count(b, c)
    decreases |a|
  {
    if |a| == 0 {
      assert a + b == b;
    } else {
      assert (a + b)[0] == a[0];
      assert (a + b)[1..] == a[1..] + b;
      CountConcat(a[1..], b, c);
    }
  }

  /** Escaping an identifier doubles every backslash; escaping text keeps
      each one as it is. No replacement text adds a backslash of its own. */
  lemma {:induction false} EscapeBackslashes(s: string, ident: bool)
    ensures Count(Escape(s, ident), '\\') == (if ident then 2 else 1) * Count(s, '\\')
    decreases |s|
  {
    if |s| > 0 {
      var e := EscapeChar(s[0], ident);
      assert Count(e, '\\') == (if s[0] == '\\' then (if ident then 2 else 1) else 0) by {
        if s[0] == '\\' && ident {
          assert e == "\\\\";
          assert e[1..] == "\\";
        } else if !IsEscaped(s[0], ident) {
          assert e == [s[0]];
        } else {
          assert '\\' !in e;
        }
      }
      CountConcat(e, Escape(s[1..], ident), '\\');
      EscapeBackslashes(s[1..], ident);
    }
  }

  /** Identifier escaping and text escaping agree exactly on the texts with
      no backslash. */
  lemma {:induction false} IdentEscapeDiffersOnBackslash(s: string)
    ensures Escape(s, true) == Escape(s, false) <==> '\\' !in s
    decreases |s|
  {
    if '\\' in s {
      EscapeBackslashes(s, true);
      EscapeBackslashes(s, false);
    } else if |s| > 0 {
      assert s[0] != '\\';
      assert '\\' !in s[1..] by {
        forall i | 0 <= i < |s[1..]| ensures s[1..][i] != '\\' {
          assert s[1..][i] == s[i + 1];
        }
      }
      IdentEscapeDiffersOnBackslash(s[1..]);
      assert EscapeChar(s[0], true) == EscapeChar(s[0], false);
    }
  }
}
