/** The caption escaper of both marker builders: four chained
    `replace(/x/g, entity)` calls, ampersand first. */
module HtmlEscape {

  /** `s` with every occurrence of `c` replaced by `rep` (String.replace with a global regex). */
  function ReplaceAll(s: string, c: char, rep: string): (r: string)
    ensures c !in s ==> r == s
    ensures c !in rep ==> c !in r
  {
    if s == [] then []
    else (if s[0] == c then rep else [s[0]]) + ReplaceAll(s[1..], c, rep)
  }

  /** A character in neither the text nor the replacement is not in the result. */
  lemma {:induction false} ReplaceAllKeepsAbsent(s: string, c: char, rep: string, x: char)
    requires x !in s && x !in rep
    ensures x !in ReplaceAll(s, c, rep)
  {
    if s != [] {
      assert s[0] != x;
      ReplaceAllKeepsAbsent(s[1..], c, rep, x);
    }
  }

  lemma {:induction false} ReplaceAllConcat(a: string, b: string, c: char, rep: string)
    ensures ReplaceAll(a + b, c, rep) == ReplaceAll(a, c, rep) + ReplaceAll(b, c, rep)
  {
    if a == [] {
      assert a + b == b;
    } else {
      assert (a + b)[0] == a[0];
      assert (a + b)[1..] == a[1..] + b;
      ReplaceAllConcat(a[1..], b, c, rep);
    }
  }

  /** The escaped caption, in the order the source applies the replacements. */
  function Escape(s: string): string
  {
    ReplaceAll(ReplaceAll(ReplaceAll(ReplaceAll(s, '&', "&amp;"), '<', "&lt;"), '>', "&gt;"), '"', "&quot;")
  }

  /** The escaped caption holds no character that could open a tag or
      close an attribute. */
  lemma EscapeLeavesNoMarkup(s: string)
    ensures var r := Escape(s); '<' !in r && '>' !in r && '"' !in r
  {
    var amp := ReplaceAll(s, '&', "&amp;");
    var lt := ReplaceAll(amp, '<', "&lt;");
    assert '<' !in lt;
    var gt := ReplaceAll(lt, '>', "&gt;");
    assert '>' !in gt;
    ReplaceAllKeepsAbsent(lt, '>', "&gt;", '<');
    ReplaceAllKeepsAbsent(gt, '"', "&quot;", '<');
    ReplaceAllKeepsAbsent(gt, '"', "&quot;", '>');
  }

  /** The entity a single character becomes: an independent, one-pass
      reference definition of the escaper. */
  function EscapeChar(c: char): string
  {
    if c == '&' then "&amp;"
    else if c == '<' then "&lt;"
    else if c == '>' then "&gt;"
    else if c == '"' then "&quot;"
    else [c]
  }

  function EscapeEach(s: string): string
  {
    if s == [] then [] else EscapeChar(s[0]) + EscapeEach(s[1..])
  }

  /** On one character, a replacement either rewrites it or keeps it. */
  lemma ReplaceAllSingle(x: char, c: char, rep: string)
    ensures ReplaceAll([x], c, rep) == if x == c then rep else [x]
  {
    assert [x][1..] == [];
  }

  /** A character none of the replacements touches passes through. */
  lemma EscapePlain(c: char)
    requires c != '&' && c != '<' && c != '>' && c != '"'
    ensures Escape([c]) == [c]
  {
    ReplaceAllSingle(c, '&', "&amp;");
    ReplaceAllSingle(c, '<', "&lt;");
    ReplaceAllSingle(c, '>', "&gt;");
    ReplaceAllSingle(c, '"', "&quot;");
  }

  lemma EscapeAmpersand()
    ensures Escape("&") == "&amp;"
  {
    var amp := ReplaceAll("&", '&', "&amp;");
    ReplaceAllSingle('&', '&', "&amp;");
    assert amp == "&amp;";
    assert '<' !in amp && '>' !in amp && '"' !in amp;
  }

  lemma EscapeLessThan()
    ensures Escape("<") == "&lt;"
  {
    ReplaceAllSingle('<', '&', "&amp;");
    assert ReplaceAll("<", '&', "&amp;") == "<";
    ReplaceAllSingle('<', '<', "&lt;");
    var lt := ReplaceAll("<", '<', "&lt;");
    assert lt == "&lt;";
    assert '>' !in lt && '"' !in lt;
  }

  lemma EscapeGreaterThan()
    ensures Escape(">") == "&gt;"
  {
    ReplaceAllSingle('>', '&', "&amp;");
    assert ReplaceAll(">", '&', "&amp;") == ">";
    ReplaceAllSingle('>', '<', "&lt;");
    assert ReplaceAll(">", '<', "&lt;") == ">";
    ReplaceAllSingle('>', '>', "&gt;");
    var gt := ReplaceAll(">", '>', "&gt;");
    assert gt == "&gt;";
    assert '"' !in gt;
  }

  lemma EscapeQuote()
    ensures Escape("\"") == "&quot;"
  {
    ReplaceAllSingle('"', '&', "&amp;");
    assert ReplaceAll("\"", '&', "&amp;") == "\"";
    ReplaceAllSingle('"', '<', "&lt;");
    assert ReplaceAll("\"", '<', "&lt;") == "\"";
    ReplaceAllSingle('"', '>', "&gt;");
    assert ReplaceAll("\"", '>', "&gt;") == "\"";
    ReplaceAllSingle('"', '"', "&quot;");
  }

  lemma EscapeSingle(c: char)
    ensures Escape([c]) == EscapeChar(c)
  {
    if c == '&' {
      EscapeAmpersand();
    } else if c == '<' {
      EscapeLessThan();
    } else if c == '>' {
      EscapeGreaterThan();
    } else if c == '"' {
      EscapeQuote();
    } else {
      EscapePlain(c);
    }
  }

  /** Chaining the four replacements, ampersand first, escapes every
      character exactly once: no entity produced by one step is rewritten
      by a later one. */
  lemma {:induction false} EscapeIsEscapeEach(s: string)
    ensures Escape(s) == EscapeEach(s)
  {
    if s != [] {
      var head, tail := [s[0]], s[1..];
      assert s == head + tail;
      var a1, a2 := ReplaceAll(head, '&', "&amp;"), ReplaceAll(tail, '&', "&amp;");
      ReplaceAllConcat(head, tail, '&', "&amp;");
      var b1, b2 := ReplaceAll(a1, '<', "&lt;"), ReplaceAll(a2, '<', "&lt;");
      ReplaceAllConcat(a1, a2, '<', "&lt;");
      var c1, c2 := ReplaceAll(b1, '>', "&gt;"), ReplaceAll(b2, '>', "&gt;");
      ReplaceAllConcat(b1, b2, '>', "&gt;");
      ReplaceAllConcat(c1, c2, '"', "&quot;");
      EscapeSingle(s[0]);
      EscapeIsEscapeEach(tail);
    }
  }

  /** Decodes the four entities the escaper produces. */
  function Unescape(s: string): string
  {
    if s == [] then []
    else if |s| >= 5 && s[..5] == "&amp;" then "&" + Unescape(s[5..])
    else if |s| >= 4 && s[..4] == "&lt;" then "<" + Unescape(s[4..])
    else if |s| >= 4 && s[..4] == "&gt;" then ">" + Unescape(s[4..])
    else if |s| >= 6 && s[..6] == "&quot;" then "\"" + Unescape(s[6..])
    else [s[0]] + Unescape(s[1..])
  }

  /** Decoding an entity gives its character back, and decoding carries
      on right after the entity. */
  lemma UnescapeAmpersand(rest: string)
    ensures Unescape("&amp;" + rest) == "&" + Unescape(rest)
  {
    var e := "&amp;" + rest;
    assert e[..5] == "&amp;" && e[5..] == rest;
  }

  lemma UnescapeLessThan(rest: string)
    ensures Unescape("&lt;" + rest) == "<" + Unescape(rest)
  {
    var e := "&lt;" + rest;
    assert e[..4] == "&lt;" && e[4..] == rest;
    assert !(|e| >= 5 && e[..5] == "&amp;") by { if |e| >= 5 { assert e[..5][1] == 'l'; } }
  }

  lemma UnescapeGreaterThan(rest: string)
    ensures Unescape("&gt;" + rest) == ">" + Unescape(rest)
  {
    var e := "&gt;" + rest;
    assert e[..4] == "&gt;" && e[4..] == rest;
    assert !(|e| >= 5 && e[..5] == "&amp;") by { if |e| >= 5 { assert e[..5][1] == 'g'; } }
    assert e[..4] != "&lt;" by { assert e[..4][1] == 'g'; }
  }

  lemma UnescapeQuote(rest: string)
    ensures Unescape("&quot;" + rest) == "\"" + Unescape(rest)
  {
    var e := "&quot;" + rest;
    assert e[..6] == "&quot;" && e[6..] == rest;
    assert e[..5][1] == 'q' && e[..4][1] == 'q';
  }

  lemma UnescapePlain(c: char, rest: string)
    requires c != '&'
    ensures Unescape([c] + rest) == [c] + Unescape(rest)
  {
    var e := [c] + rest;
    assert e[0] == c && e[1..] == rest;
    assert !(|e| >= 5 && e[..5] == "&amp;") by { if |e| >= 5 { assert e[..5][0] == c; } }
    assert !(|e| >= 4 && e[..4] == "&lt;") by { if |e| >= 4 { assert e[..4][0] == c; } }
    assert !(|e| >= 4 && e[..4] == "&gt;") by { if |e| >= 4 { assert e[..4][0] == c; } }
    assert !(|e| >= 6 && e[..6] == "&quot;") by { if |e| >= 6 { assert e[..6][0] == c; } }
  }

  lemma UnescapeEntity(c: char, rest: string)
    ensures Unescape(EscapeChar(c) + rest) == [c] + Unescape(rest)
  {
    if c == '&' {
      UnescapeAmpersand(rest);
    } else if c == '<' {
      UnescapeLessThan(rest);
    } else if c == '>' {
      UnescapeGreaterThan(rest);
    } else if c == '"' {
      UnescapeQuote(rest);
    } else {
      UnescapePlain(c, rest);
    }
  }

  lemma {:induction false} UnescapeEscapeEach(s: string)
    ensures Unescape(EscapeEach(s)) == s
  {
    if s != [] {
      UnescapeEntity(s[0], EscapeEach(s[1..]));
      UnescapeEscapeEach(s[1..]);
      assert s == [s[0]] + s[1..];
    }
  }

  /** Escaping loses nothing: the caption can be recovered from the markup. */
  lemma UnescapeEscape(s: string)
    ensures Unescape(Escape(s)) == s
  {
    EscapeIsEscapeEach(s);
    UnescapeEscapeEach(s);
  }
}
