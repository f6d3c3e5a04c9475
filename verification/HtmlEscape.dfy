/** The escaping of the ESG pack (app/carbon/esg_pack.py); character references as in section
    13.1.4 of the HTML Living Standard. */
module HtmlEscape {

  /** `s.replace(c, by)` for a one-character pattern. */
  function Replace(s: string, c: char, ref: string): string {
    if s == "" then "" else (if s[0] == c then ref else [s[0]]) + Replace(s[1..], c, ref)
  }

  /** `esc`: four whole-string replacements, the ampersand first. */
  function Escape(s: string): string {
    Replace(Replace(Replace(Replace(s, '&', "&amp;"), '<', "&lt;"), '>', "&gt;"), '"', "&quot;")
  }

  /** What one character becomes. */
  function Reference(c: char): string {
    match c
    case '&' => "&amp;"
    case '<' => "&lt;"
    case '>' => "&gt;"
    case '"' => "&quot;"
    case _ => [c]
  }

  function Mapped(s: string): string {
    if s == "" then "" else Reference(s[0]) + Mapped(s[1..])
  }

  lemma {:induction false} ReplaceAppend(s: string, t: string, c: char, ref: string)
    ensures Replace(s + t, c, ref) == Replace(s, c, ref) + Replace(t, c, ref)
  {
    if s == "" {
      assert s + t == t;
    } else {
      assert (s + t)[1..] == s[1..] + t;
      ReplaceAppend(s[1..], t, c, ref);
    }
  }

  /** A replacement leaves alone what does not contain its character. */
  lemma {:induction false} ReplaceAbsent(s: string, c: char, ref: string)
    requires c !in s
    ensures Replace(s, c, ref) == s
  {
    if s != "" { ReplaceAbsent(s[1..], c, ref); }
  }

  lemma EscapeAppend(s: string, t: string)
    ensures Escape(s + t) == Escape(s) + Escape(t)
  {
    var s1, t1 := Replace(s, '&', "&amp;"), Replace(t, '&', "&amp;");
    var s2, t2 := Replace(s1, '<', "&lt;"), Replace(t1, '<', "&lt;");
    ReplaceAppend(s, t, '&', "&amp;");
    ReplaceAppend(s1, t1, '<', "&lt;");
    ReplaceAppend(s2, t2, '>', "&gt;");
    ReplaceAppend(Replace(s2, '>', "&gt;"), Replace(t2, '>', "&gt;"), '"', "&quot;");
  }

  /** The replacements after the ampersand's, and after those of the angle brackets. */
  function AfterAmp(s: string): string { Replace(AfterLt(s), '"', "&quot;") }
  function AfterLt(s: string): string { Replace(Replace(s, '<', "&lt;"), '>', "&gt;") }

  lemma AbsentAfterAmp(s: string)
    requires '<' !in s && '>' !in s && '"' !in s
    ensures AfterAmp(s) == s
  {
    ReplaceAbsent(s, '<', "&lt;");
    ReplaceAbsent(s, '>', "&gt;");
    ReplaceAbsent(s, '"', "&quot;");
  }

  lemma OneAfterAmp(c: char)
    ensures AfterAmp([c]) == if c == '&' then "&" else Reference(c)
  {
    OneReplaced(c, '<', "&lt;");
    OneReplaced(c, '>', "&gt;");
    OneReplaced(c, '"', "&quot;");
    if c == '<' {
      ReplaceAbsent(Reference(c), '>', "&gt;");
      ReplaceAbsent(Reference(c), '"', "&quot;");
    } else if c == '>' {
      ReplaceAbsent(Reference(c), '"', "&quot;");
    }
  }

  lemma EscapeOne(c: char)
    ensures Escape([c]) == Reference(c)
  {
    OneReplaced(c, '&', "&amp;");
    if c == '&' { AbsentAfterAmp(Reference(c)); } else { OneAfterAmp(c); }
  }

  lemma {:induction false} OneReplaced(c: char, pattern: char, ref: string)
    ensures Replace([c], pattern, ref) == if c == pattern then ref else [c]
  {
    assert [c][1..] == "";
    assert ref + "" == ref && [c] + "" == [c];
  }

  /** The chain of whole-string replacements is one per-character map: no later replacement
      touches what an earlier one put in. */
  lemma {:induction false} ChainIsCharacterMap(s: string)
    ensures Escape(s) == Mapped(s)
  {
    if s != "" {
      assert s == [s[0]] + s[1..];
      EscapeAppend([s[0]], s[1..]);
      EscapeOne(s[0]);
      ChainIsCharacterMap(s[1..]);
    }
  }

  /** Taking the ampersand last instead would escape the references themselves. */
  lemma AmpersandFirstMatters()
    ensures Replace(Replace("<", '<', "&lt;"), '&', "&amp;") == "&amp;lt;" != Escape("<")
  {
    EscapeOne('<');
    OneReplaced('<', '<', "&lt;");
  }

  /** A string made of references and of characters that need none. */
  predicate Clean(s: string)
    decreases |s|
  {
    s == "" ||
    (if s[0] == '&' then
       (|s| >= 5 && s[..5] == "&amp;" && Clean(s[5..])) || (|s| >= 4 && s[..4] == "&lt;" && Clean(s[4..]))
       || (|s| >= 4 && s[..4] == "&gt;" && Clean(s[4..])) || (|s| >= 6 && s[..6] == "&quot;" && Clean(s[6..]))
     else s[0] !in {'<', '>', '"'} && Clean(s[1..]))
  }

  lemma {:induction false} CleanReference(c: char, rest: string)
    requires Clean(rest)
    ensures Clean(Reference(c) + rest)
  {
    var s := Reference(c) + rest;
    match c {
      case '&' => assert s[..5] == "&amp;" && s[5..] == rest;
      case '<' => assert s[..4] == "&lt;" && s[4..] == rest;
      case '>' => assert s[..4] == "&gt;" && s[4..] == rest;
      case '"' => assert s[..6] == "&quot;" && s[6..] == rest;
      case _ => assert s[1..] == rest;
    }
  }

  lemma {:induction false} MappedIsClean(s: string)
    ensures Clean(Mapped(s))
    ensures '<' !in Mapped(s) && '>' !in Mapped(s) && '"' !in Mapped(s)
  {
    if s != "" {
      MappedIsClean(s[1..]);
      CleanReference(s[0], Mapped(s[1..]));
      ReferenceIsSafe(s[0]);
    }
  }

  lemma ReferenceIsSafe(c: char)
    ensures '<' !in Reference(c) && '>' !in Reference(c) && '"' !in Reference(c)
  {
  }

  /** The output has no raw `<`, `>` or `"`, and every `&` in it starts one of the references. */
  lemma EscapedIsClean(s: string)
    ensures Clean(Escape(s))
    ensures '<' !in Escape(s) && '>' !in Escape(s) && '"' !in Escape(s)
  {
    ChainIsCharacterMap(s);
    MappedIsClean(s);
  }

  /** Reading the references back. */
  function Unescape(s: string): string
    decreases |s|
  {
    if s == "" then ""
    else if |s| >= 5 && s[..5] == "&amp;" then "&" + Unescape(s[5..])
    else if |s| >= 4 && s[..4] == "&lt;" then "<" + Unescape(s[4..])
    else if |s| >= 4 && s[..4] == "&gt;" then ">" + Unescape(s[4..])
    else if |s| >= 6 && s[..6] == "&quot;" then "\"" + Unescape(s[6..])
    else [s[0]] + Unescape(s[1..])
  }

  lemma {:induction false} UnescapeReference(c: char, rest: string)
    ensures Unescape(Reference(c) + rest) == [c] + Unescape(rest)
  {
    match c {
      case '&' => UnescapeAmp(rest);
      case '<' => UnescapeLt(rest);
      case '>' => UnescapeGt(rest);
      case '"' => UnescapeQuot(rest);
      case _ => UnescapePlain(c, rest);
    }
  }

  lemma {:induction false} UnescapeAmp(rest: string)
    ensures Unescape("&amp;" + rest) == "&" + Unescape(rest)
  {
    var s := "&amp;" + rest;
    assert s[..5] == "&amp;" && s[5..] == rest;
  }

  lemma {:induction false} UnescapeLt(rest: string)
    ensures Unescape("&lt;" + rest) == "<" + Unescape(rest)
  {
    var s := "&lt;" + rest;
    assert s[..4] == "&lt;" && s[4..] == rest;
    assert s[1] == 'l';
  }

  lemma {:induction false} UnescapeGt(rest: string)
    ensures Unescape("&gt;" + rest) == ">" + Unescape(rest)
  {
    var s := "&gt;" + rest;
    assert s[..4] == "&gt;" && s[4..] == rest;
    assert s[1] == 'g';
  }

  lemma {:induction false} UnescapeQuot(rest: string)
    ensures Unescape("&quot;" + rest) == "\"" + Unescape(rest)
  {
    var s := "&quot;" + rest;
    assert s[..6] == "&quot;" && s[6..] == rest;
    assert s[1] == 'q';
  }

  lemma {:induction false} UnescapePlain(c: char, rest: string)
    requires c != '&'
    ensures Unescape([c] + rest) == [c] + Unescape(rest)
  {
    var s := [c] + rest;
    assert s[0] == c && s[1..] == rest;
    assert |s| >= 4 ==> s[..4][0] == c;
    assert |s| >= 5 ==> s[..5][0] == c;
    assert |s| >= 6 ==> s[..6][0] == c;
  }

  /** Unescaping gives back every input. */
  lemma {:induction false} UnescapeEscape(s: string)
    ensures Unescape(Escape(s)) == s
  {
    ChainIsCharacterMap(s);
    if s != "" {
      UnescapeReference(s[0], Mapped(s[1..]));
      ChainIsCharacterMap(s[1..]);
      UnescapeEscape(s[1..]);
    }
  }
}
