/** Android string-resource escapes: the chained replacements, and the scanner that undoes them. */
module TranslationKit {

  /** Every c in the text becomes into, left to right, as a one-character replace does it. */
  function Replace(text: string, c: char, into: string): string
  {
    if text == "" then ""
    else (if text[0] == c then into else [text[0]]) + Replace(text[1..], c, into)
  }

  /** Plain text to a resource's text. */
  method Escape(text: string) returns (r: string)
    ensures r == Escaped(text)
  {
    r := Replace(text, '\\', "\\\\");
    r := Replace(r, '\'', "\\'");
    r := Replace(r, '"', "\\\"");
    r := Replace(r, '\n', "\\n");
    r := Replace(r, '\t', "\\t");
    ChainIsOnePass(text);
    if r != "" && (r[0] == '@' || r[0] == '?') {
      r := "\\" + r;
    }
  }

  /** Resource text to plain text: a backslash takes the next character, if there is one, with it. */
  method Unescape(text: string) returns (r: string)
    ensures r == Unescaped(text)
  {
    r := "";
    var i := 0;
    while i < |text|
      invariant 0 <= i <= |text|
      invariant Unescaped(text) == r + Unescaped(text[i..])
    {
      var c := text[i];
      assert text[i..][1..] == text[i + 1..];
      if c == '\\' && i + 1 < |text| {
        assert text[i..][2..] == text[i + 2..];
        r := r + [Meant(text[i + 1])];
        i := i + 2;
      } else {
        r := r + [c];
        i := i + 1;
      }
    }
  }

  // ---- One character at a time ----

  function CodeOf(c: char): string
  {
    match c
    case '\\' => "\\\\"
    case '\'' => "\\'"
    case '"' => "\\\""
    case '\n' => "\\n"
    case '\t' => "\\t"
    case _ => [c]
  }

  function Coded(text: string): string
  {
    if text == "" then "" else CodeOf(text[0]) + Coded(text[1..])
  }

  function Escaped(text: string): string
  {
    if text != "" && (text[0] == '@' || text[0] == '?') then "\\" + Coded(text) else Coded(text)
  }

  function Meant(c: char): char
  {
    if c == 'n' then '\n' else if c == 't' then '\t' else c
  }

  function Unescaped(text: string): string
    decreases |text|
  {
    if text == "" then ""
    else if text[0] == '\\' && |text| > 1 then [Meant(text[1])] + Unescaped(text[2..])
    else [text[0]] + Unescaped(text[1..])
  }

  lemma {:induction false} ReplaceConcat(a: string, b: string, c: char, into: string)
    ensures Replace(a + b, c, into) == Replace(a, c, into) + Replace(b, c, into)
  {
    if a == "" {
      assert a + b == b;
    } else {
      assert (a + b)[1..] == a[1..] + b;
      ReplaceConcat(a[1..], b, c, into);
    }
  }

  function Chain(text: string): string
  {
    Replace(Replace(Replace(Replace(Replace(text, '\\', "\\\\"), '\'', "\\'"), '"', "\\\""), '\n', "\\n"), '\t', "\\t")
  }

  lemma ChainConcat(a: string, b: string)
    ensures Chain(a + b) == Chain(a) + Chain(b)
  {
    var a1, b1 := Replace(a, '\\', "\\\\"), Replace(b, '\\', "\\\\");
    var a2, b2 := Replace(a1, '\'', "\\'"), Replace(b1, '\'', "\\'");
    var a3, b3 := Replace(a2, '"', "\\\""), Replace(b2, '"', "\\\"");
    var a4, b4 := Replace(a3, '\n', "\\n"), Replace(b3, '\n', "\\n");
    ReplaceConcat(a, b, '\\', "\\\\");
    ReplaceConcat(a1, b1, '\'', "\\'");
    ReplaceConcat(a2, b2, '"', "\\\"");
    ReplaceConcat(a3, b3, '\n', "\\n");
    ReplaceConcat(a4, b4, '\t', "\\t");
  }

  lemma ReplaceOne(x: char, c: char, into: string)
    ensures Replace([x], c, into) == if x == c then into else [x]
  {
  }

  lemma ReplaceTwo(x: char, y: char, c: char, into: string)
    requires x != c && y != c
    ensures Replace([x, y], c, into) == [x, y]
  {
    assert [x, y][1..] == [y];
    ReplaceOne(y, c, into);
  }

  /** The order of the replacements matters here: no later one touches what an earlier one wrote. */
  lemma ChainOfOne(c: char)
    ensures Chain([c]) == CodeOf(c)
  {
    ReplaceOne(c, '\\', "\\\\");
    ReplaceOne(c, '\'', "\\'");
    ReplaceOne(c, '"', "\\\"");
    ReplaceOne(c, '\n', "\\n");
    ReplaceOne(c, '\t', "\\t");
    ReplaceTwo('\\', '\\', '\'', "\\'");
    ReplaceTwo('\\', '\\', '"', "\\\"");
    ReplaceTwo('\\', '\\', '\n', "\\n");
    ReplaceTwo('\\', '\\', '\t', "\\t");
    ReplaceTwo('\\', '\'', '"', "\\\"");
    ReplaceTwo('\\', '\'', '\n', "\\n");
    ReplaceTwo('\\', '\'', '\t', "\\t");
    ReplaceTwo('\\', '"', '\n', "\\n");
    ReplaceTwo('\\', '"', '\t', "\\t");
    ReplaceTwo('\\', 'n', '\t', "\\t");
  }

  /** Five passes over the text equal one pass that codes each character. */
  lemma {:induction false} ChainIsOnePass(text: string)
    ensures Chain(text) == Coded(text)
  {
    if text != "" {
      ChainIsOnePass(text[1..]);
      ChainConcat([text[0]], text[1..]);
      assert text == [text[0]] + text[1..];
      ChainOfOne(text[0]);
    }
  }

  lemma UnescapedCode(c: char, rest: string)
    ensures Unescaped(CodeOf(c) + rest) == [c] + Unescaped(rest)
  {
  }

  lemma {:induction false} UnescapedCoded(text: string)
    ensures Unescaped(Coded(text)) == text
  {
    if text != "" {
      UnescapedCoded(text[1..]);
      UnescapedCode(text[0], Coded(text[1..]));
    }
  }

  /** Unescaping undoes escaping for every text, a leading '@' or '?' included. */
  lemma RoundTrip(text: string)
    ensures Unescaped(Escaped(text)) == text
  {
    UnescapedCoded(text);
    if text != "" && (text[0] == '@' || text[0] == '?') {
      var s := "\\" + Coded(text);
      assert Coded(text) == [text[0]] + Coded(text[1..]);
      assert s[2..] == Coded(text[1..]);
      UnescapedCoded(text[1..]);
    }
  }

  /** A text without a backslash is its own meaning, and comes before whatever follows. */
  lemma {:induction false} PlainTextStays(a: string, b: string)
    requires '\\' !in a
    ensures Unescaped(a + b) == a + Unescaped(b) && Unescaped(a) == a
  {
    if a == "" {
      assert a + b == b;
    } else {
      assert (a + b)[1..] == a[1..] + b;
      PlainTextStays(a[1..], b);
    }
  }

  /** A backslash before n or t makes a newline or a tab; before anything else it goes; at the end it stays. */
  lemma BackslashesAreRead(a: string, c: char, b: string)
    requires '\\' !in a
    ensures Unescaped(a + ['\\', c] + b)
            == a + [if c == 'n' then '\n' else if c == 't' then '\t' else c] + Unescaped(b)
    ensures Unescaped(a + ['\\']) == a + ['\\']
  {
    PlainTextStays(a, ['\\', c] + b);
    PlainTextStays(a, ['\\']);
    assert a + ['\\', c] + b == a + (['\\', c] + b);
    assert (['\\', c] + b)[2..] == b;
  }

  /** No character of an escaped text is left where Android would read it: each special one follows a backslash. */
  predicate Safe(text: string)
    decreases |text|
  {
    if text == "" then true
    else if text[0] == '\\' then |text| > 1 && Safe(text[2..])
    else text[0] != '\'' && text[0] != '"' && text[0] != '\n' && text[0] != '\t' && Safe(text[1..])
  }

  lemma {:induction false} CodedIsSafe(text: string)
    ensures Safe(Coded(text))
  {
    if text != "" {
      CodedIsSafe(text[1..]);
      var s := Coded(text);
      if |CodeOf(text[0])| == 2 {
        assert s[2..] == Coded(text[1..]);
      } else {
        assert s[1..] == Coded(text[1..]);
      }
    }
  }

  lemma EscapedIsSafe(text: string)
    ensures Safe(Escaped(text))
    ensures Escaped(text) != "" ==> Escaped(text)[0] != '@' && Escaped(text)[0] != '?'
  {
    CodedIsSafe(text);
    if text != "" && (text[0] == '@' || text[0] == '?') {
      assert ("\\" + Coded(text))[2..] == Coded(text)[1..] == Coded(text[1..]);
      CodedIsSafe(text[1..]);
    }
  }
}
