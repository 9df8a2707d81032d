/** Text on its way into a content stream: what the base fonts can carry, and the string syntax around it. */
module PdfText {
  import opened Options

  /** The characters printed as something else. */
  function Transliterated(c: char): Option<string> {
    if c == '\U{2018}' || c == '\U{2019}' then Some("'")
    else if c == '\U{201C}' || c == '\U{201D}' then Some("\"")
    else if c == '\U{2013}' || c == '\U{2014}' || c == '\U{2022}' || c == '\U{00B7}' then Some("-")
    else if c == '\U{2026}' then Some("...")
    else if c == '\U{00A0}' then Some(" ")
    else if c == '\U{20B9}' then Some("INR ")
    else None
  }

  /** One character as the fonts can carry it; what they cannot carry is dropped. */
  function Carried(c: char): string {
    if Transliterated(c).Some? then Transliterated(c).value
    else if 32 <= c as int <= 255 then [c]
    else if c as int == 9 then " "
    else ""
  }

  /** What a base-14 font can draw and no rule rewrites. */
  predicate Plain(c: char) {
    32 <= c as int <= 255 && c != '\U{00A0}' && c != '\U{00B7}'
  }

  predicate AllPlain(s: string) {
    forall i | 0 <= i < |s| :: Plain(s[i])
  }

  /** The specification of the loop: each character carried in turn. */
  function WinAnsi(s: string): string {
    if s == "" then "" else WinAnsi(s[..|s| - 1]) + Carried(s[|s| - 1])
  }

  lemma CarriedIsPlain(c: char)
    ensures AllPlain(Carried(c))
    ensures Plain(c) ==> Carried(c) == [c]
  {
  }

  /** Nothing that survives is outside what the fonts carry. */
  lemma {:induction false} WinAnsiIsPlain(s: string)
    ensures AllPlain(WinAnsi(s))
  {
    if s != "" {
      WinAnsiIsPlain(s[..|s| - 1]);
      CarriedIsPlain(s[|s| - 1]);
    }
  }

  /** Text already plain is left as it is, so encoding twice is encoding once. */
  lemma {:induction false} PlainIsKept(s: string)
    requires AllPlain(s)
    ensures WinAnsi(s) == s
  {
    if s != "" {
      PlainIsKept(s[..|s| - 1]);
      CarriedIsPlain(s[|s| - 1]);
      assert s == s[..|s| - 1] + [s[|s| - 1]];
    }
  }

  lemma WinAnsiPush(s: string, c: char)
    ensures WinAnsi(s + [c]) == WinAnsi(s) + Carried(c)
  {
    assert (s + [c])[..|s|] == s;
  }

  lemma Regroup(x: string, y: string, z: string)
    ensures x + y + z == x + (y + z)
  {
  }

  lemma OneMoreApart(a: string, b: string, c: char)
    requires WinAnsi(a + b) == WinAnsi(a) + WinAnsi(b)
    ensures WinAnsi(a + (b + [c])) == WinAnsi(a) + WinAnsi(b + [c])
  {
    WinAnsiPush(a + b, c);
    WinAnsiPush(b, c);
    Regroup(a, b, [c]);
    Regroup(WinAnsi(a), WinAnsi(b), Carried(c));
  }

  /** Text is carried piece by piece. */
  lemma {:induction false} CarriedApart(a: string, b: string)
    ensures WinAnsi(a + b) == WinAnsi(a) + WinAnsi(b)
    decreases |b|
  {
    if b == "" {
      assert a + b == a && WinAnsi(a) + "" == WinAnsi(a);
    } else {
      var front, last := b[..|b| - 1], b[|b| - 1];
      CarriedApart(a, front);
      OneMoreApart(a, front, last);
      assert b == front + [last];
    }
  }

  /**
   * What is spelled otherwise: curled quotes straight, dashes and bullets as
   * hyphens, and the rupee by name; the rest above Latin-1 is dropped.
   */
  lemma SpelledOut(c: char)
    ensures c == '\U{2018}' || c == '\U{2019}' ==> Carried(c) == "'"
    ensures c == '\U{201C}' || c == '\U{201D}' ==> Carried(c) == "\""
    ensures '\U{2013}' <= c <= '\U{2014}' || c == '\U{2022}' || c == '\U{00B7}' ==> Carried(c) == "-"
    ensures c == '\t' || c == '\U{00A0}' ==> Carried(c) == " "
    ensures c == '\U{2026}' ==> Carried(c) == "..."
    ensures c == '\U{20B9}' ==> Carried(c) == "INR "
    ensures c < ' ' && c != '\t' ==> Carried(c) == ""
  {
  }

  /** A character is spelled the same wherever it stands. */
  lemma SpelledAnywhere(a: string, c: char, b: string)
    ensures WinAnsi(a + [c] + b) == WinAnsi(a) + Carried(c) + WinAnsi(b)
  {
    CarriedApart(a + [c], b);
    CarriedApart(a, [c]);
    WinAnsiPush("", c);
    assert "" + [c] == [c];
  }

  method ToWinAnsi(value: string) returns (out: string)
    ensures out == WinAnsi(value) && AllPlain(out)
    ensures AllPlain(value) ==> out == value
  {
    out := "";
    for i := 0 to |value|
      invariant out == WinAnsi(value[..i])
    {
      assert value[..i + 1][..i] == value[..i];
      var c := value[i];
      var replacement := Transliterated(c);
      if replacement.Some? {
        out := out + replacement.value;
        continue;
      }
      var code := c as int;
      if 32 <= code <= 255 {
        out := out + [c];
      } else if code == 9 {
        out := out + " ";
      }
    }
    assert value[..|value|] == value;
    WinAnsiIsPlain(value);
    if AllPlain(value) { PlainIsKept(value); }
  }

  // ---------------------------------------------------------------------------
  // String syntax
  // ---------------------------------------------------------------------------

  /** `s.replace(/c/g, '\c')`. */
  function Backslashed(s: string, c: char): string {
    if s == "" then "" else (if s[0] == c then ['\\', c] else [s[0]]) + Backslashed(s[1..], c)
  }

  /** Backslashes first, then the two parentheses. */
  function Escaped(s: string): string {
    Backslashed(Backslashed(Backslashed(s, '\\'), '('), ')')
  }

  predicate Structural(c: char) {
    c == '\\' || c == '(' || c == ')'
  }

  /** One pass that escapes all three at once. */
  function OnePass(s: string): string {
    if s == "" then "" else (if Structural(s[0]) then ['\\', s[0]] else [s[0]]) + OnePass(s[1..])
  }

  lemma {:induction false} BackslashedAppend(a: string, b: string, c: char)
    ensures Backslashed(a + b, c) == Backslashed(a, c) + Backslashed(b, c)
    decreases |a|
  {
    if a == "" {
      assert a + b == b;
    } else {
      assert (a + b)[0] == a[0] && (a + b)[1..] == a[1..] + b;
      BackslashedAppend(a[1..], b, c);
    }
  }

  lemma {:induction false} NothingToEscape(s: string, c: char)
    requires c !in s
    ensures Backslashed(s, c) == s
    decreases |s|
  {
    if s != "" {
      NothingToEscape(s[1..], c);
      assert s == [s[0]] + s[1..];
    }
  }

  lemma OneEscape(c: char)
    ensures Backslashed([c], c) == ['\\', c]
  {
    assert [c][1..] == "";
    assert Backslashed("", c) == "";
  }

  lemma EscapedOne(c: char)
    ensures Escaped([c]) == if Structural(c) then ['\\', c] else [c]
  {
    if c == '\\' {
      OneEscape(c);
      NothingToEscape(['\\', c], '(');
      NothingToEscape(['\\', c], ')');
    } else {
      NothingToEscape([c], '\\');
      if c == '(' {
        OneEscape(c);
        NothingToEscape(['\\', c], ')');
      } else {
        NothingToEscape([c], '(');
        if c == ')' { OneEscape(c); } else { NothingToEscape([c], ')'); }
      }
    }
  }

  lemma EscapedAppend(a: string, b: string)
    ensures Escaped(a + b) == Escaped(a) + Escaped(b)
  {
    BackslashedAppend(a, b, '\\');
    var a1, b1 := Backslashed(a, '\\'), Backslashed(b, '\\');
    BackslashedAppend(a1, b1, '(');
    BackslashedAppend(Backslashed(a1, '('), Backslashed(b1, '('), ')');
  }

  /** The three replacements in that order never escape an escape: they are one pass over the text. */
  lemma {:induction false} ThreeReplacementsAreOnePass(s: string)
    ensures Escaped(s) == OnePass(s)
    decreases |s|
  {
    if s != "" {
      assert s == [s[0]] + s[1..];
      EscapedAppend([s[0]], s[1..]);
      EscapedOne(s[0]);
      ThreeReplacementsAreOnePass(s[1..]);
    }
  }

  /**
   * A reader of literal strings (section 7.3.4.2 of ISO 32000-1), past the
   * opening parenthesis: the text up to the parenthesis that closes it, and
   * what follows.  `depth` counts unescaped parentheses still open inside.
   */
  function ReadLiteral(s: string, depth: nat): Option<(string, string)>
    decreases |s|
  {
    if s == "" then None
    else if s[0] == '\\' then
      if |s| == 1 then None else Prepend(s[1], ReadLiteral(s[2..], depth))
    else if s[0] == ')' && depth == 0 then Some(("", s[1..]))
    else Prepend(s[0], ReadLiteral(s[1..], if s[0] == '(' then depth + 1 else if s[0] == ')' then depth - 1 else depth))
  }

  function Prepend(c: char, r: Option<(string, string)>): Option<(string, string)> {
    match r
    case Some((text, rest)) => Some(([c] + text, rest))
    case None => None
  }

  /** Main result: whatever the text holds, a reader gets exactly it back, and stops exactly at its end. */
  lemma {:induction false} LiteralReadsBack(s: string, rest: string)
    ensures ReadLiteral(Escaped(s) + ")" + rest, 0) == Some((s, rest))
    decreases |s|
  {
    ThreeReplacementsAreOnePass(s);
    if s == "" {
      assert Escaped(s) + ")" + rest == ")" + rest;
      assert (")" + rest)[1..] == rest;
    } else {
      ThreeReplacementsAreOnePass(s[1..]);
      LiteralReadsBack(s[1..], rest);
      var tail := Escaped(s[1..]) + ")" + rest;
      assert s == [s[0]] + s[1..];
      if Structural(s[0]) {
        assert Escaped(s) + ")" + rest == ['\\', s[0]] + tail;
        assert (['\\', s[0]] + tail)[2..] == tail;
      } else {
        assert Escaped(s) + ")" + rest == [s[0]] + tail;
        assert ([s[0]] + tail)[1..] == tail;
      }
    }
  }
}
