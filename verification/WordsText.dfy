/** The wording as printed text, and how it is read back from the page. */
module WordsText {
  import opened Options
  import opened AmountInWords

  const ONES := [
    "", "One", "Two", "Three", "Four", "Five", "Six", "Seven", "Eight", "Nine", "Ten",
    "Eleven", "Twelve", "Thirteen", "Fourteen", "Fifteen", "Sixteen", "Seventeen", "Eighteen", "Nineteen"]

  const TENS := ["", "", "Twenty", "Thirty", "Forty", "Fifty", "Sixty", "Seventy", "Eighty", "Ninety"]

  function Text(w: Word): string {
    match w
    case Small(n) => if n < 20 then ONES[n] else ""
    case TenTimes(n) => if n < 10 then TENS[n] else ""
    case Zero => "Zero"
    case Hundred => "Hundred"
    case Thousand => "Thousand"
    case Lakh => "Lakh"
    case Crore => "Crore"
    case Rupees => "Rupees"
    case And => "and"
    case Paise => "Paise"
    case Only => "only"
  }

  /** The word a piece of text is, grouped by length. */
  function Lex(s: string): Option<Word> {
    match |s|
    case 3 =>
      if s == "One" then Some(Small(1)) else if s == "Two" then Some(Small(2)) else if s == "Six" then Some(Small(6))
      else if s == "Ten" then Some(Small(10)) else if s == "and" then Some(And) else None
    case 4 =>
      if s == "Four" then Some(Small(4)) else if s == "Five" then Some(Small(5)) else if s == "Nine" then Some(Small(9))
      else if s == "Zero" then Some(Zero) else if s == "Lakh" then Some(Lakh) else if s == "only" then Some(Only) else None
    case 5 =>
      if s == "Three" then Some(Small(3)) else if s == "Seven" then Some(Small(7)) else if s == "Eight" then Some(Small(8))
      else if s == "Forty" then Some(TenTimes(4)) else if s == "Fifty" then Some(TenTimes(5))
      else if s == "Sixty" then Some(TenTimes(6)) else if s == "Crore" then Some(Crore)
      else if s == "Paise" then Some(Paise) else None
    case 6 =>
      if s == "Eleven" then Some(Small(11)) else if s == "Twelve" then Some(Small(12))
      else if s == "Twenty" then Some(TenTimes(2)) else if s == "Thirty" then Some(TenTimes(3))
      else if s == "Eighty" then Some(TenTimes(8)) else if s == "Ninety" then Some(TenTimes(9))
      else if s == "Rupees" then Some(Rupees) else None
    case 7 =>
      if s == "Fifteen" then Some(Small(15)) else if s == "Sixteen" then Some(Small(16))
      else if s == "Seventy" then Some(TenTimes(7)) else if s == "Hundred" then Some(Hundred) else None
    case 8 =>
      if s == "Thirteen" then Some(Small(13)) else if s == "Fourteen" then Some(Small(14))
      else if s == "Eighteen" then Some(Small(18)) else if s == "Nineteen" then Some(Small(19))
      else if s == "Thousand" then Some(Thousand) else None
    case 9 => if s == "Seventeen" then Some(Small(17)) else None
    case _ => None
  }

  lemma LexSmall(n: nat)
    requires 1 <= n < 20
    ensures Lex(ONES[n]) == Some(Small(n)) && ONES[n] != "" && ' ' !in ONES[n]
  {
  }

  lemma LexTens(n: nat)
    requires 2 <= n < 10
    ensures Lex(TENS[n]) == Some(TenTimes(n)) && TENS[n] != "" && ' ' !in TENS[n]
  {
  }

  /** No two words look alike, and none is blank or broken by a space. */
  lemma LexText(w: Word)
    requires InVocabulary(w)
    ensures Lex(Text(w)) == Some(w) && Text(w) != "" && ' ' !in Text(w)
  {
    match w
    case Small(n) => LexSmall(n);
    case TenTimes(n) => LexTens(n);
    case _ =>
  }

  // ---------------------------------------------------------------------------
  // Words joined by single spaces
  // ---------------------------------------------------------------------------

  /** `ws.join(' ')`. */
  function Join(ws: seq<Word>): string
    decreases |ws|
  {
    if ws == [] then "" else if |ws| == 1 then Text(ws[0]) else Text(ws[0]) + " " + Join(ws[1..])
  }

  lemma {:induction false} JoinAppend(a: seq<Word>, b: seq<Word>)
    requires a != [] && b != []
    ensures Join(a + b) == Join(a) + " " + Join(b)
    decreases |a|
  {
    if |a| == 1 {
      assert (a + b)[1..] == b;
    } else {
      assert (a + b)[0] == a[0] && (a + b)[1..] == a[1..] + b;
      JoinAppend(a[1..], b);
    }
  }

  lemma JoinTwo(a: Word, b: Word)
    ensures Join([a, b]) == Text(a) + " " + Text(b)
  {
    assert [a, b][1..] == [b];
  }

  lemma JoinBlankIff(ws: seq<Word>)
    requires Spoken(ws)
    ensures Join(ws) == "" <==> ws == []
  {
    if ws != [] { LexText(ws[0]); }
  }

  /** Cut at the first space, and so on: the words of a line of text. */
  function Split(s: string): (ws: seq<string>)
    ensures ws != []
  {
    if s == "" then [""]
    else if s[0] == ' ' then [""] + Split(s[1..])
    else
      var rest := Split(s[1..]);
      [[s[0]] + rest[0]] + rest[1..]
  }

  lemma {:induction false} SplitWord(w: string, s: string)
    requires ' ' !in w
    ensures Split(w) == [w] && Split(w + " " + s) == [w] + Split(s)
    decreases |w|
  {
    if w == "" {
      assert w + " " + s == " " + s;
    } else {
      SplitWord(w[1..], s);
      assert (w + " " + s)[1..] == w[1..] + " " + s;
      assert w == [w[0]] + w[1..];
    }
  }

  function LexAll(ss: seq<string>): Option<seq<Word>>
    decreases |ss|
  {
    if ss == [] then Some([])
    else match (Lex(ss[0]), LexAll(ss[1..]))
      case (Some(w), Some(ws)) => Some([w] + ws)
      case _ => None
  }

  /** The amount a line of text states, if every word of it is one of ours. */
  function ReadText(s: string): Option<nat> {
    match LexAll(Split(s))
    case Some(ws) => Some(ReadAmount(ws))
    case None => None
  }

  lemma {:induction false} LexJoined(ws: seq<Word>)
    requires ws != [] && Spoken(ws)
    ensures LexAll(Split(Join(ws))) == Some(ws)
    decreases |ws|
  {
    LexText(ws[0]);
    if |ws| == 1 {
      SplitWord(Text(ws[0]), "");
      assert [Text(ws[0])][1..] == [];
      assert ws == [ws[0]] + [];
    } else {
      LexJoined(ws[1..]);
      SplitWord(Text(ws[0]), Join(ws[1..]));
      assert ([Text(ws[0])] + Split(Join(ws[1..])))[1..] == Split(Join(ws[1..]));
      assert ws == [ws[0]] + ws[1..];
    }
  }

  function Wording(paise: nat): string {
    Join(AmountTokens(paise))
  }

  /** Main result: the wording of any amount reads back as that amount, to the paisa. */
  lemma WordingReadsBack(paise: nat)
    ensures ReadText(Wording(paise)) == Some(paise)
  {
    AmountIsSpoken(paise);
    LexJoined(AmountTokens(paise));
    ReadAmountTokens(paise);
  }

  /** So no two amounts are ever worded alike. */
  lemma WordingInjective(a: nat, b: nat)
    requires Wording(a) == Wording(b)
    ensures a == b
  {
    WordingReadsBack(a);
    WordingReadsBack(b);
  }

  // ---------------------------------------------------------------------------
  // How the text is built
  // ---------------------------------------------------------------------------

  method UnderHundred(n: nat) returns (text: string)
    requires n < 100
    ensures text == Join(HundredTokens(n))
  {
    if n < 20 {
      return ONES[n];
    }
    var tens := TENS[n / 10];
    var ones := ONES[n % 10];
    if ones == "" {
      if n % 10 != 0 { LexSmall(n % 10); }
      return tens;
    }
    JoinTwo(TenTimes(n / 10), Small(n % 10));
    return tens + " " + ones;
  }

  lemma HundredsThenRest(hundreds: nat, rest: nat)
    requires 0 < hundreds < 10 && rest < 100
    ensures Join([Small(hundreds), Hundred]) == ONES[hundreds] + " Hundred"
    ensures HundredTokens(rest) == [] ==> Join([Small(hundreds), Hundred] + HundredTokens(rest)) == ONES[hundreds] + " Hundred"
    ensures HundredTokens(rest) != [] ==> Join([Small(hundreds), Hundred] + HundredTokens(rest))
                                          == ONES[hundreds] + " Hundred" + " " + Join(HundredTokens(rest))
  {
    JoinTwo(Small(hundreds), Hundred);
    assert " Hundred" == " " + "Hundred";
    if HundredTokens(rest) == [] {
      assert [Small(hundreds), Hundred] + [] == [Small(hundreds), Hundred];
    } else {
      JoinAppend([Small(hundreds), Hundred], HundredTokens(rest));
    }
  }

  method UnderThousand(n: nat) returns (text: string)
    requires n < 1000
    ensures text == Join(ThousandTokens(n))
  {
    var hundreds := n / 100;
    var rest := UnderHundred(n % 100);
    HundredsAreSpoken(n % 100);
    JoinBlankIff(HundredTokens(n % 100));
    if hundreds == 0 {
      assert [] + HundredTokens(n % 100) == HundredTokens(n % 100);
      return rest;
    }
    HundredsThenRest(hundreds, n % 100);
    var head := ONES[hundreds] + " Hundred";
    if rest == "" {
      return head;
    }
    return head + " " + rest;
  }

  /** `parts.join(' ')` on phrases. */
  function JoinPhrases(parts: seq<string>): string {
    if parts == [] then ""
    else if |parts| == 1 then parts[0]
    else JoinPhrases(parts[..|parts| - 1]) + " " + parts[|parts| - 1]
  }

  /** Pushing a phrase appends its words. */
  lemma PushPhrase(parts: seq<string>, ws: seq<Word>, phrase: string, more: seq<Word>)
    requires JoinPhrases(parts) == Join(ws) && (parts == [] <==> ws == [])
    requires phrase == Join(more) && more != []
    ensures JoinPhrases(parts + [phrase]) == Join(ws + more)
  {
    assert (parts + [phrase])[..|parts|] == parts;
    if ws == [] {
      assert ws + more == more;
    } else {
      JoinAppend(ws, more);
    }
  }

  /** A count and its unit. */
  lemma UnitPhrase(ws: seq<Word>, unit: Word)
    requires ws != []
    ensures Join(ws + [unit]) == Join(ws) + " " + Text(unit)
  {
    JoinAppend(ws, [unit]);
  }

  /** Push a count with its unit, as crores, lakhs and thousands are. */
  method PushCount(parts: seq<string>, ghost ws: seq<Word>, count: string, ghost cs: seq<Word>, unit: Word)
    returns (longer: seq<string>)
    requires JoinPhrases(parts) == Join(ws) && (parts == [] <==> ws == [])
    requires count == Join(cs) && cs != []
    ensures longer != [] && JoinPhrases(longer) == Join(ws + (cs + [unit]))
  {
    UnitPhrase(cs, unit);
    PushPhrase(parts, ws, count + " " + Text(unit), cs + [unit]);
    longer := parts + [count + " " + Text(unit)];
  }

  /** Crore, lakh, thousand and the rest, each pushed only where there is any. */
  method InWords(n: nat) returns (text: string)
    ensures text == Join(NumberTokens(n))
  {
    if n == 0 {
      return "Zero";
    }
    var crore, below := n / CRORE, n % CRORE;
    var parts: seq<string> := [];
    ghost var ws: seq<Word> := [];
    if crore > 0 {
      var count := InWords(crore);
      parts := PushCount(parts, ws, count, Tokens(crore), Crore);
      ws := ws + (Tokens(crore) + [Crore]);
    }
    parts := PushBelowCrore(parts, ws, below);
    text := JoinPhrases(parts);
    assert ws == if crore > 0 then Tokens(crore) + [Crore] else [];
  }

  /** Lakhs or thousands, where there are any. */
  method PushUnit(parts: seq<string>, ghost ws: seq<Word>, n: nat, unit: Word) returns (longer: seq<string>)
    requires n < 100
    requires JoinPhrases(parts) == Join(ws) && (parts == [] <==> ws == [])
    ensures JoinPhrases(longer) == Join(ws + UnitTokens(n, unit)) && (longer == [] <==> ws + UnitTokens(n, unit) == [])
  {
    if n == 0 {
      assert ws + UnitTokens(n, unit) == ws;
      return parts;
    }
    var count := UnderHundred(n);
    longer := PushCount(parts, ws, count, HundredTokens(n), unit);
  }

  /** The last group, under a thousand. */
  method PushRest(parts: seq<string>, ghost ws: seq<Word>, rest: nat) returns (longer: seq<string>)
    requires rest < 1000
    requires JoinPhrases(parts) == Join(ws) && (parts == [] <==> ws == [])
    ensures JoinPhrases(longer) == Join(ws + ThousandTokens(rest))
  {
    if rest == 0 {
      assert ws + ThousandTokens(rest) == ws;
      return parts;
    }
    var tail := UnderThousand(rest);
    PushPhrase(parts, ws, tail, ThousandTokens(rest));
    longer := parts + [tail];
  }

  lemma ThreeGroups(ws: seq<Word>, a: seq<Word>, b: seq<Word>, c: seq<Word>)
    ensures ws + a + b + c == ws + (a + b + c)
  {
  }

  method PushBelowCrore(parts: seq<string>, ghost ws: seq<Word>, n: nat) returns (longer: seq<string>)
    requires n < CRORE
    requires JoinPhrases(parts) == Join(ws) && (parts == [] <==> ws == [])
    ensures JoinPhrases(longer) == Join(ws + BelowCrore(n))
  {
    var lakh, thousand, rest := n / LAKH, (n % LAKH) / 1000, n % 1000;
    longer := PushUnit(parts, ws, lakh, Lakh);
    longer := PushUnit(longer, ws + UnitTokens(lakh, Lakh), thousand, Thousand);
    longer := PushRest(longer, ws + UnitTokens(lakh, Lakh) + UnitTokens(thousand, Thousand), rest);
    ThreeGroups(ws, UnitTokens(lakh, Lakh), UnitTokens(thousand, Thousand), ThousandTokens(rest));
  }

  /** `and ... Paise`, where there are any. */
  method OddPaise(rest: nat) returns (text: string)
    requires 0 < rest < 100
    ensures text == Join(PaiseTokens(rest))
  {
    var odd := UnderHundred(rest);
    UnitPhrase([And] + HundredTokens(rest), Paise);
    JoinAppend([And], HundredTokens(rest));
    text := "and" + " " + odd + " " + "Paise";
  }

  /** The whole wording, its phrases put together one after another. */
  method Compose(paise: nat) returns (text: string)
    ensures text == Join(AmountTokens(paise))
  {
    var rupees, remainder := paise / 100, paise % 100;
    var number := InWords(rupees);
    ghost var ws := [Rupees] + NumberTokens(rupees);
    JoinAppend([Rupees], NumberTokens(rupees));
    text := "Rupees" + " " + number;
    if remainder > 0 {
      var odd := OddPaise(remainder);
      JoinAppend(ws, PaiseTokens(remainder));
      text := text + " " + odd;
      ws := ws + PaiseTokens(remainder);
    }
    UnitPhrase(ws, Only);
    text := text + " " + "only";
    assert ws + [Only] == AmountTokens(paise);
  }

  /** `Rupees ... only`, with the odd paise after "and"; it reads back as the amount. */
  method RupeesInWords(paise: nat) returns (text: string)
    ensures text == Wording(paise)
    ensures ReadText(text) == Some(paise)
  {
    text := Compose(paise);
    WordingReadsBack(paise);
  }
}
