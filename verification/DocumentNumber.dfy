/** What a document's printed number is made of, and what it tells apart. */
module DocumentNumber {
  import opened Decimal

  const SEQUENCE_WIDTH := 4

  /** A year as two digits, whatever its century. */
  function Two(year: nat): (s: string)
    ensures |s| == 2 && AllDigits(s)
  {
    DecLength(year % 100, 2);
    assert Pow10(2) == 10 * Pow10(1) == 100 by { assert Pow10(0) == 1; }
    PadStart(Dec(year % 100), 2)
  }

  /** India's year runs April to March: January to March belong to the year before. */
  function StartYear(year: nat, month: nat): nat
    requires 1 <= month <= 12 && year > 0
  {
    if month >= 4 then year else year - 1
  }

  function FinancialYear(year: nat, month: nat): (s: string)
    requires 1 <= month <= 12 && year > 0
    ensures YearOk(s)
  {
    Two(StartYear(year, month)) + Two(StartYear(year, month) + 1)
  }

  predicate YearOk(s: string) {
    |s| == 4 && AllDigits(s)
  }

  predicate SeriesChar(c: char) {
    'A' <= c <= 'Z' || IsDigit(c)
  }

  predicate SeriesOk(s: string) {
    2 <= |s| <= 8 && forall i | 0 <= i < |s| :: SeriesChar(s[i])
  }

  function Number(kind: string, series: string, year: string, sequence: nat): string {
    kind + "-" + series + "-" + year + "-" + PadStart(Dec(sequence), SEQUENCE_WIDTH)
  }

  /** What the route parameter's pattern accepts for one kind of document. */
  ghost predicate IsNumber(kind: string, value: string) {
    exists series, year, position ::
      Spelled(kind, series, year, position, value)
  }

  predicate Spelled(kind: string, series: string, year: string, position: string, value: string) {
    && SeriesOk(series) && YearOk(year)
    && |position| >= SEQUENCE_WIDTH && AllDigits(position)
    && value == kind + "-" + series + "-" + year + "-" + position
  }

  lemma TwoIsTwoDigits(a: nat, b: nat)
    ensures Two(a) == Two(b) <==> a % 100 == b % 100
  {
    ReadPadded(a % 100, 2);
    ReadPadded(b % 100, 2);
  }

  lemma NextModulo(a: nat, b: nat)
    requires a % 100 == b % 100
    ensures (a + 1) % 100 == (b + 1) % 100
  {
  }

  /** Counting months, a year's book opens with its fourth and holds twelve. */
  lemma OpensInApril(year: nat, month: nat)
    requires 1 <= month <= 12 && year > 0
    ensures StartYear(year, month) == (12 * year + month - 4) / 12
  {
  }

  /** A label reads as the year its book opened in and the next, each up to the century. */
  lemma LabelReads(year: nat, month: nat)
    requires 1 <= month <= 12 && year > 0
    ensures var printed, began := FinancialYear(year, month), (12 * year + month - 4) / 12;
            Read(printed[..2]) == began % 100 && Read(printed[2..]) == (began + 1) % 100
  {
    OpensInApril(year, month);
    var s := StartYear(year, month);
    assert FinancialYear(year, month)[..2] == Two(s) && FinancialYear(year, month)[2..] == Two(s + 1);
    ReadPadded(s % 100, 2);
    ReadPadded((s + 1) % 100, 2);
  }

  /** Two months share a book exactly when they fall in the same twelve from an April, up to the century. */
  lemma SameBookIff(y1: nat, m1: nat, y2: nat, m2: nat)
    requires 1 <= m1 <= 12 && 1 <= m2 <= 12 && y1 > 0 && y2 > 0
    ensures FinancialYear(y1, m1) == FinancialYear(y2, m2) <==>
            ((12 * y1 + m1 - 4) / 12) % 100 == ((12 * y2 + m2 - 4) / 12) % 100
  {
    OpensInApril(y1, m1);
    OpensInApril(y2, m2);
    var s1, s2 := StartYear(y1, m1), StartYear(y2, m2);
    TwoIsTwoDigits(s1, s2);
    TwoIsTwoDigits(s1 + 1, s2 + 1);
    assert FinancialYear(y1, m1)[..2] == Two(s1) && FinancialYear(y2, m2)[..2] == Two(s2);
    if s1 % 100 == s2 % 100 { NextModulo(s1, s2); }
  }

  lemma SplitAtDash(a: string, b: string, x: string, y: string)
    requires '-' !in a && '-' !in b
    requires a + "-" + x == b + "-" + y
    ensures a == b && x == y
  {
    var s := a + "-" + x;
    var t := b + "-" + y;
    assert s[|a|] == '-' && t[|b|] == '-';
    assert a == s[..|a|] && b == t[..|b|];
    assert x == s[|a| + 1..] && y == t[|b| + 1..];
  }

  /** A printed number names one kind, one series, one year and one place in it. */
  lemma NumberInjective(k1: string, s1: string, y1: string, n1: nat, k2: string, s2: string, y2: string, n2: nat)
    requires '-' !in k1 && '-' !in k2 && SeriesOk(s1) && SeriesOk(s2) && YearOk(y1) && YearOk(y2)
    requires Number(k1, s1, y1, n1) == Number(k2, s2, y2, n2)
    ensures k1 == k2 && s1 == s2 && y1 == y2 && n1 == n2
  {
    var p1, p2 := PadStart(Dec(n1), SEQUENCE_WIDTH), PadStart(Dec(n2), SEQUENCE_WIDTH);
    var z1, z2 := y1 + "-" + p1, y2 + "-" + p2;
    assert Number(k1, s1, y1, n1) == k1 + "-" + (s1 + "-" + z1);
    assert Number(k2, s2, y2, n2) == k2 + "-" + (s2 + "-" + z2);
    SplitAtDash(k1, k2, s1 + "-" + z1, s2 + "-" + z2);
    SplitAtDash(s1, s2, z1, z2);
    SplitAtDash(y1, y2, p1, p2);
    ReadPadded(n1, SEQUENCE_WIDTH);
    ReadPadded(n2, SEQUENCE_WIDTH);
  }

  /**
   * What the pattern accepts besides: a series, a year and a place in it, which
   * is the number printed for them exactly if the place is not padded past four.
   */
  lemma RecognisedIsPrintedIff(kind: string, series: string, year: string, position: string, value: string)
    requires Spelled(kind, series, year, position, value)
    ensures 2 <= |series| <= 8 && forall c | c in series :: 'A' <= c <= 'Z' || '0' <= c <= '9'
    ensures YearOk(year) && AllDigits(position) && 4 <= |position|
    ensures value == Number(kind, series, year, Read(position)) <==> |position| == 4 || position[0] != '0'
  {
    PaddedIff(position, 4);
    var printed := PadStart(Dec(Read(position)), 4);
    var front := kind + "-" + series + "-" + year + "-";
    assert value[|front|..] == position && Number(kind, series, year, Read(position))[|front|..] == printed;
  }

  /** The pattern accepts every number this code issues, and only numbers of its own kind. */
  lemma NumberRecognised(kind: string, other: string, series: string, year: string, sequence: nat)
    requires '-' !in kind && '-' !in other && YearOk(year)
    requires 2 <= |series| <= 8 && forall i | 0 <= i < |series| :: 'A' <= series[i] <= 'Z' || '0' <= series[i] <= '9'
    ensures IsNumber(other, Number(kind, series, year, sequence)) <==> other == kind
  {
    var value := Number(kind, series, year, sequence);
    var position := PadStart(Dec(sequence), SEQUENCE_WIDTH);
    assert Spelled(kind, series, year, position, value);
    if IsNumber(other, value) {
      var s, y, p :| Spelled(other, s, y, p, value);
      assert value == other + "-" + (s + "-" + y + "-" + p);
      assert value == kind + "-" + (series + "-" + year + "-" + position);
      SplitAtDash(other, kind, s + "-" + y + "-" + p, series + "-" + year + "-" + position);
    }
  }
}
