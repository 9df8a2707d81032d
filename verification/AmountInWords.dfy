/** An amount as a list of words in crores, lakhs and thousands, and the number such a list stands for. */
module AmountInWords {
  import opened Options

  const CRORE := 10000000
  const LAKH := 100000

  /** `Small(7)` is "Seven", `TenTimes(7)` is "Seventy". */
  datatype Word =
    | Small(n: nat) | TenTimes(n: nat)
    | Zero | Hundred | Thousand | Lakh | Crore | Rupees | And | Paise | Only

  // ---------------------------------------------------------------------------
  // The words, as a list
  // ---------------------------------------------------------------------------

  function HundredTokens(n: nat): seq<Word>
    requires n < 100
  {
    if n == 0 then []
    else if n < 20 then [Small(n)]
    else if n % 10 == 0 then [TenTimes(n / 10)]
    else [TenTimes(n / 10), Small(n % 10)]
  }

  function ThousandTokens(n: nat): seq<Word>
    requires n < 1000
  {
    (if n / 100 > 0 then [Small(n / 100), Hundred] else []) + HundredTokens(n % 100)
  }

  /** A count of some unit, or nothing when there are none. */
  function UnitTokens(n: nat, unit: Word): seq<Word>
    requires n < 100
  {
    if n == 0 then [] else HundredTokens(n) + [unit]
  }

  /** The part of a number below a crore. */
  function BelowCrore(n: nat): seq<Word>
    requires n < CRORE
  {
    UnitTokens(n / LAKH, Lakh) + UnitTokens((n % LAKH) / 1000, Thousand) + ThousandTokens(n % 1000)
  }

  /** The words of a positive number; zero has none. */
  function Tokens(n: nat): seq<Word> {
    (if n / CRORE > 0 then Tokens(n / CRORE) + [Crore] else []) + BelowCrore(n % CRORE)
  }

  function NumberTokens(n: nat): seq<Word> {
    if n == 0 then [Zero] else Tokens(n)
  }

  /** The words after the rupees, when there are odd paise. */
  function PaiseTokens(rest: nat): seq<Word>
    requires rest < 100
  {
    if rest > 0 then [And] + HundredTokens(rest) + [Paise] else []
  }

  function AmountTokens(paise: nat): seq<Word> {
    [Rupees] + NumberTokens(paise / 100)
    + PaiseTokens(paise % 100) + [Only]
  }

  // ---------------------------------------------------------------------------
  // Reading a list of words back
  // ---------------------------------------------------------------------------

  /** What has been read: the rupees once "and" is passed, finished units, and the count being read. */
  datatype Tally = Tally(rupees: Option<nat>, total: nat, current: nat)

  function ReadWord(t: Tally, w: Word): Tally {
    match w
    case Hundred => t.(current := t.current * 100)
    case Thousand => t.(total := t.total + t.current * 1000, current := 0)
    case Lakh => t.(total := t.total + t.current * LAKH, current := 0)
    case Crore => t.(total := (t.total + t.current) * CRORE, current := 0)
    case And => Tally(Some(t.total + t.current), 0, 0)
    case Small(n) => t.(current := t.current + n)
    case TenTimes(n) => t.(current := t.current + 10 * n)
    case _ => t
  }

  function ReadWords(t: Tally, ws: seq<Word>): Tally
    decreases |ws|
  {
    if ws == [] then t else ReadWords(ReadWord(t, ws[0]), ws[1..])
  }

  /** The paise a list of words stands for. */
  function ReadAmount(ws: seq<Word>): nat {
    var t := ReadWords(Tally(None, 0, 0), ws);
    if t.rupees.Some? then 100 * t.rupees.value + t.total + t.current else 100 * (t.total + t.current)
  }

  lemma {:induction false} ReadAppend(t: Tally, a: seq<Word>, b: seq<Word>)
    ensures ReadWords(t, a + b) == ReadWords(ReadWords(t, a), b)
    decreases |a|
  {
    if a == [] {
      assert a + b == b;
    } else {
      assert (a + b)[0] == a[0] && (a + b)[1..] == a[1..] + b;
      ReadAppend(ReadWord(t, a[0]), a[1..], b);
    }
  }

  lemma ReadOne(t: Tally, w: Word)
    ensures ReadWords(t, [w]) == ReadWord(t, w)
  {
    assert [w][1..] == [];
  }

  lemma ReadHundreds(t: Tally, n: nat)
    requires n < 100
    ensures ReadWords(t, HundredTokens(n)) == t.(current := t.current + n)
  {
    if n == 0 {
    } else if n < 20 {
      ReadOne(t, Small(n));
    } else {
      ReadOne(t, TenTimes(n / 10));
      if n % 10 != 0 {
        ReadOne(ReadWord(t, TenTimes(n / 10)), Small(n % 10));
        ReadAppend(t, [TenTimes(n / 10)], [Small(n % 10)]);
        assert [TenTimes(n / 10)] + [Small(n % 10)] == HundredTokens(n);
      }
    }
  }

  lemma ReadThousands(t: Tally, n: nat)
    requires n < 1000 && t.current == 0
    ensures ReadWords(t, ThousandTokens(n)) == t.(current := n)
  {
    var h := n / 100;
    var head := if h > 0 then [Small(h), Hundred] else [];
    assert ReadWords(t, head) == t.(current := 100 * h) by {
      if h > 0 {
        assert head == [Small(h)] + [Hundred];
        ReadAppend(t, [Small(h)], [Hundred]);
        ReadOne(t, Small(h));
        ReadOne(t.(current := h), Hundred);
      }
    }
    ReadAppend(t, head, HundredTokens(n % 100));
    ReadHundreds(t.(current := 100 * h), n % 100);
  }

  lemma ReadUnit(t: Tally, n: nat, unit: Word)
    requires n < 100 && t.current == 0 && (unit.Lakh? || unit.Thousand?)
    ensures ReadWords(t, UnitTokens(n, unit)) == t.(total := t.total + n * if unit.Lakh? then LAKH else 1000)
  {
    if n > 0 {
      ReadAppend(t, HundredTokens(n), [unit]);
      ReadHundreds(t, n);
      ReadOne(t.(current := n), unit);
    }
  }

  lemma ReadBelowCrore(t: Tally, n: nat)
    requires n < CRORE && t.current == 0
    ensures var r := ReadWords(t, BelowCrore(n)); r.rupees == t.rupees && r.total + r.current == t.total + n
  {
    var lakhs, thousands, rest := n / LAKH, (n % LAKH) / 1000, n % 1000;
    var t1 := t.(total := t.total + lakhs * LAKH);
    var t2 := t1.(total := t1.total + thousands * 1000);
    ReadUnit(t, lakhs, Lakh);
    ReadUnit(t1, thousands, Thousand);
    ReadThousands(t2, rest);
    ReadAppend(t, UnitTokens(lakhs, Lakh), UnitTokens(thousands, Thousand));
    ReadAppend(t, UnitTokens(lakhs, Lakh) + UnitTokens(thousands, Thousand), ThousandTokens(rest));
    GroupsAddUp(n);
  }

  lemma GroupsAddUp(n: nat)
    ensures (n / LAKH) * LAKH + ((n % LAKH) / 1000) * 1000 + n % 1000 == n
  {
    var m := n % LAKH;
    assert n == (n / LAKH) * LAKH + m;
    assert m == (m / 1000) * 1000 + m % 1000;
    assert n == ((n / LAKH) * 100 + m / 1000) * 1000 + m % 1000;
  }

  /** Reading the words of a number gives the number, however many crores of crores it has. */
  lemma {:induction false} ReadTokens(n: nat)
    ensures var r := ReadWords(Tally(None, 0, 0), Tokens(n)); r.rupees == None && r.total + r.current == n
  {
    var t := Tally(None, 0, 0);
    if n / CRORE > 0 {
      ReadTokens(n / CRORE);
      var t1 := ReadWords(t, Tokens(n / CRORE));
      ReadOne(t1, Crore);
      ReadAppend(t, Tokens(n / CRORE), [Crore]);
      ReadAppend(t, Tokens(n / CRORE) + [Crore], BelowCrore(n % CRORE));
      ReadBelowCrore(ReadWord(t1, Crore), n % CRORE);
    } else {
      assert [] + BelowCrore(n % CRORE) == BelowCrore(n % CRORE);
      ReadBelowCrore(t, n % CRORE);
    }
  }

  lemma ReadNumber(n: nat)
    ensures var r := ReadWords(Tally(None, 0, 0), NumberTokens(n)); r.rupees == None && r.total + r.current == n
  {
    if n == 0 { ReadOne(Tally(None, 0, 0), Zero); } else { ReadTokens(n); }
  }

  lemma ReadPaise(t: Tally, rest: nat)
    requires rest < 100 && t.rupees.None?
    ensures ReadWords(t, PaiseTokens(rest)) == if rest > 0 then Tally(Some(t.total + t.current), 0, rest) else t
  {
    if rest > 0 {
      var t2 := Tally(Some(t.total + t.current), 0, 0);
      ReadOne(t, And);
      ReadHundreds(t2, rest);
      ReadAppend(t, [And], HundredTokens(rest));
      ReadOne(t2.(current := rest), Paise);
      ReadAppend(t, [And] + HundredTokens(rest), [Paise]);
    }
  }

  /** Main result on words: the list read back is the amount it was written for. */
  lemma ReadAmountTokens(paise: nat)
    ensures ReadAmount(AmountTokens(paise)) == paise
  {
    var t := Tally(None, 0, 0);
    var rupees, rest := paise / 100, paise % 100;
    ReadNumber(rupees);
    ReadOne(t, Rupees);
    ReadAppend(t, [Rupees], NumberTokens(rupees));
    var t1 := ReadWords(t, NumberTokens(rupees));
    ReadPaise(t1, rest);
    ReadAppend(t, [Rupees] + NumberTokens(rupees), PaiseTokens(rest));
    var t2 := ReadWords(t1, PaiseTokens(rest));
    ReadOne(t2, Only);
    ReadAppend(t, [Rupees] + NumberTokens(rupees) + PaiseTokens(rest), [Only]);
  }

  /** Every word used names a number below twenty, a multiple of ten, or a unit. */
  predicate InVocabulary(w: Word) {
    (w.Small? ==> 1 <= w.n < 20) && (w.TenTimes? ==> 2 <= w.n < 10)
  }

  predicate Spoken(ws: seq<Word>) {
    forall i | 0 <= i < |ws| :: InVocabulary(ws[i])
  }

  lemma HundredsAreSpoken(n: nat)
    requires n < 100
    ensures Spoken(HundredTokens(n))
  {
  }

  lemma BelowCroreIsSpoken(n: nat)
    requires n < CRORE
    ensures Spoken(BelowCrore(n))
  {
    var lakhs, thousands, rest := n / LAKH, (n % LAKH) / 1000, n % 1000;
    HundredsAreSpoken(lakhs);
    HundredsAreSpoken(thousands);
    HundredsAreSpoken(rest % 100);
    assert Spoken(UnitTokens(lakhs, Lakh)) && Spoken(UnitTokens(thousands, Thousand)) && Spoken(ThousandTokens(rest));
  }

  lemma {:induction false} TokensAreSpoken(n: nat)
    ensures Spoken(Tokens(n))
  {
    if n / CRORE > 0 { TokensAreSpoken(n / CRORE); }
    BelowCroreIsSpoken(n % CRORE);
  }

  lemma AmountIsSpoken(paise: nat)
    ensures Spoken(AmountTokens(paise))
  {
    TokensAreSpoken(paise / 100);
    HundredsAreSpoken(paise % 100);
    assert Spoken(NumberTokens(paise / 100)) && Spoken(PaiseTokens(paise % 100));
  }
}
