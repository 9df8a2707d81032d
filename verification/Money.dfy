/**
 * From the debit to the lines and the heads of tax.  Amounts are whole paise.
 */
module Money {
  import opened Arithmetic
  import opened Options

  /** `Math.round(num / den)`: the nearest integer, halves upwards. */
  function Round(num: int, den: int): (r: int)
    requires den > 0
    ensures 2 * num - den < 2 * (den * r) <= 2 * num + den
  {
    var r := (2 * num + den) / (2 * den);
    assert (2 * den) * r == 2 * (den * r);
    r
  }

  /** The bounds leave one integer: rounding is a function of the two numbers. */
  lemma RoundUnique(num: int, den: int, a: int, b: int)
    requires den > 0
    requires 2 * num - den < 2 * (den * a) <= 2 * num + den
    requires 2 * num - den < 2 * (den * b) <= 2 * num + den
    ensures a == b
  {
    assert den * (a - b) == den * a - den * b;
    MultipleIsFar(den, a - b);
  }

  // ---------------------------------------------------------------------------
  // Tax
  // ---------------------------------------------------------------------------

  datatype Division = Division(subtotal: int, taxAmount: int, taxRateBps: int)

  /** Taxable value and tax of a total that holds both. */
  function Divide(total: int, taxRateBps: int): Division {
    if taxRateBps <= 0 then Division(total, 0, 0)
    else
      var subtotal := Round(total * 10000, 10000 + taxRateBps);
      Division(subtotal, total - subtotal, taxRateBps)
  }

  /** Nothing is lost, neither part is negative, and the value is the nearest paisa to the exact one. */
  lemma DivideIsExact(total: nat, taxRateBps: int)
    ensures var d := Divide(total, taxRateBps);
            && d.subtotal + d.taxAmount == total
            && 0 <= d.subtotal <= total && 0 <= d.taxAmount
            && d.taxRateBps == (if taxRateBps > 0 then taxRateBps else 0)
            && (taxRateBps <= 0 ==> d.taxAmount == 0)
            && (taxRateBps > 0 ==>
                  -(10000 + taxRateBps) < 2 * ((10000 + taxRateBps) * d.subtotal - total * 10000) <= 10000 + taxRateBps)
  {
    if taxRateBps > 0 {
      var s := Divide(total, taxRateBps).subtotal;
      var den := 10000 + taxRateBps;
      assert total * den == total * 10000 + total * taxRateBps && total * taxRateBps >= 0;
      assert den * (s - total) == den * s - total * den;
      MultipleIsFar(den, s);
      MultipleIsFar(den, s - total);
    }
  }

  datatype TaxSplit = TaxSplit(cgst: int, sgst: int, igst: int, interState: bool)

  predicate Known(state: Option<string>) {
    state.Some? && state.value != ""
  }

  function SplitTax(taxAmount: int, seller: Option<string>, buyer: Option<string>): TaxSplit {
    if taxAmount <= 0 then TaxSplit(0, 0, 0, false)
    else if Known(seller) && Known(buyer) && seller != buyer then TaxSplit(0, 0, taxAmount, true)
    else TaxSplit(taxAmount / 2, taxAmount - taxAmount / 2, 0, false)
  }

  /** The heads always sum to the tax; both shapes never appear together; an odd paisa is SGST's. */
  lemma HeadsSumToTax(taxAmount: nat, seller: Option<string>, buyer: Option<string>)
    ensures var t := SplitTax(taxAmount, seller, buyer);
            && t.cgst + t.sgst + t.igst == taxAmount
            && t.cgst >= 0 && t.sgst >= 0 && t.igst >= 0
            && (t.igst == 0 || (t.cgst == 0 && t.sgst == 0))
            && t.cgst <= t.sgst <= t.cgst + 1
            && (t.igst > 0 <==> taxAmount > 0 && t.interState)
            && (t.interState ==> taxAmount > 0)
            && (taxAmount > 0 ==>
                  (t.interState <==> seller.Some? && buyer.Some? && "" !in {seller.value, buyer.value} && seller != buyer))
  {
  }

  datatype TaxRow = TaxRow(rateTwiceBps: int, amount: int)

  /** One row at the whole rate, or two at half of it; rates are doubled so that half of one is a whole number. */
  function TaxRows(d: Division, t: TaxSplit): seq<TaxRow> {
    if d.taxRateBps <= 0 || d.taxAmount <= 0 then []
    else if t.igst > 0 then [TaxRow(2 * d.taxRateBps, t.igst)]
    else if t.cgst > 0 || t.sgst > 0 then [TaxRow(d.taxRateBps, t.cgst), TaxRow(d.taxRateBps, t.sgst)]
    else [TaxRow(2 * d.taxRateBps, d.taxAmount)]
  }

  /** What the printed rows add up to is the tax, at the whole rate, and there are at most two. */
  lemma RowsStateTheTax(total: nat, taxRateBps: int, seller: Option<string>, buyer: Option<string>)
    ensures var d := Divide(total, taxRateBps);
            var rows := TaxRows(d, SplitTax(d.taxAmount, seller, buyer));
            && |rows| <= 2
            && (rows == [] <==> d.taxAmount == 0)
            && (|rows| == 1 ==> rows[0] == TaxRow(2 * taxRateBps, d.taxAmount))
            && (|rows| == 2 ==> rows[0].amount + rows[1].amount == d.taxAmount
                                && rows[0].rateTwiceBps == rows[1].rateTwiceBps == taxRateBps
                                && rows[0].amount <= rows[1].amount <= rows[0].amount + 1)
            && (|rows| == 1 <==> d.taxAmount > 0 && SplitTax(d.taxAmount, seller, buyer).interState)
  {
    DivideIsExact(total, taxRateBps);
    HeadsSumToTax(Divide(total, taxRateBps).taxAmount, seller, buyer);
  }

  /** A document stored with no heads of its own still shows its tax, whole, in one row. */
  lemma HeadlessTaxIsOneRow(d: Division, t: TaxSplit)
    requires d.taxRateBps > 0 && d.taxAmount > 0 && t.cgst <= 0 && t.sgst <= 0 && t.igst <= 0
    ensures TaxRows(d, t) == [TaxRow(2 * d.taxRateBps, d.taxAmount)]
  {
  }

  // ---------------------------------------------------------------------------
  // Lines
  // ---------------------------------------------------------------------------

  datatype Draft = Draft(org: Option<string>, quantity: nat, weight: nat)

  datatype Line = Line(org: Option<string>, quantity: nat, unitAmount: int, amount: int, position: nat)

  datatype ClientRow = ClientRow(org: string, price: Option<nat>)

  /** What a debit is divided among: the payer, or a mandate's clients in order, or nobody in particular. */
  function Drafts(payer: string, group: Option<seq<ClientRow>>): (ds: seq<Draft>)
    ensures group.None? ==> ds == [Draft(Some(payer), 1, 1)]
    ensures group == Some([]) ==> ds == [Draft(None, 1, 1)]
    ensures group.Some? && group.value != [] ==> |ds| == |group.value|
    ensures group.Some? && group.value != [] ==> forall i | 0 <= i < |ds| ::
              ds[i].org == Some(group.value[i].org) && ds[i].quantity == 1
    ensures group.Some? && group.value != [] ==> forall i | 0 <= i < |ds| ::
              && (group.value[i].price.Some? ==> ds[i].weight == group.value[i].price.value)
              && (group.value[i].price.None? ==> ds[i].weight == 1)
  {
    match group
    case None => [Draft(Some(payer), 1, 1)]
    case Some(clients) =>
      if clients == [] then
        [Draft(None, 1, 1)]
      else
        seq(|clients|, i requires 0 <= i < |clients| =>
          Draft(Some(clients[i].org), 1, if clients[i].price.Some? then clients[i].price.value else 1))
  }

  function WeightSum(drafts: seq<Draft>): nat {
    if drafts == [] then 0 else WeightSum(drafts[..|drafts| - 1]) + drafts[|drafts| - 1].weight
  }

  /** The divisor used: the weights' total, or 1 where every weight is 0. */
  function Whole(drafts: seq<Draft>): nat {
    if WeightSum(drafts) == 0 then 1 else WeightSum(drafts)
  }

  function AmountSum(lines: seq<Line>): int {
    if lines == [] then 0 else AmountSum(lines[..|lines| - 1]) + lines[|lines| - 1].amount
  }

  /** Line i is draft i, priced: its unit amount is its amount over its quantity. */
  predicate Prices(line: Line, draft: Draft, i: nat) {
    var q := if draft.quantity > 1 then draft.quantity else 1;
    && line.org == draft.org && line.quantity == draft.quantity && line.position == i
    && line.unitAmount == Round(line.amount, q)
  }

  /** A unit is charged the nearest paisa to its part of the line. */
  lemma UnitIsNearest(line: Line, draft: Draft, i: nat)
    requires Prices(line, draft, i) && line.quantity > 0
    ensures 2 * line.amount - line.quantity < 2 * (line.quantity * line.unitAmount) <= 2 * line.amount + line.quantity
  {
  }

  /** A share rounded to the nearest paisa: within half a paisa of subtotal * weight / whole. */
  predicate Nearest(amount: int, subtotal: int, weight: nat, whole: nat) {
    2 * (subtotal * weight) - whole < 2 * (whole * amount) <= 2 * (subtotal * weight) + whole
  }

  /** The lines add up exactly, and every one but the last is the nearest paisa to its share. */
  ghost predicate Apportions(lines: seq<Line>, drafts: seq<Draft>, subtotal: int) {
    && |lines| == |drafts|
    && (forall i | 0 <= i < |lines| :: Prices(lines[i], drafts[i], i))
    && (forall i | 0 <= i < |lines| - 1 :: Nearest(lines[i].amount, subtotal, drafts[i].weight, Whole(drafts)))
    && (lines != [] ==> AmountSum(lines) == subtotal)
  }

  method TotalWeight(drafts: seq<Draft>) returns (total: nat)
    ensures total == WeightSum(drafts)
  {
    total := 0;
    for i := 0 to |drafts|
      invariant total == WeightSum(drafts[..i])
    {
      assert drafts[..i + 1][..i] == drafts[..i];
      total := total + drafts[i].weight;
    }
    assert drafts[..|drafts|] == drafts;
  }

  method Apportion(drafts: seq<Draft>, subtotal: int) returns (lines: seq<Line>)
    ensures Apportions(lines, drafts, subtotal)
  {
    var total := TotalWeight(drafts);
    if total == 0 { total := 1; }

    var placed := 0;
    lines := [];
    for index := 0 to |drafts|
      invariant |lines| == index
      invariant forall i | 0 <= i < index :: Prices(lines[i], drafts[i], i)
      invariant forall i | 0 <= i < index && i < |drafts| - 1 :: Nearest(lines[i].amount, subtotal, drafts[i].weight, total)
      invariant placed == AmountSum(lines)
      invariant index == |drafts| && index > 0 ==> placed == subtotal
    {
      var draft := drafts[index];
      var amount := if index == |drafts| - 1 then subtotal - placed else Round(subtotal * draft.weight, total);
      placed := placed + amount;
      var q := if draft.quantity > 1 then draft.quantity else 1;
      var line := Line(draft.org, draft.quantity, Round(amount, q), amount, index);
      assert (lines + [line])[..index] == lines;
      lines := lines + [line];
    }
  }

  /** The rule leaves nothing to choose: one debit, one set of lines. */
  lemma ApportionmentUnique(a: seq<Line>, b: seq<Line>, drafts: seq<Draft>, subtotal: int)
    requires Apportions(a, drafts, subtotal) && Apportions(b, drafts, subtotal)
    ensures a == b
  {
    forall i | 0 <= i < |a| - 1
      ensures a[i] == b[i]
    {
      assert Nearest(a[i].amount, subtotal, drafts[i].weight, Whole(drafts));
      assert Nearest(b[i].amount, subtotal, drafts[i].weight, Whole(drafts));
      RoundUnique(subtotal * drafts[i].weight, Whole(drafts), a[i].amount, b[i].amount);
    }
    if a != [] { assert a[..|a| - 1] == b[..|b| - 1]; }
  }

  /** A running total is within n half-paise of its exact share. */
  predicate Within(n: int, whole: int, subtotal: int, amount: int, weight: int) {
    -(n * whole) <= 2 * (whole * amount - subtotal * weight) <= n * whole
  }

  /** One more nearest share adds at most half a paisa of drift. */
  lemma DriftStep(w: nat, subtotal: int, a: int, b: int, p: int, q: nat, n: int)
    requires Within(n, w, subtotal, a, p) && Nearest(b, subtotal, q, w)
    ensures Within(n + 1, w, subtotal, a + b, p + q)
  {
    var wa, wb, sp, sq := w * a, w * b, subtotal * p, subtotal * q;
    assert w * (a + b) == wa + wb;
    assert subtotal * (p + q) == sp + sq;
    assert (n + 1) * w == n * w + w;
  }

  lemma PrefixSums(lines: seq<Line>, drafts: seq<Draft>, n: nat)
    requires 0 < n <= |lines| && n <= |drafts|
    ensures AmountSum(lines[..n]) == AmountSum(lines[..n - 1]) + lines[n - 1].amount
    ensures WeightSum(drafts[..n]) == WeightSum(drafts[..n - 1]) + drafts[n - 1].weight
  {
    assert lines[..n][..n - 1] == lines[..n - 1] && drafts[..n][..n - 1] == drafts[..n - 1];
  }

  /** How far the running total has drifted from the exact shares of the first n lines. */
  lemma {:induction false} Drift(lines: seq<Line>, drafts: seq<Draft>, subtotal: int, n: nat)
    requires Apportions(lines, drafts, subtotal) && n < |lines|
    ensures Within(n, Whole(drafts), subtotal, AmountSum(lines[..n]), WeightSum(drafts[..n]))
  {
    if n > 0 {
      Drift(lines, drafts, subtotal, n - 1);
      PrefixSums(lines, drafts, n);
      DriftStep(Whole(drafts), subtotal, AmountSum(lines[..n - 1]), lines[n - 1].amount,
                WeightSum(drafts[..n - 1]), drafts[n - 1].weight, n - 1);
    }
  }

  lemma Remainder(w: int, subtotal: int, a: int, b: int, p: int, q: int)
    requires a + b == subtotal && p + q == w
    ensures w * b - subtotal * q == -(w * a - subtotal * p)
  {
    assert w * (a + b) == w * a + w * b;
    assert subtotal * (p + q) == subtotal * p + subtotal * q;
  }

  /** The last line absorbs the rounding: at most (n - 1) / 2 paise from its exact share. */
  lemma LastLineBound(lines: seq<Line>, drafts: seq<Draft>, subtotal: int)
    requires Apportions(lines, drafts, subtotal) && lines != [] && WeightSum(drafts) > 0
    ensures var n := |lines|; var w := WeightSum(drafts);
            -((n - 1) * w) <= 2 * (w * lines[n - 1].amount - subtotal * drafts[n - 1].weight) <= (n - 1) * w
  {
    var n := |lines|;
    Drift(lines, drafts, subtotal, n - 1);
    Remainder(WeightSum(drafts), subtotal, AmountSum(lines[..n - 1]), lines[n - 1].amount,
              WeightSum(drafts[..n - 1]), drafts[n - 1].weight);
  }

  /** What the first n drafts are charged when each is rounded by itself. */
  function RoundedSum(drafts: seq<Draft>, subtotal: int, n: nat): int
    requires n <= |drafts|
  {
    if n == 0 then 0 else RoundedSum(drafts, subtotal, n - 1) + Round(subtotal * drafts[n - 1].weight, Whole(drafts))
  }

  lemma {:induction false} EarlierLinesAreRounded(lines: seq<Line>, drafts: seq<Draft>, subtotal: int, n: nat)
    requires Apportions(lines, drafts, subtotal) && n < |lines|
    ensures AmountSum(lines[..n]) == RoundedSum(drafts, subtotal, n)
  {
    if n > 0 {
      EarlierLinesAreRounded(lines, drafts, subtotal, n - 1);
      assert lines[..n][..n - 1] == lines[..n - 1];
      assert Nearest(lines[n - 1].amount, subtotal, drafts[n - 1].weight, Whole(drafts));
      RoundUnique(subtotal * drafts[n - 1].weight, Whole(drafts), lines[n - 1].amount,
                  Round(subtotal * drafts[n - 1].weight, Whole(drafts)));
    }
  }

  lemma EarlierLineIsNotNegative(amount: int, subtotal: nat, weight: nat, whole: nat)
    requires whole > 0 && Nearest(amount, subtotal, weight, whole)
    ensures amount >= 0
  {
    MultipleIsFar(whole, amount);
    assert subtotal * weight >= 0;
  }

  /**
   * Main result on signs.  Of any debit, no line is charged a negative amount
   * exactly when the earlier lines, each rounded by itself, do not already come
   * to more than the taxable value; and only the last line can be the one.
   */
  lemma NoLineIsNegativeIff(lines: seq<Line>, drafts: seq<Draft>, subtotal: nat)
    requires Apportions(lines, drafts, subtotal) && lines != []
    ensures forall i | 0 <= i < |lines| - 1 :: lines[i].amount >= 0
    ensures lines[|lines| - 1].amount >= 0 <==> RoundedSum(drafts, subtotal, |drafts| - 1) <= subtotal
  {
    var n := |lines| - 1;
    EarlierLinesAreRounded(lines, drafts, subtotal, n);
    forall i | 0 <= i < n
      ensures lines[i].amount >= 0
    {
      EarlierLineIsNotNegative(lines[i].amount, subtotal, drafts[i].weight, Whole(drafts));
    }
  }

  lemma {:induction false} RoundedDrift(drafts: seq<Draft>, subtotal: int, n: nat)
    requires n <= |drafts|
    ensures Within(n, Whole(drafts), subtotal, RoundedSum(drafts, subtotal, n), WeightSum(drafts[..n]))
  {
    if n > 0 {
      RoundedDrift(drafts, subtotal, n - 1);
      assert drafts[..n][..n - 1] == drafts[..n - 1];
      DriftStep(Whole(drafts), subtotal, RoundedSum(drafts, subtotal, n - 1),
                Round(subtotal * drafts[n - 1].weight, Whole(drafts)), WeightSum(drafts[..n - 1]), drafts[n - 1].weight, n - 1);
    }
  }

  /** What is left for the last line, against its weight. */
  lemma LeftForLast(w: nat, subtotal: nat, taken: int, p: nat, q: nat, n: nat)
    requires w > 0 && p + q == w && Within(n, w, subtotal, taken, p) && n * w <= 2 * (subtotal * q)
    ensures taken <= subtotal
  {
    assert subtotal * (p + q) == subtotal * p + subtotal * q;
    assert w * (taken - subtotal) == w * taken - subtotal * w;
    MultipleIsFar(w, taken - subtotal);
  }

  /** In closed form: a last weight worth half a paisa for every earlier line always meets that condition. */
  lemma HeavyLastLineIsSafe(drafts: seq<Draft>, subtotal: nat)
    requires drafts != [] && WeightSum(drafts) > 0
    requires (|drafts| - 1) * WeightSum(drafts) <= 2 * (subtotal * drafts[|drafts| - 1].weight)
    ensures RoundedSum(drafts, subtotal, |drafts| - 1) <= subtotal
  {
    var n := |drafts| - 1;
    RoundedDrift(drafts, subtotal, n);
    LeftForLast(WeightSum(drafts), subtotal, RoundedSum(drafts, subtotal, n), WeightSum(drafts[..n]), drafts[n].weight, n);
  }

  /** Without weights the last line carries the taxable value and the others nothing. */
  lemma UnweightedGoesLast(lines: seq<Line>, drafts: seq<Draft>, subtotal: int)
    requires Apportions(lines, drafts, subtotal) && lines != [] && WeightSum(drafts) == 0
    ensures lines[|lines| - 1].amount == subtotal
    ensures forall i | 0 <= i < |lines| - 1 :: lines[i].amount == 0
  {
    WeightsVanish(drafts);
    forall i | 0 <= i < |lines| - 1
      ensures lines[i].amount == 0
    {
      assert Nearest(lines[i].amount, subtotal, drafts[i].weight, 1);
    }
    ZeroSum(lines[..|lines| - 1]);
  }

  lemma {:induction false} WeightsVanish(drafts: seq<Draft>)
    requires WeightSum(drafts) == 0
    ensures forall i | 0 <= i < |drafts| :: drafts[i].weight == 0
  {
    if drafts != [] { WeightsVanish(drafts[..|drafts| - 1]); }
  }

  lemma {:induction false} ZeroSum(lines: seq<Line>)
    requires forall i | 0 <= i < |lines| :: lines[i].amount == 0
    ensures AmountSum(lines) == 0
  {
    if lines != [] { ZeroSum(lines[..|lines| - 1]); }
  }

  /**
   * The slack is real: six clients at one price and one at none, three paise to
   * divide, and the last line is charged minus three.
   */
  lemma LastLineCanGoNegative(lines: seq<Line>)
    requires Apportions(lines, [Draft(None, 1, 1), Draft(None, 1, 1), Draft(None, 1, 1), Draft(None, 1, 1),
                                Draft(None, 1, 1), Draft(None, 1, 1), Draft(None, 1, 0)], 3)
    ensures lines[6].amount == -3
  {
    var one := Draft(None, 1, 1);
    var drafts := [one, one, one, one, one, one, Draft(None, 1, 0)];
    SumOfUnits(drafts[..6]);
    assert Whole(drafts) == 6;
    assert forall i | 0 <= i < 6 :: Nearest(lines[i].amount, 3, 1, 6) && lines[i].amount == 1;
    SumOfOnes(lines[..6]);
  }

  lemma {:induction false} SumOfUnits(drafts: seq<Draft>)
    requires forall i | 0 <= i < |drafts| :: drafts[i].weight == 1
    ensures WeightSum(drafts) == |drafts|
  {
    if drafts != [] { SumOfUnits(drafts[..|drafts| - 1]); }
  }

  lemma {:induction false} SumOfOnes(lines: seq<Line>)
    requires forall i | 0 <= i < |lines| :: lines[i].amount == 1
    ensures AmountSum(lines) == |lines|
  {
    if lines != [] { SumOfOnes(lines[..|lines| - 1]); }
  }

  /** Main result: the lines and the heads of tax add up to exactly what the bank moved. */
  lemma EveryPaisaIsAccounted(
      total: nat, taxRateBps: int, seller: Option<string>, buyer: Option<string>, drafts: seq<Draft>, lines: seq<Line>)
    requires drafts != [] && Apportions(lines, drafts, Divide(total, taxRateBps).subtotal)
    ensures var t := SplitTax(Divide(total, taxRateBps).taxAmount, seller, buyer);
            AmountSum(lines) + t.cgst + t.sgst + t.igst == total
  {
    DivideIsExact(total, taxRateBps);
    HeadsSumToTax(Divide(total, taxRateBps).taxAmount, seller, buyer);
  }

  // ---------------------------------------------------------------------------
  // By the clients' own prices
  // ---------------------------------------------------------------------------

  /** What the clients of a mandate list at together, a client without a price counting 1. */
  function PriceSum(clients: seq<ClientRow>): nat {
    if clients == [] then 0
    else
      var last := clients[|clients| - 1];
      PriceSum(clients[..|clients| - 1]) + match last.price case Some(p) => p case None => 1
  }

  /** The nearest paisa to a client's share of the value by its price. */
  predicate NearestToPrice(amount: int, subtotal: int, client: ClientRow, total: nat) {
    match client.price
    case Some(p) => 2 * (subtotal * p) - total < 2 * (total * amount) <= 2 * (subtotal * p) + total
    case None => 2 * subtotal - total < 2 * (total * amount) <= 2 * subtotal + total
  }

  /**
   * A debit's lines: for a mandate with clients one each, in order, of one unit,
   * all but the last the nearest paisa to the client's share by price; otherwise
   * a single line for all of it, naming the payer or nobody.
   */
  ghost predicate ChargesByPrice(lines: seq<Line>, payer: string, group: Option<seq<ClientRow>>, subtotal: int) {
    match group
    case None => lines == [Line(Some(payer), 1, subtotal, subtotal, 0)]
    case Some(clients) =>
      if clients == [] then lines == [Line(None, 1, subtotal, subtotal, 0)]
      else
        var total := if PriceSum(clients) == 0 then 1 else PriceSum(clients);
        && |lines| == |clients| && AmountSum(lines) == subtotal
        && (forall i | 0 <= i < |lines| :: lines[i].org == Some(clients[i].org) && lines[i].quantity == 1
                                           && lines[i].unitAmount == lines[i].amount && lines[i].position == i)
        && forall i | 0 <= i < |lines| - 1 :: NearestToPrice(lines[i].amount, subtotal, clients[i], total)
  }

  lemma {:induction false} WeightsArePrices(drafts: seq<Draft>, clients: seq<ClientRow>)
    requires |drafts| == |clients|
    requires forall i | 0 <= i < |drafts| ::
               drafts[i].weight == if clients[i].price.Some? then clients[i].price.value else 1
    ensures WeightSum(drafts) == PriceSum(clients)
  {
    if drafts != [] { WeightsArePrices(drafts[..|drafts| - 1], clients[..|clients| - 1]); }
  }

  lemma RoundByOne(amount: int)
    ensures Round(amount, 1) == amount
  {
    RoundUnique(amount, 1, Round(amount, 1), amount);
  }

  lemma SingleLine(lines: seq<Line>, org: Option<string>, subtotal: int)
    requires Apportions(lines, [Draft(org, 1, 1)], subtotal)
    ensures lines == [Line(org, 1, subtotal, subtotal, 0)]
  {
    assert lines[..0] == [];
    assert AmountSum(lines) == lines[0].amount;
    assert Prices(lines[0], Draft(org, 1, 1), 0);
    RoundByOne(subtotal);
  }

  /** Main result on who is charged what: dividing by the drafts is dividing by the clients' own prices. */
  lemma DraftsChargeByPrice(lines: seq<Line>, payer: string, group: Option<seq<ClientRow>>, subtotal: int)
    requires Apportions(lines, Drafts(payer, group), subtotal)
    ensures ChargesByPrice(lines, payer, group, subtotal)
  {
    var drafts := Drafts(payer, group);
    if group.None? {
      SingleLine(lines, Some(payer), subtotal);
    } else if group.value == [] {
      SingleLine(lines, None, subtotal);
    } else {
      WeightsArePrices(drafts, group.value);
      forall i | 0 <= i < |lines|
        ensures lines[i].org == Some(group.value[i].org) && lines[i].quantity == 1
                && lines[i].unitAmount == lines[i].amount && lines[i].position == i
      {
        assert Prices(lines[i], drafts[i], i);
        RoundByOne(lines[i].amount);
      }
      forall i | 0 <= i < |lines| - 1
        ensures NearestToPrice(lines[i].amount, subtotal, group.value[i], Whole(drafts))
      {
        assert Nearest(lines[i].amount, subtotal, drafts[i].weight, Whole(drafts));
      }
    }
  }

  // ---------------------------------------------------------------------------
  // What each organisation is shown
  // ---------------------------------------------------------------------------

  /** The lines of one organisation, in order. */
  function OwnLines(lines: seq<Line>, org: string): (own: seq<Line>)
    ensures forall l :: l in own <==> l in lines && l.org == Some(org)
  {
    if lines == [] then []
    else
      var rest := OwnLines(lines[..|lines| - 1], org);
      if lines[|lines| - 1].org == Some(org) then rest + [lines[|lines| - 1]] else rest
  }

  /** The extract a non-payer sees: its own lines and their total, with no tax of its own. */
  datatype Extract = Extract(lines: seq<Line>, total: int)

  function ExtractFor(lines: seq<Line>, org: string): Extract {
    Extract(OwnLines(lines, org), AmountSum(OwnLines(lines, org)))
  }

  /** No line of the document is shown to two organisations. */
  lemma ExtractsAreDisjoint(lines: seq<Line>, a: string, b: string)
    requires a != b
    ensures forall l :: !(l in ExtractFor(lines, a).lines && l in ExtractFor(lines, b).lines)
  {
  }

  function Unclaimed(lines: seq<Line>, orgs: set<string>): int {
    if lines == [] then 0
    else
      var last := lines[|lines| - 1];
      Unclaimed(lines[..|lines| - 1], orgs) + if last.org.Some? && last.org.value in orgs then 0 else last.amount
  }

  function ExtractSum(lines: seq<Line>, orgs: seq<string>): int {
    if orgs == [] then 0 else ExtractFor(lines, orgs[0]).total + ExtractSum(lines, orgs[1..])
  }

  predicate Distinct(orgs: seq<string>) {
    forall i, j | 0 <= i < j < |orgs| :: orgs[i] != orgs[j]
  }

  lemma AmountSumAppend(lines: seq<Line>, l: Line)
    ensures AmountSum(lines + [l]) == AmountSum(lines) + l.amount
  {
    assert (lines + [l])[..|lines|] == lines;
  }

  lemma {:induction false} ExtractSumAppend(front: seq<Line>, l: Line, orgs: seq<string>)
    requires Distinct(orgs)
    ensures ExtractSum(front + [l], orgs)
            == ExtractSum(front, orgs) + if l.org.Some? && l.org.value in orgs then l.amount else 0
  {
    if orgs != [] {
      ExtractSumAppend(front, l, orgs[1..]);
      assert (front + [l])[..|front|] == front;
      AmountSumAppend(OwnLines(front, orgs[0]), l);
    }
  }

  /** Conservation: what the organisations are shown, and what is nobody's, is the whole document. */
  lemma {:induction false} ExtractsAddUp(lines: seq<Line>, orgs: seq<string>)
    requires Distinct(orgs)
    ensures ExtractSum(lines, orgs) + Unclaimed(lines, set o | o in orgs) == AmountSum(lines)
    decreases |lines|
  {
    if lines == [] {
      EmptyExtracts(orgs);
    } else {
      var front, last := lines[..|lines| - 1], lines[|lines| - 1];
      assert lines == front + [last];
      ExtractsAddUp(front, orgs);
      ExtractSumAppend(front, last, orgs);
    }
  }

  lemma {:induction false} EmptyExtracts(orgs: seq<string>)
    ensures ExtractSum([], orgs) == 0
  {
    if orgs != [] { EmptyExtracts(orgs[1..]); }
  }
}
