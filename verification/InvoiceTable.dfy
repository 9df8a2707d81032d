/**
 * Placing the invoice's rows, totals and amount in words on as many sheets as
 * they need.  Only vertical positions are kept, in hundredths of a point,
 * counted up from the foot of the sheet.
 */
module InvoiceTable {
  const PAGE_HEIGHT := 84189
  const MARGIN := 4600
  const PAD := 1600

  /** The lowest height a mark of the body may have. */
  const FOOTER_TOP := MARGIN + 4600 + 2400
  const GAP := 2400
  const TAIL_GAP := 800
  const TOTALS_ROW := 1700
  const TOTALS_BAND := 3400
  const ROW_DETAIL := 1300
  const ROW_PAD := 1000
  const ROW_LEAD := 1800

  const FLOOR := FOOTER_TOP + GAP

  /** Where the body of a continuation sheet starts. */
  const CONTINUATION_TOP := PAGE_HEIGHT - 5400 - 3400

  datatype What =
    | ContinuationHead | Headings | HeadRule
    | Row(i: nat) | Detail(i: nat) | Separator(i: nat) | Period | ClosingRule
    | TotalsRow(i: nat) | Note | BandRule | TotalPaid
    | WordsLabel | Words

  /** Something drawn: on which sheet, how high, and what. */
  datatype Mark = Mark(sheet: nat, y: int, what: What)

  // ---------------------------------------------------------------------------
  // What is promised
  // ---------------------------------------------------------------------------

  predicate ClearOfFooter(marks: seq<Mark>) {
    forall k | 0 <= k < |marks| :: FOOTER_TOP <= marks[k].y
  }

  /** What the table is for; the rest of it is heads and headings. */
  predicate IsLine(w: What) {
    w.Row? || w.Detail? || w.Separator? || w.Period? || w.ClosingRule?
  }

  /** The lines drawn, in the order they were drawn. */
  function Printed(marks: seq<Mark>): seq<What> {
    if marks == [] then []
    else
      var last := marks[|marks| - 1].what;
      Printed(marks[..|marks| - 1]) + if IsLine(last) then [last] else []
  }

  /** The first n lines of the invoice, each with its sub-caption after it where it has one, and a separator before the next. */
  function Listing(details: seq<bool>, n: nat): seq<What>
    requires n <= |details|
  {
    if n == 0 then []
    else Listing(details, n - 1) + Block(n - 1, details[n - 1], n == |details|)
  }

  /** One line: its row, its sub-caption and, unless it is the last, the separator under it. */
  function Block(i: nat, hasDetail: bool, last: bool): seq<What> {
    [Row(i)] + (if hasDetail then [Detail(i)] else []) + if last then [] else [Separator(i)]
  }

  /** Where a line's row, its sub-caption and the separator under it belong. */
  function Place(w: What): nat
    requires w.Row? || w.Detail? || w.Separator?
  {
    match w
    case Row(i) => 3 * i
    case Detail(i) => 3 * i + 1
    case Separator(i) => 3 * i + 2
  }

  /** Nothing but rows, sub-captions and separators, each after what comes before its place. */
  predicate InPlace(ws: seq<What>, from: nat, to: nat) {
    && (forall k | 0 <= k < |ws| :: (ws[k].Row? || ws[k].Detail? || ws[k].Separator?) && from <= Place(ws[k]) < to)
    && forall j, k | 0 <= j < k < |ws| :: Place(ws[j]) < Place(ws[k])
  }

  lemma InPlaceAppend(a: seq<What>, b: seq<What>, from: nat, mid: nat, to: nat)
    requires InPlace(a, from, mid) && InPlace(b, mid, to) && from <= mid <= to
    ensures InPlace(a + b, from, to)
  {
  }

  lemma BlockHolds(i: nat, hasDetail: bool, last: bool, w: What)
    ensures InPlace(Block(i, hasDetail, last), 3 * i, 3 * (i + 1))
    ensures w in Block(i, hasDetail, last) <==> w == Row(i) || (hasDetail && w == Detail(i)) || (!last && w == Separator(i))
  {
    var b := Block(i, hasDetail, last);
    assert b[0] == Row(i);
    assert hasDetail ==> b[1] == Detail(i);
    assert !last ==> b[|b| - 1] == Separator(i);
  }

  /** What is listed of the first n lines: every row, every sub-caption there is, a separator before each next line. */
  predicate IsListed(details: seq<bool>, n: nat, w: What)
    requires n <= |details|
  {
    match w
    case Row(i) => i < n
    case Detail(i) => i < n && details[i]
    case Separator(i) => i < n && i + 1 < |details|
    case _ => false
  }

  /** The listing is exactly what there is to list, each in its place and so once. */
  lemma {:induction false} ListingIsComplete(details: seq<bool>, n: nat, w: What)
    requires n <= |details|
    ensures w in Listing(details, n) <==> IsListed(details, n, w)
    ensures InPlace(Listing(details, n), 0, 3 * n)
  {
    if n > 0 {
      var front, block := Listing(details, n - 1), Block(n - 1, details[n - 1], n == |details|);
      assert Listing(details, n) == front + block;
      ListingIsComplete(details, n - 1, w);
      BlockHolds(n - 1, details[n - 1], n == |details|, w);
      InPlaceAppend(front, block, 0, 3 * (n - 1), 3 * n);
    }
  }

  /** The sheets that have had their column headings. */
  function HeadedSheets(marks: seq<Mark>): set<nat> {
    if marks == [] then {}
    else
      var last := marks[|marks| - 1];
      HeadedSheets(marks[..|marks| - 1]) + if last.what.Headings? then {last.sheet} else {}
  }

  /** Every row was drawn on a sheet that had its column headings. */
  predicate RowsHaveHeadings(marks: seq<Mark>) {
    marks != [] ==>
      var front, last := marks[..|marks| - 1], marks[|marks| - 1];
      RowsHaveHeadings(front) && (last.what.Row? ==> last.sheet in HeadedSheets(front))
  }

  /**
   * Every line of the invoice once, in order, each with its sub-caption and on a
   * sheet that had its headings; the period, if there is one; the closing rule.
   */
  predicate PrintsAll(marks: seq<Mark>, details: seq<bool>, hasPeriod: bool) {
    && Printed(marks) == Listing(details, |details|) + (if hasPeriod then [Period] else []) + [ClosingRule]
    && RowsHaveHeadings(marks)
  }

  lemma {:induction false} HeadedSheetHasHeadings(marks: seq<Mark>, sheet: nat)
    requires sheet in HeadedSheets(marks)
    ensures exists j :: 0 <= j < |marks| && marks[j].sheet == sheet && marks[j].what.Headings?
  {
    var front, last := marks[..|marks| - 1], marks[|marks| - 1];
    if !(last.what.Headings? && last.sheet == sheet) {
      HeadedSheetHasHeadings(front, sheet);
      var j :| 0 <= j < |front| && front[j].sheet == sheet && front[j].what.Headings?;
      assert marks[j] == front[j];
    }
  }

  /** So each row has headings drawn before it on its own sheet. */
  lemma {:induction false} RowStandsUnderHeadings(marks: seq<Mark>, k: nat)
    requires RowsHaveHeadings(marks) && k < |marks| && marks[k].what.Row?
    ensures exists j :: 0 <= j < k && marks[j].sheet == marks[k].sheet && marks[j].what.Headings?
  {
    var front := marks[..|marks| - 1];
    if k == |front| {
      HeadedSheetHasHeadings(front, marks[k].sheet);
      var j :| 0 <= j < |front| && front[j].sheet == marks[k].sheet && front[j].what.Headings?;
      assert marks[j] == front[j];
    } else {
      RowStandsUnderHeadings(front, k);
      var j :| 0 <= j < k && front[j].sheet == front[k].sheet && front[j].what.Headings?;
      assert marks[j] == front[j] && marks[k] == front[k];
    }
  }

  predicate Below(a: Mark, b: Mark) {
    a.sheet < b.sheet || (a.sheet == b.sheet && b.y + ROW_PAD <= a.y)
  }

  /** Each thing drawn is on a later sheet than the one before it, or at least ten points lower on the same one. */
  predicate Descends(marks: seq<Mark>) {
    forall k | 0 < k < |marks| :: Below(marks[k - 1], marks[k])
  }

  lemma {:induction false} NothingOverprints(marks: seq<Mark>, j: nat, k: nat)
    requires Descends(marks) && j < k < |marks|
    ensures Below(marks[j], marks[k])
    decreases k
  {
    if j < k - 1 { NothingOverprints(marks, j, k - 1); }
  }

  // ---------------------------------------------------------------------------
  // Drawing
  // ---------------------------------------------------------------------------

  lemma PrintedPush(marks: seq<Mark>, m: Mark)
    ensures Printed(marks + [m]) == Printed(marks) + if IsLine(m.what) then [m.what] else []
  {
    assert (marks + [m])[..|marks|] == marks;
  }

  lemma HeadingsPush(marks: seq<Mark>, m: Mark)
    ensures HeadedSheets(marks + [m]) == HeadedSheets(marks) + if m.what.Headings? then {m.sheet} else {}
    ensures RowsHaveHeadings(marks + [m]) <==> RowsHaveHeadings(marks) && (m.what.Row? ==> m.sheet in HeadedSheets(marks))
  {
    assert (marks + [m])[..|marks|] == marks;
  }

  lemma {:induction false} RowsHaveHeadingsAppend(a: seq<Mark>, b: seq<Mark>)
    requires RowsHaveHeadings(a) && forall k | 0 <= k < |b| :: !b[k].what.Row?
    ensures RowsHaveHeadings(a + b)
    decreases |b|
  {
    if b == [] {
      assert a + b == a;
    } else {
      var front := b[..|b| - 1];
      RowsHaveHeadingsAppend(a, front);
      assert a + b == (a + front) + [b[|b| - 1]];
      HeadingsPush(a + front, b[|b| - 1]);
    }
  }

  /** What one more mark adds to the lines printed and to the sheets with headings. */
  predicate Adds(marks: seq<Mark>, m: Mark, longer: seq<Mark>) {
    && Printed(longer) == Printed(marks) + (if IsLine(m.what) then [m.what] else [])
    && HeadedSheets(longer) == HeadedSheets(marks) + (if m.what.Headings? then {m.sheet} else {})
    && (RowsHaveHeadings(longer) <==> RowsHaveHeadings(marks) && (m.what.Row? ==> m.sheet in HeadedSheets(marks)))
  }

  method Push(marks: seq<Mark>, m: Mark) returns (longer: seq<Mark>)
    requires marks != [] ==> Below(marks[|marks| - 1], m)
    ensures longer == marks + [m]
    ensures Descends(marks) ==> Descends(longer)
    ensures Adds(marks, m, longer)
  {
    PrintedPush(marks, m);
    HeadingsPush(marks, m);
    longer := marks + [m];
  }

  /** The state of a table being drawn: the marks so far, the sheet, and the next baseline. */
  datatype Pen = Pen(marks: seq<Mark>, sheet: nat, y: int)

  predicate Steady(p: Pen) {
    && p.marks != [] && Descends(p.marks)
    && p.marks[|p.marks| - 1].sheet == p.sheet && p.y + ROW_PAD <= p.marks[|p.marks| - 1].y
  }

  /** The sheet being drawn on has its headings, as has that of every row so far. */
  predicate Headed(p: Pen) {
    p.sheet in HeadedSheets(p.marks) && RowsHaveHeadings(p.marks)
  }

  /** The pen moves to the next sheet, having drawn its head and nothing else. */
  method Continuation(p: Pen) returns (q: Pen)
    requires Steady(p)
    ensures Steady(q) && q.sheet == p.sheet + 1 && q.y == CONTINUATION_TOP
    ensures q.marks == p.marks + [Mark(q.sheet, PAGE_HEIGHT - 5400, ContinuationHead)]
    ensures Printed(q.marks) == Printed(p.marks)
    ensures RowsHaveHeadings(p.marks) ==> RowsHaveHeadings(q.marks)
  {
    var marks := Push(p.marks, Mark(p.sheet + 1, PAGE_HEIGHT - 5400, ContinuationHead));
    q := Pen(marks, p.sheet + 1, CONTINUATION_TOP);
  }

  /** Two marks, neither of them a line of the invoice, and the pen a row's lead below the second. */
  method TableHead(p: Pen) returns (q: Pen)
    requires p.marks == [] || Steady(p)
    ensures Steady(q) && q.sheet == p.sheet && q.y == p.y - ROW_PAD - ROW_LEAD
    ensures q.marks == p.marks + [Mark(p.sheet, p.y, Headings), Mark(p.sheet, p.y - ROW_PAD, HeadRule)]
    ensures Printed(q.marks) == Printed(p.marks)
    ensures RowsHaveHeadings(p.marks) ==> Headed(q)
  {
    var head, rule := Mark(p.sheet, p.y, Headings), Mark(p.sheet, p.y - ROW_PAD, HeadRule);
    var headed := Push(p.marks, head);
    assert headed[|headed| - 1] == head;
    var marks := Push(headed, rule);
    assert marks == p.marks + [head, rule];
    q := Pen(marks, p.sheet, p.y - ROW_PAD - ROW_LEAD);
  }

  /** Everything but the first sheet's headings is clear of the footer. */
  predicate RestClear(marks: seq<Mark>, top: int) {
    && |marks| >= 2 && marks[0] == Mark(0, top, Headings) && marks[1] == Mark(0, top - ROW_PAD, HeadRule)
    && forall k | 2 <= k < |marks| :: FOOTER_TOP <= marks[k].y
  }

  lemma RestClearPush(marks: seq<Mark>, m: Mark, top: int)
    requires RestClear(marks, top) && FOOTER_TOP <= m.y
    ensures RestClear(marks + [m], top)
  {
  }

  /** The pen is on the baseline of the last thing drawn. */
  predicate OnBaseline(p: Pen) {
    && p.marks != [] && Descends(p.marks)
    && p.marks[|p.marks| - 1].sheet == p.sheet && p.y == p.marks[|p.marks| - 1].y
  }

  /** One row on the baseline given; the pen is left on the baseline of its last line. */
  method TableRow(p: Pen, i: nat, hasDetail: bool, ghost top: int) returns (q: Pen)
    requires Steady(p) && Headed(p) && RestClear(p.marks, top) && FOOTER_TOP + ROW_DETAIL <= p.y
    ensures OnBaseline(q) && Headed(q) && RestClear(q.marks, top) && q.sheet == p.sheet
    ensures q.y == p.y - if hasDetail then ROW_DETAIL else 0
    ensures q.marks == p.marks + [Mark(p.sheet, p.y, Row(i))]
                       + if hasDetail then [Mark(p.sheet, p.y - ROW_DETAIL, Detail(i))] else []
    ensures Printed(q.marks) == Printed(p.marks) + [Row(i)] + if hasDetail then [Detail(i)] else []
  {
    var row := Mark(p.sheet, p.y, Row(i));
    var marks := Push(p.marks, row);
    RestClearPush(p.marks, row, top);
    q := Pen(marks, p.sheet, p.y);
    if hasDetail {
      q := SubCaption(q, i, top);
    }
  }

  method SubCaption(p: Pen, i: nat, ghost top: int) returns (q: Pen)
    requires OnBaseline(p) && Headed(p) && RestClear(p.marks, top) && FOOTER_TOP + ROW_DETAIL <= p.y
    ensures OnBaseline(q) && Headed(q) && RestClear(q.marks, top) && q.sheet == p.sheet && q.y == p.y - ROW_DETAIL
    ensures q.marks == p.marks + [Mark(p.sheet, q.y, Detail(i))]
    ensures Printed(q.marks) == Printed(p.marks) + [Detail(i)]
  {
    var detail := Mark(p.sheet, p.y - ROW_DETAIL, Detail(i));
    var marks := Push(p.marks, detail);
    RestClearPush(p.marks, detail, top);
    q := Pen(marks, p.sheet, p.y - ROW_DETAIL);
  }

  /** The sheet a row of this height goes on: this one if it has room above the footer, else a new one. */
  method RoomFor(p: Pen, height: int, top: int) returns (q: Pen)
    requires Steady(p) && Headed(p) && RestClear(p.marks, top) && height <= ROW_PAD + ROW_LEAD + ROW_DETAIL
    ensures Steady(q) && Headed(q) && RestClear(q.marks, top) && Printed(q.marks) == Printed(p.marks)
    ensures FLOOR + height <= q.y
    ensures FLOOR + height <= p.y ==> q == p
  {
    q := p;
    if p.y - height < FLOOR {
      q := Continuation(p);
      q := TableHead(q);
    }
  }

  /** Down to the next row's baseline, past the separator before it; or clear of the last row. */
  method NextBaseline(p: Pen, i: nat, last: bool, ghost top: int) returns (q: Pen)
    requires OnBaseline(p) && Headed(p) && RestClear(p.marks, top) && FLOOR + ROW_PAD + ROW_LEAD <= p.y
    ensures Steady(q) && Headed(q) && RestClear(q.marks, top)
    ensures Printed(q.marks) == Printed(p.marks) + if last then [] else [Separator(i)]
    ensures q.sheet == p.sheet && q.y == p.y - if last then ROW_DETAIL else ROW_PAD + ROW_LEAD
  {
    if last {
      return Pen(p.marks, p.sheet, p.y - ROW_DETAIL);
    }
    var marks := Push(p.marks, Mark(p.sheet, p.y - ROW_PAD, Separator(i)));
    RestClearPush(p.marks, Mark(p.sheet, p.y - ROW_PAD, Separator(i)), top);
    return Pen(marks, p.sheet, p.y - ROW_PAD - ROW_LEAD);
  }

  /** Place one row, and the separator that comes between it and the next. */
  method PlaceRow(p: Pen, i: nat, hasDetail: bool, last: bool, top: int) returns (q: Pen)
    requires Steady(p) && Headed(p) && RestClear(p.marks, top)
    ensures Steady(q) && Headed(q) && RestClear(q.marks, top) && FLOOR <= q.y && (last ==> FLOOR + 1500 <= q.y)
    ensures Printed(q.marks) == Printed(p.marks) + Block(i, hasDetail, last)
  {
    q := RoomFor(p, ROW_PAD + ROW_LEAD + if hasDetail then ROW_DETAIL else 0, top);
    q := TableRow(q, i, hasDetail, top);
    q := NextBaseline(q, i, last, top);
  }

  lemma ClearPush(marks: seq<Mark>, m: Mark)
    ensures ClearOfFooter(marks + [m]) <==> ClearOfFooter(marks) && FOOTER_TOP <= m.y
  {
    ClearAppend(marks, [m]);
    assert (marks + [m])[|marks|] == m;
  }

  lemma ClearAppend(a: seq<Mark>, b: seq<Mark>)
    ensures ClearOfFooter(b) ==> (ClearOfFooter(a + b) <==> ClearOfFooter(a))
    ensures ClearOfFooter(a + b) ==> ClearOfFooter(a)
  {
    assert forall k | 0 <= k < |a| :: (a + b)[k] == a[k];
  }

  /** The service period under the rows, on a new sheet if this one has no room. */
  method PeriodLine(p: Pen) returns (q: Pen)
    requires Steady(p)
    ensures Steady(q) && Printed(q.marks) == Printed(p.marks) + [Period] && FLOOR <= q.y
    ensures ClearOfFooter(q.marks) <==> ClearOfFooter(p.marks)
    ensures RowsHaveHeadings(p.marks) ==> RowsHaveHeadings(q.marks)
  {
    q := p;
    if q.y - ROW_DETAIL < FLOOR {
      ClearPush(p.marks, Mark(p.sheet + 1, PAGE_HEIGHT - 5400, ContinuationHead));
      q := Continuation(q);
    }
    ClearPush(q.marks, Mark(q.sheet, q.y, Period));
    var marks := Push(q.marks, Mark(q.sheet, q.y, Period));
    q := Pen(marks, q.sheet, q.y - ROW_DETAIL);
  }

  /** Ends the table with its period and its rule; of the two only the rule can meet the footer. */
  method CloseTable(p: Pen, hasPeriod: bool) returns (q: Pen)
    requires Steady(p)
    ensures Steady(q) && Printed(q.marks) == Printed(p.marks) + (if hasPeriod then [Period] else []) + [ClosingRule]
    ensures RowsHaveHeadings(p.marks) ==> RowsHaveHeadings(q.marks)
    ensures ClearOfFooter(q.marks) <==> ClearOfFooter(p.marks) && (hasPeriod || FOOTER_TOP + 300 <= p.y)
  {
    q := p;
    if hasPeriod {
      q := PeriodLine(q);
    }
    var ruleY := q.y - (ROW_PAD - ROW_DETAIL + 600);
    ClearPush(q.marks, Mark(q.sheet, ruleY, ClosingRule));
    var marks := Push(q.marks, Mark(q.sheet, ruleY, ClosingRule));
    q := Pen(marks, q.sheet, ruleY - 2600);
  }

  /**
   * The line items, then room for what comes below them: `top` is where the
   * table starts on the first sheet, `needed` what the totals and words take.
   */
  method Table(details: seq<bool>, hasPeriod: bool, top: int, needed: int) returns (q: Pen)
    requires needed <= CONTINUATION_TOP - FOOTER_TOP - TAIL_GAP
    ensures Steady(q) && PrintsAll(q.marks, details, hasPeriod)
    ensures ClearOfFooter(q.marks) <==> FOOTER_TOP <= top - HeadDepth(details, hasPeriod)
    ensures FOOTER_TOP + TAIL_GAP <= q.y - needed
  {
    q := TableHead(Pen([], 0, top));
    q := Rows(q, details, top);
    HeadDecides(q.marks, top);
    q := CloseTable(q, hasPeriod);
    if q.y - needed < FOOTER_TOP + TAIL_GAP {
      ghost var before := q.marks;
      q := Continuation(q);
      ClearAppend(before, [q.marks[|before|]]);
    }
  }

  /** How far below its start the table must go on the first sheet: its headings, and its closing rule if that is all. */
  function HeadDepth(details: seq<bool>, hasPeriod: bool): int {
    if details == [] && !hasPeriod then ROW_PAD + ROW_LEAD + 300 else ROW_PAD
  }

  method Rows(p: Pen, details: seq<bool>, top: int) returns (q: Pen)
    requires Steady(p) && Headed(p) && RestClear(p.marks, top) && Printed(p.marks) == []
    ensures Steady(q) && Headed(q) && RestClear(q.marks, top) && Printed(q.marks) == Listing(details, |details|)
    ensures if details == [] then q == p else FLOOR <= q.y
  {
    q := p;
    for i := 0 to |details|
      invariant Steady(q) && Headed(q) && RestClear(q.marks, top) && Printed(q.marks) == Listing(details, i)
      invariant if i == 0 then q == p else FLOOR <= q.y
    {
      q := PlaceRow(q, i, details[i], i == |details| - 1, top);
    }
  }

  /** Only the first sheet's headings can meet the footer. */
  lemma HeadDecides(marks: seq<Mark>, top: int)
    requires RestClear(marks, top)
    ensures ClearOfFooter(marks) <==> FOOTER_TOP <= top - ROW_PAD
  {
    assert marks[1].y == top - ROW_PAD;
  }

  // ---------------------------------------------------------------------------
  // Below the table
  // ---------------------------------------------------------------------------

  /** Height of the totals panel, with one row for the taxable value and one per tax. */
  function PanelHeight(taxes: nat): int {
    PAD - 200 + (1 + taxes) * TOTALS_ROW + TOTALS_BAND + 800
  }

  /** The height from the table's end down to the last mark below it. */
  function Reserve(taxes: nat, inRupees: bool): int {
    PanelHeight(taxes) + if inRupees then 2000 + 1400 else 0
  }

  /** Part of the totals block: inside the panel's height, and no line of the table. */
  predicate InPanel(m: Mark, sheet: nat, taxes: nat, top: int) {
    m.sheet == sheet && top - PanelHeight(taxes) <= m.y <= top && !IsLine(m.what)
  }

  /**
   * The taxable value and each tax on a row of its own, a rule, the total, and
   * after them the two notes where there is tax: nothing else, and nothing twice.
   */
  predicate IsPanel(marks: seq<Mark>, taxes: nat) {
    && |marks| == taxes + 3 + (if taxes > 0 then 2 else 0)
    && (forall k | 0 <= k <= taxes :: marks[k].what == TotalsRow(k))
    && marks[taxes + 1].what.BandRule? && marks[taxes + 2].what.TotalPaid?
    && forall k | taxes + 3 <= k < |marks| :: marks[k].what.Note?
  }

  /** The totals panel, the notes opposite it, and where the words go. */
  method Totals(sheet: nat, taxes: nat, top: int) returns (marks: seq<Mark>, below: int)
    ensures forall k | 0 <= k < |marks| :: InPanel(marks[k], sheet, taxes, top)
    ensures IsPanel(marks, taxes) && Descends(marks[..taxes + 3]) && Descends(marks[taxes + 3..])
    ensures below == top - PanelHeight(taxes) - 2000
  {
    marks := [];
    var y := top - PAD - 400;
    for i := 0 to 1 + taxes
      invariant y == top - PAD - 400 - i * TOTALS_ROW
      invariant forall k | 0 <= k < |marks| ::
                  marks[k].sheet == sheet && top - PAD - 400 - i * TOTALS_ROW < marks[k].y <= top && !IsLine(marks[k].what)
      invariant |marks| == i && forall k | 0 <= k < i ::
                  marks[k] == Mark(sheet, top - PAD - 400 - k * TOTALS_ROW, TotalsRow(k))
    {
      marks := marks + [Mark(sheet, y, TotalsRow(i))];
      y := y - TOTALS_ROW;
    }
    var bandTop := y + 600;
    var baseline := bandTop - TOTALS_BAND / 2 - 400;
    marks := marks + [Mark(sheet, bandTop, BandRule), Mark(sheet, baseline, TotalPaid)];
    var noteY := top - PAD - 400;
    if taxes > 0 {
      marks := marks + [Mark(sheet, noteY, Note), Mark(sheet, noteY - 1300, Note)];
      noteY := noteY - 2600;
    }
    var bottom := top - PanelHeight(taxes);
    below := (if bottom < noteY then bottom else noteY) - 2000;
  }

  /** The total in words, on a rupee document. */
  method AmountWords(sheet: nat, inRupees: bool, top: int) returns (marks: seq<Mark>)
    ensures marks == if inRupees then [Mark(sheet, top, WordsLabel), Mark(sheet, top - 1400, Words)] else []
  {
    if !inRupees {
      return [];
    }
    return [Mark(sheet, top, WordsLabel), Mark(sheet, top - 1400, Words)];
  }

  /** Where the table starts under a party block of this many lines and the row of facts. */
  function TableTop(partyRows: nat): int {
    var blockTop := PAGE_HEIGHT - 10400 - 2600;
    var height := PAD + 1000 + 1600 + partyRows * 1200 + PAD - 400;
    var ruleY := blockTop - height + 600;
    ruleY - 2200 - 4400 - 1400
  }

  /** The most lines a party block can have before what must be on the first sheet meets the footer. */
  function MaxPartyRows(details: seq<bool>, hasPeriod: bool): nat {
    if details == [] && !hasPeriod then 36 else 38
  }

  /** From `body` on the totals panel, and from `tail` on the amount in words. */
  predicate EndsWithTotals(marks: seq<Mark>, body: nat, tail: nat, taxes: nat, inRupees: bool) {
    && body <= tail <= |marks| && IsPanel(marks[body..tail], taxes)
    && |marks[tail..]| == (if inRupees then 2 else 0)
    && (inRupees ==> marks[tail].what.WordsLabel? && marks[tail + 1].what.Words?)
  }

  /** The body of the document, from the table's headings to the amount in words. */
  method RenderBody(details: seq<bool>, hasPeriod: bool, partyRows: nat, taxes: nat, inRupees: bool)
    returns (marks: seq<Mark>, tableEnd: int)
    requires taxes <= 2
    // Every line once, in order, each with its sub-caption and under headings of its sheet, then the period and the rule.
    ensures PrintsAll(marks, details, hasPeriod)
    // Nothing crosses the footer's rule, on any sheet, exactly while the party block leaves room for its start.
    ensures ClearOfFooter(marks) <==> partyRows <= MaxPartyRows(details, hasPeriod)
    // The words end exactly where the room reserved for them does, clear of the footer.
    ensures inRupees ==> marks != [] && marks[|marks| - 1].what.Words?
                         && marks[|marks| - 1].y == tableEnd - Reserve(taxes, true)
    ensures FOOTER_TOP + TAIL_GAP <= tableEnd - Reserve(taxes, inRupees)
    // Below the table stand the totals and, on a rupee document, the words and their label; nothing else.
    ensures exists body: nat, tail: nat :: EndsWithTotals(marks, body, tail, taxes, inRupees)
  {
    var needed := Reserve(taxes, inRupees);
    var pen := Table(details, hasPeriod, TableTop(partyRows), needed);
    tableEnd := pen.y;
    var totals, below := Totals(pen.sheet, taxes, pen.y);
    var words := AmountWords(pen.sheet, inRupees, below);
    var tail := totals + words;
    StandsClear(totals, words, pen.sheet, taxes, pen.y);
    PrintsNothing(pen.marks, tail);
    ClearAppend(pen.marks, tail);
    marks := pen.marks + tail;
    assert words != [] ==> marks[|marks| - 1] == words[|words| - 1];
    RowsHaveHeadingsAppend(pen.marks, tail);
    TotalsAndWordsEnd(pen.marks, totals, words, taxes, inRupees);
  }

  lemma StandsClear(totals: seq<Mark>, words: seq<Mark>, sheet: nat, taxes: nat, top: int)
    requires forall k | 0 <= k < |totals| :: InPanel(totals[k], sheet, taxes, top)
    requires forall k | 0 <= k < |words| :: FOOTER_TOP <= words[k].y && !IsLine(words[k].what)
    requires FOOTER_TOP <= top - PanelHeight(taxes)
    ensures forall k | 0 <= k < |totals + words| ::
              FOOTER_TOP <= (totals + words)[k].y && !IsLine((totals + words)[k].what)
  {
  }

  lemma TotalsAndWordsEnd(table: seq<Mark>, totals: seq<Mark>, words: seq<Mark>, taxes: nat, inRupees: bool)
    requires IsPanel(totals, taxes) && |words| == (if inRupees then 2 else 0)
    requires inRupees ==> words[0].what.WordsLabel? && words[1].what.Words?
    ensures EndsWithTotals(table + (totals + words), |table|, |table| + |totals|, taxes, inRupees)
  {
    var marks, body, tail := table + (totals + words), |table|, |table| + |totals|;
    assert marks[body..tail] == totals && marks[tail..] == words;
  }

  lemma {:induction false} PrintsNothing(a: seq<Mark>, b: seq<Mark>)
    requires forall k | 0 <= k < |b| :: !IsLine(b[k].what)
    ensures Printed(a + b) == Printed(a)
    decreases |b|
  {
    if b == [] {
      assert a + b == a;
    } else {
      var front := b[..|b| - 1];
      PrintsNothing(a, front);
      assert a + b == (a + front) + [b[|b| - 1]];
      PrintedPush(a + front, b[|b| - 1]);
    }
  }
}
