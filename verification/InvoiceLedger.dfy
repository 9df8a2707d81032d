/**
 * Raising invoices and receipts when several deliveries race.
 *
 * An issuer checks for an existing invoice, then runs a transaction: claim the
 * year's invoice number, insert the invoice, claim the receipt number, insert
 * the receipt, commit.  A claimed counter row stays locked until its
 * transaction ends; what a transaction wrote is invisible until it commits, and
 * an abort takes it all back.  An insert meeting a committed row with one of its
 * unique keys loses the race; meeting an uncommitted one it waits.
 */
module InvoiceLedger {
  import opened Options
  import DocumentNumber

  type Year = y: string | DocumentNumber.YearOk(y) witness "0000"

  datatype Invoice = Invoice(payment: string, year: Year, sequence: nat, total: int)

  datatype Receipt = Receipt(payment: string, year: Year, sequence: nat, amount: int)

  datatype Stage =
    | Begun
    | Numbered(sequence: nat)
    | Inserted(sequence: nat)
    | ReceiptNumbered(sequence: nat, receiptSequence: nat)
    | ReceiptInserted(sequence: nat, receiptSequence: nat)

  datatype Issuer =
    | InTransaction(payment: string, year: Year, total: int, stage: Stage)
    | LostRace(payment: string)
    | Answered(payment: string, invoice: Option<Invoice>)
    | RolledBack

  datatype World = World(
    invoices: seq<Invoice>,
    receipts: seq<Receipt>,
    invoiceCounter: map<Year, nat>,
    receiptCounter: map<Year, nat>,
    issuers: map<nat, Issuer>)

  datatype Event =
    | Begin(c: nat, payment: string, year: Year, total: int)
    | ClaimNumber(c: nat)
    | InsertInvoice(c: nat)
    | ClaimReceiptNumber(c: nat)
    | InsertReceipt(c: nat)
    | Commit(c: nat)
    | Abort(c: nat)
    | Reread(c: nat)

  const EMPTY := World([], [], map[], map[], map[])

  /** The next free number of a year: what the upsert hands back. */
  function NextFree(counter: map<Year, nat>, year: Year): nat {
    if year in counter then counter[year] else 1
  }

  function ByPayment(invoices: seq<Invoice>, payment: string): Option<Invoice>
    decreases |invoices|
  {
    if invoices == [] then None
    else if invoices[0].payment == payment then Some(invoices[0])
    else ByPayment(invoices[1..], payment)
  }

  predicate Open(w: World, c: nat) {
    c in w.issuers && w.issuers[c].InTransaction?
  }

  predicate HoldsNumber(w: World, c: nat, year: Year) {
    Open(w, c) && w.issuers[c].year == year && !w.issuers[c].stage.Begun?
  }

  predicate HoldsReceiptNumber(w: World, c: nat, year: Year) {
    && Open(w, c) && w.issuers[c].year == year
    && (w.issuers[c].stage.ReceiptNumbered? || w.issuers[c].stage.ReceiptInserted?)
  }

  predicate HasInserted(w: World, c: nat, payment: string) {
    && Open(w, c) && w.issuers[c].payment == payment
    && !w.issuers[c].stage.Begun? && !w.issuers[c].stage.Numbered?
  }

  /** A committed invoice shares a unique key with the one about to be inserted. */
  predicate InvoiceClash(w: World, payment: string, year: Year, sequence: nat) {
    exists i | 0 <= i < |w.invoices| ::
      w.invoices[i].payment == payment || (w.invoices[i].year == year && w.invoices[i].sequence == sequence)
  }

  predicate ReceiptClash(w: World, payment: string, year: Year, sequence: nat) {
    exists i | 0 <= i < |w.receipts| ::
      w.receipts[i].payment == payment || (w.receipts[i].year == year && w.receipts[i].sequence == sequence)
  }

  predicate Enabled(w: World, e: Event) {
    match e
    case Begin(c, _, _, _) => c !in w.issuers
    case ClaimNumber(c) =>
      && Open(w, c) && w.issuers[c].stage.Begun?
      && forall d | d in w.issuers && d != c :: !HoldsNumber(w, d, w.issuers[c].year)
    case InsertInvoice(c) =>
      && Open(w, c) && w.issuers[c].stage.Numbered?
      && forall d | d in w.issuers && d != c :: !HasInserted(w, d, w.issuers[c].payment)
    case ClaimReceiptNumber(c) =>
      && Open(w, c) && w.issuers[c].stage.Inserted?
      && forall d | d in w.issuers && d != c :: !HoldsReceiptNumber(w, d, w.issuers[c].year)
    case InsertReceipt(c) => Open(w, c) && w.issuers[c].stage.ReceiptNumbered?
    case Commit(c) => Open(w, c) && w.issuers[c].stage.ReceiptInserted?
    case Abort(c) => Open(w, c)
    case Reread(c) => c in w.issuers && w.issuers[c].LostRace?
  }

  function Set(w: World, c: nat, i: Issuer): World {
    w.(issuers := w.issuers[c := i])
  }

  function Apply(w: World, e: Event): World
    requires Enabled(w, e)
  {
    match e
    case Begin(c, payment, year, total) =>
      (match ByPayment(w.invoices, payment)
       case Some(existing) => Set(w, c, Answered(payment, Some(existing)))
       case None => Set(w, c, InTransaction(payment, year, total, Begun)))
    case ClaimNumber(c) =>
      var i := w.issuers[c];
      Set(w, c, i.(stage := Numbered(NextFree(w.invoiceCounter, i.year))))
    case InsertInvoice(c) =>
      var i := w.issuers[c];
      if InvoiceClash(w, i.payment, i.year, i.stage.sequence)
      then Set(w, c, LostRace(i.payment))
      else Set(w, c, i.(stage := Inserted(i.stage.sequence)))
    case ClaimReceiptNumber(c) =>
      var i := w.issuers[c];
      Set(w, c, i.(stage := ReceiptNumbered(i.stage.sequence, NextFree(w.receiptCounter, i.year))))
    case InsertReceipt(c) =>
      var i := w.issuers[c];
      if ReceiptClash(w, i.payment, i.year, i.stage.receiptSequence)
      then Set(w, c, LostRace(i.payment))
      else Set(w, c, i.(stage := ReceiptInserted(i.stage.sequence, i.stage.receiptSequence)))
    case Commit(c) =>
      var i := w.issuers[c];
      var invoice := Invoice(i.payment, i.year, i.stage.sequence, i.total);
      World(w.invoices + [invoice],
            w.receipts + [Receipt(i.payment, i.year, i.stage.receiptSequence, i.total)],
            w.invoiceCounter[i.year := i.stage.sequence + 1],
            w.receiptCounter[i.year := i.stage.receiptSequence + 1],
            w.issuers[c := Answered(i.payment, Some(invoice))])
    case Abort(c) => Set(w, c, RolledBack)
    case Reread(c) =>
      var payment := w.issuers[c].payment;
      Set(w, c, Answered(payment, ByPayment(w.invoices, payment)))
  }

  function RunFrom(w: World, es: seq<Event>): Option<World>
    decreases |es|
  {
    if es == [] then Some(w)
    else if Enabled(w, es[0]) then RunFrom(Apply(w, es[0]), es[1..])
    else None
  }

  /** How many invoices a year's book holds. */
  function CountIn(invoices: seq<Invoice>, year: Year): nat
    decreases |invoices|
  {
    if invoices == [] then 0
    else CountIn(invoices[..|invoices| - 1], year) + if invoices[|invoices| - 1].year == year then 1 else 0
  }

  lemma CountAppend(invoices: seq<Invoice>, i: Invoice, year: Year)
    ensures CountIn(invoices + [i], year) == CountIn(invoices, year) + if i.year == year then 1 else 0
  {
    assert (invoices + [i])[..|invoices|] == invoices;
  }

  // ---------------------------------------------------------------------------
  // What is promised
  // ---------------------------------------------------------------------------

  /** Each invoice is numbered one past those already in its year's book. */
  ghost predicate Consecutive(invoices: seq<Invoice>) {
    forall i | 0 <= i < |invoices| :: invoices[i].sequence == CountIn(invoices[..i], invoices[i].year) + 1
  }

  ghost predicate OnePerPayment(invoices: seq<Invoice>) {
    forall i, j | 0 <= i < j < |invoices| :: invoices[i].payment != invoices[j].payment
  }

  /** Invoice and receipt come in pairs that agree on everything they share. */
  ghost predicate Paired(w: World) {
    && |w.invoices| == |w.receipts|
    && forall i | 0 <= i < |w.invoices| ::
         w.receipts[i] == Receipt(w.invoices[i].payment, w.invoices[i].year, w.invoices[i].sequence, w.invoices[i].total)
  }

  /** Whoever is answered holds the one committed invoice of its payment. */
  ghost predicate AnswersAgree(w: World) {
    forall c | c in w.issuers && w.issuers[c].Answered? ::
      && w.issuers[c].invoice.Some?
      && w.issuers[c].invoice.value in w.invoices
      && w.issuers[c].invoice.value.payment == w.issuers[c].payment
  }

  ghost predicate Sound(w: World) {
    Consecutive(w.invoices) && OnePerPayment(w.invoices) && Paired(w) && AnswersAgree(w)
  }

  // ---------------------------------------------------------------------------
  // The invariant
  // ---------------------------------------------------------------------------

  ghost predicate Counted(w: World, year: Year) {
    && NextFree(w.invoiceCounter, year) == CountIn(w.invoices, year) + 1
    && NextFree(w.receiptCounter, year) == CountIn(w.invoices, year) + 1
  }

  ghost predicate CountersInv(w: World) {
    forall year: Year :: Counted(w, year)
  }

  predicate StageOk(w: World, i: Issuer)
    requires i.InTransaction?
  {
    && (!i.stage.Begun? ==> i.stage.sequence == NextFree(w.invoiceCounter, i.year))
    && (i.stage.ReceiptNumbered? || i.stage.ReceiptInserted? ==> i.stage.receiptSequence == NextFree(w.receiptCounter, i.year))
    && (!i.stage.Begun? && !i.stage.Numbered? ==> forall k | 0 <= k < |w.invoices| :: w.invoices[k].payment != i.payment)
  }

  ghost predicate StagesInv(w: World) {
    forall c | Open(w, c) :: StageOk(w, w.issuers[c])
  }

  ghost predicate OneNumberHolder(w: World) {
    forall c, d, year: Year | HoldsNumber(w, c, year) && HoldsNumber(w, d, year) :: c == d
  }

  ghost predicate OneInserter(w: World) {
    forall c, d, payment | HasInserted(w, c, payment) && HasInserted(w, d, payment) :: c == d
  }

  ghost predicate LocksInv(w: World) {
    OneNumberHolder(w) && OneInserter(w)
  }

  ghost predicate LosersInv(w: World) {
    forall c | c in w.issuers && w.issuers[c].LostRace? ::
      exists k :: 0 <= k < |w.invoices| && w.invoices[k].payment == w.issuers[c].payment
  }

  ghost predicate Inv(w: World) {
    Sound(w) && CountersInv(w) && StagesInv(w) && LocksInv(w) && LosersInv(w)
  }

  lemma {:induction false} ByPaymentFinds(invoices: seq<Invoice>, payment: string)
    ensures var r := ByPayment(invoices, payment);
            && (r.Some? ==> r.value in invoices && r.value.payment == payment)
            && (r.None? ==> forall k | 0 <= k < |invoices| :: invoices[k].payment != payment)
    decreases |invoices|
  {
    if invoices != [] && invoices[0].payment != payment { ByPaymentFinds(invoices[1..], payment); }
  }

  lemma {:induction false} SequenceBounded(invoices: seq<Invoice>, i: nat)
    requires Consecutive(invoices) && i < |invoices|
    ensures 1 <= invoices[i].sequence <= CountIn(invoices, invoices[i].year)
    decreases |invoices|
  {
    var front := invoices[..|invoices| - 1];
    if i < |front| {
      assert forall j | 0 <= j < |front| :: front[..j] == invoices[..j];
      SequenceBounded(front, i);
    }
  }

  /** With the counters in step, only a payment already invoiced can clash. */
  lemma ClashIsDuplicate(w: World, c: nat)
    requires Inv(w) && Open(w, c) && !w.issuers[c].stage.Begun?
    ensures var i := w.issuers[c];
            InvoiceClash(w, i.payment, i.year, i.stage.sequence)
            <==> exists k :: 0 <= k < |w.invoices| && w.invoices[k].payment == i.payment
  {
    var i := w.issuers[c];
    assert Counted(w, i.year) && StageOk(w, i);
    forall k | 0 <= k < |w.invoices|
      ensures !(w.invoices[k].year == i.year && w.invoices[k].sequence == i.stage.sequence)
    {
      SequenceBounded(w.invoices, k);
    }
  }

  lemma NoReceiptClash(w: World, c: nat)
    requires Inv(w) && Open(w, c) && w.issuers[c].stage.ReceiptNumbered?
    ensures !ReceiptClash(w, w.issuers[c].payment, w.issuers[c].year, w.issuers[c].stage.receiptSequence)
  {
    var i := w.issuers[c];
    assert Counted(w, i.year) && StageOk(w, i);
    forall k | 0 <= k < |w.receipts|
      ensures !(w.receipts[k].payment == i.payment)
      ensures !(w.receipts[k].year == i.year && w.receipts[k].sequence == i.stage.receiptSequence)
    {
      assert w.invoices[k].payment != i.payment;
      SequenceBounded(w.invoices, k);
    }
  }

  lemma NumberLockKept(w: World, e: Event)
    requires LocksInv(w) && Enabled(w, e)
    ensures OneNumberHolder(Apply(w, e))
  {
    var v := Apply(w, e);
    forall c, d, year: Year | HoldsNumber(v, c, year) && HoldsNumber(v, d, year)
      ensures c == d
    {
      assert c != e.c ==> HoldsNumber(w, c, year);
      assert d != e.c ==> HoldsNumber(w, d, year);
      if c != d && !e.ClaimNumber? && (c == e.c || d == e.c) { assert HoldsNumber(w, e.c, year); }
    }
  }

  lemma PaymentLockKept(w: World, e: Event)
    requires LocksInv(w) && Enabled(w, e)
    ensures OneInserter(Apply(w, e))
  {
    var v := Apply(w, e);
    forall c, d, payment | HasInserted(v, c, payment) && HasInserted(v, d, payment)
      ensures c == d
    {
      assert c != e.c ==> HasInserted(w, c, payment);
      assert d != e.c ==> HasInserted(w, d, payment);
      if c != d && !e.InsertInvoice? && (c == e.c || d == e.c) { assert HasInserted(w, e.c, payment); }
    }
  }

  /** What an issuer's own state has to satisfy. */
  ghost predicate IssuerOk(w: World, i: Issuer) {
    && (i.InTransaction? ==> StageOk(w, i))
    && (i.LostRace? ==> exists k :: 0 <= k < |w.invoices| && w.invoices[k].payment == i.payment)
    && (i.Answered? ==> i.invoice.Some? && i.invoice.value in w.invoices && i.invoice.value.payment == i.payment)
  }

  /** A step that commits nothing only moves its own issuer. */
  lemma UncommittedStep(w: World, e: Event)
    requires Inv(w) && Enabled(w, e) && !e.Commit?
    ensures e.c in Apply(w, e).issuers
    ensures Apply(w, e) == Set(w, e.c, Apply(w, e).issuers[e.c])
    ensures IssuerOk(w, Apply(w, e).issuers[e.c])
  {
    if e.Begin? {
      ByPaymentFinds(w.invoices, e.payment);
    } else if e.Reread? {
      ByPaymentFinds(w.invoices, w.issuers[e.c].payment);
    } else if !e.Abort? {
      assert StageOk(w, w.issuers[e.c]);
      if e.InsertInvoice? { ClashIsDuplicate(w, e.c); }
      if e.InsertReceipt? { NoReceiptClash(w, e.c); }
    }
  }

  lemma SetKeeps(w: World, c: nat, i: Issuer)
    requires Inv(w) && IssuerOk(w, i)
    ensures Sound(Set(w, c, i)) && CountersInv(Set(w, c, i)) && StagesInv(Set(w, c, i)) && LosersInv(Set(w, c, i))
  {
    var v := Set(w, c, i);
    forall year: Year
      ensures Counted(v, year)
    {
      assert Counted(w, year);
    }
    forall d | Open(v, d)
      ensures StageOk(v, v.issuers[d])
    {
      if d == c {
        assert StageOk(w, i);
      } else {
        assert StageOk(w, w.issuers[d]);
      }
    }
  }

  /** The next number, on a payment not yet in the book, keeps the book in order. */
  lemma AppendKeepsBook(invoices: seq<Invoice>, i: Invoice)
    requires Consecutive(invoices) && OnePerPayment(invoices)
    requires i.sequence == CountIn(invoices, i.year) + 1
    requires forall k | 0 <= k < |invoices| :: invoices[k].payment != i.payment
    ensures Consecutive(invoices + [i]) && OnePerPayment(invoices + [i])
  {
    var longer := invoices + [i];
    forall k | 0 <= k < |longer|
      ensures longer[k].sequence == CountIn(longer[..k], longer[k].year) + 1
    {
      assert longer[..k] == invoices[..k];
      if k == |invoices| { assert invoices[..k] == invoices; }
    }
  }

  lemma CommitKeepsSound(w: World, e: Event)
    requires Inv(w) && Enabled(w, e) && e.Commit?
    ensures Sound(Apply(w, e))
  {
    var v := Apply(w, e);
    var i := w.issuers[e.c];
    assert StageOk(w, i) && Counted(w, i.year);
    AppendKeepsBook(w.invoices, Invoice(i.payment, i.year, i.stage.sequence, i.total));
    CommitKeepsAnswers(w, e);
  }

  lemma CommitKeepsCounters(w: World, e: Event)
    requires Inv(w) && Enabled(w, e) && e.Commit?
    ensures CountersInv(Apply(w, e))
  {
    var v := Apply(w, e);
    var i := w.issuers[e.c];
    assert StageOk(w, i) && Counted(w, i.year);
    forall year: Year
      ensures Counted(v, year)
    {
      assert Counted(w, year);
      CountAppend(w.invoices, v.invoices[|w.invoices|], year);
    }
  }

  lemma CommitKeepsAnswers(w: World, e: Event)
    requires Inv(w) && Enabled(w, e) && e.Commit?
    ensures AnswersAgree(Apply(w, e))
  {
    var v := Apply(w, e);
    forall c | c in v.issuers && v.issuers[c].Answered?
      ensures v.issuers[c].invoice.Some? && v.issuers[c].invoice.value in v.invoices
              && v.issuers[c].invoice.value.payment == v.issuers[c].payment
    {
      if c == e.c { assert v.invoices[|w.invoices|] == v.issuers[c].invoice.value; }
    }
  }

  lemma CommitKeepsStages(w: World, e: Event)
    requires Inv(w) && Enabled(w, e) && e.Commit?
    ensures StagesInv(Apply(w, e)) && LosersInv(Apply(w, e))
  {
    var v := Apply(w, e);
    var y := w.issuers[e.c].year;
    forall c | Open(v, c)
      ensures StageOk(v, v.issuers[c])
    {
      var i := w.issuers[c];
      assert StageOk(w, i);
      assert HoldsNumber(w, e.c, y);
      assert i.year == y && !i.stage.Begun? ==> HoldsNumber(w, c, y);
      assert HasInserted(w, e.c, w.issuers[e.c].payment);
      assert !i.stage.Begun? && !i.stage.Numbered? ==> HasInserted(w, c, i.payment);
    }
    forall c | c in v.issuers && v.issuers[c].LostRace?
      ensures exists k :: 0 <= k < |v.invoices| && v.invoices[k].payment == v.issuers[c].payment
    {
      var k :| 0 <= k < |w.invoices| && w.invoices[k].payment == w.issuers[c].payment;
      assert v.invoices[k] == w.invoices[k];
    }
  }

  lemma {:induction false} InvHoldsAlong(w: World, es: seq<Event>)
    requires Inv(w)
    ensures var r := RunFrom(w, es); r.Some? ==> Inv(r.value)
    decreases |es|
  {
    if es != [] && Enabled(w, es[0]) {
      var e := es[0];
      if e.Commit? {
        CommitKeepsSound(w, e);
        CommitKeepsCounters(w, e);
        CommitKeepsStages(w, e);
      } else {
        UncommittedStep(w, e);
        SetKeeps(w, e.c, Apply(w, e).issuers[e.c]);
      }
      NumberLockKept(w, e);
      PaymentLockKept(w, e);
      InvHoldsAlong(Apply(w, es[0]), es[1..]);
    }
  }

  /** Main result: every interleaving of issuers, aborts and losers leaves sound books. */
  lemma BooksAreSound(es: seq<Event>)
    ensures var r := RunFrom(EMPTY, es); r.Some? ==> Sound(r.value)
  {
    InvHoldsAlong(EMPTY, es);
  }

  lemma PrefixConsecutive(invoices: seq<Invoice>, n: nat)
    requires Consecutive(invoices) && n <= |invoices|
    ensures Consecutive(invoices[..n])
  {
    assert forall j | 0 <= j < n :: invoices[..n][..j] == invoices[..j];
  }

  /** No gaps: every number up to a year's count is on one of its invoices. */
  lemma {:induction false} NoGaps(invoices: seq<Invoice>, year: Year, n: nat)
    requires Consecutive(invoices) && 1 <= n <= CountIn(invoices, year)
    ensures exists i :: 0 <= i < |invoices| && invoices[i].year == year && invoices[i].sequence == n
    decreases |invoices|
  {
    var front := invoices[..|invoices| - 1];
    var last := invoices[|front|];
    PrefixConsecutive(invoices, |front|);
    assert last.sequence == CountIn(front, last.year) + 1;
    if n <= CountIn(front, year) {
      NoGaps(front, year, n);
      var i :| 0 <= i < |front| && front[i].year == year && front[i].sequence == n;
      assert invoices[i] == front[i];
    }
  }

  /** No reuse: within a year numbers only go up, in the order the invoices were committed. */
  lemma NoReuse(invoices: seq<Invoice>, i: nat, j: nat)
    requires Consecutive(invoices) && i < j < |invoices| && invoices[i].year == invoices[j].year
    ensures invoices[i].sequence < invoices[j].sequence
  {
    PrefixConsecutive(invoices, j);
    SequenceBounded(invoices[..j], i);
  }

  /** A year's committed numbers are exactly 1 to however many invoices it has. */
  lemma NumbersAreExactly(invoices: seq<Invoice>, year: Year, n: nat)
    requires Consecutive(invoices)
    ensures 1 <= n <= CountIn(invoices, year) <==>
            exists i :: 0 <= i < |invoices| && invoices[i].year == year && invoices[i].sequence == n
  {
    if 1 <= n <= CountIn(invoices, year) { NoGaps(invoices, year, n); }
    forall i | 0 <= i < |invoices| && invoices[i].year == year && invoices[i].sequence == n
      ensures 1 <= n <= CountIn(invoices, year)
    {
      SequenceBounded(invoices, i);
    }
  }

  /** Printed numbers are as unique as the rows: no two invoices ever carry the same one. */
  lemma PrintedNumbersDiffer(es: seq<Event>, series: string, i: nat, j: nat)
    requires DocumentNumber.SeriesOk(series)
    requires RunFrom(EMPTY, es).Some?
    requires i < j < |RunFrom(EMPTY, es).value.invoices|
    ensures var a, b := RunFrom(EMPTY, es).value.invoices[i], RunFrom(EMPTY, es).value.invoices[j];
            DocumentNumber.Number("INV", series, a.year, a.sequence) != DocumentNumber.Number("INV", series, b.year, b.sequence)
  {
    BooksAreSound(es);
    var invoices := RunFrom(EMPTY, es).value.invoices;
    var a, b := invoices[i], invoices[j];
    if a.year == b.year { NoReuse(invoices, i, j); }
    if DocumentNumber.Number("INV", series, a.year, a.sequence) == DocumentNumber.Number("INV", series, b.year, b.sequence) {
      DocumentNumber.NumberInjective("INV", series, a.year, a.sequence, "INV", series, b.year, b.sequence);
    }
  }

  // ---------------------------------------------------------------------------
  // Nobody waits for ever
  // ---------------------------------------------------------------------------

  /** The counters are always taken in the same order, so some open transaction can always go on. */
  lemma SomebodyCanGoOn(w: World, c: nat)
    requires Inv(w) && Open(w, c)
    ensures exists e: Event :: !e.Abort? && !e.Begin? && Enabled(w, e)
  {
    var i := w.issuers[c];
    match i.stage {
      case Begun =>
        if exists d :: d in w.issuers && d != c && HoldsNumber(w, d, i.year) {
          var d :| d in w.issuers && d != c && HoldsNumber(w, d, i.year);
          HolderCanGoOn(w, d);
        } else {
          assert Enabled(w, ClaimNumber(c));
        }
      case _ => HolderCanGoOn(w, c);
    }
  }

  lemma HolderCanGoOn(w: World, c: nat)
    requires Inv(w) && Open(w, c) && !w.issuers[c].stage.Begun?
    ensures exists e: Event :: !e.Abort? && !e.Begin? && Enabled(w, e)
  {
    var i := w.issuers[c];
    if i.stage.Numbered? && exists d :: d in w.issuers && d != c && HasInserted(w, d, i.payment) {
      var d :| d in w.issuers && d != c && HasInserted(w, d, i.payment);
      InserterCanGoOn(w, d);
    } else if i.stage.Numbered? {
      assert Enabled(w, InsertInvoice(c));
    } else {
      InserterCanGoOn(w, c);
    }
  }

  /** Past its insert a transaction waits for nobody: it alone holds its year's numbers. */
  lemma InserterCanGoOn(w: World, c: nat)
    requires Inv(w) && Open(w, c) && !w.issuers[c].stage.Begun? && !w.issuers[c].stage.Numbered?
    ensures exists e: Event :: !e.Abort? && !e.Begin? && Enabled(w, e)
  {
    var i := w.issuers[c];
    match i.stage {
      case Inserted(_) =>
        forall d | d in w.issuers && d != c
          ensures !HoldsReceiptNumber(w, d, i.year)
        {
          assert HoldsNumber(w, c, i.year);
          assert HoldsReceiptNumber(w, d, i.year) ==> HoldsNumber(w, d, i.year);
        }
        assert Enabled(w, ClaimReceiptNumber(c));
      case ReceiptNumbered(_, _) => assert Enabled(w, InsertReceipt(c));
      case ReceiptInserted(_, _) => assert Enabled(w, Commit(c));
    }
  }

  /**
   * Nobody waits for another year's or another payment's transaction, nor for
   * one that has no number yet: with only such about, an issuer can always take
   * its own next step.
   */
  lemma WaitsOnlyForItsOwnBook(w: World, c: nat)
    requires Open(w, c)
    requires forall d | d in w.issuers && d != c && w.issuers[d].InTransaction? && !w.issuers[d].stage.Begun? ::
               w.issuers[d].year != w.issuers[c].year && w.issuers[d].payment != w.issuers[c].payment
    ensures match w.issuers[c].stage
            case Begun => Enabled(w, ClaimNumber(c))
            case Numbered(_) => Enabled(w, InsertInvoice(c))
            case Inserted(_) => Enabled(w, ClaimReceiptNumber(c))
            case ReceiptNumbered(_, _) => Enabled(w, InsertReceipt(c))
            case ReceiptInserted(_, _) => Enabled(w, Commit(c))
  {
  }

  /** No deadlock: while anyone is in a transaction, some step other than giving up or starting anew can be taken. */
  lemma NoDeadlock(es: seq<Event>, c: nat)
    requires RunFrom(EMPTY, es).Some? && Open(RunFrom(EMPTY, es).value, c)
    ensures exists e: Event :: !e.Abort? && !e.Begin? && Enabled(RunFrom(EMPTY, es).value, e)
  {
    InvHoldsAlong(EMPTY, es);
    SomebodyCanGoOn(RunFrom(EMPTY, es).value, c);
  }
}
