/** `InvoiceService.record` run alone; InvoiceLedger proves what holds when several race. */
module InvoiceService {
  import opened Options
  import opened InvoiceLedger
  import Money

  /** A captured debit, and what its document is divided by. */
  datatype Request = Request(
    payment: string,
    year: Year,
    total: nat,
    taxRateBps: int,
    seller: Option<string>,
    buyer: Option<string>,
    payer: string,
    group: Option<seq<Money.ClientRow>>)

  /** What is written: the numbered invoice, its lines and its heads of tax. */
  datatype Document = Document(invoice: Invoice, lines: seq<Money.Line>, tax: Money.TaxSplit)

  class InvoiceService {
    var invoices: seq<Invoice>
    var receipts: seq<Receipt>
    var invoiceCounter: map<Year, nat>
    var receiptCounter: map<Year, nat>

    constructor ()
      ensures Books() == EMPTY
    {
      invoices, receipts, invoiceCounter, receiptCounter := [], [], map[], map[];
    }

    /** The committed tables, with nobody in a transaction. */
    function Books(): World
      reads this
    {
      World(invoices, receipts, invoiceCounter, receiptCounter, map[])
    }

    /** The upsert that claims a number: the row is created at 2, or moved on by one. */
    method NextSequence(year: Year) returns (sequence: nat)
      modifies this`invoiceCounter
      ensures sequence == old(NextFree(invoiceCounter, year))
      ensures invoiceCounter == old(invoiceCounter)[year := sequence + 1]
    {
      if year in invoiceCounter {
        invoiceCounter := invoiceCounter[year := invoiceCounter[year] + 1];
      } else {
        invoiceCounter := invoiceCounter[year := 2];
      }
      sequence := invoiceCounter[year] - 1;
    }

    /** The receipt's own counter and row, inside the transaction that wrote the invoice. */
    method RecordReceipt(invoice: Invoice)
      modifies this`receiptCounter, this`receipts
      ensures receiptCounter == old(receiptCounter)[invoice.year := old(NextFree(receiptCounter, invoice.year)) + 1]
      ensures receipts == old(receipts)
                + [Receipt(invoice.payment, invoice.year, old(NextFree(receiptCounter, invoice.year)), invoice.total)]
    {
      var sequence := NextFree(receiptCounter, invoice.year);
      receiptCounter := receiptCounter[invoice.year := sequence + 1];
      receipts := receipts + [Receipt(invoice.payment, invoice.year, sequence, invoice.total)];
    }

    /** The transaction: the invoice under its year's next number, and the receipt beside it. */
    method Write(payment: string, year: Year, total: int) returns (invoice: Invoice)
      modifies this
      ensures invoice == Invoice(payment, year, old(NextFree(invoiceCounter, year)), total)
      ensures Books() == old(Issued(Books(), payment, year, total))
    {
      var sequence := NextSequence(year);
      invoice := Invoice(payment, year, sequence, total);
      invoices := invoices + [invoice];
      RecordReceipt(invoice);
    }

    /** `commits` is whether the database lets the transaction commit. */
    method Record(r: Request, commits: bool) returns (answer: Option<Invoice>, document: Option<Document>)
      requires Inv(Books())
      modifies this
      ensures Inv(Books())
      // The payment has a document already: that one is the answer and nothing is written.
      ensures old(ByPayment(invoices, r.payment)).Some? ==>
                Books() == old(Books()) && answer == old(ByPayment(invoices, r.payment)) && document.None?
      // Rolled back: the number goes with the document.
      ensures old(ByPayment(invoices, r.payment)).None? && !commits ==>
                Books() == old(Books()) && answer.None? && document.None?
      // Committed: the next number of the year, a receipt with the same one, and every paisa accounted for.
      ensures old(ByPayment(invoices, r.payment)).None? && commits ==>
                && answer == Some(Invoice(r.payment, r.year, old(CountIn(invoices, r.year)) + 1, r.total))
                && invoices == old(invoices) + [answer.value]
                && receipts == old(receipts) + [Receipt(r.payment, r.year, answer.value.sequence, r.total)]
                && document.Some? && document.value.invoice == answer.value && Accounts(document.value, r)
    {
      var existing := ByPayment(invoices, r.payment);
      if existing.Some? {
        return existing, None;
      }
      var lines, tax := Price(r);
      if !commits {
        return None, None;
      }
      LoneIssue(Books(), r.payment, r.year, r.total);
      var invoice := Write(r.payment, r.year, r.total);
      return Some(invoice), Some(Document(invoice, lines, tax));
    }
  }

  /** The document divides exactly what was taken: by the clients' own prices, and by the splitting rules. */
  ghost predicate Accounts(d: Document, r: Request) {
    var division := Money.Divide(r.total, r.taxRateBps);
    && Money.Apportions(d.lines, Money.Drafts(r.payer, r.group), division.subtotal)
    && Money.ChargesByPrice(d.lines, r.payer, r.group, division.subtotal)
    && d.tax == Money.SplitTax(division.taxAmount, r.seller, r.buyer)
    && Money.AmountSum(d.lines) + d.tax.cgst + d.tax.sgst + d.tax.igst == r.total
  }

  method Price(r: Request) returns (lines: seq<Money.Line>, tax: Money.TaxSplit)
    ensures forall invoice: Invoice :: Accounts(Document(invoice, lines, tax), r)
  {
    var division := Money.Divide(r.total, r.taxRateBps);
    tax := Money.SplitTax(division.taxAmount, r.seller, r.buyer);
    var drafts := Money.Drafts(r.payer, r.group);
    lines := Money.Apportion(drafts, division.subtotal);
    Money.DraftsChargeByPrice(lines, r.payer, r.group, division.subtotal);
    Money.EveryPaisaIsAccounted(r.total, r.taxRateBps, r.seller, r.buyer, drafts, lines);
  }

  /** The tables with one more document in them. */
  function Issued(w: World, payment: string, year: Year, total: int): World {
    var s, t := NextFree(w.invoiceCounter, year), NextFree(w.receiptCounter, year);
    World(w.invoices + [Invoice(payment, year, s, total)], w.receipts + [Receipt(payment, year, t, total)],
          w.invoiceCounter[year := s + 1], w.receiptCounter[year := t + 1], w.issuers)
  }

  /** One issuer's steps from its look for an existing document to its commit. */
  function LoneSteps(payment: string, year: Year, total: int): seq<Event> {
    [Begin(0, payment, year, total), ClaimNumber(0), InsertInvoice(0), ClaimReceiptNumber(0), InsertReceipt(0), Commit(0)]
  }

  lemma RunStep(w: World, e: Event, v: World, es: seq<Event>)
    requires Enabled(w, e) && Apply(w, e) == v
    ensures RunFrom(w, [e] + es) == RunFrom(v, es)
  {
    assert ([e] + es)[1..] == es;
  }

  /** The tables with one issuer in a transaction, this far on. */
  function At(w: World, payment: string, year: Year, total: int, stage: Stage): World {
    w.(issuers := map[0 := InTransaction(payment, year, total, stage)])
  }

  lemma LoneBegins(w: World, payment: string, year: Year, total: int)
    requires w.issuers == map[] && ByPayment(w.invoices, payment).None?
    ensures Enabled(w, Begin(0, payment, year, total))
    ensures Apply(w, Begin(0, payment, year, total)) == At(w, payment, year, total, Begun)
  {
  }

  lemma LoneClaims(w: World, payment: string, year: Year, total: int)
    ensures var begun := At(w, payment, year, total, Begun);
            && Enabled(begun, ClaimNumber(0))
            && Apply(begun, ClaimNumber(0)) == At(w, payment, year, total, Numbered(NextFree(w.invoiceCounter, year)))
  {
  }

  lemma LoneInserts(w: World, payment: string, year: Year, total: int, s: nat)
    requires !InvoiceClash(w, payment, year, s)
    ensures var numbered := At(w, payment, year, total, Numbered(s));
            && Enabled(numbered, InsertInvoice(0))
            && Apply(numbered, InsertInvoice(0)) == At(w, payment, year, total, Inserted(s))
  {
    assert InvoiceClash(w, payment, year, s) == InvoiceClash(At(w, payment, year, total, Numbered(s)), payment, year, s);
  }

  lemma LoneClaimsReceipt(w: World, payment: string, year: Year, total: int, s: nat)
    ensures var t := NextFree(w.receiptCounter, year);
            var inserted := At(w, payment, year, total, Inserted(s));
            && Enabled(inserted, ClaimReceiptNumber(0))
            && Apply(inserted, ClaimReceiptNumber(0)) == At(w, payment, year, total, ReceiptNumbered(s, t))
  {
  }

  lemma LoneInsertsReceipt(w: World, payment: string, year: Year, total: int, s: nat, t: nat)
    requires !ReceiptClash(w, payment, year, t)
    ensures var numbered := At(w, payment, year, total, ReceiptNumbered(s, t));
            && Enabled(numbered, InsertReceipt(0))
            && Apply(numbered, InsertReceipt(0)) == At(w, payment, year, total, ReceiptInserted(s, t))
  {
    assert ReceiptClash(w, payment, year, t) == ReceiptClash(At(w, payment, year, total, ReceiptNumbered(s, t)), payment, year, t);
  }

  /** With the counters in step with the books, neither insert meets a row. */
  lemma LoneMeetsNothing(w: World, payment: string, year: Year)
    requires Sound(w) && CountersInv(w) && ByPayment(w.invoices, payment).None?
    ensures !InvoiceClash(w, payment, year, NextFree(w.invoiceCounter, year))
    ensures !ReceiptClash(w, payment, year, NextFree(w.receiptCounter, year))
  {
    assert Counted(w, year);
    ByPaymentFinds(w.invoices, payment);
    forall i | 0 <= i < |w.invoices|
      ensures w.invoices[i].payment != payment
      ensures w.invoices[i].year == year ==> w.invoices[i].sequence < NextFree(w.invoiceCounter, year)
    {
      SequenceBounded(w.invoices, i);
    }
  }

  lemma LoneCommits(w: World, payment: string, year: Year, total: int)
    ensures var s, t := NextFree(w.invoiceCounter, year), NextFree(w.receiptCounter, year);
            var ready := At(w, payment, year, total, ReceiptInserted(s, t));
            && Enabled(ready, Commit(0))
            && Apply(ready, Commit(0))
               == Issued(w, payment, year, total).(
                    issuers := map[0 := Answered(payment, Some(Invoice(payment, year, s, total)))])
  {
  }

  lemma ForgetIssuers(w: World)
    requires Inv(w)
    ensures Inv(w.(issuers := map[]))
  {
    var v := w.(issuers := map[]);
    forall y: Year
      ensures Counted(v, y)
    {
      assert Counted(w, y);
    }
  }

  /**
   * With nobody else about, an issuer's six steps are one update of the tables:
   * the year's next numbers, the invoice, its receipt, and the answer.  The
   * update keeps every ledger invariant.
   */
  lemma LoneIssue(w: World, payment: string, year: Year, total: int)
    requires Inv(w) && w.issuers == map[] && ByPayment(w.invoices, payment).None?
    ensures var s := NextFree(w.invoiceCounter, year);
            RunFrom(w, LoneSteps(payment, year, total))
            == Some(Issued(w, payment, year, total).(
                      issuers := map[0 := Answered(payment, Some(Invoice(payment, year, s, total)))]))
    ensures Inv(Issued(w, payment, year, total))
    ensures NextFree(w.invoiceCounter, year) == NextFree(w.receiptCounter, year) == CountIn(w.invoices, year) + 1
  {
    var s, t := NextFree(w.invoiceCounter, year), NextFree(w.receiptCounter, year);
    LoneRuns(w, payment, year, total);
    LoneCommits(w, payment, year, total);
    InvHoldsAlong(w, LoneSteps(payment, year, total));
    ForgetIssuers(RunFrom(w, LoneSteps(payment, year, total)).value);
    assert RunFrom(w, LoneSteps(payment, year, total)).value.(issuers := map[]) == Issued(w, payment, year, total);
    assert Counted(w, year);
  }

  lemma LoneRuns(w: World, payment: string, year: Year, total: int)
    requires Inv(w) && w.issuers == map[] && ByPayment(w.invoices, payment).None?
    ensures var s, t := NextFree(w.invoiceCounter, year), NextFree(w.receiptCounter, year);
            var ready := At(w, payment, year, total, ReceiptInserted(s, t));
            Enabled(ready, Commit(0)) && RunFrom(w, LoneSteps(payment, year, total)) == Some(Apply(ready, Commit(0)))
  {
    var s, t := NextFree(w.invoiceCounter, year), NextFree(w.receiptCounter, year);
    var begun, numbered := At(w, payment, year, total, Begun), At(w, payment, year, total, Numbered(s));
    var inserted, claimed := At(w, payment, year, total, Inserted(s)), At(w, payment, year, total, ReceiptNumbered(s, t));
    var ready := At(w, payment, year, total, ReceiptInserted(s, t));
    var last := [Commit(0)];
    LoneMeetsNothing(w, payment, year);
    LoneBegins(w, payment, year, total);
    LoneClaims(w, payment, year, total);
    LoneInserts(w, payment, year, total, s);
    LoneClaimsReceipt(w, payment, year, total, s);
    LoneInsertsReceipt(w, payment, year, total, s, t);
    RunStep(ready, Commit(0), Apply(ready, Commit(0)), []);
    RunStep(claimed, InsertReceipt(0), ready, last);
    RunStep(inserted, ClaimReceiptNumber(0), claimed, [InsertReceipt(0)] + last);
    RunStep(numbered, InsertInvoice(0), inserted, [ClaimReceiptNumber(0)] + ([InsertReceipt(0)] + last));
    RunStep(begun, ClaimNumber(0), numbered, [InsertInvoice(0)] + ([ClaimReceiptNumber(0)] + ([InsertReceipt(0)] + last)));
    var rest := [ClaimNumber(0)] + ([InsertInvoice(0)] + ([ClaimReceiptNumber(0)] + ([InsertReceipt(0)] + last)));
    RunStep(w, Begin(0, payment, year, total), begun, rest);
    assert [Commit(0)] + [] == last;
    assert [Begin(0, payment, year, total)] + rest == LoneSteps(payment, year, total);
  }
}
