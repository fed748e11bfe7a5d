/** When each writer of the ledger refuses, and what it answers otherwise, said of the tables alone. */
module WriterAnswers {
  import opened Sums
  import opened PaymentRules
  import opened InvoiceChain
  import opened Books
  import opened Soundness
  import opened ReversalFrame
  import opened Brought
  import opened Withdrawals
  import opened Reinstatements
  import opened ReversalReports
  import opened PaymentRecords
  import opened Corrections
  import opened Refunds

  // ---- references ------------------------------------------------------------------------

  predicate PaymentUnder(b: Books, ref: Id, p: Id) {
    p < |b.payments| && b.payments[p].ref == ref
  }

  predicate ReversalUnder(b: Books, ref: Id, r: Id) {
    r < |b.reversals| && b.reversals[r].ref == ref
  }

  predicate RefundUnder(b: Books, ref: Id, f: Id) {
    f < |b.refunds| && b.refunds[f].ref == ref
  }

  lemma PaymentFound(b: Books, ref: Id, p: Id)
    requires RefsUnique(b)
    ensures Find(b.payments, PaymentRef(ref)) == Some(p) <==> PaymentUnder(b, ref, p)
  {
  }

  lemma ReversalFound(b: Books, ref: Id, r: Id)
    requires RefsUnique(b)
    ensures Find(b.reversals, ReversalRef(ref)) == Some(r) <==> ReversalUnder(b, ref, r)
  {
  }

  lemma RefundFound(b: Books, ref: Id, f: Id)
    requires RefsUnique(b)
    ensures Find(b.refunds, RefundRef(ref)) == Some(f) <==> RefundUnder(b, ref, f)
  {
  }

  lemma SoundRefs(b: Books)
    requires Sound(b)
    ensures RefsUnique(b)
  {
    SoundIs(b);
  }

  // ---- a reversal's report ---------------------------------------------------------------

  /** What reversal `r` recorded, and nothing of one there is not. */
  function Recorded(b: Books, r: Id): (int, int) {
    if r < |b.reversals| then (b.reversals[r].amount, b.reversals[r].reinstated) else (0, 0)
  }

  /** A report is refused for a payment nobody recorded, for a currency other than the payment's, and under a reference
      another payment's reversal bears, and for nothing else. One that is accepted is answered as applied exactly where
      it changes a total its reversal recorded. */
  lemma ReportAnswered(b: Books, report: Report)
    requires Sound(b)
    ensures var s := RecordReversal(b, report);
      && (s.outcome.UnknownPayment? <==> forall p: Id :: !PaymentUnder(b, report.paymentRef, p))
      && (s.outcome.WrongCurrency? <==>
            exists p: Id :: PaymentUnder(b, report.paymentRef, p) && b.payments[p].currency != report.currency)
      && (s.outcome.OfAnother? <==>
            exists p: Id, r: Id :: PaymentUnder(b, report.paymentRef, p) && ReversalUnder(b, report.ref, r)
              && b.payments[p].currency == report.currency && b.reversals[r].payment != p)
      && (s.outcome.Unchanged? || s.outcome.Applied? ==>
            && ReversalUnder(s.books, report.ref, s.outcome.reversal)
            && (s.outcome.Applied? <==> Recorded(s.books, s.outcome.reversal) != Recorded(b, s.outcome.reversal))
            && (s.outcome.Unchanged? && s.outcome.reversal < |b.reversals| ==> s.books == b))
  {
    hide Sound, Applies;
    SoundRefs(b);
    var payment := Find(b.payments, PaymentRef(report.paymentRef));
    if payment.Some? {
      PaymentFound(b, report.paymentRef, payment.value);
      OnePayment(b, report.paymentRef, payment.value);
      if report.currency == b.payments[payment.value].currency {
        AcceptedReport(b, report, payment.value);
      }
    }
  }

  lemma OnePayment(b: Books, ref: Id, p: Id)
    requires RefsUnique(b) && PaymentUnder(b, ref, p)
    ensures forall q: Id :: PaymentUnder(b, ref, q) ==> q == p
  {
  }

  lemma AcceptedReport(b: Books, report: Report, p: Id)
    requires Sound(b) && Find(b.payments, PaymentRef(report.paymentRef)) == Some(p)
    requires p < |b.payments| && report.currency == b.payments[p].currency
    ensures var s := RecordReversal(b, report);
      && (s.outcome.OfAnother? <==> exists r: Id :: ReversalUnder(b, report.ref, r) && b.reversals[r].payment != p)
      && (s.outcome.OfAnother? || s.outcome.Unchanged? || s.outcome.Applied?)
      && (s.outcome.Unchanged? || s.outcome.Applied? ==>
            && ReversalUnder(s.books, report.ref, s.outcome.reversal)
            && (s.outcome.Applied? <==> Recorded(s.books, s.outcome.reversal) != Recorded(b, s.outcome.reversal))
            && (s.outcome.Unchanged? && s.outcome.reversal < |b.reversals| ==> s.books == b))
  {
    hide Sound, Applies, RefsUnique, ChangesNothing, Recorded;
    SoundRefs(b);
    HeldSound(b, report.ref, p);
    var (held, r) := HeldReversal(b, report.ref, p);
    ReversalFound(b, report.ref, r);
    OneReversal(b, report.ref);
    RecordedHeld(b, report.ref, p);
    if held.reversals[r].payment == p {
      AppliesTells(held, r, report);
    }
  }

  lemma RecordedHeld(b: Books, ref: Id, p: Id)
    ensures var (held, r) := HeldReversal(b, ref, p); Recorded(held, r) == Recorded(b, r)
  {
  }

  /** A report that says nothing new writes nothing, and any other changes a total. */
  lemma AppliesTells(b: Books, r: Id, report: Report)
    requires Sound(b) && r < |b.reversals|
    ensures var b' := Applies(b, r, report);
      && ReversalUnder(b', b.reversals[r].ref, r)
      && (ChangesNothing(b.reversals[r], report) <==> Recorded(b', r) == Recorded(b, r))
      && (ChangesNothing(b.reversals[r], report) ==> b' == b)
  {
    hide Sound, Withdraw, Reinstate, ReversalWrites;
    AppliesSound(b, r, report);
  }

  lemma OneReversal(b: Books, ref: Id)
    requires RefsUnique(b)
    ensures forall q: Id, r: Id :: ReversalUnder(b, ref, q) && ReversalUnder(b, ref, r) ==> q == r
  {
  }

  // ---- a payment, and a credit an invoice states -----------------------------------------

  /** A payment is refused for an invoice there is not, for a currency other than its invoice's, and where one under its
      reference is recorded; otherwise it is recorded for its invoice's subscriber, and answered with what it settles. */
  lemma PaymentAnswered(b: Books, pay: NewPayment)
    ensures var s := RecordPayment(b, pay);
      var invoiced := pay.invoice in b.invoices;
      && (s.outcome.UnknownInvoice? <==> !invoiced)
      && (s.outcome.OtherCurrency? <==> invoiced && b.invoices[pay.invoice].currency != pay.currency)
      && (s.outcome.PaidBefore? <==>
            invoiced && b.invoices[pay.invoice].currency == pay.currency && exists p: Id :: PaymentUnder(b, pay.ref, p))
      && (s.outcome.PaidNow? ==>
            && s.outcome.payment == |b.payments| && s.outcome.settled + s.outcome.credited == pay.amount
            && s.books.payments == b.payments
                 + [Payment(pay.ref, b.invoices[pay.invoice].subscriber, pay.invoice, pay.currency, pay.amount, pay.at)]
            && Sum(s.books.settlements, OfPayment(|b.payments|))
                 == Sum(b.settlements, OfPayment(|b.payments|)) + s.outcome.settled)
  {
    hide StandingOf, OwedAt;
    var found := Find(b.payments, PaymentRef(pay.ref));
    if found.Some? {
      assert PaymentUnder(b, pay.ref, found.value);
    }
    if RecordPayment(b, pay).outcome.PaidNow? {
      DividedIs(b, pay);
      var b' := RecordPayment(b, pay).books;
      if |b'.settlements| > |b.settlements| {
        SumAppend(b.settlements, b'.settlements[|b.settlements|]);
      }
    }
  }

  /** An invoice is credited once, where it asks for less than nothing and cancels no other. */
  lemma CreditAnswered(b: Books, i: Id, at: int)
    ensures var s := CreditInvoice(b, i, at);
      var states := i in b.invoices && b.invoices[i].gross < 0 && !IsCancellation(b.cancellations, i);
      && (s.outcome.NoInvoice? <==> i !in b.invoices)
      && (s.outcome.CreditedNow? || s.outcome.CreditedBefore? <==> states)
      && (s.outcome.CreditedBefore? <==> states && exists c :: c in b.credits && c.origin == FromInvoice(i))
      && (s.outcome.CreditedNow? ==>
            && s.books == b.(credits := s.books.credits)
            && s.books.credits == b.credits + [Credit(b.invoices[i].subscriber, b.invoices[i].currency,
                                                      -b.invoices[i].gross, FromInvoice(i), at,
                                                      b.rank(Credits, |b.credits|))])
  {
    var found := Find(b.credits, FromInvoiceIs(i));
    if found.Some? {
      assert b.credits[found.value] in b.credits;
    }
  }

  // ---- an issue and a cancellation -------------------------------------------------------

  /** One of the ids is an invoice's already, or both are one. */
  predicate TakesAnId(b: Books, c: Correction) {
    || c.cancellationInvoice in b.invoices
    || (c.replacement.Some? && (c.replacement.value in b.invoices || c.replacement.value == c.cancellationInvoice))
  }

  /** An invoice is issued under an id not taken, as the first of a chain of its own; every other stays. */
  lemma IssueAnswered(b: Books, id: Id, subscriber: Id, currency: Id, gross: int)
    ensures var s := IssueInvoice(b, id, subscriber, currency, gross);
      && (s.outcome.IdTaken? <==> id in b.invoices)
      && (s.outcome.IdTaken? ==> s.books == b)
      && (s.outcome.IssuedNow? ==>
            s.books == b.(invoices := b.invoices[id := Invoice(id, 0, subscriber, currency, gross)]))
  {
  }

  /** A cancellation is refused for an invoice there is not, for one that cancels another or is cancelled, for one that
      states a credit, for a replacement that would, and for an id in use; for nothing else. It takes its invoice back in
      full, under the invoice's chain, and a replacement goes on in that chain for what it asks. */
  lemma CancelAnswered(b: Books, i: Id, c: Correction, at: int)
    ensures var s := Cancel(b, i, c, at);
      var known := i in b.invoices;
      var open := known && !IsCancellation(b.cancellations, i) && i !in b.cancellations;
      && (s.outcome.NotFound? <==> !known)
      && (s.outcome.IsACancellation? <==> known && IsCancellation(b.cancellations, i))
      && (s.outcome.CancelledBefore? <==> known && !IsCancellation(b.cancellations, i) && i in b.cancellations)
      && (s.outcome.StatesACredit? <==> open && b.invoices[i].gross < 0)
      && (s.outcome.LeavesACredit? <==> open && b.invoices[i].gross >= 0 && c.replacement.Some? && c.gross < 0)
      && (s.outcome.IdInUse? <==>
            open && b.invoices[i].gross >= 0 && (c.replacement.Some? ==> c.gross >= 0) && TakesAnId(b, c))
      && (s.outcome.CancelledNow? ==>
            var was := b.invoices[i];
            && s.books.cancellations == b.cancellations[i := Cancellation(c.cancellationInvoice, c.replacement)]
            && (forall k :: k in b.invoices ==> k in s.books.invoices && s.books.invoices[k] == b.invoices[k])
            && c.cancellationInvoice in s.books.invoices
            && s.books.invoices[c.cancellationInvoice] == was.(step := was.step + 1, gross := -was.gross)
            && (c.replacement.Some? ==>
                  && c.replacement.value in s.books.invoices
                  && s.books.invoices[c.replacement.value] == was.(step := was.step + 2, gross := c.gross)))
  {
    hide IsCancellation, CancelledBooks;
    if Cancel(b, i, c, at).outcome.CancelledNow? {
      CancelledFrame(b, i, c, at);
    }
  }

  // ---- a refund, a payout and a case -----------------------------------------------------

  /** A refund's report is refused for a payment nobody recorded and for a currency other than the payment's. Under a
      reference not seen before the refund is recorded as reported; under one seen before nothing but its status
      changes, and that never once it has ended, unless the report ends it: then what it took is given back. */
  lemma RefundAnswered(b: Books, report: RefundReport)
    requires Sound(b)
    ensures var s := RecordRefund(b, report);
      && (s.outcome.NoPayment? <==> forall p: Id :: !PaymentUnder(b, report.paymentRef, p))
      && (s.outcome.InOtherCurrency? <==>
            exists p: Id :: PaymentUnder(b, report.paymentRef, p) && b.payments[p].currency != report.currency)
      && (s.outcome.PaidOutNow? ==>
            && (forall f: Id :: !RefundUnder(b, report.ref, f))
            && exists p: Id :: PaymentUnder(b, report.paymentRef, p) && s.books.refunds
                 == b.refunds + [Refund(report.ref, p, report.currency, report.amount, report.status)])
      && (s.outcome.RefundUnchanged? || s.outcome.GivenBackNow? ==>
            var f := s.outcome.refund;
            && RefundUnder(b, report.ref, f)
            && var was := b.refunds[f].status;
               var over := was == Failed || was == Canceled;
            && s.books.refunds == b.refunds[f := b.refunds[f].(status := if over then was else report.status)]
            && (s.outcome.GivenBackNow? <==> !over && (report.status == Failed || report.status == Canceled))
            && (s.outcome.RefundUnchanged? ==> s.books == b.(refunds := s.books.refunds)))
  {
    hide Sound, RefsUnique, RefundDivision, TakenByRefund, WriteEntries, CloseCases, PaidOutOf;
    SoundRefs(b);
    var payment := Find(b.payments, PaymentRef(report.paymentRef));
    if payment.Some? {
      var p := payment.value;
      PaymentFound(b, report.paymentRef, p);
      OnePayment(b, report.paymentRef, p);
      var found := Find(b.refunds, RefundRef(report.ref));
      if found.Some? {
        RefundFound(b, report.ref, found.value);
        RestatesOnly(b, found.value, report.status, report.at);
      } else {
        var added := AddRefund(b, report, p);
        PaidOutFrame(added, |b.refunds|,
                     RefundDivision(added, p, b.payments[p].subscriber, report.currency, report.amount), report.at);
      }
    }
  }

  lemma RestatesOnly(b: Books, f: Id, status: RefundStatus, at: int)
    requires f < |b.refunds|
    ensures EndedBooks(b, f, status, at).refunds == b.refunds[f := b.refunds[f].(status := status)]
  {
    EntriesFrame(SetStatus(b, f, status), TakenByRefund(b, f), RefundFailed, ByRefund(f), at);
  }

  /** A payout is refused for a credit there is not and beyond what the credit owes, which it is told then. */
  lemma PayoutAnswered(b: Books, c: Id, amount: nat, at: int)
    requires Sound(b)
    ensures var s := RecordPayout(b, c, amount, at);
      && (s.outcome.UnknownCredit? <==> c >= |b.credits|)
      && (s.outcome.ExceedsOpen? <==> c < |b.credits| && amount > Open(b, c))
      && (s.outcome.ExceedsOpen? ==> s.outcome.open == Open(b, c) && s.books == b)
      && (s.outcome.PayoutRecorded? ==>
            && c < |b.credits| && s.outcome.left == Open(b, c) - amount
            && s.books == b.(entries := b.entries
                 + [Entry(c, PaidOff, amount, ByPayout, at, b.rank(Entries, |b.entries|))]))
  {
    hide Sound;
    if c < |b.credits| {
      OpenIs(b, c);
    }
  }

  /** A case is closed once, and no other with it. */
  lemma CloseAnswered(b: Books, k: Id, j: Id)
    ensures var s := CloseCase(b, k);
      && (s.outcome.UnknownCase? <==> k >= |b.cases|)
      && (s.outcome.ClosedBefore? <==> k < |b.cases| && b.cases[k].closed)
      && s.books == b.(cases := s.books.cases) && |s.books.cases| == |b.cases|
      && (j < |b.cases| ==> s.books.cases[j] == if j == k then b.cases[j].(closed := true) else b.cases[j])
      && (s.outcome.ClosedNow? ==> CloseCase(s.books, k).outcome.ClosedBefore?)
  {
  }
}
