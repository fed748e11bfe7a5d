/** What a gateway confirms as paid, and what an invoice that owes the subscriber leaves as a credit. */
module PaymentRecords {
  import opened Sums
  import opened PaymentRules
  import opened InvoiceChain
  import opened Books
  import opened Soundness
  import opened QuietWrites

  datatype NewPayment = NewPayment(ref: Id, invoice: Id, currency: Id, amount: nat, at: int)

  datatype PaymentOutcome =
    | UnknownInvoice
    | OtherCurrency
    | PaidBefore
    | PaidNow(payment: Id, settled: nat, credited: nat)

  function AddPayment(b: Books, pay: NewPayment): Books
    requires pay.invoice in b.invoices
  {
    var invoice := b.invoices[pay.invoice];
    b.(payments := b.payments
         + [Payment(pay.ref, invoice.subscriber, pay.invoice, invoice.currency, pay.amount, pay.at)])
  }

  /** What is owed where the chain of `i` now stands: `0` where it stands nowhere. */
  ghost function StandingOwes(b: Books, i: Id): int {
    if StandingOf(b, i).Some? then OwedAt(b, StandingOf(b, i).value) else 0
  }

  /** A payment settles the invoice that stands as far as it owes; the rest of it is a credit. */
  ghost function Divided(b: Books, pay: NewPayment): Books
    requires pay.invoice in b.invoices
  {
    var p := |b.payments|;
    var invoice := b.invoices[pay.invoice];
    var added := AddPayment(b, pay);
    var settles := SettlesOf(pay.amount, StandingOwes(b, pay.invoice));
    var settled := if settles > 0
      then AddSettlement(added, StandingOf(b, pay.invoice).value, p, Paid, settles, None, pay.at) else added;
    if pay.amount - settles > 0
    then AddCredit(settled, invoice.subscriber, invoice.currency, pay.amount - settles, FromPayment(p), pay.at)
    else settled
  }

  ghost function RecordPayment(b: Books, pay: NewPayment): Step<PaymentOutcome> {
    if pay.invoice !in b.invoices then Step(b, UnknownInvoice)
    else if pay.currency != b.invoices[pay.invoice].currency then Step(b, OtherCurrency)
    else if Find(b.payments, PaymentRef(pay.ref)).Some? then Step(b, PaidBefore)
    else
      var settles := SettlesOf(pay.amount, StandingOwes(b, pay.invoice));
      Step(Divided(b, pay), PaidNow(|b.payments|, settles, pay.amount - settles))
  }

  lemma DividedIs(b: Books, pay: NewPayment)
    requires pay.invoice in b.invoices
    ensures var b' := Divided(b, pay);
      var settles := SettlesOf(pay.amount, StandingOwes(b, pay.invoice));
      var p := |b.payments|;
      var invoice := b.invoices[pay.invoice];
      && b' == b.(payments := b'.payments, settlements := b'.settlements, credits := b'.credits)
      && b'.payments == b.payments
           + [Payment(pay.ref, invoice.subscriber, pay.invoice, invoice.currency, pay.amount, pay.at)]
      && 0 <= settles <= pay.amount
      && (settles > 0 ==>
            && StandingOf(b, pay.invoice).Some?
            && settles <= OwedAt(b, StandingOf(b, pay.invoice).value)
            && b'.settlements == b.settlements + [Settlement(
                 StandingOf(b, pay.invoice).value, p, Paid, settles, None, pay.at,
                 b.rank(Settlements, |b.settlements|))])
      && (settles == 0 ==> b'.settlements == b.settlements)
      && b'.credits == if pay.amount - settles > 0
           then b.credits + [Credit(invoice.subscriber, invoice.currency, pay.amount - settles, FromPayment(p),
                                    pay.at, b.rank(Credits, |b.credits|))]
           else b.credits
  {
    hide StandingOf;
    assert SettlesOf(pay.amount, StandingOwes(b, pay.invoice)) > 0 ==> StandingOf(b, pay.invoice).Some?;
  }

  lemma StandingIn(b: Books, i: Id)
    requires i in b.invoices && StandingOf(b, i).Some?
    ensures var s := StandingOf(b, i).value; SameChain(b.invoices, s, i) && s !in b.cancellations
  {
    StandingStaysInChain(b.invoices, b.cancellations, i);
  }

  /** What owes is no cancellation invoice. */
  lemma OwingIsEven(b: Books, i: Id)
    requires Chained(b.invoices, b.cancellations) && i in b.invoices && OwedAt(b, i) > 0
    ensures b.invoices[i].step % 2 == 0
  {
    assert WrittenBy(b.invoices, b.cancellations, i);
  }

  lemma DividedRows(b: Books, pay: NewPayment)
    requires Sound(b) && pay.invoice in b.invoices
    ensures RowsOk(Divided(b, pay)) && Quiet(b, Divided(b, pay))
  {
    hide Sound, RowsOk, Midway, Chained, Divided, StandingOf, StandingOwes, SettlesOf;
    SoundMidway(b);
    hide Solvent, NetsOk, Bounded;
    MidwayIs(b, []);
    DividedIs(b, pay);
    var b' := Divided(b, pay);
    assert Grows(b, b');
    if SettlesOf(pay.amount, StandingOwes(b, pay.invoice)) > 0 {
      StandingIn(b, pay.invoice);
      OwingIsEven(b, StandingOf(b, pay.invoice).value);
    }
    assert NewPaymentsOk(b, b');
    assert NewSettlementsOk(b, b');
    assert NewCreditsOk(b, b');
    RowsGrow(b, b');
  }

  lemma DividedSums(b: Books, pay: NewPayment)
    requires Sound(b) && pay.invoice in b.invoices
    ensures NetsOk(Divided(b, pay)) && Bounded(Divided(b, pay))
  {
    hide Sound, RowsOk, Midway, Chained, Divided, StandingOf, StandingOwes, SettlesOf;
    SoundMidway(b);
    MidwaySums(b);
    DividedIs(b, pay);
    var b' := Divided(b, pay);
    var settles := SettlesOf(pay.amount, StandingOwes(b, pay.invoice));
    if settles > 0 {
      var s := StandingOf(b, pay.invoice).value;
      StandingIn(b, pay.invoice);
      SumAppend(b.settlements, b'.settlements[|b.settlements|]);
      forall q: Id, i: Id ensures Net(b', q, i) == Net(b, q, i) + if q == |b.payments| && i == s then settles else 0 {
      }
      forall i: Id ensures SettledOn(b', i) == SettledOn(b, i) + if i == s then settles else 0 {
      }
    } else {
      assert forall q: Id, i: Id :: Net(b', q, i) == Net(b, q, i);
      assert forall i: Id :: SettledOn(b', i) == SettledOn(b, i);
    }
  }

  lemma DividedSettles(b: Books, pay: NewPayment, q: Id)
    requires pay.invoice in b.invoices
    ensures Sum(Divided(b, pay).settlements, BesideReversals(q))
         == Sum(b.settlements, BesideReversals(q))
            + if q == |b.payments| then SettlesOf(pay.amount, StandingOwes(b, pay.invoice)) else 0
  {
    hide Divided, StandingOf, StandingOwes, SettlesOf;
    DividedIs(b, pay);
    var b' := Divided(b, pay);
    if SettlesOf(pay.amount, StandingOwes(b, pay.invoice)) > 0 {
      SumAppend(b.settlements, b'.settlements[|b.settlements|]);
    }
  }

  lemma DividedLeaves(b: Books, pay: NewPayment, q: Id)
    requires pay.invoice in b.invoices
    ensures Sum(Divided(b, pay).credits, LeftFrom(q))
         == Sum(b.credits, LeftFrom(q))
            + if q == |b.payments| then pay.amount - SettlesOf(pay.amount, StandingOwes(b, pay.invoice)) else 0
  {
    hide Divided, StandingOf, StandingOwes, SettlesOf;
    DividedIs(b, pay);
    var b' := Divided(b, pay);
    if pay.amount - SettlesOf(pay.amount, StandingOwes(b, pay.invoice)) > 0 {
      SumAppend(b.credits, b'.credits[|b.credits|]);
    }
  }

  /** All a payment brings is settled or left as a credit. */
  lemma DividedConserved(b: Books, pay: NewPayment)
    requires Sound(b) && pay.invoice in b.invoices
    ensures Conserved(Divided(b, pay))
  {
    hide Sound, Divided, StandingOf, StandingOwes, SettlesOf, SettlementsOk, CreditsOk;
    SoundConserved(b);
    DividedIs(b, pay);
    var b' := Divided(b, pay);
    UntouchedPayment(b, |b.payments|);
    forall q: Id | 0 <= q < |b'.payments| ensures Missing(b', q) == 0 {
      DividedSettles(b, pay, q);
      DividedLeaves(b, pay, q);
      assert q < |b.payments| ==> Missing(b, q) == 0;
    }
  }

  lemma NewRefUnique(b: Books, b': Books, ref: Id)
    requires RefsUnique(b) && b'.reversals == b.reversals && b'.refunds == b.refunds
    requires |b'.payments| == |b.payments| + 1 && Prefix(b.payments, b'.payments)
    requires b'.payments[|b.payments|].ref == ref
    requires forall i :: 0 <= i < |b.payments| ==> b.payments[i].ref != ref
    ensures RefsUnique(b')
  {
  }

  /** A payment keeps the books sound, in whatever state its chain is found. */
  lemma RecordPaymentSound(b: Books, pay: NewPayment)
    requires Sound(b)
    ensures var s := RecordPayment(b, pay);
      Sound(s.books) && (!s.outcome.PaidNow? ==> s.books == b)
  {
    hide Sound, RowsOk, NetsOk, Bounded, Conserved, RefsUnique, Divided, Quiet;
    if pay.invoice in b.invoices && Find(b.payments, PaymentRef(pay.ref)).None? {
      DividedRows(b, pay);
      DividedSums(b, pay);
      DividedConserved(b, pay);
      SoundIs(b);
      DividedIs(b, pay);
      NewRefUnique(b, Divided(b, pay), pay.ref);
      QuietSound(b, Divided(b, pay));
    }
  }

  lemma DividedSettledOn(b: Books, pay: NewPayment, i: Id)
    requires pay.invoice in b.invoices
    ensures SettledOn(Divided(b, pay), i) == SettledOn(b, i)
      + if StandingOf(b, pay.invoice) == Some(i) then SettlesOf(pay.amount, StandingOwes(b, pay.invoice)) else 0
  {
    hide Divided, StandingOf, SettlesOf;
    DividedIs(b, pay);
    var b' := Divided(b, pay);
    if SettlesOf(pay.amount, StandingOwes(b, pay.invoice)) > 0 {
      SumAppend(b.settlements, b'.settlements[|b.settlements|]);
    }
  }

  lemma DividedOwes(b: Books, pay: NewPayment, i: Id)
    requires pay.invoice in b.invoices
    ensures OwedAt(Divided(b, pay), i)
      == if StandingOf(b, pay.invoice) == Some(i) && StandingOwes(b, pay.invoice) > 0
         then Max(0, StandingOwes(b, pay.invoice) - pay.amount) else OwedAt(b, i)
  {
    hide Divided, StandingOf, Corrected, SettledOn;
    DividedIs(b, pay);
    DividedSettledOn(b, pay, i);
  }

  /** After a payment the invoice that stands owes what it did less the payment, down to nothing; every other
      invoice owes what it did; and the payment left a credit of exactly what nothing was owed for. */
  lemma RecordPaymentEffect(b: Books, pay: NewPayment, i: Id)
    requires Sound(b) && RecordPayment(b, pay).outcome.PaidNow?
    ensures var b' := RecordPayment(b, pay).books;
      var owed := StandingOwes(b, pay.invoice);
      && OwedAt(b', i) == (if StandingOf(b, pay.invoice) == Some(i) && owed > 0
                           then Max(0, owed - pay.amount) else OwedAt(b, i))
      && Sum(b'.credits, LeftFrom(|b.payments|)) == Max(0, pay.amount - Max(0, owed))
  {
    hide Sound, Divided, StandingOf, StandingOwes, OwedAt, SettlementsOk, CreditsOk, Conserved;
    SoundConserved(b);
    UntouchedPayment(b, |b.payments|);
    DividedLeaves(b, pay, |b.payments|);
    DividedOwes(b, pay, i);
  }

  // ---- an invoice that owes the subscriber -----------------------------------------------

  datatype CreditOutcome = NoInvoice | NothingToCredit | CreditedBefore | CreditedNow(credit: Id)

  function FromInvoiceIs(i: Id): Credit -> bool {
    (c: Credit) => c.origin == FromInvoice(i)
  }

  /** An invoice that states a credit leaves one, once; a cancellation invoice takes back what the
      invoice it cancels asked for, and leaves none. */
  function CreditInvoice(b: Books, i: Id, at: int): Step<CreditOutcome> {
    if i !in b.invoices then Step(b, NoInvoice)
    else
      var invoice := b.invoices[i];
      if invoice.gross >= 0 || IsCancellation(b.cancellations, i) then Step(b, NothingToCredit)
      else if Find(b.credits, FromInvoiceIs(i)).Some? then Step(b, CreditedBefore)
      else Step(AddCredit(b, invoice.subscriber, invoice.currency, -invoice.gross, FromInvoice(i), at),
                CreditedNow(|b.credits|))
  }

  lemma CreditInvoiceSound(b: Books, i: Id, at: int)
    requires Sound(b)
    ensures var s := CreditInvoice(b, i, at);
      && Sound(s.books)
      && (s.outcome.CreditedNow? ==>
            && i in b.invoices && b.invoices[i].gross < 0 && !IsCancellation(b.cancellations, i)
            && s.books == AddCredit(b, b.invoices[i].subscriber, b.invoices[i].currency, -b.invoices[i].gross,
                                    FromInvoice(i), at)
            && forall c :: 0 <= c < |b.credits| ==> b.credits[c].origin != FromInvoice(i))
  {
    hide Sound, IsCancellation, Find;
    if CreditInvoice(b, i, at).outcome.CreditedNow? {
      NoneFound(b, i);
      var invoice := b.invoices[i];
      AddedCreditSound(b, invoice.subscriber, invoice.currency, -invoice.gross, i, at);
    }
  }

  lemma AddedCreditSound(b: Books, subscriber: Id, currency: Id, amount: int, i: Id, at: int)
    requires Sound(b) && amount > 0
    ensures Sound(AddCredit(b, subscriber, currency, amount, FromInvoice(i), at))
  {
    hide Sound, RowsOk, Midway, Chained;
    var b' := AddCredit(b, subscriber, currency, amount, FromInvoice(i), at);
    SoundIs(b);
    MidwayIs(b, []);
    assert Grows(b, b');
    RowsGrow(b, b');
    hide Grows, SettlementsOk, CreditsOk, EntriesOk, CasesOk, PaymentsOk, ReversalsOk, Solvent;
    assert forall q: Id, j: Id :: Net(b', q, j) == Net(b, q, j);
    assert forall j: Id :: SettledOn(b', j) == SettledOn(b, j);
    SumAppend(b.credits, b'.credits[|b.credits|]);
    forall q | 0 <= q < |b'.payments| ensures Missing(b', q) == 0 {
      assert Missing(b, q) == 0;
    }
    QuietSound(b, b');
  }

  lemma NoneFound(b: Books, i: Id)
    requires Find(b.credits, FromInvoiceIs(i)).None?
    ensures forall c :: 0 <= c < |b.credits| ==> b.credits[c].origin != FromInvoice(i)
  {
    forall c | 0 <= c < |b.credits| ensures b.credits[c].origin != FromInvoice(i) {
      assert !FromInvoiceIs(i)(b.credits[c]);
    }
  }
}
