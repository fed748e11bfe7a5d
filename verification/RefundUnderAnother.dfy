/** A refund given back under another subscriber's payment: what is written then on credits nobody holds. */
module RefundUnderAnother {
  import opened Sums
  import opened PaymentRules
  import opened InvoiceChain
  import opened Books
  import opened Soundness
  import opened Brought
  import opened Reinstatements
  import opened PaymentRecords
  import opened Refunds
  import opened LedgerRuns
  import opened LiftingRun
  import opened Locks
  import opened LockedWrites

  /** Credits are told apart by their ids. */
  predicate CreditsApart(b: Books) {
    forall c, d :: 0 <= c < d < |b.credits| ==> b.credits[c].rank != b.credits[d].rank
  }

  lemma SameCredit(b: Books, c: Id, d: Id)
    requires CreditsApart(b) && c < |b.credits| && d < |b.credits| && b.credits[c].rank == b.credits[d].rank
    ensures c == d
  {
  }

  lemma LockedIsHeld(b: Books, subscriber: Id, k: nat)
    requires k < |HeldCredits(b, subscriber)|
    ensures var c := HeldCredits(b, subscriber)[k];
      && c < |b.credits| && b.credits[c].subscriber == subscriber
      && CreditLocks(b, HeldCredits(b, subscriber))[k] == CreditRow(b.credits[c].rank)
  {
    var ids := Indices(|b.credits|, IsHeldOf(b, subscriber));
    IndicesHold(|b.credits|, IsHeldOf(b, subscriber));
    SortOrders(ids, PlaceKey(b));
    assert HeldCredits(b, subscriber)[k] in ids;
  }

  lemma OnlyHeld(b: Books, subscriber: Id, c: Id)
    requires CreditsApart(b) && c < |b.credits|
    ensures CreditRow(b.credits[c].rank) in CreditLocks(b, HeldCredits(b, subscriber))
      <==> b.credits[c].subscriber == subscriber
  {
    hide HeldCredits, CreditsApart;
    var locks := CreditLocks(b, HeldCredits(b, subscriber));
    if CreditRow(b.credits[c].rank) in locks {
      var k :| 0 <= k < |locks| && locks[k] == CreditRow(b.credits[c].rank);
      LockedIsHeld(b, subscriber, k);
      SameCredit(b, HeldCredits(b, subscriber)[k], c);
    }
    if b.credits[c].subscriber == subscriber {
      CreditHeld(b, subscriber, c);
    }
  }

  /** What a refund's report gives back it writes on credits it holds if and only if the report names a payment of the
      subscriber whose payment the refund was recorded for. */
  lemma GivenBackOnHeld(b: Books, report: RefundReport, k: nat)
    requires RefundsOfTheirSubscribers(b) && CreditsApart(b)
    requires RecordRefund(b, report).outcome.GivenBackNow? && |b.entries| <= k < |RecordRefund(b, report).books.entries|
    ensures var c := RecordRefund(b, report).books.entries[k].credit;
      && c < |b.credits|
      && (CreditRow(b.credits[c].rank) in Asks(b, ReportRefund(report)) <==> GivesBackToItsOwn(b, report))
  {
    hide EndedBooks, PaidOutOf, RefundDivision, HeldCredits, CreditLocks, ClosedCases, TakenByRefund;
    var p := Find(b.payments, PaymentRef(report.paymentRef)).value;
    var f := Find(b.refunds, RefundRef(report.ref)).value;
    EndedEntries(b, f, report.status, report.at);
    OnlyHeld(b, b.payments[p].subscriber, RecordRefund(b, report).books.entries[k].credit);
  }

  // ---- a run that gets there -------------------------------------------------------------

  /** Two subscribers' payments of more than was asked for. */
  function Overpaying(x: nat, y: nat): seq<Op> {
    [Issue(1, 5, 9, 0), Issue(2, 6, 9, 0), Collect(NewPayment(10, 1, 9, x, 1)), Collect(NewPayment(11, 2, 9, y, 2))]
  }

  /** And a refund of the first one's. */
  function Refunding(x: nat, y: nat): seq<Op> {
    Overpaying(x, y) + [ReportRefund(RefundReport(20, 10, 9, x, Pending, 3))]
  }

  /** The same refund, reported failed under the second one's payment. */
  function UnderAnother(x: nat): RefundReport {
    RefundReport(20, 11, 9, x, Failed, 4)
  }

  function Invoiced(rank: (Table, nat) -> int): Books {
    Empty(rank).(invoices := map[1 := Invoice(1, 0, 5, 9, 0), 2 := Invoice(2, 0, 6, 9, 0)])
  }

  function OnceOverpaid(rank: (Table, nat) -> int, x: nat): Books {
    Invoiced(rank).(
      payments := [Payment(10, 5, 1, 9, x, 1)], credits := [Credit(5, 9, x, FromPayment(0), 1, rank(Credits, 0))])
  }

  function Overpaid(rank: (Table, nat) -> int, x: nat, y: nat): Books {
    Invoiced(rank).(
      payments := [Payment(10, 5, 1, 9, x, 1), Payment(11, 6, 2, 9, y, 2)],
      credits := [Credit(5, 9, x, FromPayment(0), 1, rank(Credits, 0)),
                  Credit(6, 9, y, FromPayment(1), 2, rank(Credits, 1))])
  }

  lemma OwesNothing(b: Books, i: Id)
    requires b.settlements == [] && forall k :: k in b.invoices ==> b.invoices[k].gross == 0
    ensures StandingOwes(b, i) == 0
  {
    hide StandingOf;
    assert forall k: Id :: SettledOn(b, k) == 0;
  }

  /** Paying what is not owed leaves all of it as a credit. */
  lemma PaysNothingOwed(b: Books, pay: NewPayment)
    requires pay.invoice in b.invoices && b.invoices[pay.invoice].currency == pay.currency && pay.amount > 0
    requires Find(b.payments, PaymentRef(pay.ref)).None?
    requires b.settlements == [] && forall k :: k in b.invoices ==> b.invoices[k].gross == 0
    ensures var invoice := b.invoices[pay.invoice];
      Apply(b, Collect(pay)) == b.(
        payments := b.payments
          + [Payment(pay.ref, invoice.subscriber, pay.invoice, pay.currency, pay.amount, pay.at)],
        credits := b.credits
          + [Credit(invoice.subscriber, pay.currency, pay.amount, FromPayment(|b.payments|), pay.at,
                    b.rank(Credits, |b.credits|))])
  {
    hide StandingOwes, Divided;
    OwesNothing(b, pay.invoice);
    DividedIs(b, pay);
  }

  lemma FirstOverpays(rank: (Table, nat) -> int, x: nat)
    requires x > 0
    ensures Apply(Invoiced(rank), Collect(NewPayment(10, 1, 9, x, 1))) == OnceOverpaid(rank, x)
  {
    hide Apply;
    PaysNothingOwed(Invoiced(rank), NewPayment(10, 1, 9, x, 1));
  }

  lemma SecondOverpays(rank: (Table, nat) -> int, x: nat, y: nat)
    requires y > 0
    ensures Apply(OnceOverpaid(rank, x), Collect(NewPayment(11, 2, 9, y, 2))) == Overpaid(rank, x, y)
  {
    hide Apply;
    var b := OnceOverpaid(rank, x);
    assert b.payments[..0] == [];
    PaysNothingOwed(b, NewPayment(11, 2, 9, y, 2));
  }

  lemma AfterOverpaying(rank: (Table, nat) -> int, x: nat, y: nat)
    requires x > 0 && y > 0
    ensures After(rank, Overpaying(x, y)) == Overpaid(rank, x, y)
  {
    var o := Overpaying(x, y);
    assert o == (([] + [o[0]] + [o[1]]) + [o[2]]) + [o[3]];
    AfterMore(rank, ([] + [o[0]] + [o[1]]) + [o[2]], o[3]);
    AfterMore(rank, [] + [o[0]] + [o[1]], o[2]);
    AfterMore(rank, [] + [o[0]], o[1]);
    AfterMore(rank, [], o[0]);
    FirstOverpays(rank, x);
    SecondOverpays(rank, x, y);
    hide Apply;
    BothIssued(rank);
  }

  lemma BothIssued(rank: (Table, nat) -> int)
    ensures Apply(Apply(Empty(rank), Issue(1, 5, 9, 0)), Issue(2, 6, 9, 0)) == Invoiced(rank)
  {
  }

  lemma FirstOnly(b: Books, x: nat)
    requires |b.credits| == 2 && b.credits[0].subscriber == 5 && b.credits[1].subscriber == 6
    requires b.credits[0].currency == 9 && b.credits[0].amount == x && b.entries == []
    ensures Standings(b, 5, 9) == [Part(0, x)]
  {
    var picks := HeldBy(b, 5, 9);
    assert Indices(0, picks) == [] && Indices(1, picks) == [] + [0] && Indices(2, picks) == [0];
    OneRow<Id>(0, CreditKey(b));
    assert CreditsWhere(b, picks) == [0];
    assert [0][..0] == [];
    assert OpenParts(b, [0][..0]) == [];
    assert PaidOut(b, 0) == 0;
  }

  lemma TakesTheFirst(b: Books, x: nat)
    requires Standings(b, 5, 9) == [Part(0, x)] && LeftByWhom(b, 0)(0) && x > 0
    ensures RefundDivision(b, 0, 5, 9, x) == Taking([Part(0, x)], 0)
  {
    hide Standings, LeftByWhom;
    var own := [Part(0, x)];
    assert own[..0] == [];
    assert Picked(own[..0], IsOwn(b, 0)) == [] && Unpicked(own[..0], IsOwn(b, 0)) == [];
    OneRow(own[0], PartKey(b));
    assert OwnFirst(b, 0, own) == own;
    TakenOfOne(own[0], x);
  }

  function Refunded(rank: (Table, nat) -> int, x: nat, y: nat): Books {
    Overpaid(rank, x, y).(
      refunds := [Refund(20, 0, 9, x, Pending)],
      entries := [Entry(0, EntryKind.Refunded, x, ByRefund(0), 3, rank(Entries, 0))])
  }

  lemma NewRefundStep(b: Books, report: RefundReport, p: Id)
    requires Find(b.payments, PaymentRef(report.paymentRef)) == Some(p) && p < |b.payments|
    requires report.currency == b.payments[p].currency && !Ended(report.status)
    requires Find(b.refunds, RefundRef(report.ref)).None?
    ensures var added := AddRefund(b, report, p);
      var t := RefundDivision(added, p, b.payments[p].subscriber, report.currency, report.amount);
      RecordRefund(b, report).books == PaidOutOf(added, |b.refunds|, t, report.at)
  {
    hide RefundDivision, PaidOutOf;
  }

  lemma RefundPaidOut(rank: (Table, nat) -> int, x: nat, y: nat)
    requires x > 0 && y > 0
    ensures Apply(Overpaid(rank, x, y), ReportRefund(RefundReport(20, 10, 9, x, Pending, 3))) == Refunded(rank, x, y)
  {
    hide RecordRefund, RefundDivision, PaidOutOf, Standings;
    var b := Overpaid(rank, x, y);
    var report := RefundReport(20, 10, 9, x, Pending, 3);
    assert b.payments[..1] == [b.payments[0]];
    assert Find(b.payments, PaymentRef(10)) == Some(0);
    NewRefundStep(b, report, 0);
    var added := AddRefund(b, report, 0);
    FirstOnly(added, x);
    TakesTheFirst(added, x);
    OnePaidOut(added, x);
  }

  lemma OnePaidOut(b: Books, x: nat)
    ensures PaidOutOf(b, 0, Taking([Part(0, x)], 0), 3)
         == AddEntry(b, 0, EntryKind.Refunded, x, ByRefund(0), 3)
  {
    assert [Part(0, x)][..0] == [];
    assert WriteEntries(b, [Part(0, x)][..0], EntryKind.Refunded, ByRefund(0), 3) == b;
  }

  lemma FailsUnderAnother(rank: (Table, nat) -> int, x: nat, y: nat)
    requires x > 0
    ensures var b := Refunded(rank, x, y);
      var s := RecordRefund(b, UnderAnother(x));
      && |b.credits| == 2 && |b.entries| == 1
      && s.outcome == GivenBackNow(0, [Part(0, x)]) && |s.books.entries| == 2 && s.books.entries[1].credit == 0
      && !GivesBackToItsOwn(b, UnderAnother(x))
  {
    var b := Refunded(rank, x, y);
    OneRow(b.entries[0], EntryKey());
    assert b.entries[..0] == [];
    assert RefundParts(b.entries[..0], 0) == [];
    assert TakenByRefund(b, 0) == [Part(0, x)];
    hide TakenByRefund;
    EndedFrame(b, 0, Failed, 4);
    EndedWrites(b, 0, Failed, 4);
    assert Find(b.payments, PaymentRef(11)) == Some(1);
    assert Find(b.refunds, RefundRef(20)) == Some(0);
    hide EndedBooks;
    assert EntryFor(EndedBooks(b, 0, Failed, 4).entries[1], TakenByRefund(b, 0)[0], RefundFailed, ByRefund(0));
  }

  lemma SecondHeld(b: Books, x: nat)
    requires |b.credits| == 2 && b.credits[1].subscriber == 6
    requires |b.payments| == 2 && b.payments[1] == Payment(11, 6, 2, 9, b.payments[1].amount, 2)
    requires b.refunds == [Refund(20, 0, 9, x, Pending)]
    ensures CreditRow(b.credits[1].rank) in Asks(b, ReportRefund(UnderAnother(x)))
  {
    hide HeldCredits, CreditLocks, ClosedCases;
    assert Find(b.payments, PaymentRef(11)) == Some(1);
    assert Find(b.refunds, RefundRef(20)) == Some(0);
    CreditHeld(b, 6, 1);
  }

  /** A refund of the first subscriber's payment, reported failed under the second one's: what it took of the first
      one's credit is given back while only the second one's credits are held. */
  lemma GivenBackUnheld(rank: (Table, nat) -> int, x: nat, y: nat)
    requires x > 0 && y > 0 && rank(Credits, 0) != rank(Credits, 1)
    ensures var b := After(rank, Refunding(x, y));
      var s := RecordRefund(b, UnderAnother(x));
      && s.outcome == GivenBackNow(0, [Part(0, x)]) && |s.books.entries| == |b.entries| + 1
      && |b.credits| == 2 && s.books.entries[|b.entries|].credit == 0
      && CreditRow(b.credits[0].rank) !in Asks(b, ReportRefund(UnderAnother(x)))
      && CreditRow(b.credits[1].rank) in Asks(b, ReportRefund(UnderAnother(x)))
  {
    hide Apply, Asks, RecordRefund, RefundsOfTheirSubscribers, Refunded, After;
    AfterRefunding(rank, x, y);
    SubscribersAfter(rank, Refunding(x, y));
    FailsUnderAnother(rank, x, y);
    UnheldThere(rank, x, y);
  }

  lemma AfterRefunding(rank: (Table, nat) -> int, x: nat, y: nat)
    requires x > 0 && y > 0
    ensures After(rank, Refunding(x, y)) == Refunded(rank, x, y)
  {
    hide Apply, Overpaid, Refunded, Overpaying, After;
    AfterOverpaying(rank, x, y);
    RefundPaidOut(rank, x, y);
    AfterMore(rank, Overpaying(x, y), ReportRefund(RefundReport(20, 10, 9, x, Pending, 3)));
  }

  lemma UnheldThere(rank: (Table, nat) -> int, x: nat, y: nat)
    requires x > 0 && rank(Credits, 0) != rank(Credits, 1)
    requires RefundsOfTheirSubscribers(Refunded(rank, x, y))
    ensures var b := Refunded(rank, x, y);
      && CreditRow(b.credits[0].rank) !in Asks(b, ReportRefund(UnderAnother(x)))
      && CreditRow(b.credits[1].rank) in Asks(b, ReportRefund(UnderAnother(x)))
  {
    hide Asks, RecordRefund, RefundsOfTheirSubscribers, GivesBackToItsOwn;
    var b := Refunded(rank, x, y);
    FailsUnderAnother(rank, x, y);
    assert CreditsApart(b);
    GivenBackOnHeld(b, UnderAnother(x), 1);
    SecondHeld(b, x);
  }
}
