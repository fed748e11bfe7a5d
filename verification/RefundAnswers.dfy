/** What a refund takes of which credit, and what it leaves to a case, said of the tables alone. */
module RefundAnswers {
  import opened Sums
  import opened PaymentRules
  import opened InvoiceChain
  import opened Books
  import opened Soundness
  import opened Brought
  import opened Reinstatements
  import opened Refunds
  import opened WithdrawalAnswers
  import opened GiveBackAnswers

  /** What the first `n` credits owe the subscriber in the currency. */
  function OpenFor(b: Books, subscriber: Id, currency: Id, n: nat): int
    requires n <= |b.credits|
  {
    if n == 0 then 0
    else
      OpenFor(b, subscriber, currency, n - 1)
      + if b.credits[n - 1].subscriber == subscriber && b.credits[n - 1].currency == currency
        then Max(0, Open(b, n - 1)) else 0
  }

  function OpenIn(b: Books): Id -> int {
    (c: Id) => ReadOpen(b, c)
  }

  lemma {:induction false} IndexOpen(b: Books, subscriber: Id, currency: Id, n: nat)
    requires n <= |b.credits|
    ensures Sum(Indices(n, HeldBy(b, subscriber, currency)), OpenIn(b)) == OpenFor(b, subscriber, currency, n)
  {
    if n > 0 {
      IndexOpen(b, subscriber, currency, n - 1);
      SumAppend(Indices(n - 1, HeldBy(b, subscriber, currency)), n - 1);
    }
  }

  lemma {:induction false} OpenPartsTotal(b: Books, ids: seq<Id>)
    ensures Sum(OpenParts(b, ids), Offered()) == Sum(ids, OpenIn(b))
  {
    if ids != [] {
      var n := |ids| - 1;
      OpenPartsTotal(b, ids[..n]);
      SumAppend(OpenParts(b, ids[..n]), Part(ids[n], ReadOpen(b, ids[n])));
    }
  }

  /** All a refund may draw on is all that is owed to the subscriber in the currency. */
  lemma DrawsOnAll(b: Books, p: Id, subscriber: Id, currency: Id)
    ensures Sum(OwnFirst(b, p, Standings(b, subscriber, currency)), Offered())
         == OpenFor(b, subscriber, currency, |b.credits|)
  {
    var standings := Standings(b, subscriber, currency);
    OwnFirstSum(b, p, standings, Offered());
    OpenPartsTotal(b, CreditsWhere(b, HeldBy(b, subscriber, currency)));
    SortSum<Id>(Indices(|b.credits|, HeldBy(b, subscriber, currency)), CreditKey(b), OpenIn(b));
    IndexOpen(b, subscriber, currency, |b.credits|);
  }

  /** What no credit takes of a refund: all that goes beyond what is owed to the subscriber in the currency. Where
      that is anything, every such credit is taken whole. */
  lemma DividesOverAll(b: Books, p: Id, subscriber: Id, currency: Id, amount: nat, c: Id)
    requires OwedTo(b, subscriber, currency, c)
    ensures var t := RefundDivision(b, p, subscriber, currency, amount);
      && t.left == Max(0, amount - OpenFor(b, subscriber, currency, |b.credits|))
      && (t.left > 0 ==> On(t.parts, c) == ReadOpen(b, c))
  {
    var offers := OwnFirst(b, p, Standings(b, subscriber, currency));
    DrawsOnAll(b, p, subscriber, currency);
    TakenTotal(offers, amount);
    TakenWhole(offers, amount, c);
    OwnFirstSum(b, p, Standings(b, subscriber, currency), OfferedUnder(c));
    StandingOffers(b, subscriber, currency, c);
  }

  lemma LeavesBeyond(b: Books, p: Id, subscriber: Id, currency: Id, amount: nat)
    ensures RefundDivision(b, p, subscriber, currency, amount).left
         == Max(0, amount - OpenFor(b, subscriber, currency, |b.credits|))
  {
    DrawsOnAll(b, p, subscriber, currency);
    TakenTotal(OwnFirst(b, p, Standings(b, subscriber, currency)), amount);
  }

  /** Credits the refunded payment left are taken first, and of either kind the older: whole before anything of the
      next. */
  lemma DividesInOrder(b: Books, p: Id, subscriber: Id, currency: Id, amount: nat, c: Id, d: Id)
    requires OwedTo(b, subscriber, currency, c) && OwedTo(b, subscriber, currency, d) && ComesBefore(b, p, c, d)
    ensures var parts := RefundDivision(b, p, subscriber, currency, amount).parts;
      On(parts, d) > 0 ==> On(parts, c) == ReadOpen(b, c)
  {
    var standings := Standings(b, subscriber, currency);
    var offers := OwnFirst(b, p, standings);
    var picks := HeldBy(b, subscriber, currency);
    OpenDistinct(b, picks);
    OwnFirstDistinct(b, p, standings);
    StandingNamed(b, subscriber, currency, c);
    StandingNamed(b, subscriber, currency, d);
    hide OwnFirst, Standings, ComesBefore, OwedTo;
    var i, j := OwnFirstPlaces(b, p, standings, c, d);
    PlacedPart(standings, offers, c, i);
    TakenBefore(offers, amount, i, j);
  }

  lemma StandingNamed(b: Books, subscriber: Id, currency: Id, c: Id)
    requires OwedTo(b, subscriber, currency, c)
    ensures Names(Standings(b, subscriber, currency), c)
    ensures On(Standings(b, subscriber, currency), c) == ReadOpen(b, c)
  {
    var picks := HeldBy(b, subscriber, currency);
    var ids := CreditsWhere(b, picks);
    CreditsWhereHold(b, picks);
    assert picks(c);
    var k :| 0 <= k < |ids| && ids[k] == c;
    OpenPartsAt(b, ids, k);
    OpenDistinct(b, picks);
    OnAt(Standings(b, subscriber, currency), k);
  }

  // ---- the whole report ------------------------------------------------------------------

  /** What a new report of a refund that has not ended does: a case is opened for what goes beyond all that is owed to
      the subscriber in the currency, and for nothing else; and of that all is taken before anything is left to
      a case, of credits of the refunded payment first, and of older before younger ones. */
  lemma RefundDoes(b: Books, report: RefundReport, c: Id, d: Id)
    requires Sound(b) && RecordRefund(b, report).outcome.PaidOutNow? && !Ended(report.status)
    requires c < |b.credits| && d < |b.credits|
    ensures Find(b.payments, PaymentRef(report.paymentRef)).Some?
    ensures var p := Find(b.payments, PaymentRef(report.paymentRef)).value;
      var s := RecordRefund(b, report);
      var subscriber := b.payments[p].subscriber;
      var unmatched := Max(0, report.amount - OpenFor(b, subscriber, report.currency, |b.credits|));
      && s.books.credits == b.credits && s.outcome.unmatched == unmatched
      && s.books.cases == (if unmatched > 0
           then b.cases + [Case(ByRefund(|b.refunds|), unmatched, false, report.at, b.rank(Cases, |b.cases|))]
           else b.cases)
      && (if OwedTo(b, subscriber, report.currency, c) then 0 <= Open(s.books, c) <= Open(b, c)
          else Open(s.books, c) == Open(b, c))
      && (OwedTo(b, subscriber, report.currency, c) && unmatched > 0 ==> Open(s.books, c) == 0)
      && (OwedTo(b, subscriber, report.currency, c) && OwedTo(b, subscriber, report.currency, d)
          ==> ComesBefore(b, p, c, d) ==> Open(s.books, d) < Open(b, d) ==> Open(s.books, c) == 0)
  {
    hide Sound, RefundDivision, OpenFor, ComesBefore, OwedTo, Open, RecordRefund, PaidOutOf, AddRefund;
    hide RowsOk, Chained, PaymentsOk, SettlementsOk, CreditsOk, EntriesOk, CasesOk, ReversalsOk, Solvent, NetsOk, Bounded;
    SoundMidway(b);
    MidwayIs(b, []);
    NewRefundIs(b, report);
    var p := Find(b.payments, PaymentRef(report.paymentRef)).value;
    var subscriber := b.payments[p].subscriber;
    var added := AddRefund(b, report, p);
    var t := RefundDivision(added, p, subscriber, report.currency, report.amount);
    LeavesBeyond(added, p, subscriber, report.currency, report.amount);
    SameOpenFor(b, added, subscriber, report.currency, |b.credits|);
    PaidOutFrame(added, |b.refunds|, t, report.at);
    DivisionOk(added, p, subscriber, report.currency, report.amount);
    RefundTakes(b, report, p, c);
    RefundTakes(b, report, p, d);
    SameOwed(b, added, p, subscriber, report.currency, c, d);
    if OwedTo(b, subscriber, report.currency, c) {
      DividesOverAll(added, p, subscriber, report.currency, report.amount, c);
      if OwedTo(b, subscriber, report.currency, d) && ComesBefore(b, p, c, d) {
        DividesInOrder(added, p, subscriber, report.currency, report.amount, c, d);
      }
    }
  }

  lemma NewRefundIs(b: Books, report: RefundReport)
    requires RecordRefund(b, report).outcome.PaidOutNow? && !Ended(report.status)
    ensures Find(b.payments, PaymentRef(report.paymentRef)).Some?
    ensures var p := Find(b.payments, PaymentRef(report.paymentRef)).value;
      var added := AddRefund(b, report, p);
      var t := RefundDivision(added, p, b.payments[p].subscriber, report.currency, report.amount);
      && RecordRefund(b, report) == Step(PaidOutOf(added, |b.refunds|, t, report.at),
                                         PaidOutNow(|b.refunds|, t.parts, t.left))
      && added == b.(refunds := added.refunds)
  {
    hide RefundDivision, PaidOutOf;
  }

  lemma {:induction false} SameOpenFor(b: Books, b': Books, subscriber: Id, currency: Id, n: nat)
    requires b'.credits == b.credits && b'.entries == b.entries && n <= |b.credits|
    ensures OpenFor(b', subscriber, currency, n) == OpenFor(b, subscriber, currency, n)
  {
    if n > 0 {
      SameOpenFor(b, b', subscriber, currency, n - 1);
    }
  }

  lemma SameOwed(b: Books, b': Books, p: Id, subscriber: Id, currency: Id, c: Id, d: Id)
    requires b'.credits == b.credits
    ensures OwedTo(b', subscriber, currency, c) == OwedTo(b, subscriber, currency, c)
    ensures OwedTo(b', subscriber, currency, d) == OwedTo(b, subscriber, currency, d)
    ensures ComesBefore(b', p, c, d) == ComesBefore(b, p, c, d)
  {
  }

  /** What a refund takes of a credit is what the credit owes less. */
  lemma RefundTakes(b: Books, report: RefundReport, p: Id, c: Id)
    requires Solvent(b, []) && c < |b.credits| && p < |b.payments|
    ensures var added := AddRefund(b, report, p);
      var t := RefundDivision(added, p, b.payments[p].subscriber, report.currency, report.amount);
      var b' := PaidOutOf(added, |b.refunds|, t, report.at);
      && b'.credits == b.credits && Open(b', c) == Open(b, c) - On(t.parts, c)
      && ReadOpen(added, c) == Open(b, c) >= 0
  {
    hide RefundDivision;
    var added := AddRefund(b, report, p);
    var t := RefundDivision(added, p, b.payments[p].subscriber, report.currency, report.amount);
    PaidOutFrame(added, |b.refunds|, t, report.at);
    EntriesPaidOut(added, t.parts, Refunded, ByRefund(|b.refunds|), report.at, c);
    assert 0 <= Open(b, c) + Sum([], OfCredit(c));
  }
}
