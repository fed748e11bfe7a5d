/** Every row a step of the ledger writes is one whose lock, or whose turn, it holds. */
module LockedWrites {
  import opened Sums
  import opened PaymentRules
  import opened InvoiceChain
  import opened Books
  import opened Soundness
  import opened ReversalFrame
  import opened Brought
  import opened Withdrawals
  import opened Reinstatements
  import opened GiveBacks
  import opened ReversalReports
  import opened QuietWrites
  import opened PaymentRecords
  import opened Corrections
  import opened Refunds
  import opened WriterAnswers
  import opened LedgerRuns
  import opened Locks

  // ---- what a report writes --------------------------------------------------------------

  /** The payment a report names, where it is accepted. */
  lemma ReportWrites(b: Books, report: Report) returns (p: Id)
    requires Sound(b)
    requires RecordReversal(b, report).outcome.Applied? || RecordReversal(b, report).outcome.Unchanged?
    ensures var b' := RecordReversal(b, report).books;
      && Find(b.payments, PaymentRef(report.paymentRef)) == Some(p) && p < |b.payments|
      && report.currency == b.payments[p].currency
      && Prefix(b.settlements, b'.settlements) && Prefix(b.entries, b'.entries) && Prefix(b.credits, b'.credits)
      && b'.payments == b.payments && b'.invoices == b.invoices && b'.refunds == b.refunds
      && |b.reversals| <= |b'.reversals| && |b.cases| <= |b'.cases| && Sound(b')
      && (forall k :: |b.settlements| <= k < |b'.settlements| ==> InChainOf(b, p, b'.settlements[k].invoice))
      && (forall k :: |b.entries| <= k < |b'.entries| ==> BySourceIn(b', b'.entries[k].source, p))
      && (forall r :: 0 <= r < |b.reversals| ==> b'.reversals[r] == b.reversals[r] || OfChain(b, r, p))
  {
    hide Sound, HeldReversal, Applies, RecordReversal, RecordsReport;
    RecordReversalEffect(b, report);
    RecordReversalSound(b, report);
    ReportCurrency(b, report);
    p := Find(b.payments, PaymentRef(report.paymentRef)).value;
    var s := RecordReversal(b, report);
    var held := if s.outcome.reversal < |b.reversals| then b else AddReversal(b, report.ref, p);
    SameReach(held, s.books, p);
  }

  lemma ReportCurrency(b: Books, report: Report)
    requires RecordReversal(b, report).outcome.Applied? || RecordReversal(b, report).outcome.Unchanged?
    ensures var p := Find(b.payments, PaymentRef(report.paymentRef));
      p.Some? && p.value < |b.payments| && report.currency == b.payments[p.value].currency
  {
    hide HeldReversal, Applies;
  }

  lemma ReportChangesNone(b: Books, report: Report)
    requires Sound(b)
    requires !RecordReversal(b, report).outcome.Applied? && !RecordReversal(b, report).outcome.Unchanged?
    ensures RecordReversal(b, report).books == b
  {
    hide Sound, RecordReversal;
    RecordReversalSound(b, report);
  }

  /** A report that is accepted holds one turn and the credits of one subscriber. */
  lemma ReportHolds(b: Books, report: Report, p: Id)
    requires Sound(b) && Find(b.payments, PaymentRef(report.paymentRef)) == Some(p) && p < |b.payments|
    requires report.currency == b.payments[p].currency
    ensures var asks := Asks(b, ReportReversal(report));
      && Turn(ChainOfPayment(b, p)) in asks
      && forall c: Id :: c < |b.credits| && b.credits[c].subscriber == b.payments[p].subscriber ==>
           CreditRow(b.credits[c].rank) in asks
  {
    hide Sound, ApplyingAsks, FirstAsks, HeldCredits, HeldReversal, Midway, ChainOfPayment, Orderly, AfterAll;
    hide PaymentsOk, SettlementsOk, CasesOk, ReportAsks;
    SoundMidway(b);
    RowsOf(b);
    FirstInOrder(b, p, ReferenceRow(ReversalKind, report.ref));
    ReportAsksAre(b, report, p);
    var first := FirstAsks(b, p);
    assert Turn(ChainOfPayment(b, p)) in first;
    forall c: Id | c < |b.credits| && b.credits[c].subscriber == b.payments[p].subscriber
      ensures CreditRow(b.credits[c].rank) in first
    {
      FirstCredits(b, p);
      CreditHeld(b, b.payments[p].subscriber, c);
    }
  }

  lemma FirstCredits(b: Books, p: Id)
    requires p < |b.payments|
    ensures forall l :: l in CreditLocks(b, HeldCredits(b, b.payments[p].subscriber)) ==> l in FirstAsks(b, p)
  {
    hide HeldCredits, CreditLocks;
  }

  lemma CreditHeld(b: Books, subscriber: Id, c: Id)
    requires c < |b.credits| && b.credits[c].subscriber == subscriber
    ensures CreditRow(b.credits[c].rank) in CreditLocks(b, HeldCredits(b, subscriber))
  {
    var ids := Indices(|b.credits|, IsHeldOf(b, subscriber));
    IndicesHold(|b.credits|, IsHeldOf(b, subscriber));
    SortOrders(ids, PlaceKey(b));
    var held := HeldCredits(b, subscriber);
    assert c in held;
    var k :| 0 <= k < |held| && held[k] == c;
    assert CreditLocks(b, held)[k] == CreditRow(b.credits[c].rank);
  }

  // ---- settlements -----------------------------------------------------------------------

  /** What a step settles or reopens is of an invoice of the chain whose turn it holds. */
  lemma SettlementsInTurn(b: Books, op: Op, k: nat)
    requires Sound(b) && |b.settlements| <= k < |Apply(b, op).settlements|
    ensures var b' := Apply(b, op);
      var i := b'.settlements[k].invoice;
      i in b'.invoices && Turn(b'.invoices[i].chainId) in Asks(b, op)
  {
    hide Sound, RecordReversal, RecordRefund, CancelledBooks, Divided, ReportAsks, MovesOf;
    match op
    case Collect(pay) =>
      PaymentInTurn(b, pay, k);
    case Correct(i, c, at) =>
      CancellationInTurn(b, i, c, at, k);
    case ReportReversal(report) =>
      if RecordReversal(b, report).outcome.Applied? || RecordReversal(b, report).outcome.Unchanged? {
        var p := ReportWrites(b, report);
        ReportHolds(b, report, p);
      } else {
        ReportChangesNone(b, report);
      }
    case ReportRefund(report) =>
      RefundWrites(b, report);
    case _ =>
  }

  lemma PaymentInTurn(b: Books, pay: NewPayment, k: nat)
    requires Sound(b) && |b.settlements| <= k < |RecordPayment(b, pay).books.settlements|
    ensures var b' := RecordPayment(b, pay).books;
      var i := b'.settlements[k].invoice;
      i in b'.invoices && Turn(b'.invoices[i].chainId) in TurnAsks(b, pay.invoice)
  {
    hide Sound, Divided, Chained, SettlementsOk, EntriesOk, CreditsOk, CasesOk, PaymentsOk, ReversalsOk, Solvent, NetsOk;
    hide Bounded, RefundsOk, OwedAt;
    SoundMidway(b);
    MidwayIs(b, []);
    DividedIs(b, pay);
    ChainedSteps(b);
    StandingStaysInChain(b.invoices, b.cancellations, pay.invoice);
  }

  lemma ChainedSteps(b: Books)
    requires Chained(b.invoices, b.cancellations)
    ensures StepsUp(b.invoices, b.cancellations)
  {
  }

  lemma CancellationInTurn(b: Books, i: Id, c: Correction, at: int, k: nat)
    requires |b.settlements| <= k < |Cancel(b, i, c, at).books.settlements|
    ensures var b' := Cancel(b, i, c, at).books;
      var j := b'.settlements[k].invoice;
      j in b'.invoices && Turn(b'.invoices[j].chainId) in TurnAsks(b, i)
  {
    hide CancelledBooks, MovesOf, IsCancellation;
    CancelledFrame(b, i, c, at);
    var b' := CancelledBooks(b, i, c, at);
    assert MoveRow(b'.settlements[k], MovesOf(b, i, c), i, c.replacement);
  }

  /** A refund writes entries, cases and its own row. */
  lemma RefundWrites(b: Books, report: RefundReport)
    ensures var b' := RecordRefund(b, report).books;
      && b'.settlements == b.settlements && b'.credits == b.credits && b'.reversals == b.reversals
      && b'.payments == b.payments && b'.invoices == b.invoices
      && Prefix(b.entries, b'.entries) && |b.refunds| <= |b'.refunds| && |b.cases| <= |b'.cases|
  {
    hide EndedBooks, PaidOutOf, RefundDivision;
    var payment := Find(b.payments, PaymentRef(report.paymentRef));
    if payment.Some? && report.currency == b.payments[payment.value].currency {
      match Find(b.refunds, RefundRef(report.ref))
      case Some(f) =>
        EndedWrites(b, f, report.status, report.at);
        EndedFrame(b, f, report.status, report.at);
      case None =>
        var p := payment.value;
        var added := AddRefund(b, report, p);
        var t := RefundDivision(added, p, b.payments[p].subscriber, report.currency, report.amount);
        PaidOutWrites(added, |b.refunds|, t, report.at);
        PaidOutFrame(added, |b.refunds|, t, report.at);
    }
  }

  // ---- reversals and refunds -------------------------------------------------------------

  /** A reversal's row changes only in the turn of the chain of its payment. */
  lemma ReversalsInTurn(b: Books, op: Op, r: Id)
    requires Sound(b) && r < |b.reversals|
    ensures var b' := Apply(b, op);
      && r < |b'.reversals|
      && (b'.reversals[r] != b.reversals[r] ==> Turn(ChainOfPayment(b, b.reversals[r].payment)) in Asks(b, op))
  {
    hide Sound, RecordReversal, RecordRefund, CancelledBooks, Divided, ReportAsks, RefundAsks, MovesOf;
    match op
    case Collect(pay) =>
      if pay.invoice in b.invoices {
        DividedIs(b, pay);
      }
    case Correct(i, c, at) =>
      if i in b.invoices {
        CancelledFrame(b, i, c, at);
      }
    case ReportReversal(report) =>
      if RecordReversal(b, report).outcome.Applied? || RecordReversal(b, report).outcome.Unchanged? {
        var p := ReportWrites(b, report);
        ReportHolds(b, report, p);
      } else {
        ReportChangesNone(b, report);
      }
    case ReportRefund(report) =>
      RefundWrites(b, report);
    case _ =>
  }

  /** A refund's row changes only by a report of it, which holds it. */
  lemma RefundsLocked(b: Books, op: Op, f: Id)
    requires Sound(b) && f < |b.refunds|
    ensures var b' := Apply(b, op);
      && f < |b'.refunds|
      && (b'.refunds[f] != b.refunds[f] ==> ReferenceRow(RefundKind, b.refunds[f].ref) in Asks(b, op))
  {
    hide Sound, RecordReversal, CancelledBooks, Divided, ReportAsks, MovesOf, EndedBooks, PaidOutOf, HeldCredits;
    hide ClosedCases;
    match op
    case Collect(pay) =>
      if pay.invoice in b.invoices {
        DividedIs(b, pay);
      }
    case Correct(i, c, at) =>
      if i in b.invoices {
        CancelledFrame(b, i, c, at);
      }
    case ReportReversal(report) =>
      if RecordReversal(b, report).outcome.Applied? || RecordReversal(b, report).outcome.Unchanged? {
        var p := ReportWrites(b, report);
      } else {
        ReportChangesNone(b, report);
      }
    case ReportRefund(report) =>
      RefundRowLocked(b, report, f);
    case _ =>
  }

  lemma RefundRowLocked(b: Books, report: RefundReport, f: Id)
    requires f < |b.refunds|
    ensures var b' := RecordRefund(b, report).books;
      && f < |b'.refunds|
      && (b'.refunds[f] != b.refunds[f] ==> ReferenceRow(RefundKind, b.refunds[f].ref) in RefundAsks(b, report))
  {
    hide EndedBooks, PaidOutOf, HeldCredits, ClosedCases, RefundDivision;
    var payment := Find(b.payments, PaymentRef(report.paymentRef));
    if payment.Some? && report.currency == b.payments[payment.value].currency {
      var p := payment.value;
      match Find(b.refunds, RefundRef(report.ref))
      case Some(g) =>
        EndedFrame(b, g, report.status, report.at);
      case None =>
        var added := AddRefund(b, report, p);
        PaidOutFrame(added, |b.refunds|,
                     RefundDivision(added, p, b.payments[p].subscriber, report.currency, report.amount), report.at);
    }
  }

  // ---- whose credits a refund takes ------------------------------------------------------

  predicate OfItsSubscriber(b: Books, e: Entry) {
    e.source.ByRefund? ==>
      && e.source.refund < |b.refunds| && b.refunds[e.source.refund].payment < |b.payments| && e.credit < |b.credits|
      && b.credits[e.credit].subscriber == b.payments[b.refunds[e.source.refund].payment].subscriber
  }

  /** Every refund was paid out of credits of the subscriber whose payment it was recorded for. */
  ghost predicate RefundsOfTheirSubscribers(b: Books) {
    forall k :: 0 <= k < |b.entries| ==> OfItsSubscriber(b, b.entries[k])
  }

  /** What a step leaves of the tables that says whose credits a refund takes. */
  ghost predicate RefundsStay(b: Books, b': Books) {
    && Prefix(b.payments, b'.payments) && Prefix(b.credits, b'.credits) && Prefix(b.entries, b'.entries)
    && |b.refunds| <= |b'.refunds|
    && (forall f :: 0 <= f < |b.refunds| ==> b'.refunds[f].payment == b.refunds[f].payment)
  }

  lemma StaysOf(b: Books, b': Books, e: Entry)
    requires RefundsStay(b, b') && OfItsSubscriber(b, e)
    ensures OfItsSubscriber(b', e)
  {
  }

  lemma SubscribersKept(b: Books, b': Books)
    requires RefundsOfTheirSubscribers(b) && RefundsStay(b, b')
    requires forall k :: |b.entries| <= k < |b'.entries| ==> OfItsSubscriber(b', b'.entries[k])
    ensures RefundsOfTheirSubscribers(b')
  {
    hide OfItsSubscriber;
    forall k | 0 <= k < |b'.entries| ensures OfItsSubscriber(b', b'.entries[k]) {
      if k < |b.entries| {
        StaysOf(b, b', b.entries[k]);
      }
    }
  }

  lemma StepKeepsSubscribers(b: Books, op: Op)
    requires Sound(b) && RefundsOfTheirSubscribers(b)
    ensures RefundsOfTheirSubscribers(Apply(b, op))
  {
    hide Sound, RecordReversal, RecordRefund, CancelledBooks, Divided, MovesOf, OfItsSubscriber;
    var b' := Apply(b, op);
    match op
    case Collect(pay) =>
      if pay.invoice in b.invoices {
        DividedIs(b, pay);
      }
      SubscribersKept(b, b');
    case Correct(i, c, at) =>
      if i in b.invoices {
        CancelledFrame(b, i, c, at);
      }
      SubscribersKept(b, b');
    case ReportReversal(report) =>
      ReportKeepsSubscribers(b, report);
    case ReportRefund(report) =>
      RefundKeepsSubscribers(b, report);
    case PayOff(c, amount, at) =>
      PayoutIsNoRefund(b', c, amount, at, b.rank(Entries, |b.entries|));
      SubscribersKept(b, b');
    case _ =>
      SubscribersKept(b, b');
  }

  lemma PayoutIsNoRefund(b: Books, c: Id, amount: nat, at: int, rank: int)
    ensures OfItsSubscriber(b, Entry(c, PaidOff, amount, ByPayout, at, rank))
  {
  }

  lemma ReportKeepsSubscribers(b: Books, report: Report)
    requires Sound(b) && RefundsOfTheirSubscribers(b)
    ensures RefundsOfTheirSubscribers(RecordReversal(b, report).books)
  {
    hide Sound, RecordReversal, RefundsOfTheirSubscribers;
    var b' := RecordReversal(b, report).books;
    if RecordReversal(b, report).outcome.Applied? || RecordReversal(b, report).outcome.Unchanged? {
      var p := ReportWrites(b, report);
      SubscribersKept(b, b');
    } else {
      ReportChangesNone(b, report);
    }
  }

  lemma RefundKeepsSubscribers(b: Books, report: RefundReport)
    requires RefundsOfTheirSubscribers(b)
    ensures RefundsOfTheirSubscribers(RecordRefund(b, report).books)
  {
    hide EndedBooks, PaidOutOf, RefundDivision, RefundsOfTheirSubscribers;
    var b' := RecordRefund(b, report).books;
    var payment := Find(b.payments, PaymentRef(report.paymentRef));
    if payment.Some? && report.currency == b.payments[payment.value].currency {
      var p := payment.value;
      match Find(b.refunds, RefundRef(report.ref))
      case Some(f) =>
        SubscribersKept(b, SetStatus(b, f, report.status));
        EndedEntries(b, f, report.status, report.at);
        EndedFrame(b, f, report.status, report.at);
        EndedWrites(b, f, report.status, report.at);
        SubscribersKept(b, EndedBooks(b, f, report.status, report.at));
      case None =>
        var f := |b.refunds|;
        var added := AddRefund(b, report, p);
        SubscribersKept(b, added);
        var t := RefundDivision(added, p, b.payments[p].subscriber, report.currency, report.amount);
        PaidOutWrites(added, f, t, report.at);
        PaidOutFrame(added, f, t, report.at);
        TakenOfSubscriber(added, p, b.payments[p].subscriber, report.currency, report.amount);
        SubscribersKept(b, PaidOutOf(added, f, t, report.at));
    }
  }

  lemma TakenOfSubscriber(b: Books, p: Id, subscriber: Id, currency: Id, amount: nat)
    ensures var t := RefundDivision(b, p, subscriber, currency, amount);
      forall k :: 0 <= k < |t.parts| ==> OwedTo(b, subscriber, currency, t.parts[k].id)
  {
    hide RefundDivision;
    var t := RefundDivision(b, p, subscriber, currency, amount);
    DivisionOk(b, p, subscriber, currency, amount);
    forall k | 0 <= k < |t.parts| ensures OwedTo(b, subscriber, currency, t.parts[k].id) {
      OnAt(t.parts, k);
    }
  }

  /** A refund that ends gives back on the credits it took of. */
  lemma EndedEntries(b: Books, f: Id, status: RefundStatus, at: int)
    requires RefundsOfTheirSubscribers(b) && f < |b.refunds|
    ensures var b' := EndedBooks(b, f, status, at);
      forall k :: |b.entries| <= k < |b'.entries| ==>
        && b'.entries[k].source == ByRefund(f) && OfItsSubscriber(b, b'.entries[k])
  {
    hide EndedBooks, TakenByRefund;
    EndedWrites(b, f, status, at);
    var b' := EndedBooks(b, f, status, at);
    forall k | |b.entries| <= k < |b'.entries|
      ensures b'.entries[k].source == ByRefund(f) && OfItsSubscriber(b, b'.entries[k])
    {
      assert EntryFor(b'.entries[k], TakenByRefund(b, f)[k - |b.entries|], RefundFailed, ByRefund(f));
      TakenOfItsSubscriber(b, f, k - |b.entries|);
    }
  }

  lemma TakenOfItsSubscriber(b: Books, f: Id, k: nat)
    requires RefundsOfTheirSubscribers(b) && f < |b.refunds| && k < |TakenByRefund(b, f)|
    ensures var c := TakenByRefund(b, f)[k].id;
      && b.refunds[f].payment < |b.payments| && c < |b.credits|
      && b.credits[c].subscriber == b.payments[b.refunds[f].payment].subscriber
  {
    var rows := Sort(b.entries, EntryKey());
    RefundPartsNames(rows, f, k);
    var e :| e in rows && e.credit == RefundParts(rows, f)[k].id && e.source == ByRefund(f)
      && e.amount == RefundParts(rows, f)[k].amount;
    SortOrders(b.entries, EntryKey());
    assert e in b.entries;
    var l :| 0 <= l < |b.entries| && b.entries[l] == e;
    assert OfItsSubscriber(b, b.entries[l]);
  }

  /** It is so after every run. */
  lemma {:induction false} SubscribersAfter(rank: (Table, nat) -> int, ops: seq<Op>)
    ensures RefundsOfTheirSubscribers(After(rank, ops))
  {
    hide Sound, Apply, RefundsOfTheirSubscribers;
    if ops == [] {
      AfterMore(rank, [], Issue(0, 0, 0, 0));
      NoneTaken(rank);
    } else {
      var n := |ops| - 1;
      SubscribersAfter(rank, ops[..n]);
      AfterMore(rank, ops[..n], ops[n]);
      assert ops[..n] + [ops[n]] == ops;
      StepKeepsSubscribers(After(rank, ops[..n]), ops[n]);
    }
  }

  lemma NoneTaken(rank: (Table, nat) -> int)
    ensures RefundsOfTheirSubscribers(Empty(rank))
  {
  }

  // ---- entries ---------------------------------------------------------------------------

  /** A report of a refund that gives back names a payment of the subscriber whose payment the refund was recorded
      for. Nothing compares the two. */
  predicate GivesBackToItsOwn(b: Books, report: RefundReport) {
    var payment := Find(b.payments, PaymentRef(report.paymentRef));
    var refund := Find(b.refunds, RefundRef(report.ref));
    payment.Some? && refund.Some? && b.refunds[refund.value].payment < |b.payments| ==>
      b.payments[b.refunds[refund.value].payment].subscriber == b.payments[payment.value].subscriber
  }

  /** What a step writes on a credit there was it writes on one it holds, unless it is a report that gives a refund
      back under a payment of another subscriber. */
  lemma EntriesOnHeldCredits(b: Books, op: Op, k: nat)
    requires Sound(b) && RefundsOfTheirSubscribers(b) && |b.entries| <= k < |Apply(b, op).entries|
    requires op.ReportRefund? ==> GivesBackToItsOwn(b, op.refund)
    ensures var c := Apply(b, op).entries[k].credit;
      c < |b.credits| ==> CreditRow(b.credits[c].rank) in Asks(b, op)
  {
    hide Sound, RecordReversal, RecordRefund, CancelledBooks, Divided, ReportAsks, RefundAsks, MovesOf;
    hide RefundsOfTheirSubscribers, GivesBackToItsOwn;
    match op
    case Collect(pay) =>
      DividedIs(b, pay);
    case Correct(i, c, at) =>
      CancelledFrame(b, i, c, at);
    case ReportReversal(report) =>
      ReportEntriesHeld(b, report, k);
    case ReportRefund(report) =>
      RefundEntriesHeld(b, report, k);
    case _ =>
  }

  lemma ReportEntriesHeld(b: Books, report: Report, k: nat)
    requires Sound(b) && |b.entries| <= k < |RecordReversal(b, report).books.entries|
    ensures var c := RecordReversal(b, report).books.entries[k].credit;
      c < |b.credits| ==> CreditRow(b.credits[c].rank) in Asks(b, ReportReversal(report))
  {
    hide Sound, RecordReversal, Asks, Midway;
    var s := RecordReversal(b, report);
    if s.outcome.Applied? || s.outcome.Unchanged? {
      var p := ReportWrites(b, report);
      var e := s.books.entries[k];
      ReportHolds(b, report, p);
      EntryReach(s.books, k);
      SoundIs(s.books);
      hide Balanced, Conserved, InRanges, FromCreditsOk, RefundsLive, RefundEntriesUnique, RefsUnique, CreditsOk, RowsOk;
      if e.credit < |b.credits| {
        OneChainOneSubscriber(s.books, e.source.reversal, p, e.credit);
      }
    } else {
      ReportChangesNone(b, report);
    }
  }

  lemma EntryReach(b: Books, k: nat)
    requires Sound(b) && k < |b.entries|
    ensures b.entries[k].source.ByReversal? ==> InReach(b, b.entries[k].source.reversal, b.entries[k].credit)
  {
    SoundMidway(b);
    MidwayIs(b, []);
    assert EntryOk(b, b.entries[k]);
  }

  lemma RefundEntriesHeld(b: Books, report: RefundReport, k: nat)
    requires RefundsOfTheirSubscribers(b) && |b.entries| <= k < |RecordRefund(b, report).books.entries|
    requires GivesBackToItsOwn(b, report)
    ensures var c := RecordRefund(b, report).books.entries[k].credit;
      c < |b.credits| && CreditRow(b.credits[c].rank) in RefundAsks(b, report)
  {
    hide EndedBooks, PaidOutOf, RefundDivision, HeldCredits, CreditLocks, ClosedCases, TakenByRefund;
    var payment := Find(b.payments, PaymentRef(report.paymentRef));
    var p := payment.value;
    var b' := RecordRefund(b, report).books;
    match Find(b.refunds, RefundRef(report.ref))
    case Some(f) =>
      EndedEntries(b, f, report.status, report.at);
      CreditHeld(b, b.payments[p].subscriber, b'.entries[k].credit);
    case None =>
      var added := AddRefund(b, report, p);
      var t := RefundDivision(added, p, b.payments[p].subscriber, report.currency, report.amount);
      PaidOutWrites(added, |b.refunds|, t, report.at);
      TakenOfSubscriber(added, p, b.payments[p].subscriber, report.currency, report.amount);
      var e := b'.entries[k];
      assert EntryFor(e, t.parts[k - |b.entries|], Refunded, ByRefund(|b.refunds|));
      assert OwedTo(added, b.payments[p].subscriber, report.currency, t.parts[k - |b.entries|].id);
      CreditHeld(b, b.payments[p].subscriber, e.credit);
  }

  // ---- cases -----------------------------------------------------------------------------

  /** A case that was there is closed only by a step that holds its row. */
  lemma CasesLocked(b: Books, op: Op, k: Id)
    requires Sound(b) && k < |b.cases|
    ensures var b' := Apply(b, op);
      k < |b'.cases| && (b'.cases[k] != b.cases[k] ==> CaseRow(k) in Asks(b, op))
  {
    hide Sound, RecordReversal, RecordRefund, CancelledBooks, Divided, ReportAsks, RefundAsks, MovesOf;
    match op
    case Collect(pay) =>
      if pay.invoice in b.invoices {
        DividedIs(b, pay);
      }
    case Correct(i, c, at) =>
      if i in b.invoices {
        CancelledFrame(b, i, c, at);
      }
    case ReportReversal(report) =>
      ReportClosesLocked(b, report, k);
    case ReportRefund(report) =>
      RefundClosesLocked(b, report, k);
    case _ =>
  }

  lemma CaseAsked(b: Books, about: Source, picked: Id -> bool, known: nat, k: Id)
    requires k < known && Closing(b, about, picked)(k)
    ensures CaseRow(k) in CaseLocks(ClosedCases(b, about, picked, known))
  {
    var ids := ClosedCases(b, about, picked, known);
    IndicesHold(known, Closing(b, about, picked));
    SortOrders(Indices(known, Closing(b, about, picked)), CaseKey(b));
    assert k in ids;
    var i :| 0 <= i < |ids| && ids[i] == k;
    assert CaseLocks(ids)[i] == CaseRow(k);
  }

  lemma RefundClosesLocked(b: Books, report: RefundReport, k: Id)
    requires k < |b.cases|
    ensures var b' := RecordRefund(b, report).books;
      k < |b'.cases| && (b'.cases[k] != b.cases[k] ==> CaseRow(k) in RefundAsks(b, report))
  {
    hide EndedBooks, PaidOutOf, RefundDivision, HeldCredits, CreditLocks, ClosedCases, TakenByRefund, CaseLocks;
    var payment := Find(b.payments, PaymentRef(report.paymentRef));
    if payment.Some? && report.currency == b.payments[payment.value].currency {
      var p := payment.value;
      match Find(b.refunds, RefundRef(report.ref))
      case Some(f) =>
        EndedFrame(b, f, report.status, report.at);
        if b.cases[k].about == ByRefund(f) && !b.cases[k].closed {
          CaseAsked(b, ByRefund(f), EveryCase(), |b.cases|, k);
        }
      case None =>
        var added := AddRefund(b, report, p);
        PaidOutFrame(added, |b.refunds|,
                     RefundDivision(added, p, b.payments[p].subscriber, report.currency, report.amount), report.at);
    }
  }

  lemma {:induction false} LiftingOpensCases(b: Books, lifted: seq<Cover>, at: int)
    ensures Prefix(b.cases, LiftAll(b, lifted, at).cases)
  {
    hide WithdrawalNow, Take;
    if lifted != [] {
      var n := |lifted| - 1;
      LiftingOpensCases(b, lifted[..n], at);
      var before := LiftAll(b, lifted[..n], at);
      var cover := lifted[n];
      var given := GivenBack(before, cover, at);
      var w := WithdrawalNow(given, PaymentOf(given, cover.reversal), Max(0, cover.amount));
      TakeFrame(given, cover.reversal, PaymentOf(given, cover.reversal), w.credits + w.covering, w.invoices, at);
    }
  }

  /** A withdrawal closes no case. */
  lemma WithdrawingOpensCases(b: Books, r: Id, withdrawn: int, at: int)
    requires r < |b.reversals|
    ensures Prefix(b.cases, Withdrawn(b, r, withdrawn, at).cases)
  {
    hide WithdrawalNow, Take, LiftAll, LiftedBy, TakenCredits;
    var more := withdrawn - b.reversals[r].amount;
    if more > 0 {
      var p := PaymentOf(b, r);
      var w := WithdrawalNow(b, p, more);
      TakeFrame(b, r, p, TakenCredits(b, p, more) + w.covering, w.invoices, at);
      LiftingOpensCases(WithdrawalWritten(b, r, more, at), LiftedBy(b, p, more), at);
    }
  }

  lemma ReportClosesLocked(b: Books, report: Report, k: Id)
    requires Sound(b) && k < |b.cases|
    ensures var b' := RecordReversal(b, report).books;
      k < |b'.cases| && (b'.cases[k] != b.cases[k] ==> CaseRow(k) in ReportAsks(b, report))
  {
    hide Sound, ApplyingAsks, Applies, FirstAsks;
    var s := RecordReversal(b, report);
    if s.outcome.Applied? || s.outcome.Unchanged? {
      ReportCurrency(b, report);
      var p := Find(b.payments, PaymentRef(report.paymentRef)).value;
      HeldSound(b, report.ref, p);
      var (held, r) := HeldReversal(b, report.ref, p);
      ReportAsksAre(b, report, p);
      ApplyingClosesLocked(held, r, report, k);
    } else {
      ReportChangesNone(b, report);
    }
  }

  lemma ApplyingClosesLocked(b: Books, r: Id, report: Report, k: Id)
    requires r < |b.reversals| && k < |b.cases|
    ensures var b' := Applies(b, r, report);
      k < |b'.cases| && (b'.cases[k] != b.cases[k] ==> CaseRow(k) in ApplyingAsks(b, r, report, |b.cases|))
  {
    hide Withdrawn, Returned, GivingBackAsks, LiftedFor;
    var after := Withdrawn(b, r, report.withdrawn, report.at);
    WithdrawingOpensCases(b, r, report.withdrawn, report.at);
    if r < |after.reversals| && after.reversals[r].payment < |after.payments| {
      ReturningClosesLocked(after, r, report.reinstated, report.at, |b.cases|, k);
    }
  }

  lemma ReturningClosesLocked(b: Books, r: Id, reinstated: int, at: int, known: nat, k: Id)
    requires r < |b.reversals| && b.reversals[r].payment < |b.payments| && k < known <= |b.cases|
    ensures var b' := Returned(b, r, reinstated, at);
      k < |b'.cases| && (b'.cases[k] != b.cases[k] ==> CaseRow(k) in GivingBackAsks(b, r, reinstated, known))
  {
    hide CloseCases, GiveBack, CoveredNow, ClosedCases, CaseLocks, ReopenedParts, AgainLocks, ReinstatementNow;
    var given := NewlyGiven(b.reversals[r], reinstated);
    if given > 0 {
      var p := b.reversals[r].payment;
      var g := ReinstatementNow(b, r, given);
      var picked := CoveredNow(b, r, given);
      CloseCasesKeeps(b, ByReversal(r), picked);
      var closed := CloseCases(b, ByReversal(r), picked);
      GiveBackFrame(closed, r, p, g.credits, g.invoices, g.credited, at);
      if b.cases[k].about == ByReversal(r) && picked(k) && !b.cases[k].closed {
        CaseAsked(b, ByReversal(r), picked, known, k);
      }
    }
  }

  // ---- two steps at once -----------------------------------------------------------------

  /** Whether the step writes an entry on credit `c`. */
  ghost predicate WritesOn(b: Books, op: Op, c: Id) {
    exists k :: |b.entries| <= k < |Apply(b, op).entries| && Apply(b, op).entries[k].credit == c
  }

  /** Whether the step settles or reopens an invoice of the chain. */
  ghost predicate SettlesIn(b: Books, op: Op, chain: Id) {
    exists k :: |b.settlements| <= k < |Apply(b, op).settlements|
      && ChainAt(Apply(b, op), Apply(b, op).settlements[k].invoice) == [chain]
  }

  ghost predicate Apart(b: Books, op: Op, other: Op) {
    forall l :: !(l in Asks(b, op) && l in Asks(b, other))
  }

  lemma WritesHeld(b: Books, op: Op, c: Id)
    requires Sound(b) && RefundsOfTheirSubscribers(b) && (op.ReportRefund? ==> GivesBackToItsOwn(b, op.refund))
    requires c < |b.credits| && WritesOn(b, op, c)
    ensures CreditRow(b.credits[c].rank) in Asks(b, op)
  {
    hide Sound, RefundsOfTheirSubscribers, GivesBackToItsOwn, Asks, Apply;
    var k :| |b.entries| <= k < |Apply(b, op).entries| && Apply(b, op).entries[k].credit == c;
    EntriesOnHeldCredits(b, op, k);
  }

  lemma SettlesHeld(b: Books, op: Op, chain: Id)
    requires Sound(b) && SettlesIn(b, op, chain)
    ensures Turn(chain) in Asks(b, op)
  {
    hide Sound, Asks, Apply;
    var k :| |b.settlements| <= k < |Apply(b, op).settlements|
      && ChainAt(Apply(b, op), Apply(b, op).settlements[k].invoice) == [chain];
    SettlementsInTurn(b, op, k);
  }

  ghost predicate ChangesReversal(b: Books, op: Op, r: Id) {
    r < |b.reversals| && (r < |Apply(b, op).reversals| ==> Apply(b, op).reversals[r] != b.reversals[r])
  }

  ghost predicate ChangesRefund(b: Books, op: Op, f: Id) {
    f < |b.refunds| && (f < |Apply(b, op).refunds| ==> Apply(b, op).refunds[f] != b.refunds[f])
  }

  ghost predicate ChangesCase(b: Books, op: Op, k: Id) {
    k < |b.cases| && (k < |Apply(b, op).cases| ==> Apply(b, op).cases[k] != b.cases[k])
  }

  lemma ChangesHeld(b: Books, op: Op, k: Id)
    requires Sound(b)
    ensures ChangesReversal(b, op, k) ==> Turn(ChainOfPayment(b, b.reversals[k].payment)) in Asks(b, op)
    ensures ChangesRefund(b, op, k) ==> ReferenceRow(RefundKind, b.refunds[k].ref) in Asks(b, op)
    ensures ChangesCase(b, op, k) ==> CaseRow(k) in Asks(b, op)
  {
    hide Sound, Asks, Apply;
    if k < |b.reversals| {
      ReversalsInTurn(b, op, k);
    }
    if k < |b.refunds| {
      RefundsLocked(b, op, k);
    }
    if k < |b.cases| {
      CasesLocked(b, op, k);
    }
  }

  /** Whether the step holds every credit it writes on: all do, save a report that gives a refund back under another
      subscriber's payment. */
  predicate Holding(b: Books, op: Op) {
    op.ReportRefund? ==> GivesBackToItsOwn(b, op.refund)
  }

  /** After any run, two steps that hold no lock in common do not both write an entry on one credit, settle or reopen
      invoices of one chain, or change one reversal, one refund or one case. */
  lemma WriteApart(rank: (Table, nat) -> int, ops: seq<Op>, op: Op, other: Op, k: Id)
    requires Apart(After(rank, ops), op, other)
    requires Holding(After(rank, ops), op) && Holding(After(rank, ops), other)
    ensures var b := After(rank, ops);
      && !(k < |b.credits| && WritesOn(b, op, k) && WritesOn(b, other, k))
      && !(SettlesIn(b, op, k) && SettlesIn(b, other, k))
      && !(ChangesReversal(b, op, k) && ChangesReversal(b, other, k))
      && !(ChangesRefund(b, op, k) && ChangesRefund(b, other, k))
      && !(ChangesCase(b, op, k) && ChangesCase(b, other, k))
  {
    hide Sound, RefundsOfTheirSubscribers, GivesBackToItsOwn, Asks, Apply, WritesOn, SettlesIn;
    hide ChangesReversal, ChangesRefund, ChangesCase;
    var b := After(rank, ops);
    SubscribersAfter(rank, ops);
    WritesUnder(b, op, k);
    WritesUnder(b, other, k);
    ChangesHeld(b, op, k);
    ChangesHeld(b, other, k);
  }

  lemma WritesUnder(b: Books, op: Op, k: Id)
    requires Sound(b) && RefundsOfTheirSubscribers(b) && Holding(b, op)
    ensures k < |b.credits| && WritesOn(b, op, k) ==> CreditRow(b.credits[k].rank) in Asks(b, op)
    ensures SettlesIn(b, op, k) ==> Turn(k) in Asks(b, op)
  {
    hide Sound, RefundsOfTheirSubscribers, GivesBackToItsOwn, Asks, Apply, WritesOn, SettlesIn;
    if k < |b.credits| && WritesOn(b, op, k) {
      WritesHeld(b, op, k);
    }
    if SettlesIn(b, op, k) {
      SettlesHeld(b, op, k);
    }
  }
}
