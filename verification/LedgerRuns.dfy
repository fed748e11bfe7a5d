/** Whole runs of the subscriber ledger, in any order and with any repeats, and what holds after every
    commit. */
module LedgerRuns {
  import opened Sums
  import opened PaymentRules
  import opened InvoiceChain
  import opened Books
  import opened Soundness
  import opened ReversalFrame
  import opened ReversalReports
  import opened ReportTotals
  import opened PaymentRecords
  import opened Corrections
  import opened Refunds

  datatype Op =
    | Issue(id: Id, subscriber: Id, currency: Id, gross: int)
    | Correct(invoice: Id, correction: Correction, at: int)
    | Collect(payment: NewPayment)
    | CreditFor(invoice: Id, at: int)
    | ReportRefund(refund: RefundReport)
    | PayOff(credit: Id, amount: nat, at: int)
    | ReportReversal(reversal: Report)
    | Resolve(id: Id)

  ghost function Apply(b: Books, op: Op): Books {
    match op
    case Issue(id, subscriber, currency, gross) => IssueInvoice(b, id, subscriber, currency, gross).books
    case Correct(i, c, at) => Cancel(b, i, c, at).books
    case Collect(pay) => RecordPayment(b, pay).books
    case CreditFor(i, at) => CreditInvoice(b, i, at).books
    case ReportRefund(report) => RecordRefund(b, report).books
    case PayOff(c, amount, at) => RecordPayout(b, c, amount, at).books
    case ReportReversal(report) => RecordReversal(b, report).books
    case Resolve(k) => CloseCase(b, k).books
  }

  ghost function Run(b: Books, ops: seq<Op>): Books {
    if ops == [] then b else Apply(Run(b, ops[..|ops| - 1]), ops[|ops| - 1])
  }

  // ---- every commit ----------------------------------------------------------------------

  lemma EmptyChained()
    ensures Chained(map[], map[])
  {
  }

  lemma EmptyMidway(rank: (Table, nat) -> int)
    ensures Midway(Empty(rank), [])
  {
    hide Chained;
    EmptyChained();
    var b := Empty(rank);
    assert Solvent(b, []);
    assert NetsOk(b) && Bounded(b);
  }

  lemma EmptySound(rank: (Table, nat) -> int)
    ensures Sound(Empty(rank))
  {
    hide Midway;
    EmptyMidway(rank);
    assert FromCreditsOk(Empty(rank));
  }

  lemma ApplySound(b: Books, op: Op)
    requires Sound(b)
    ensures Sound(Apply(b, op))
  {
    hide Sound, IssueInvoice, Cancel, RecordPayment, CreditInvoice, RecordRefund, RecordPayout, RecordReversal, CloseCase;
    match op
    case Issue(id, subscriber, currency, gross) => IssueInvoiceSound(b, id, subscriber, currency, gross);
    case Correct(i, c, at) => CancelSound(b, i, c, at);
    case Collect(pay) => RecordPaymentSound(b, pay);
    case CreditFor(i, at) => CreditInvoiceSound(b, i, at);
    case ReportRefund(report) => RecordRefundSound(b, report);
    case PayOff(c, amount, at) => RecordPayoutSound(b, c, amount, at);
    case ReportReversal(report) => RecordReversalSound(b, report);
    case Resolve(k) => CloseCaseSound(b, k);
  }

  /** The books are sound after every run. */
  lemma {:induction false} RunSound(b: Books, ops: seq<Op>)
    requires Sound(b)
    ensures Sound(Run(b, ops))
  {
    hide Sound, Apply;
    if ops != [] {
      RunSound(b, ops[..|ops| - 1]);
      ApplySound(Run(b, ops[..|ops| - 1]), ops[|ops| - 1]);
    }
  }

  /** The books of a run from nothing. */
  ghost function After(rank: (Table, nat) -> int, ops: seq<Op>): (b: Books)
    ensures Sound(b)
  {
    EmptySound(rank);
    RunSound(Empty(rank), ops);
    Run(Empty(rank), ops)
  }

  /** One step more. */
  lemma AfterMore(rank: (Table, nat) -> int, ops: seq<Op>, op: Op)
    ensures After(rank, ops + [op]) == Apply(After(rank, ops), op)
    ensures After(rank, []) == Empty(rank)
  {
    hide Apply;
    assert (ops + [op])[..|ops|] == ops;
  }

  // ---- the reversal balance --------------------------------------------------------------

  /** After every run, what a reversal withdrew and was not given back is what it holds: of credits, of
      invoices it opened, and of its cases, less what it credited. A reversal whose cover another
      payment's withdrawal lifted holds as much elsewhere. */
  lemma ReversalBalance(rank: (Table, nat) -> int, ops: seq<Op>, r: Id)
    requires r < |After(rank, ops).reversals|
    ensures var b := After(rank, ops);
      var v := b.reversals[r];
      && v.amount - v.reinstated
         == Sum(b.entries, EntryBy(ByReversal(r))) + Sum(b.settlements, ReopenedBy(r))
            + (Sum(b.cases, CaseAbout(ByReversal(r))) - v.reinstatedToCases)
            - Sum(b.credits, CreditedFrom(r))
      && 0 <= v.reinstatedToCases <= v.reinstated <= v.amount
  {
    hide Sound, Run;
    var b := After(rank, ops);
    SoundIs(b);
    assert Excess(b, r) == 0;
    assert InRange(b, b.reversals[r], Sum(b.cases, CaseAbout(ByReversal(r))));
  }

  // ---- payment conservation --------------------------------------------------------------

  /** What the first `n` reversals of the books hold reopened, of those that take payment `p` back. */
  function ReopenedByFirst(b: Books, p: Id, n: nat): int
    requires n <= |b.reversals|
  {
    if n == 0 then 0
    else ReopenedByFirst(b, p, n - 1)
         + if b.reversals[n - 1].payment == p then Sum(b.settlements, ReopenedBy(n - 1)) else 0
  }

  /** Settlements of the first `n` reversals of payment `p`. */
  function OfFirst(p: Id, n: nat): Settlement -> int {
    (s: Settlement) => if s.payment == p && s.reversal.Some? && s.reversal.value < n then -Signed(s) else 0
  }

  function OfOne(p: Id, r: Id): Settlement -> int {
    (s: Settlement) => if s.payment == p && s.reversal == Some(r) then -Signed(s) else 0
  }

  lemma {:induction false} ReopenedByEach(b: Books, p: Id, n: nat)
    requires SettlementsOk(b) && n <= |b.reversals|
    ensures ReopenedByFirst(b, p, n) == Sum(b.settlements, OfFirst(p, n))
  {
    if n == 0 {
      SumZero(b.settlements, OfFirst(p, 0));
    } else {
      ReopenedByEach(b, p, n - 1);
      SumSplit(b.settlements, OfFirst(p, n), OfFirst(p, n - 1), OfOne(p, n - 1));
      forall k | 0 <= k < |b.settlements|
        ensures OfOne(p, n - 1)(b.settlements[k])
             == if b.reversals[n - 1].payment == p then ReopenedBy(n - 1)(b.settlements[k]) else 0
      {
        assert SettlementOk(b, b.settlements[k]);
      }
      if b.reversals[n - 1].payment == p {
        SumSame(b.settlements, OfOne(p, n - 1), ReopenedBy(n - 1));
      } else {
        SumZero(b.settlements, OfOne(p, n - 1));
      }
    }
  }

  /** After every run of payments, cancellation moves, reversals and give-backs, what a payment brought is
      what it settles over all invoices, what it left as credits, and what its reversals hold
      reopened. */
  lemma PaymentConservation(rank: (Table, nat) -> int, ops: seq<Op>, p: Id)
    requires p < |After(rank, ops).payments|
    ensures var b := After(rank, ops);
      b.payments[p].amount
        == Sum(b.settlements, OfPayment(p)) + Sum(b.credits, LeftFrom(p))
           + ReopenedByFirst(b, p, |b.reversals|)
  {
    hide Sound, Run;
    var b := After(rank, ops);
    SoundIs(b);
    SoundConserved(b);
    assert Missing(b, p) == 0;
    ReopenedByEach(b, p, |b.reversals|);
    forall k | 0 <= k < |b.settlements|
      ensures BesideReversals(p)(b.settlements[k])
           == OfPayment(p)(b.settlements[k]) + OfFirst(p, |b.reversals|)(b.settlements[k])
    {
      assert SettlementOk(b, b.settlements[k]);
    }
    SumSplit(b.settlements, BesideReversals(p), OfPayment(p), OfFirst(p, |b.reversals|));
  }

  // ---- solvency --------------------------------------------------------------------------

  /** Each source under a number of its own. */
  function SourceKey(s: Source): Id {
    match s
    case ByReversal(r) => 3 * r
    case ByRefund(f) => 3 * f + 1
    case ByPayout => 2
  }

  function SourceOf(k: Id): Source {
    if k % 3 == 0 then ByReversal(k / 3) else if k % 3 == 1 then ByRefund(k / 3) else ByPayout
  }

  function PaidBySource(rows: seq<Entry>, c: Id): seq<Part> {
    if rows == [] then []
    else
      var n := |rows| - 1;
      var before := PaidBySource(rows[..n], c);
      if rows[n].credit == c then before + [Part(SourceKey(rows[n].source), PaidOutBy(rows[n]))] else before
  }

  lemma SourceKeys(s: Source, k: Id)
    ensures SourceKey(s) == k <==> (s == SourceOf(k) && (k % 3 == 2 ==> k == 2))
  {
  }

  lemma {:induction false} PaidBySourceSums(rows: seq<Entry>, c: Id, k: Id)
    ensures Total(PaidBySource(rows, c)) == Sum(rows, OnCredit(c))
    ensures On(PaidBySource(rows, c), k)
         == if k % 3 == 2 && k != 2 then 0 else Sum(rows, OnCreditBy(c, SourceOf(k)))
  {
    hide SourceKey;
    if rows != [] {
      var n := |rows| - 1;
      PaidBySourceSums(rows[..n], c, k);
      SourceKeys(rows[n].source, k);
      hide SourceOf;
      if rows[n].credit == c {
        SumAppend(PaidBySource(rows[..n], c), Part(SourceKey(rows[n].source), PaidOutBy(rows[n])));
      }
    }
  }

  /** Where nothing gave back more than it took, less than nothing was paid out of no credit. */
  lemma PaidOutNonNegative(b: Books, c: Id)
    requires Solvent(b, [])
    ensures 0 <= PaidOut(b, c)
  {
    var parts := PaidBySource(b.entries, c);
    forall k: Id ensures On(parts, k) >= 0 {
      PaidBySourceSums(b.entries, c, k);
      match SourceOf(k)
      case ByReversal(r) => assert Sum([], OfPair(c, r)) <= Took(b, c, ByReversal(r));
      case ByRefund(f) => assert 0 <= Took(b, c, ByRefund(f));
      case ByPayout => assert 0 <= Took(b, c, ByPayout);
    }
    NonNegativeOnTotal(parts);
    PaidBySourceSums(b.entries, c, 0);
  }

  /** After every run each credit owes neither less than nothing nor more than it holds. */
  lemma CreditsSolvent(rank: (Table, nat) -> int, ops: seq<Op>, c: Id)
    requires c < |After(rank, ops).credits|
    ensures var b := After(rank, ops); 0 <= Open(b, c) <= b.credits[c].amount
  {
    hide Sound, Run;
    var b := After(rank, ops);
    SoundMidway(b);
    MidwayIs(b, []);
    PaidOutNonNegative(b, c);
    assert 0 <= Open(b, c) + Sum([], OfCredit(c));
  }

  function ByPayments(rows: seq<Settlement>, i: Id): seq<Part> {
    if rows == [] then []
    else
      var n := |rows| - 1;
      var before := ByPayments(rows[..n], i);
      if rows[n].invoice == i then before + [Part(rows[n].payment, Signed(rows[n]))] else before
  }

  lemma {:induction false} ByPaymentsSums(rows: seq<Settlement>, i: Id, p: Id)
    ensures Total(ByPayments(rows, i)) == Sum(rows, OfInvoice(i))
    ensures On(ByPayments(rows, i), p) == Sum(rows, OfPaymentOn(p, i))
  {
    if rows != [] {
      var n := |rows| - 1;
      ByPaymentsSums(rows[..n], i, p);
      SumAppend(ByPayments(rows[..n], i), Part(rows[n].payment, Signed(rows[n])));
    }
  }

  /** No payment settles more of an invoice than all of them. */
  lemma NetWithinSettled(b: Books, p: Id, i: Id)
    requires NetsOk(b)
    ensures 0 <= Net(b, p, i) <= SettledOn(b, i)
  {
    var parts := ByPayments(b.settlements, i);
    forall q ensures On(parts, q) >= 0 {
      ByPaymentsSums(b.settlements, i, q);
      assert Net(b, q, i) >= 0;
    }
    NonNegativeOnTotal(parts);
    ByPaymentsSums(b.settlements, i, p);
  }

  /** After every run no payment settles less than nothing anywhere, and an invoice that is not corrected is settled
      by no more than it asks for, each payment a part of it: one that asks for nothing, or states a credit, is
      settled by none. Nor is one that is cancelled. */
  lemma InvoicesSolvent(rank: (Table, nat) -> int, ops: seq<Op>, p: Id, i: Id)
    requires i in After(rank, ops).invoices
    ensures var b := After(rank, ops);
      && 0 <= Net(b, p, i) <= SettledOn(b, i)
      && (i !in b.cancellations ==> SettledOn(b, i) <= Max(0, b.invoices[i].gross))
      && (!Corrected(b.cancellations, i) && b.invoices[i].gross > 0 ==> 0 <= OwedBy(b, i))
      && (i in b.cancellations || b.invoices[i].gross <= 0 ==> Net(b, p, i) == 0)
  {
    hide Sound, Run;
    SoundMidway(After(rank, ops));
    MidwaySums(After(rank, ops));
    NetWithinSettled(After(rank, ops), p, i);
  }

  /** After every run at most one invoice of a chain owes: the one that stands, as the walk finds it. */
  lemma OneInvoiceOwes(rank: (Table, nat) -> int, ops: seq<Op>, i: Id, j: Id)
    requires var b := After(rank, ops);
      SameChain(b.invoices, i, j) && OwedBy(b, i) > 0 && OwedBy(b, j) > 0
    ensures i == j && StandingOf(After(rank, ops), After(rank, ops).invoices[i].chainId) == Some(i)
  {
    hide Sound, Run;
    var b := After(rank, ops);
    SoundMidway(b);
    MidwayIs(b, []);
    OnlyTheStandingOwes(b.invoices, b.cancellations, i, SettledOn(b, i));
    OnlyTheStandingOwes(b.invoices, b.cancellations, j, SettledOn(b, j));
  }

  // ---- the life of a refund --------------------------------------------------------------

  /** After every run a refund either ended, holding nothing of any credit and with no case open, or is
      paid out in full: of credits, and as its case. */
  lemma RefundLife(rank: (Table, nat) -> int, ops: seq<Op>, f: Id)
    requires f < |After(rank, ops).refunds|
    ensures var b := After(rank, ops);
      if Ended(b.refunds[f].status) then
        && (forall c: Id :: Took(b, c, ByRefund(f)) == 0)
        && (forall k :: 0 <= k < |b.cases| && b.cases[k].about == ByRefund(f) ==> b.cases[k].closed)
      else
        b.refunds[f].amount == Sum(b.entries, EntryBy(ByRefund(f))) + Sum(b.cases, CaseAbout(ByRefund(f)))
  {
    hide Sound, Run;
    SoundIs(After(rank, ops));
    assert RefundLives(After(rank, ops), f);
  }

  /** What a step leaves of refund `f`: its row, and what was paid out for it. */
  ghost predicate RefundKept(b: Books, b': Books, f: Id) {
    && f < |b.refunds| && f < |b'.refunds| && b'.refunds[f] == b.refunds[f]
    && Prefix(b.entries, b'.entries)
    && forall i :: |b.entries| <= i < |b'.entries| ==> b'.entries[i].source != ByRefund(f)
  }

  /** Ended is for good: no later step changes a refund that ended, or pays out or gives back for it. */
  lemma EndedAbsorbs(b: Books, op: Op, f: Id)
    requires Sound(b) && f < |b.refunds| && Ended(b.refunds[f].status)
    ensures RefundKept(b, Apply(b, op), f)
  {
    hide Sound, RecordReversal, RecordRefund, Divided, CancelledBooks;
    match op
    case Issue(id, subscriber, currency, gross) =>
    case Correct(i, c, at) =>
      if Cancel(b, i, c, at).outcome.CancelledNow? {
        CancelledFrame(b, i, c, at);
      }
    case Collect(pay) =>
      if RecordPayment(b, pay).outcome.PaidNow? {
        DividedIs(b, pay);
      }
    case CreditFor(i, at) =>
    case ReportRefund(report) => EndedStays(b, report, f);
    case PayOff(c, amount, at) =>
    case ReportReversal(report) => ReversalKeepsRefundRows(b, report, f);
    case Resolve(k) =>
  }

  /** After it ended nothing a run does, however long, changes the refund or what was paid out for it. */
  lemma {:induction false} EndedForGood(b: Books, ops: seq<Op>, f: Id)
    requires Sound(b) && f < |b.refunds| && Ended(b.refunds[f].status)
    ensures RefundKept(b, Run(b, ops), f)
  {
    hide Sound, Apply;
    if ops != [] {
      var n := |ops| - 1;
      EndedForGood(b, ops[..n], f);
      RunSound(b, ops[..n]);
      EndedAbsorbs(Run(b, ops[..n]), ops[n], f);
    }
  }

  lemma EndedStays(b: Books, report: RefundReport, f: Id)
    requires f < |b.refunds| && Ended(b.refunds[f].status)
    ensures RefundKept(b, RecordRefund(b, report).books, f)
  {
    hide EndedBooks, PaidOutOf, RefundDivision;
    var payment := Find(b.payments, PaymentRef(report.paymentRef));
    if payment.Some? && report.currency == b.payments[payment.value].currency {
      var p := payment.value;
      match Find(b.refunds, RefundRef(report.ref))
      case Some(g) =>
        if g != f && !Ended(b.refunds[g].status) && report.status != b.refunds[g].status && Ended(report.status) {
          EndedFrame(b, g, report.status, report.at);
          EndedWrites(b, g, report.status, report.at);
          OthersEntries(b, EndedBooks(b, g, report.status, report.at), TakenByRefund(b, g), RefundFailed, g, f);
        }
      case None =>
        if !Ended(report.status) {
          var added := AddRefund(b, report, p);
          var t := RefundDivision(added, p, b.payments[p].subscriber, report.currency, report.amount);
          PaidOutFrame(added, |b.refunds|, t, report.at);
          PaidOutWrites(added, |b.refunds|, t, report.at);
          OthersEntries(b, PaidOutOf(added, |b.refunds|, t, report.at), t.parts, Refunded, |b.refunds|, f);
        }
    }
  }

  lemma OthersEntries(b: Books, b': Books, parts: seq<Part>, kind: EntryKind, g: Id, f: Id)
    requires g != f && |b'.entries| == |b.entries| + |parts|
    requires forall i :: |b.entries| <= i < |b'.entries| ==>
      EntryFor(b'.entries[i], parts[i - |b.entries|], kind, ByRefund(g))
    ensures forall i :: |b.entries| <= i < |b'.entries| ==> b'.entries[i].source != ByRefund(f)
  {
    forall i | |b.entries| <= i < |b'.entries| ensures b'.entries[i].source != ByRefund(f) {
      assert EntryFor(b'.entries[i], parts[i - |b.entries|], kind, ByRefund(g));
    }
  }

  lemma ReversalKeepsRefundRows(b: Books, report: Report, f: Id)
    requires Sound(b) && f < |b.refunds|
    ensures RefundKept(b, RecordReversal(b, report).books, f)
  {
    hide Sound, Applies, HeldReversal;
    var s := RecordReversal(b, report);
    RecordReversalSound(b, report);
    if s.outcome.Applied? || s.outcome.Unchanged? {
      RecordReversalEffect(b, report);
    }
  }

  /** No credit is paid out twice for one refund, and none is given back twice. */
  lemma RefundPaysOnce(rank: (Table, nat) -> int, ops: seq<Op>, i: nat, j: nat)
    requires i < j < |After(rank, ops).entries|
    ensures var e, e' := After(rank, ops).entries[i], After(rank, ops).entries[j];
      e.source.ByRefund? && e.source == e'.source && e.credit == e'.credit ==> e.kind != e'.kind
  {
    hide Sound, Run;
    SoundIs(After(rank, ops));
    assert !SameRefundEntry(After(rank, ops).entries[i], After(rank, ops).entries[j]);
  }

  // ---- the reports of a reversal ---------------------------------------------------------

  function TotalsOf(v: Reversal): Totals {
    Totals(v.amount, v.reinstated)
  }

  /** What the reversal under `ref` recorded, nothing where there is none. */
  function TotalsUnder(b: Books, ref: Id): Totals {
    match Find(b.reversals, ReversalRef(ref))
    case Some(r) => TotalsOf(b.reversals[r])
    case None => NOTHING
  }

  ghost predicate Accepts(b: Books, op: Op, ref: Id) {
    && op.ReportReversal? && op.reversal.ref == ref
    && (RecordReversal(b, op.reversal).outcome.Applied? || RecordReversal(b, op.reversal).outcome.Unchanged?)
  }

  /** The reports under `ref` a run accepts: those that name a payment there is, in its currency, and the
      payment the reversal takes back. */
  ghost function Accepted(b: Books, ops: seq<Op>, ref: Id): seq<Totals> {
    if ops == [] then []
    else
      var n := |ops| - 1;
      var before := Accepted(b, ops[..n], ref);
      if Accepts(Run(b, ops[..n]), ops[n], ref)
      then before + [Totals(ops[n].reversal.withdrawn, ops[n].reversal.reinstated)]
      else before
  }

  lemma ReversalsStay(b: Books, op: Op)
    requires Sound(b) && !op.ReportReversal?
    ensures Apply(b, op).reversals == b.reversals
  {
    hide Sound, RecordReversal, Divided, CancelledBooks, EndedBooks, PaidOutOf, RefundDivision;
    match op
    case Issue(id, subscriber, currency, gross) =>
    case Correct(i, c, at) =>
      if Cancel(b, i, c, at).outcome.CancelledNow? {
        CancelledFrame(b, i, c, at);
      }
    case Collect(pay) =>
      if RecordPayment(b, pay).outcome.PaidNow? {
        DividedIs(b, pay);
      }
    case CreditFor(i, at) =>
    case ReportRefund(report) => RefundKeepsReversals(b, report);
    case PayOff(c, amount, at) =>
    case Resolve(k) =>
  }

  lemma RefundKeepsReversals(b: Books, report: RefundReport)
    ensures RecordRefund(b, report).books.reversals == b.reversals
  {
    hide EndedBooks, PaidOutOf, RefundDivision;
    var payment := Find(b.payments, PaymentRef(report.paymentRef));
    if payment.Some? {
      var p := payment.value;
      match Find(b.refunds, RefundRef(report.ref))
      case Some(g) => EndedFrame(b, g, report.status, report.at);
      case None =>
        PaidOutFrame(AddRefund(b, report, p), |b.refunds|,
                     RefundDivision(AddRefund(b, report, p), p, b.payments[p].subscriber, report.currency, report.amount),
                     report.at);
    }
  }

  ghost predicate UniqueRefs(rows: seq<Reversal>) {
    forall i, j :: 0 <= i < j < |rows| ==> rows[i].ref != rows[j].ref
  }

  lemma FoundIs(rows: seq<Reversal>, r: Id)
    requires UniqueRefs(rows) && r < |rows|
    ensures Find(rows, ReversalRef(rows[r].ref)) == Some(r)
  {
    var found := Find(rows, ReversalRef(rows[r].ref));
    assert ReversalRef(rows[r].ref)(rows[r]);
  }

  lemma SameFound(b: Books, b': Books, ref: Id)
    requires UniqueRefs(b.reversals) && UniqueRefs(b'.reversals) && |b'.reversals| == |b.reversals|
    requires forall i :: 0 <= i < |b.reversals| ==> b'.reversals[i].ref == b.reversals[i].ref
    ensures Find(b'.reversals, ReversalRef(ref)) == Find(b.reversals, ReversalRef(ref))
  {
    if Find(b.reversals, ReversalRef(ref)).Some? {
      FoundIs(b'.reversals, Find(b.reversals, ReversalRef(ref)).value);
    } else {
      forall i | 0 <= i < |b'.reversals| ensures !ReversalRef(ref)(b'.reversals[i]) {
        assert !ReversalRef(ref)(b.reversals[i]);
      }
    }
  }

  /** An accepted report is heard under its reference, and under no other. */
  lemma ReportHeard(b: Books, report: Report, ref: Id)
    requires Sound(b)
    ensures TotalsUnder(RecordReversal(b, report).books, ref)
         == if Accepts(b, ReportReversal(report), ref)
            then Hear(TotalsUnder(b, ref), Totals(report.withdrawn, report.reinstated))
            else TotalsUnder(b, ref)
  {
    hide Sound, RecordReversal, ReversalWrites;
    var s := RecordReversal(b, report);
    RecordReversalSound(b, report);
    if s.outcome.Applied? || s.outcome.Unchanged? {
      RecordReversalEffect(b, report);
      SoundIs(b);
      SoundIs(s.books);
      hide Conserved, Balanced, InRanges, FromCreditsOk, RefundsLive, RefundEntriesUnique, Midway, RowsOk;
      var r := s.outcome.reversal;
      var p := Find(b.payments, PaymentRef(report.paymentRef)).value;
      var held := if r < |b.reversals| then b else AddReversal(b, report.ref, p);
      HeldFound(b, held, s.books, r, report, ref);
    }
  }

  lemma HeldFound(b: Books, held: Books, b': Books, r: Id, report: Report, ref: Id)
    requires UniqueRefs(b.reversals) && UniqueRefs(b'.reversals)
    requires RecordsReport(held, b', r, report) && held.reversals[r].ref == report.ref
    requires held == b || (held.reversals == b.reversals + [held.reversals[r]] && r == |b.reversals|
                           && TotalsOf(held.reversals[r]) == NOTHING)
    ensures TotalsUnder(b', ref)
         == if report.ref == ref then Hear(TotalsUnder(b, ref), Totals(report.withdrawn, report.reinstated))
            else TotalsUnder(b, ref)
  {
    assert UniqueRefs(held.reversals) by {
      forall i, j | 0 <= i < j < |held.reversals| ensures held.reversals[i].ref != held.reversals[j].ref {
        assert b'.reversals[i].ref == held.reversals[i].ref && b'.reversals[j].ref == held.reversals[j].ref;
      }
    }
    SameFound(held, b', ref);
    if held != b {
      NewFound(b, held, ref);
    }
    if report.ref == ref {
      FoundIs(held.reversals, r);
    }
  }

  lemma NewFound(b: Books, held: Books, ref: Id)
    requires |held.reversals| == |b.reversals| + 1 && held.reversals[..|b.reversals|] == b.reversals
    requires TotalsOf(held.reversals[|b.reversals|]) == NOTHING && UniqueRefs(held.reversals)
    ensures TotalsUnder(held, ref) == TotalsUnder(b, ref)
  {
    var n := |b.reversals|;
    forall i | 0 <= i < n && held.reversals[n].ref == ref ensures !ReversalRef(ref)(b.reversals[i]) {
      assert held.reversals[i] == b.reversals[i];
    }
  }

  /** Whatever else a run holds, what a reversal recorded is what the accepted reports of it come to. */
  lemma {:induction false} ReportsHeard(b: Books, ops: seq<Op>, ref: Id)
    requires Sound(b)
    ensures TotalsUnder(Run(b, ops), ref) == HearAll(TotalsUnder(b, ref), Accepted(b, ops, ref))
  {
    hide Sound, TotalsUnder, Accepts;
    if ops != [] {
      var n := |ops| - 1;
      var before := Run(b, ops[..n]);
      ReportsHeard(b, ops[..n], ref);
      RunSound(b, ops[..n]);
      StepHeard(before, ops[n], ref);
      hide Run, Apply;
      if Accepts(before, ops[n], ref) {
        AcceptsIs(before, ops[n], ref);
        var accepted := Accepted(b, ops[..n], ref);
        var t := Totals(ops[n].reversal.withdrawn, ops[n].reversal.reinstated);
        assert (accepted + [t])[..|accepted|] == accepted;
      }
    }
  }

  lemma AcceptsIs(b: Books, op: Op, ref: Id)
    requires Accepts(b, op, ref)
    ensures op.ReportReversal?
  {
  }

  lemma StepHeard(b: Books, op: Op, ref: Id)
    requires Sound(b)
    ensures TotalsUnder(Apply(b, op), ref)
         == if Accepts(b, op, ref)
            then Hear(TotalsUnder(b, ref), Totals(op.reversal.withdrawn, op.reversal.reinstated))
            else TotalsUnder(b, ref)
  {
    hide Sound, RecordReversal;
    if op.ReportReversal? {
      ReportHeard(b, op.reversal, ref);
    } else {
      ReversalsStay(b, op);
    }
  }

  /** Reports that give back no more than they withdraw come to the largest of each, in any order, however
      often each arrives, and whatever other steps come between them. */
  lemma ReportsComeToLargest(rank: (Table, nat) -> int, ops: seq<Op>, ref: Id)
    requires GivenWithinWithdrawn(Accepted(Empty(rank), ops, ref))
    ensures var accepted := Accepted(Empty(rank), ops, ref);
      TotalsUnder(After(rank, ops), ref)
        == Totals(LargestWithdrawn(accepted), LargestReinstated(accepted))
  {
    hide Sound, Accepted;
    EmptySound(rank);
    ReportsHeard(Empty(rank), ops, ref);
    HeardInAnyOrder(Accepted(Empty(rank), ops, ref));
  }

  /** Two runs that accept the same reports of a reversal, in any order, record the same of it. */
  lemma RunsCommute(rank: (Table, nat) -> int, ops: seq<Op>, others: seq<Op>, ref: Id)
    requires var a, a' := Accepted(Empty(rank), ops, ref), Accepted(Empty(rank), others, ref);
      GivenWithinWithdrawn(a) && GivenWithinWithdrawn(a') && forall t :: t in a <==> t in a'
    ensures TotalsUnder(After(rank, ops), ref) == TotalsUnder(After(rank, others), ref)
  {
    hide Sound, Accepted;
    EmptySound(rank);
    ReportsHeard(Empty(rank), ops, ref);
    ReportsHeard(Empty(rank), others, ref);
    ReportsCommute(Accepted(Empty(rank), ops, ref), Accepted(Empty(rank), others, ref));
  }
}
