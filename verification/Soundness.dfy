/** What every commit keeps of the books: rows that refer to what is there, credits that owe neither
    less than nothing nor more than they hold, invoices settled by no more than they ask for, and sums
    that balance. */
module Soundness {
  import opened Sums
  import opened PaymentRules
  import opened InvoiceChain
  import opened Books

  // ---- rows ------------------------------------------------------------------------------

  predicate ByPayment(o: Origin) {
    o.FromPayment? || o.FromCancellation?
  }

  ghost predicate PaymentOk(b: Books, p: Payment) {
    && p.invoice in b.invoices
    && p.subscriber == b.invoices[p.invoice].subscriber
    && p.currency == b.invoices[p.invoice].currency
  }

  /** Whether `i` lies in the chain payment `p` was collected for. */
  predicate InChainOf(b: Books, p: Id, i: Id) {
    p < |b.payments| && SameChain(b.invoices, i, b.payments[p].invoice)
  }

  /** Whether payment `p` may settle invoice `i`: one of its chain that is no cancellation invoice. */
  predicate MaySettle(b: Books, p: Id, i: Id) {
    InChainOf(b, p, i) && b.invoices[i].step % 2 == 0
  }

  ghost predicate ReversalOk(b: Books, r: Reversal) {
    r.payment < |b.payments|
  }

  /** A payment settles only invoices of its own chain, no cancellation invoice, and a reversal's settlements are its payment's. */
  ghost predicate SettlementOk(b: Books, s: Settlement) {
    && MaySettle(b, s.payment, s.invoice)
    && s.amount > 0
    && (s.reversal.Some? <==> s.kind == Reversed || s.kind == Reinstated)
    && (s.reversal.Some? ==> s.reversal.value < |b.reversals| && b.reversals[s.reversal.value].payment == s.payment)
  }

  ghost predicate CreditOk(b: Books, c: Credit) {
    && c.amount > 0
    && (ByPayment(c.origin) ==>
          && c.origin.payment < |b.payments|
          && c.subscriber == b.payments[c.origin.payment].subscriber
          && c.currency == b.payments[c.origin.payment].currency)
    && (c.origin.FromReversal? ==> c.origin.reversal < |b.reversals|)
  }

  /** Whether credit `c` was left by a payment of the chain of the payment reversal `r` takes back. */
  predicate InReach(b: Books, r: Id, c: Id) {
    && r < |b.reversals|
    && c < |b.credits|
    && ByPayment(b.credits[c].origin)
    && b.credits[c].origin.payment < |b.payments|
    && InChainOf(b, b.reversals[r].payment, b.payments[b.credits[c].origin.payment].invoice)
  }

  ghost predicate EntryOk(b: Books, e: Entry) {
    && e.credit < |b.credits|
    && e.amount >= 0
    && (e.source.ByReversal? <==> e.kind == Taken || e.kind == TakenBack)
    && (e.source.ByReversal? ==> InReach(b, e.source.reversal, e.credit))
    && (e.source.ByRefund? <==> e.kind == Refunded || e.kind == RefundFailed)
    && (e.source.ByRefund? ==> e.source.refund < |b.refunds|)
  }

  ghost predicate CaseOk(b: Books, k: Case) {
    && k.amount > 0
    && (k.about.ByReversal? ==> k.about.reversal < |b.reversals|)
    && (k.about.ByRefund? ==> k.about.refund < |b.refunds|)
  }

  ghost predicate RefundOk(b: Books, f: Refund) {
    f.payment < |b.payments|
  }

  ghost predicate PaymentsOk(b: Books) {
    forall i :: 0 <= i < |b.payments| ==> PaymentOk(b, b.payments[i])
  }

  ghost predicate ReversalsOk(b: Books) {
    forall i :: 0 <= i < |b.reversals| ==> ReversalOk(b, b.reversals[i])
  }

  ghost predicate SettlementsOk(b: Books) {
    forall i :: 0 <= i < |b.settlements| ==> SettlementOk(b, b.settlements[i])
  }

  ghost predicate CreditsOk(b: Books) {
    forall i :: 0 <= i < |b.credits| ==> CreditOk(b, b.credits[i])
  }

  ghost predicate EntriesOk(b: Books) {
    forall i :: 0 <= i < |b.entries| ==> EntryOk(b, b.entries[i])
  }

  ghost predicate CasesOk(b: Books) {
    forall i :: 0 <= i < |b.cases| ==> CaseOk(b, b.cases[i])
  }

  ghost predicate RefundsOk(b: Books) {
    forall i :: 0 <= i < |b.refunds| ==> RefundOk(b, b.refunds[i])
  }

  /** Every row refers to rows that are there, of one chain. */
  ghost predicate RowsOk(b: Books) {
    && Chained(b.invoices, b.cancellations)
    && PaymentsOk(b) && ReversalsOk(b) && SettlementsOk(b) && CreditsOk(b) && EntriesOk(b) && CasesOk(b)
    && RefundsOk(b)
  }

  /** `b'` keeps what rows refer to: it adds rows, and changes of none what another refers to. */
  ghost predicate Grows(b: Books, b': Books) {
    && (forall i :: i in b.invoices ==> i in b'.invoices && b'.invoices[i] == b.invoices[i])
    && |b.payments| <= |b'.payments|
    && (forall i :: 0 <= i < |b.payments| ==> b'.payments[i] == b.payments[i])
    && |b.credits| <= |b'.credits|
    && (forall i :: 0 <= i < |b.credits| ==> b'.credits[i] == b.credits[i])
    && |b.reversals| <= |b'.reversals|
    && (forall i :: 0 <= i < |b.reversals| ==> b'.reversals[i].payment == b.reversals[i].payment)
    && |b.refunds| <= |b'.refunds|
    && (forall i :: 0 <= i < |b.refunds| ==> b'.refunds[i].payment == b.refunds[i].payment)
  }

  ghost predicate Prefix<T>(rows: seq<T>, rows': seq<T>) {
    |rows| <= |rows'| && forall i :: 0 <= i < |rows| ==> rows'[i] == rows[i]
  }

  lemma KeepsSettlements(b: Books, b': Books)
    requires Grows(b, b') && SettlementsOk(b) && Prefix(b.settlements, b'.settlements)
    requires forall i :: |b.settlements| <= i < |b'.settlements| ==> SettlementOk(b', b'.settlements[i])
    ensures SettlementsOk(b')
  {
    forall i | 0 <= i < |b'.settlements| ensures SettlementOk(b', b'.settlements[i]) {
      if i < |b.settlements| {
        assert SettlementOk(b, b.settlements[i]);
      }
    }
  }

  lemma KeepsCredits(b: Books, b': Books)
    requires Grows(b, b') && CreditsOk(b)
    requires forall i :: |b.credits| <= i < |b'.credits| ==> CreditOk(b', b'.credits[i])
    ensures CreditsOk(b')
  {
    forall i | 0 <= i < |b'.credits| ensures CreditOk(b', b'.credits[i]) {
      if i < |b.credits| {
        assert CreditOk(b, b.credits[i]);
      }
    }
  }

  lemma KeepsEntry(b: Books, b': Books, e: Entry)
    requires Grows(b, b') && EntryOk(b, e)
    ensures EntryOk(b', e)
  {
  }

  lemma KeepsEntries(b: Books, b': Books)
    requires Grows(b, b') && EntriesOk(b) && Prefix(b.entries, b'.entries)
    requires forall i :: |b.entries| <= i < |b'.entries| ==> EntryOk(b', b'.entries[i])
    ensures EntriesOk(b')
  {
    forall i | 0 <= i < |b'.entries| ensures EntryOk(b', b'.entries[i]) {
      if i < |b.entries| {
        KeepsEntry(b, b', b.entries[i]);
      }
    }
  }

  lemma KeepsCases(b: Books, b': Books)
    requires Grows(b, b') && CasesOk(b) && Prefix(b.cases, b'.cases)
    requires forall i :: |b.cases| <= i < |b'.cases| ==> CaseOk(b', b'.cases[i])
    ensures CasesOk(b')
  {
    forall i | 0 <= i < |b'.cases| ensures CaseOk(b', b'.cases[i]) {
      if i < |b.cases| {
        assert CaseOk(b, b.cases[i]);
      }
    }
  }

  ghost predicate NewPaymentsOk(b: Books, b': Books) {
    Prefix(b.payments, b'.payments)
    && forall i :: |b.payments| <= i < |b'.payments| ==> PaymentOk(b', b'.payments[i])
  }

  ghost predicate NewSettlementsOk(b: Books, b': Books) {
    Prefix(b.settlements, b'.settlements)
    && forall i :: |b.settlements| <= i < |b'.settlements| ==> SettlementOk(b', b'.settlements[i])
  }

  ghost predicate NewCreditsOk(b: Books, b': Books) {
    Prefix(b.credits, b'.credits)
    && forall i :: |b.credits| <= i < |b'.credits| ==> CreditOk(b', b'.credits[i])
  }

  ghost predicate NewEntriesOk(b: Books, b': Books) {
    Prefix(b.entries, b'.entries)
    && forall i :: |b.entries| <= i < |b'.entries| ==> EntryOk(b', b'.entries[i])
  }

  /** Cases keep what they are about and come to, and those added are sound. */
  ghost predicate NewCasesOk(b: Books, b': Books) {
    && |b.cases| <= |b'.cases|
    && (forall i :: 0 <= i < |b.cases| ==>
          b'.cases[i].about == b.cases[i].about && b'.cases[i].amount == b.cases[i].amount)
    && forall i :: |b.cases| <= i < |b'.cases| ==> CaseOk(b', b'.cases[i])
  }

  /** Books that keep what rows refer to, and add only sound rows, are sound row by row. */
  lemma RowsGrow(b: Books, b': Books)
    requires RowsOk(b) && Grows(b, b') && Chained(b'.invoices, b'.cancellations)
    requires NewPaymentsOk(b, b') && NewSettlementsOk(b, b') && NewCreditsOk(b, b') && NewEntriesOk(b, b')
    requires NewCasesOk(b, b') && b'.reversals == b.reversals
    requires forall i :: |b.refunds| <= i < |b'.refunds| ==> RefundOk(b', b'.refunds[i])
    ensures RowsOk(b')
  {
    hide Chained;
    KeepsSettlements(b, b');
    KeepsCredits(b, b');
    KeepsEntries(b, b');
    forall i | 0 <= i < |b'.payments| ensures PaymentOk(b', b'.payments[i]) {
      assert i < |b.payments| ==> PaymentOk(b, b.payments[i]);
    }
    forall i | 0 <= i < |b'.reversals| ensures ReversalOk(b', b'.reversals[i]) {
      assert ReversalOk(b, b.reversals[i]);
    }
    forall i | 0 <= i < |b'.cases| ensures CaseOk(b', b'.cases[i]) {
      assert i < |b.cases| ==> CaseOk(b, b.cases[i]);
    }
    forall i | 0 <= i < |b'.refunds| ensures RefundOk(b', b'.refunds[i]) {
      assert i < |b.refunds| ==> RefundOk(b, b.refunds[i]);
    }
  }

  // ---- sums ------------------------------------------------------------------------------

  /** No credit owes less than nothing once the covers still to be lifted are given back, and nothing
      that took of a credit gave back more than it took; a cover to be lifted is still held. */
  ghost predicate Solvent(b: Books, pending: seq<Cover>) {
    && (forall c :: 0 <= c < |b.credits| ==> 0 <= Open(b, c) + Sum(pending, OfCredit(c)))
    && (forall c: Id, q: Id :: Sum(pending, OfPair(c, q)) <= Took(b, c, ByReversal(q)))
    && (forall c: Id, f: Id :: 0 <= Took(b, c, ByRefund(f)))
    && (forall c: Id :: 0 <= Took(b, c, ByPayout))
  }

  /** No payment settles less than nothing anywhere. */
  ghost predicate NetsOk(b: Books) {
    forall p: Id, i: Id :: 0 <= Net(b, p, i)
  }

  /** An invoice that is not cancelled is settled by no more than it asks for; one that is cancelled
      by nothing. */
  ghost predicate Bounded(b: Books) {
    && (forall i :: i in b.invoices && i !in b.cancellations ==> SettledOn(b, i) <= Max(0, b.invoices[i].gross))
    && (forall i, p: Id :: i in b.cancellations ==> Net(b, p, i) == 0)
  }

  /** What of a payment is neither settled beside its reversals nor left as a credit. */
  function Missing(b: Books, p: Id): int
    requires p < |b.payments|
  {
    b.payments[p].amount - Sum(b.settlements, BesideReversals(p)) - Sum(b.credits, LeftFrom(p))
  }

  /** What a payment brought is what it settles beside its reversals and the credits it left. */
  ghost predicate Conserved(b: Books) {
    forall p :: 0 <= p < |b.payments| ==> Missing(b, p) == 0
  }

  /** What a reversal recorded as withdrawn and not given back is what it holds. */
  ghost predicate Balanced(b: Books) {
    forall r :: 0 <= r < |b.reversals| ==> Excess(b, r) == 0
  }

  ghost predicate InRange(b: Books, r: Reversal, cases: int) {
    0 <= r.reinstatedToCases <= r.reinstated <= r.amount && r.reinstatedToCases <= cases && 0 <= r.fromCredit
  }

  /** What was given back was withdrawn before, and what of it covered cases met cases. */
  ghost predicate InRanges(b: Books) {
    forall r :: 0 <= r < |b.reversals| ==>
      InRange(b, b.reversals[r], Sum(b.cases, CaseAbout(ByReversal(r))))
  }

  /** The reversals of a payment never took more of the credits it left than it left. */
  ghost predicate FromCreditsOk(b: Books) {
    forall p: Id :: Sum(b.reversals, FromCreditOf(p)) <= Sum(b.credits, LeftFrom(p))
  }

  // ---- refunds ---------------------------------------------------------------------------

  predicate Ended(s: RefundStatus) {
    s == Failed || s == Canceled
  }

  /** A refund paid out in full, of credits and as a case, until it ended; then it holds nothing of any
      credit, and no case about it is open. */
  ghost predicate RefundLives(b: Books, f: Id)
    requires f < |b.refunds|
  {
    if Ended(b.refunds[f].status) then
      && (forall c: Id :: Took(b, c, ByRefund(f)) == 0)
      && (forall k :: 0 <= k < |b.cases| && b.cases[k].about == ByRefund(f) ==> b.cases[k].closed)
    else
      && b.refunds[f].amount == Sum(b.entries, EntryBy(ByRefund(f))) + Sum(b.cases, CaseAbout(ByRefund(f)))
      && (forall e :: 0 <= e < |b.entries| && b.entries[e].source == ByRefund(f) ==> b.entries[e].kind == Refunded)
  }

  ghost predicate RefundsLive(b: Books) {
    forall f :: 0 <= f < |b.refunds| ==> RefundLives(b, f)
  }

  /** `refundId`, `creditId` and `kind` stand together once, as the database's index holds. */
  ghost predicate RefundEntriesUnique(b: Books) {
    forall i, j :: 0 <= i < j < |b.entries| ==> !SameRefundEntry(b.entries[i], b.entries[j])
  }

  predicate SameRefundEntry(e: Entry, e': Entry) {
    e.source.ByRefund? && e.source == e'.source && e.credit == e'.credit && e.kind == e'.kind
  }

  // ---- references ------------------------------------------------------------------------

  /** A gateway reference names one payment, one reversal, one refund. */
  ghost predicate RefsUnique(b: Books) {
    && (forall i, j :: 0 <= i < j < |b.payments| ==> b.payments[i].ref != b.payments[j].ref)
    && (forall i, j :: 0 <= i < j < |b.reversals| ==> b.reversals[i].ref != b.reversals[j].ref)
    && (forall i, j :: 0 <= i < j < |b.refunds| ==> b.refunds[i].ref != b.refunds[j].ref)
  }

  /** What holds between the writes of one reversal, with `pending` covers still to be lifted. */
  ghost predicate Midway(b: Books, pending: seq<Cover>) {
    RowsOk(b) && Solvent(b, pending) && NetsOk(b) && Bounded(b)
  }

  /** What holds of the books after every commit. */
  ghost predicate Sound(b: Books) {
    && Midway(b, [])
    && Conserved(b) && Balanced(b) && InRanges(b) && FromCreditsOk(b)
    && RefundsLive(b) && RefundEntriesUnique(b) && RefsUnique(b)
  }

  lemma SoundIs(b: Books)
    requires Sound(b)
    ensures Midway(b, []) && RowsOk(b) && CreditsOk(b)
    ensures Conserved(b) && Balanced(b) && InRanges(b) && FromCreditsOk(b)
    ensures RefundsLive(b) && RefundEntriesUnique(b) && RefsUnique(b)
  {
  }

  lemma SoundMidway(b: Books)
    requires Sound(b)
    ensures Midway(b, [])
  {
  }

  lemma MidwaySums(b: Books)
    requires Midway(b, [])
    ensures NetsOk(b) && Bounded(b)
  {
  }

  lemma SoundConserved(b: Books)
    requires Sound(b)
    ensures Conserved(b) && SettlementsOk(b) && CreditsOk(b)
  {
  }

  lemma IsSound(b: Books)
    requires Midway(b, []) && Conserved(b) && Balanced(b) && InRanges(b) && FromCreditsOk(b)
    requires RefundsLive(b) && RefundEntriesUnique(b) && RefsUnique(b)
    ensures Sound(b)
  {
  }

  lemma MidwayIs(b: Books, pending: seq<Cover>)
    requires Midway(b, pending)
    ensures RowsOk(b) && Solvent(b, pending) && NetsOk(b) && Bounded(b)
    ensures Chained(b.invoices, b.cancellations)
    ensures PaymentsOk(b) && SettlementsOk(b) && CreditsOk(b) && EntriesOk(b) && CasesOk(b) && ReversalsOk(b)
  {
  }

  lemma IsMidway(b: Books, pending: seq<Cover>)
    requires RowsOk(b) && Solvent(b, pending) && NetsOk(b) && Bounded(b)
    ensures Midway(b, pending)
  {
  }
}
