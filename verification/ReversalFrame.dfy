/** How far the writes of one reversal reach: rows of reversals of one chain's payments, and nothing
    else. What no reversal touches, such as what a payment brought and the life of a refund, stays. The
    relation composes, so a withdrawal that lifts any number of covers reaches no further than one. */
module ReversalFrame {
  import opened Sums
  import opened PaymentRules
  import opened InvoiceChain
  import opened Books
  import opened Soundness

  // ---- sums over a table that grew -------------------------------------------------------

  /** A table that kept its rows' worth and added rows worth nothing sums to what it did. */
  lemma {:induction false} SumGrown<T>(s: seq<T>, s': seq<T>, f: T -> int)
    requires |s| <= |s'|
    requires forall i :: 0 <= i < |s| ==> f(s'[i]) == f(s[i])
    requires forall i :: |s| <= i < |s'| ==> f(s'[i]) == 0
    ensures Sum(s', f) == Sum(s, f)
  {
    if |s'| == |s| {
      if s != [] {
        SumGrown(s[..|s| - 1], s'[..|s| - 1], f);
      }
    } else {
      SumGrown(s, s'[..|s'| - 1], f);
    }
  }

  lemma {:induction false} SumGrownAtLeast<T>(s: seq<T>, s': seq<T>, f: T -> int)
    requires |s| <= |s'|
    requires forall i :: 0 <= i < |s| ==> f(s'[i]) == f(s[i])
    requires forall i :: |s| <= i < |s'| ==> f(s'[i]) >= 0
    ensures Sum(s', f) >= Sum(s, f)
  {
    if |s'| == |s| {
      SumGrown(s, s', f);
    } else {
      SumGrownAtLeast(s, s'[..|s'| - 1], f);
    }
  }

  // ---- the reach of one reversal ---------------------------------------------------------

  /** Whether payments `q` and `p` were collected for invoices of one chain. */
  predicate OneChain(b: Books, q: Id, p: Id) {
    && q < |b.payments| && p < |b.payments|
    && SameChain(b.invoices, b.payments[q].invoice, b.payments[p].invoice)
  }

  /** Whether reversal `r` takes back a payment of the chain of `p`. */
  predicate OfChain(b: Books, r: Id, p: Id) {
    r < |b.reversals| && OneChain(b, b.reversals[r].payment, p)
  }

  predicate BySourceIn(b: Books, s: Source, p: Id) {
    s.ByReversal? && OfChain(b, s.reversal, p)
  }

  ghost predicate SameBase(b: Books, b': Books) {
    && b'.invoices == b.invoices && b'.cancellations == b.cancellations && b'.payments == b.payments
    && b'.refunds == b.refunds && b'.rank == b.rank && |b'.reversals| == |b.reversals|
    && forall i :: 0 <= i < |b.reversals| ==>
         b'.reversals[i].ref == b.reversals[i].ref && b'.reversals[i].payment == b.reversals[i].payment
  }

  ghost predicate ReversalsWritten(b: Books, b': Books, p: Id) {
    && |b'.reversals| == |b.reversals|
    && forall i :: 0 <= i < |b.reversals| ==> b'.reversals[i] == b.reversals[i] || OfChain(b, i, p)
  }

  ghost predicate CreditsWritten(b: Books, b': Books, p: Id) {
    && Prefix(b.credits, b'.credits)
    && forall i :: |b.credits| <= i < |b'.credits| ==>
         b'.credits[i].origin.FromReversal? && OfChain(b, b'.credits[i].origin.reversal, p)
  }

  ghost predicate SettlementsWritten(b: Books, b': Books, p: Id) {
    && Prefix(b.settlements, b'.settlements)
    && forall i :: |b.settlements| <= i < |b'.settlements| ==>
         && b'.settlements[i].reversal.Some? && OfChain(b, b'.settlements[i].reversal.value, p)
         && InChainOf(b, p, b'.settlements[i].invoice)
  }

  ghost predicate EntriesWritten(b: Books, b': Books, p: Id) {
    && Prefix(b.entries, b'.entries)
    && forall i :: |b.entries| <= i < |b'.entries| ==> BySourceIn(b, b'.entries[i].source, p)
  }

  /** A case is closed, but neither lost nor changed otherwise. */
  predicate Kept(k: Case, k': Case) {
    k' == k || k' == k.(closed := true)
  }

  ghost predicate CasesWritten(b: Books, b': Books, p: Id) {
    && |b.cases| <= |b'.cases|
    && (forall i :: 0 <= i < |b.cases| ==>
          && Kept(b.cases[i], b'.cases[i])
          && (b'.cases[i] == b.cases[i] || BySourceIn(b, b.cases[i].about, p)))
    && forall i :: |b.cases| <= i < |b'.cases| ==> BySourceIn(b, b'.cases[i].about, p)
  }

  /** All that was written from `b` to `b'` are rows of reversals of payments of the chain of `p`, on
      invoices of that chain. */
  ghost predicate ReversalWrites(b: Books, b': Books, p: Id) {
    && SameBase(b, b')
    && ReversalsWritten(b, b', p) && CreditsWritten(b, b', p) && SettlementsWritten(b, b', p)
    && EntriesWritten(b, b', p) && CasesWritten(b, b', p)
  }

  lemma SameReach(b: Books, b': Books, p: Id)
    requires SameBase(b, b')
    ensures forall r: Id :: OfChain(b', r, p) <==> OfChain(b, r, p)
    ensures forall s: Source :: BySourceIn(b', s, p) <==> BySourceIn(b, s, p)
    ensures forall i: Id :: InChainOf(b', p, i) <==> InChainOf(b, p, i)
  {
  }

  lemma WritesTwice(b: Books, b': Books, b'': Books, p: Id)
    requires ReversalWrites(b, b', p) && ReversalWrites(b', b'', p)
    ensures ReversalWrites(b, b'', p)
  {
    SameReach(b, b', p);
    assert SameBase(b, b'');
    assert ReversalsWritten(b, b'', p);
    assert CreditsWritten(b, b'', p);
    assert SettlementsWritten(b, b'', p);
    assert EntriesWritten(b, b'', p);
    assert CasesWritten(b, b'', p);
  }

  lemma WritesNothing(b: Books, p: Id)
    ensures ReversalWrites(b, b, p)
  {
  }

  // ---- what stays ------------------------------------------------------------------------

  lemma ReversalKeepsConserved(b: Books, b': Books, p: Id)
    requires ReversalWrites(b, b', p) && Conserved(b)
    ensures Conserved(b')
  {
    forall q: Id | 0 <= q < |b'.payments|
      ensures Missing(b', q) == 0
    {
      assert Missing(b, q) == 0;
      SumGrown(b.settlements, b'.settlements, BesideReversals(q));
      SumGrown(b.credits, b'.credits, LeftFrom(q));
    }
  }

  lemma ReversalKeepsLeft(b: Books, b': Books, p: Id, q: Id)
    requires ReversalWrites(b, b', p)
    ensures Sum(b'.credits, LeftFrom(q)) == Sum(b.credits, LeftFrom(q))
  {
    SumGrown(b.credits, b'.credits, LeftFrom(q));
  }

  lemma ReversalKeepsRefund(b: Books, b': Books, p: Id, f: Id)
    requires ReversalWrites(b, b', p) && f < |b.refunds| && RefundLives(b, f)
    ensures RefundLives(b', f)
  {
    SumGrown(b.entries, b'.entries, EntryBy(ByRefund(f)));
    SumGrown(b.cases, b'.cases, CaseAbout(ByRefund(f)));
    forall c: Id ensures Took(b', c, ByRefund(f)) == Took(b, c, ByRefund(f)) {
      SumGrown(b.entries, b'.entries, OnCreditBy(c, ByRefund(f)));
    }
  }

  lemma ReversalKeepsRefunds(b: Books, b': Books, p: Id)
    requires ReversalWrites(b, b', p) && RefundsLive(b) && RefundEntriesUnique(b) && RefsUnique(b)
    ensures RefundsLive(b') && RefundEntriesUnique(b') && RefsUnique(b')
  {
    forall f: Id | 0 <= f < |b'.refunds| ensures RefundLives(b', f) {
      ReversalKeepsRefund(b, b', p, f);
    }
    forall i, j | 0 <= i < j < |b'.entries| ensures !SameRefundEntry(b'.entries[i], b'.entries[j]) {
      if j < |b.entries| {
        assert !SameRefundEntry(b.entries[i], b.entries[j]);
      }
    }
  }

  lemma CasesOnlyGrow(b: Books, b': Books, p: Id, s: Source)
    requires CasesWritten(b, b', p) && CasesOk(b')
    ensures Sum(b'.cases, CaseAbout(s)) >= Sum(b.cases, CaseAbout(s))
  {
    forall i | |b.cases| <= i < |b'.cases| ensures CaseAbout(s)(b'.cases[i]) >= 0 {
      assert CaseOk(b', b'.cases[i]);
    }
    SumGrownAtLeast(b.cases, b'.cases, CaseAbout(s));
  }

  // ---- one chain, one subscriber ---------------------------------------------------------

  /** What a reversal reaches is of one subscriber: the credits it writes on are among those its turn
      holds. */
  lemma OneChainOneSubscriber(b: Books, r: Id, p: Id, c: Id)
    requires RowsOk(b) && OfChain(b, r, p) && InReach(b, r, c)
    ensures b.credits[c].subscriber == b.payments[p].subscriber
    ensures b.credits[c].currency == b.payments[p].currency
  {
    assert CreditOk(b, b.credits[c]);
    assert PaymentOk(b, b.payments[p]);
    assert PaymentOk(b, b.payments[b.credits[c].origin.payment]);
    assert PaymentOk(b, b.payments[b.reversals[r].payment]);
  }
}
