/** Writes beside every reversal and refund: what a payment or a cancellation adds leaves what
    reversals hold, what refunds paid out and what credits owe as it was. Such a write keeps every
    balance it does not itself take part in. */
module QuietWrites {
  import opened Sums
  import opened PaymentRules
  import opened InvoiceChain
  import opened Books
  import opened Soundness
  import opened ReversalFrame

  /** Only settlements beside reversals and credits of other origins are added. */
  ghost predicate Quiet(b: Books, b': Books) {
    && b'.entries == b.entries && b'.reversals == b.reversals && b'.cases == b.cases && b'.refunds == b.refunds
    && Prefix(b.payments, b'.payments)
    && Prefix(b.settlements, b'.settlements)
    && (forall i :: |b.settlements| <= i < |b'.settlements| ==> b'.settlements[i].reversal.None?)
    && Prefix(b.credits, b'.credits)
    && (forall i :: |b.credits| <= i < |b'.credits| ==>
          !b'.credits[i].origin.FromReversal? && b'.credits[i].amount > 0)
  }

  lemma QuietExcess(b: Books, b': Books, r: Id)
    requires Quiet(b, b') && r < |b.reversals|
    ensures Excess(b', r) == Excess(b, r)
  {
    SumGrown(b.settlements, b'.settlements, ReopenedBy(r));
    SumGrown(b.credits, b'.credits, CreditedFrom(r));
  }

  lemma QuietKeepsReversals(b: Books, b': Books)
    requires Quiet(b, b') && Balanced(b) && InRanges(b) && FromCreditsOk(b)
    ensures Balanced(b') && InRanges(b') && FromCreditsOk(b')
  {
    forall r | 0 <= r < |b'.reversals| ensures Excess(b', r) == 0 {
      assert Excess(b, r) == 0;
      QuietExcess(b, b', r);
    }
    forall r | 0 <= r < |b'.reversals|
      ensures InRange(b', b'.reversals[r], Sum(b'.cases, CaseAbout(ByReversal(r))))
    {
      assert InRange(b, b.reversals[r], Sum(b.cases, CaseAbout(ByReversal(r))));
    }
    forall p: Id ensures Sum(b'.reversals, FromCreditOf(p)) <= Sum(b'.credits, LeftFrom(p)) {
      assert Sum(b.reversals, FromCreditOf(p)) <= Sum(b.credits, LeftFrom(p));
      SumGrownAtLeast(b.credits, b'.credits, LeftFrom(p));
    }
  }

  lemma SameRefunds(b: Books, b': Books)
    requires b'.entries == b.entries && b'.cases == b.cases && b'.refunds == b.refunds
    requires RefundsLive(b) && RefundEntriesUnique(b)
    ensures RefundsLive(b') && RefundEntriesUnique(b')
  {
    forall f: Id | 0 <= f < |b'.refunds| ensures RefundLives(b', f) {
      assert RefundLives(b, f);
      assert forall c: Id :: Took(b', c, ByRefund(f)) == Took(b, c, ByRefund(f));
    }
  }

  lemma QuietKeepsSolvent(b: Books, b': Books)
    requires Quiet(b, b') && EntriesOk(b) && Solvent(b, [])
    ensures Solvent(b', [])
  {
    assert forall c: Id, s: Source :: Took(b', c, s) == Took(b, c, s);
    forall c | 0 <= c < |b'.credits| ensures 0 <= Open(b', c) + Sum([], OfCredit(c)) {
      if c < |b.credits| {
        assert 0 <= Open(b, c) + Sum([], OfCredit(c));
      } else {
        UntouchedCredit(b, c);
      }
    }
    forall c: Id, q: Id ensures Sum([], OfPair(c, q)) <= Took(b', c, ByReversal(q)) {
      assert Sum([], OfPair(c, q)) <= Took(b, c, ByReversal(q));
    }
  }

  /** Nothing was paid out of a credit that does not exist yet. */
  lemma UntouchedCredit(b: Books, c: Id)
    requires EntriesOk(b) && c >= |b.credits|
    ensures PaidOut(b, c) == 0
  {
    forall k | 0 <= k < |b.entries| ensures OnCredit(c)(b.entries[k]) == 0 {
      assert EntryOk(b, b.entries[k]);
    }
    SumZero(b.entries, OnCredit(c));
  }

  /** Nothing settles an invoice that does not exist yet. */
  lemma UntouchedInvoice(b: Books, i: Id)
    requires SettlementsOk(b) && i !in b.invoices
    ensures SettledOn(b, i) == 0 && forall p: Id :: Net(b, p, i) == 0
  {
    forall k | 0 <= k < |b.settlements| ensures b.settlements[k].invoice != i {
      assert SettlementOk(b, b.settlements[k]);
    }
    SumZero(b.settlements, OfInvoice(i));
    forall p: Id ensures Net(b, p, i) == 0 {
      SumZero(b.settlements, OfPaymentOn(p, i));
    }
  }

  /** Nothing is settled or left by a payment that does not exist yet. */
  lemma UntouchedPayment(b: Books, p: Id)
    requires SettlementsOk(b) && CreditsOk(b) && p >= |b.payments|
    ensures Sum(b.settlements, BesideReversals(p)) == 0 && Sum(b.credits, LeftFrom(p)) == 0
  {
    forall k | 0 <= k < |b.settlements| ensures BesideReversals(p)(b.settlements[k]) == 0 {
      assert SettlementOk(b, b.settlements[k]);
    }
    SumZero(b.settlements, BesideReversals(p));
    forall k | 0 <= k < |b.credits| ensures LeftFrom(p)(b.credits[k]) == 0 {
      assert CreditOk(b, b.credits[k]);
    }
    SumZero(b.credits, LeftFrom(p));
  }

  /** What is left to show of a quiet step: its rows, what its settlements come to, its conservation and
      its references. */
  lemma QuietSound(b: Books, b': Books)
    requires Sound(b) && Quiet(b, b')
    requires RowsOk(b') && NetsOk(b') && Bounded(b') && Conserved(b') && RefsUnique(b')
    ensures Sound(b')
  {
    hide Sound, Midway, RowsOk, Balanced, InRanges, FromCreditsOk, RefundsLive, RefundEntriesUnique, Quiet;
    hide NetsOk, Bounded, Conserved, RefsUnique, Solvent, EntriesOk, Chained, SettlementsOk, CreditsOk;
    SoundIs(b);
    MidwayIs(b, []);
    QuietKeepsReversals(b, b');
    QuietRefunds(b, b');
    QuietKeepsSolvent(b, b');
    IsMidway(b', []);
    IsSound(b');
  }

  lemma QuietRefunds(b: Books, b': Books)
    requires Quiet(b, b') && RefundsLive(b) && RefundEntriesUnique(b)
    ensures RefundsLive(b') && RefundEntriesUnique(b')
  {
    SameRefunds(b, b');
  }
}
