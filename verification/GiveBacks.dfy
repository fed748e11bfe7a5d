/** A give-back from its first write to its last: it returns no more to anything than was taken of it
    or is owed on it, nothing of it goes nowhere, and the reversal still holds what it recorded. */
module GiveBacks {
  import opened Sums
  import opened PaymentRules
  import opened InvoiceChain
  import opened Books
  import opened Soundness
  import opened ReversalFrame
  import opened QuietWrites
  import opened Brought
  import opened Withdrawals
  import opened LiftedCovers
  import opened Reinstatements

  // ---- closing cases ---------------------------------------------------------------------

  lemma CloseCasesKeeps(b: Books, about: Source, picked: Id -> bool)
    ensures var b' := CloseCases(b, about, picked);
      && b' == b.(cases := b'.cases) && |b'.cases| == |b.cases|
      && forall k: Id :: k < |b.cases| ==>
           b'.cases[k] == if b.cases[k].about == about && picked(k)
                          then b.cases[k].(closed := true) else b.cases[k]
  {
  }

  /** Closing a case changes no amount. */
  lemma CloseCasesSums(b: Books, about: Source, picked: Id -> bool, s: Source)
    ensures Sum(CloseCases(b, about, picked).cases, CaseAbout(s)) == Sum(b.cases, CaseAbout(s))
  {
    SumGrown(b.cases, CloseCases(b, about, picked).cases, CaseAbout(s));
  }

  lemma CloseCasesMidway(b: Books, about: Source, picked: Id -> bool)
    requires Midway(b, [])
    ensures Midway(CloseCases(b, about, picked), [])
  {
    hide Midway, CloseCases;
    MidwayCases(b, []);
    var b' := CloseCases(b, about, picked);
    CloseCasesKeeps(b, about, picked);
    forall k | 0 <= k < |b'.cases| ensures CaseOk(b', b'.cases[k]) {
      assert CaseOk(b, b.cases[k]);
    }
    MidwayStays(b, b', []);
  }

  // ---- the writes ------------------------------------------------------------------------

  lemma GiveBackFrame(b: Books, r: Id, p: Id, credits: seq<Part>, invoices: seq<Part>, credited: int, at: int)
    requires p < |b.payments|
    ensures var b' := GiveBack(b, r, p, credits, invoices, credited, at);
      && b' == b.(entries := b'.entries, settlements := b'.settlements, credits := b'.credits)
      && b'.entries == WriteEntries(b, credits, TakenBack, ByReversal(r), at).entries
      && b'.settlements == WriteSettlements(b, invoices, p, Reinstated, Some(r), at).settlements
      && b'.credits == if credited > 0
           then b.credits + [Credit(b.payments[p].subscriber, b.payments[p].currency, credited,
                                    FromReversal(r), at, b.rank(Credits, |b.credits|))]
           else b.credits
  {
    EntriesFrame(b, credits, TakenBack, ByReversal(r), at);
    var b1 := WriteEntries(b, credits, TakenBack, ByReversal(r), at);
    SettlementsFrame(b1, invoices, p, Reinstated, Some(r), at);
    SettlementsIgnoreEntries(b, b1.entries, invoices, p, Reinstated, Some(r), at);
  }

  /** What returns to credits, to invoices and as a credit is what the reversal holds less. */
  lemma GiveBackExcess(
    b: Books, r: Id, p: Id, credits: seq<Part>, invoices: seq<Part>, credited: nat, at: int, q: Id)
    requires p < |b.payments| && q < |b.reversals|
    ensures var b' := GiveBack(b, r, p, credits, invoices, credited, at);
      && |b'.reversals| == |b.reversals|
      && Excess(b', q) == Excess(b, q) - if q == r then Total(credits) + Total(invoices) + credited else 0
  {
    GiveBackFrame(b, r, p, credits, invoices, credited, at);
    EntriesInAll(b, credits, TakenBack, ByReversal(r), at, ByReversal(q));
    ReversalSettlements(b, invoices, p, Reinstated, r, at, q);
    SumAppend(b.credits, Credit(b.payments[p].subscriber, b.payments[p].currency, credited, FromReversal(r), at,
                                b.rank(Credits, |b.credits|)));
  }

  ghost predicate MayGiveBack(b: Books, r: Id, p: Id, credits: seq<Part>, invoices: seq<Part>) {
    && r < |b.reversals| && b.reversals[r].payment == p && p < |b.payments|
    && Positive(credits) && Positive(invoices)
    && (forall c: Id :: On(credits, c) <= Took(b, c, ByReversal(r)))
    && (forall i :: Names(invoices, i) ==> MaySettle(b, p, i))
    && (forall i :: On(invoices, i) <= Max(0, OwedAt(b, i)))
  }

  lemma GiveBackWrites(
    b: Books, r: Id, p: Id, credits: seq<Part>, invoices: seq<Part>, credited: int, at: int)
    requires MayGiveBack(b, r, p, credits, invoices) && OfChain(b, r, p)
    ensures ReversalWrites(b, GiveBack(b, r, p, credits, invoices, credited, at), p)
    ensures GiveBack(b, r, p, credits, invoices, credited, at).reversals == b.reversals
  {
    var b' := GiveBack(b, r, p, credits, invoices, credited, at);
    GiveBackFrame(b, r, p, credits, invoices, credited, at);
    EntriesFrame(b, credits, TakenBack, ByReversal(r), at);
    SettlementsFrame(b, invoices, p, Reinstated, Some(r), at);
    hide GiveBack, MayGiveBack;
    forall k | 0 <= k < |b'.entries|
      ensures k < |b.entries| ==> b'.entries[k] == b.entries[k]
      ensures k >= |b.entries| ==> BySourceIn(b, b'.entries[k].source, p)
    {
      EntriesFollow(b, credits, TakenBack, ByReversal(r), at, k);
    }
    assert forall i :: Names(invoices, i) ==> InChainOf(b, p, i) by {
      MayGiveBackChain(b, r, p, credits, invoices);
    }
    forall k | 0 <= k < |b'.settlements|
      ensures k < |b.settlements| ==> b'.settlements[k] == b.settlements[k]
      ensures k >= |b.settlements| ==>
        && b'.settlements[k].reversal == Some(r) && InChainOf(b, p, b'.settlements[k].invoice)
    {
      SettlementsFollow(b, invoices, p, Reinstated, Some(r), at, k);
      if k >= |b.settlements| {
        assert Names(invoices, invoices[k - |b.settlements|].id);
      }
    }
  }

  lemma MayGiveBackChain(b: Books, r: Id, p: Id, credits: seq<Part>, invoices: seq<Part>)
    requires MayGiveBack(b, r, p, credits, invoices)
    ensures forall i :: Names(invoices, i) ==> InChainOf(b, p, i)
  {
  }

  lemma GiveBackKeepsRows(
    b: Books, r: Id, p: Id, credits: seq<Part>, invoices: seq<Part>, credited: int, at: int)
    requires RowsOk(b) && MayGiveBack(b, r, p, credits, invoices)
    ensures RowsOk(GiveBack(b, r, p, credits, invoices, credited, at))
  {
    hide GiveBack, Chained;
    var b' := GiveBack(b, r, p, credits, invoices, credited, at);
    GiveBackFrame(b, r, p, credits, invoices, credited, at);
    assert Grows(b, b');
    GiveBackEntriesOk(b, r, p, credits, invoices, credited, at);
    GiveBackSettlementsOk(b, r, p, credits, invoices, credited, at);
    OtherRowsStay(b, b');
    GiveBackCreditsOk(b, r, p, credits, invoices, credited, at);
  }

  lemma OtherRowsStay(b: Books, b': Books)
    requires RowsOk(b) && Grows(b, b')
    requires b'.invoices == b.invoices && b'.cancellations == b.cancellations && b'.payments == b.payments
    requires b'.cases == b.cases && b'.reversals == b.reversals && b'.refunds == b.refunds
    ensures PaymentsOk(b') && CasesOk(b') && RefundsOk(b') && ReversalsOk(b')
    ensures Chained(b'.invoices, b'.cancellations)
  {
    hide Chained;
    SameCredits(b, b'.(credits := b.credits));
    KeepsCases(b, b');
  }

  lemma GiveBackCreditsOk(
    b: Books, r: Id, p: Id, credits: seq<Part>, invoices: seq<Part>, credited: int, at: int)
    requires RowsOk(b) && MayGiveBack(b, r, p, credits, invoices)
    ensures CreditsOk(GiveBack(b, r, p, credits, invoices, credited, at))
  {
    hide GiveBack, Chained;
    GiveBackFrame(b, r, p, credits, invoices, credited, at);
    KeepsCredits(b, GiveBack(b, r, p, credits, invoices, credited, at));
  }

  lemma GiveBackEntriesOk(
    b: Books, r: Id, p: Id, credits: seq<Part>, invoices: seq<Part>, credited: int, at: int)
    requires RowsOk(b) && MayGiveBack(b, r, p, credits, invoices)
    ensures EntriesOk(GiveBack(b, r, p, credits, invoices, credited, at))
  {
    hide GiveBack, Chained;
    var b' := GiveBack(b, r, p, credits, invoices, credited, at);
    GiveBackFrame(b, r, p, credits, invoices, credited, at);
    EntriesFrame(b, credits, TakenBack, ByReversal(r), at);
    forall k | 0 <= k < |b'.entries|
      ensures k < |b.entries| ==> b'.entries[k] == b.entries[k]
      ensures k >= |b.entries| ==> EntryOk(b', b'.entries[k])
    {
      EntriesFollow(b, credits, TakenBack, ByReversal(r), at, k);
      if k >= |b.entries| {
        var c := credits[k - |b.entries|].id;
        assert Names(credits, c);
        PositiveNamed(credits, c);
        TookByEntry(b, c, r);
      }
    }
    KeepsEntries(b, b');
  }

  lemma GiveBackSettlementsOk(
    b: Books, r: Id, p: Id, credits: seq<Part>, invoices: seq<Part>, credited: int, at: int)
    requires RowsOk(b) && MayGiveBack(b, r, p, credits, invoices)
    ensures SettlementsOk(GiveBack(b, r, p, credits, invoices, credited, at))
  {
    hide GiveBack, Chained;
    var b' := GiveBack(b, r, p, credits, invoices, credited, at);
    GiveBackFrame(b, r, p, credits, invoices, credited, at);
    SettlementsFrame(b, invoices, p, Reinstated, Some(r), at);
    forall k | 0 <= k < |b'.settlements|
      ensures k < |b.settlements| ==> b'.settlements[k] == b.settlements[k]
      ensures k >= |b.settlements| ==> SettlementOk(b', b'.settlements[k])
    {
      SettlementsFollow(b, invoices, p, Reinstated, Some(r), at, k);
      if k >= |b.settlements| {
        assert Names(invoices, invoices[k - |b.settlements|].id);
      }
    }
    KeepsSettlements(b, b');
  }

  lemma GiveBackKeepsNets(
    b: Books, r: Id, p: Id, credits: seq<Part>, invoices: seq<Part>, credited: int, at: int)
    requires NetsOk(b) && Bounded(b) && MayGiveBack(b, r, p, credits, invoices)
    ensures NetsOk(GiveBack(b, r, p, credits, invoices, credited, at))
    ensures Bounded(GiveBack(b, r, p, credits, invoices, credited, at))
  {
    hide GiveBack;
    var b' := GiveBack(b, r, p, credits, invoices, credited, at);
    GiveBackFrame(b, r, p, credits, invoices, credited, at);
    PositiveOn(invoices);
    forall q: Id, i: Id
      ensures Net(b, q, i) <= Net(b', q, i)
      ensures i in b.cancellations && i in b.invoices ==> Net(b', q, i) == Net(b, q, i)
    {
      SettlementsNet(b, invoices, p, Reinstated, Some(r), at, q, i);
      assert On(invoices, i) <= Max(0, OwedAt(b, i));
    }
    forall i | i in b.invoices && i !in b.cancellations
      ensures SettledOn(b', i) <= Max(0, b.invoices[i].gross)
    {
      SettlementsOn(b, invoices, p, Reinstated, Some(r), at, i);
      assert On(invoices, i) <= Max(0, OwedAt(b, i));
    }
    forall i: Id | i !in b.invoices ensures On(invoices, i) == 0 {
      assert On(invoices, i) <= Max(0, OwedAt(b, i));
    }
    forall i, q: Id | i in b.cancellations ensures Net(b', q, i) == 0 {
      SettlementsNet(b, invoices, p, Reinstated, Some(r), at, q, i);
    }
  }

  lemma GiveBackKeepsSolvent(
    b: Books, r: Id, p: Id, credits: seq<Part>, invoices: seq<Part>, credited: int, at: int)
    requires EntriesOk(b) && Solvent(b, []) && MayGiveBack(b, r, p, credits, invoices)
    ensures Solvent(GiveBack(b, r, p, credits, invoices, credited, at), [])
  {
    hide GiveBack;
    var b' := GiveBack(b, r, p, credits, invoices, credited, at);
    GiveBackFrame(b, r, p, credits, invoices, credited, at);
    PositiveOn(credits);
    forall c: Id ensures PaidOut(b', c) <= PaidOut(b, c) {
      EntriesPaidOut(b, credits, TakenBack, ByReversal(r), at, c);
    }
    forall c | 0 <= c < |b'.credits| ensures 0 <= Open(b', c) + Sum([], OfCredit(c)) {
      if c < |b.credits| {
        assert 0 <= Open(b, c) + Sum([], OfCredit(c));
      } else {
        UntouchedCredit(b, c);
      }
    }
    forall c: Id, s: Source ensures Took(b', c, s) == Took(b, c, s) - if s == ByReversal(r) then On(credits, c) else 0 {
      EntriesTook(b, credits, TakenBack, ByReversal(r), at, c, s);
    }
    forall c: Id, q: Id ensures Sum([], OfPair(c, q)) <= Took(b', c, ByReversal(q)) {
      assert Sum([], OfPair(c, q)) <= Took(b, c, ByReversal(q));
    }
  }

  // ---- the whole give-back ---------------------------------------------------------------

  /** A give-back returns to each credit no more than the reversal holds of it, and settles each
      invoice by no more than it owes. */
  lemma ReinstatementMayGive(b: Books, r: Id, amount: nat)
    requires Midway(b, []) && r < |b.reversals|
    ensures b.reversals[r].payment < |b.payments|
    ensures var g := ReinstatementNow(b, r, amount);
      MayGiveBack(b, r, b.reversals[r].payment, g.credits, g.invoices)
  {
    MidwayRows(b, []);
    assert ReversalOk(b, b.reversals[r]);
    assert SettlementsOk(b);
    assert Solvent(b, []);
    hide Midway, RowsOk, SettlementsOk, Solvent;
    var p := b.reversals[r].payment;
    var g := ReinstatementNow(b, r, amount);
    var credits := OwnFirst(b, p, TookOf(b, r));
    var invoices := WithOwed(b, ReopenedParts(b, r));
    var unmatched := Total(CasesOf(b, ByReversal(r))) - b.reversals[r].reinstatedToCases;
    ReinstatementPositive(amount, unmatched, credits, invoices);
    ReopenedPartsTotal(b, r);
    hide ReinstatementNow, OwnFirst, WithOwed, TookOf, ReopenedParts, OwedAt;
    forall c: Id ensures On(g.credits, c) <= Took(b, c, ByReversal(r)) {
      GivenWithin(b, r, amount, c);
    }
    forall i: Id ensures On(g.invoices, i) <= Max(0, OwedAt(b, i)) {
      SettledWithin(b, r, amount, i);
    }
    forall i: Id | Names(g.invoices, i) ensures MaySettle(b, p, i) {
      PositiveNamed(g.invoices, i);
      SettledWithin(b, r, amount, i);
      ReopenedInChain(b, r, i);
    }
  }

  lemma GivenWithin(b: Books, r: Id, amount: nat, c: Id)
    requires Solvent(b, []) && r < |b.reversals|
    ensures On(ReinstatementNow(b, r, amount).credits, c) <= Took(b, c, ByReversal(r))
  {
    var p := b.reversals[r].payment;
    var credits := OwnFirst(b, p, TookOf(b, r));
    assert Sum([], OfPair(c, r)) <= Took(b, c, ByReversal(r));
    hide Solvent, OwnFirst, TookOf, WithOwed, ReopenedParts, CasesOf;
    ReinstatementOn(amount, Total(CasesOf(b, ByReversal(r))) - b.reversals[r].reinstatedToCases, credits,
                    WithOwed(b, ReopenedParts(b, r)), c);
    OwnFirstSum(b, p, TookOf(b, r), OfferedUnder(c));
    TookOfSums(b, r, c);
    DistinctOffered(TookOf(b, r), c);
  }

  lemma SettledWithin(b: Books, r: Id, amount: nat, i: Id)
    requires r < |b.reversals|
    ensures On(ReinstatementNow(b, r, amount).invoices, i) <= Max(0, OwedAt(b, i))
    ensures On(ReinstatementNow(b, r, amount).invoices, i) > 0 ==> Names(ReopenedParts(b, r), i)
  {
    hide OwnFirst, TookOf, ReopenedParts, CasesOf;
    var p := b.reversals[r].payment;
    ReopenedPartsTotal(b, r);
    WithOwedUnder(b, ReopenedParts(b, r), i);
    ReinstatementOn(amount, Total(CasesOf(b, ByReversal(r))) - b.reversals[r].reinstatedToCases,
                    OwnFirst(b, p, TookOf(b, r)), WithOwed(b, ReopenedParts(b, r)), i);
  }

  lemma CreditedNonNegative(b: Books, r: Id)
    requires CreditsOk(b)
    ensures Sum(b.credits, CreditedFrom(r)) >= 0
  {
    forall k | 0 <= k < |b.credits| ensures CreditedFrom(r)(b.credits[k]) >= 0 {
      assert CreditOk(b, b.credits[k]);
    }
    SumNonNegative(b.credits, CreditedFrom(r));
  }

  /** Of what was withdrawn and not given back, nothing goes beyond what the reversal took. */
  lemma NothingBeyond(b: Books, r: Id, amount: nat)
    requires CreditsOk(b) && r < |b.reversals| && Excess(b, r) == 0
    requires amount <= b.reversals[r].amount - b.reversals[r].reinstated
    ensures ReinstatementNow(b, r, amount).beyond == 0
  {
    hide OwnFirst, TookOf, ReopenedParts, CasesOf, WithOwed, CreditsOk;
    var p := b.reversals[r].payment;
    var credits := OwnFirst(b, p, TookOf(b, r));
    var invoices := WithOwed(b, ReopenedParts(b, r));
    var unmatched := Total(CasesOf(b, ByReversal(r))) - b.reversals[r].reinstatedToCases;
    CreditedNonNegative(b, r);
    CasesTotal(b, ByReversal(r));
    OwnFirstSum(b, p, TookOf(b, r), Offered());
    TookOfSums(b, r, 0);
    OfferedAtLeastTotal(TookOf(b, r));
    WithOwedLeft(b, ReopenedParts(b, r));
    ReopenedPartsTotal(b, r);
    OfferedAtLeastTotal(ReopenedParts(b, r));
    ReinstatementAddsUp(amount, unmatched, credits, invoices);
  }

  lemma MayGiveBackSame(b: Books, b': Books, r: Id, p: Id, credits: seq<Part>, invoices: seq<Part>)
    requires MayGiveBack(b, r, p, credits, invoices) && b' == b.(cases := b'.cases)
    ensures MayGiveBack(b', r, p, credits, invoices)
  {
    assert forall c: Id :: Took(b', c, ByReversal(r)) == Took(b, c, ByReversal(r));
    assert forall i: Id :: OwedAt(b', i) == OwedAt(b, i);
  }

  /** A give-back keeps what holds between commits, and writes within its chain. */
  lemma ReinstateKeeps(b: Books, r: Id, amount: nat, at: int)
    requires Midway(b, []) && r < |b.reversals|
    ensures b.reversals[r].payment < |b.payments|
    ensures var p := b.reversals[r].payment;
      var b' := Reinstate(b, r, amount, at);
      Midway(b', []) && ReversalWrites(b, b', p) && b'.reversals == b.reversals && OfChain(b, r, p)
  {
    MidwayRows(b, []);
    ReinstatementMayGive(b, r, amount);
    hide Midway, ReinstatementNow, CoveredNow, MayGiveBack, GiveBack, CloseCases, ReversalWrites, RowsOk;
    var p := b.reversals[r].payment;
    var g := ReinstatementNow(b, r, amount);
    var closed := CloseCases(b, ByReversal(r), CoveredNow(b, r, amount));
    PaymentsOwnChain(b, r);
    CloseCasesKeeps(b, ByReversal(r), CoveredNow(b, r, amount));
    CloseCasesMidway(b, ByReversal(r), CoveredNow(b, r, amount));
    CloseCasesWrites(b, r, CoveredNow(b, r, amount), p);
    MayGiveBackSame(b, closed, r, p, g.credits, g.invoices);
    GiveBackKeeps(closed, r, p, g.credits, g.invoices, g.credited, at);
    GiveBackWrites(closed, r, p, g.credits, g.invoices, g.credited, at);
    WritesTwice(b, closed, GiveBack(closed, r, p, g.credits, g.invoices, g.credited, at), p);
  }

  lemma PaymentsOwnChain(b: Books, r: Id)
    requires RowsOk(b) && r < |b.reversals|
    ensures OfChain(b, r, b.reversals[r].payment)
  {
    assert ReversalOk(b, b.reversals[r]);
    assert PaymentOk(b, b.payments[b.reversals[r].payment]);
  }

  lemma CloseCasesWrites(b: Books, r: Id, picked: Id -> bool, p: Id)
    requires OfChain(b, r, p)
    ensures ReversalWrites(b, CloseCases(b, ByReversal(r), picked), p)
  {
  }

  lemma GiveBackKeeps(
    b: Books, r: Id, p: Id, credits: seq<Part>, invoices: seq<Part>, credited: int, at: int)
    requires Midway(b, []) && MayGiveBack(b, r, p, credits, invoices) && p < |b.payments|
    ensures Midway(GiveBack(b, r, p, credits, invoices, credited, at), [])
  {
    hide RowsOk, EntriesOk, Solvent, NetsOk, Bounded, MayGiveBack, GiveBack;
    MidwayCases(b, []);
    GiveBackKeepsRows(b, r, p, credits, invoices, credited, at);
    GiveBackKeepsNets(b, r, p, credits, invoices, credited, at);
    GiveBackKeepsSolvent(b, r, p, credits, invoices, credited, at);
  }

  /** What is given back, less what covers cases, is what the reversal holds less. */
  lemma ReinstateExcess(b: Books, r: Id, amount: nat, at: int, q: Id)
    requires r < |b.reversals| && b.reversals[r].payment < |b.payments| && q < |b.reversals|
    ensures var g := ReinstatementNow(b, r, amount);
      && 0 <= g.covered <= amount
      && |Reinstate(b, r, amount, at).reversals| == |b.reversals|
      && Excess(b, q) - Excess(Reinstate(b, r, amount, at), q)
         == (if q == r then amount - g.covered - g.beyond else 0)
      && g.covered <= Max(0, Sum(b.cases, CaseAbout(ByReversal(r))) - b.reversals[r].reinstatedToCases)
  {
    hide OwnFirst, TookOf, ReopenedParts, CasesOf, WithOwed, CloseCases, GiveBack, CoveredNow;
    var p := b.reversals[r].payment;
    var g := ReinstatementNow(b, r, amount);
    var closed := CloseCases(b, ByReversal(r), CoveredNow(b, r, amount));
    CasesTotal(b, ByReversal(r));
    ReinstatementAddsUp(amount, Total(CasesOf(b, ByReversal(r))) - b.reversals[r].reinstatedToCases,
                        OwnFirst(b, p, TookOf(b, r)), WithOwed(b, ReopenedParts(b, r)));
    CloseCasesKeeps(b, ByReversal(r), CoveredNow(b, r, amount));
    CloseCasesSums(b, ByReversal(r), CoveredNow(b, r, amount), ByReversal(q));
    GiveBackExcess(closed, r, p, g.credits, g.invoices, g.credited, at, q);
  }
}
