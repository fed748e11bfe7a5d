/** Lifting the covers a withdrawal reaches, one by one: each goes back to its credit, and its reversal
    takes the amount again elsewhere. */
module LiftedCovers {
  import opened Sums
  import opened PaymentRules
  import opened InvoiceChain
  import opened Books
  import opened Soundness
  import opened ReversalFrame
  import opened Brought
  import opened Withdrawals

  // ---- a cover stands on an entry --------------------------------------------------------

  /** Whatever was taken of a credit was taken by an entry. */
  lemma TookByEntry(b: Books, c: Id, q: Id)
    requires EntriesOk(b) && Took(b, c, ByReversal(q)) != 0
    ensures InReach(b, q, c)
  {
    if forall k :: 0 <= k < |b.entries| ==> OnCreditBy(c, ByReversal(q))(b.entries[k]) == 0 {
      SumZero(b.entries, OnCreditBy(c, ByReversal(q)));
      assert false;
    } else {
      var k :| 0 <= k < |b.entries| && OnCreditBy(c, ByReversal(q))(b.entries[k]) != 0;
      assert EntryOk(b, b.entries[k]);
    }
  }

  /** A cover that is still to be lifted is held, of a credit of the same chain. */
  lemma PendingInReach(b: Books, cover: Cover, rest: seq<Cover>)
    requires EntriesOk(b) && Solvent(b, [cover] + rest) && PositiveCovers([cover] + rest)
    ensures InReach(b, cover.reversal, cover.credit)
  {
    var pending := [cover] + rest;
    assert pending[0] == cover;
    SumNonNegative(pending, OfPair(cover.credit, cover.reversal));
    assert OfPair(cover.credit, cover.reversal)(pending[0]) > 0;
    TookByEntry(b, cover.credit, cover.reversal);
  }

  // ---- giving a cover back ---------------------------------------------------------------

  lemma GivenEntries(b: Books, cover: Cover, at: int)
    ensures GivenBack(b, cover, at)
         == WriteEntries(b, [Part(cover.credit, cover.amount)], TakenBack, ByReversal(cover.reversal), at)
  {
    var parts := [Part(cover.credit, cover.amount)];
    assert parts[..0] == [];
  }

  lemma OnOne(id: Id, amount: int, c: Id)
    ensures On([Part(id, amount)], c) == if c == id then amount else 0
    ensures Total([Part(id, amount)]) == amount
  {
    SumAppend([], Part(id, amount));
    assert [] + [Part(id, amount)] == [Part(id, amount)];
  }

  lemma GivenBackKeepsRows(b: Books, cover: Cover, at: int)
    requires RowsOk(b) && cover.amount > 0 && InReach(b, cover.reversal, cover.credit)
    ensures RowsOk(GivenBack(b, cover, at))
  {
    var b' := GivenBack(b, cover, at);
    assert EntryOk(b', b'.entries[|b.entries|]);
    KeepsEntries(b, b');
    KeepsSettlements(b, b');
    SameCredits(b, b');
  }

  lemma GivenBackKeepsSolvent(b: Books, cover: Cover, rest: seq<Cover>, at: int)
    requires Solvent(b, [cover] + rest)
    ensures Solvent(GivenBack(b, cover, at), rest)
  {
    var b' := GivenBack(b, cover, at);
    var parts := [Part(cover.credit, cover.amount)];
    GivenEntries(b, cover, at);
    forall c | 0 <= c < |b'.credits| ensures 0 <= Open(b', c) + Sum(rest, OfCredit(c)) {
      EntriesPaidOut(b, parts, TakenBack, ByReversal(cover.reversal), at, c);
      OnOne(cover.credit, cover.amount, c);
      SumCons(cover, rest, OfCredit(c));
    }
    forall c: Id, whose: Source
      ensures Took(b', c, whose) == Took(b, c, whose)
        - if c == cover.credit && whose == ByReversal(cover.reversal) then cover.amount else 0
    {
      EntriesTook(b, parts, TakenBack, ByReversal(cover.reversal), at, c, whose);
      OnOne(cover.credit, cover.amount, c);
    }
    forall c: Id, q: Id ensures Sum(rest, OfPair(c, q)) <= Took(b', c, ByReversal(q)) {
      SumCons(cover, rest, OfPair(c, q));
    }
  }

  lemma GivenBackExcess(b: Books, cover: Cover, at: int, q: Id)
    requires q < |b.reversals|
    ensures Excess(GivenBack(b, cover, at), q) == Excess(b, q) - if q == cover.reversal then cover.amount else 0
  {
    GivenEntries(b, cover, at);
    OnOne(cover.credit, cover.amount, 0);
    EntriesInAll(b, [Part(cover.credit, cover.amount)], TakenBack, ByReversal(cover.reversal), at, ByReversal(q));
  }

  lemma GivenBackKeepsNets(b: Books, cover: Cover, at: int)
    requires NetsOk(b) && Bounded(b)
    ensures NetsOk(GivenBack(b, cover, at)) && Bounded(GivenBack(b, cover, at))
  {
    var b' := GivenBack(b, cover, at);
    assert forall p: Id, i: Id :: Net(b', p, i) == Net(b, p, i);
    assert forall i: Id :: SettledOn(b', i) == SettledOn(b, i);
  }

  // ---- recording what was taken ----------------------------------------------------------

  /** Solvency, nets and bounds are read of the credits, their entries and the settlements alone. */
  lemma SameSums(b: Books, b': Books, pending: seq<Cover>)
    requires Solvent(b, pending) && NetsOk(b) && Bounded(b)
    requires b'.invoices == b.invoices && b'.cancellations == b.cancellations
    requires b'.credits == b.credits && b'.entries == b.entries && b'.settlements == b.settlements
    ensures Solvent(b', pending) && NetsOk(b') && Bounded(b')
  {
    assert forall p: Id, i: Id :: Net(b', p, i) == Net(b, p, i);
    assert forall i: Id :: SettledOn(b', i) == SettledOn(b, i);
    assert forall c: Id, s: Source :: Took(b', c, s) == Took(b, c, s);
    assert forall c: Id :: PaidOut(b', c) == PaidOut(b, c);
  }

  /** Where only cases and what reversals record changed, everything between writes still holds. */
  lemma MidwayStays(b: Books, b': Books, pending: seq<Cover>)
    requires Midway(b, pending) && Grows(b, b')
    requires b'.invoices == b.invoices && b'.cancellations == b.cancellations
    requires b'.payments == b.payments && b'.credits == b.credits && b'.refunds == b.refunds
    requires b'.entries == b.entries && b'.settlements == b.settlements
    requires |b'.reversals| == |b.reversals| && CasesOk(b')
    ensures Midway(b', pending)
  {
    KeepsEntries(b, b');
    KeepsSettlements(b, b');
    SameCredits(b, b'.(cases := b.cases));
    SameSums(b, b', pending);
  }

  lemma MidwayCases(b: Books, pending: seq<Cover>)
    requires Midway(b, pending)
    ensures RowsOk(b) && CasesOk(b) && CreditsOk(b) && EntriesOk(b)
  {
  }

  lemma RecordingGrows(b: Books, r: Id, amount: int)
    ensures Grows(b, AddFromCredit(b, r, amount))
    ensures CasesOk(b) ==> CasesOk(AddFromCredit(b, r, amount))
  {
  }

  lemma OpenCaseGrows(b: Books, r: Id, amount: int, at: int)
    requires CasesOk(b) && r < |b.reversals|
    ensures var b' := OpenCase(b, ByReversal(r), amount, at); Grows(b, b') && CasesOk(b')
  {
    KeepsCases(b, OpenCase(b, ByReversal(r), amount, at));
  }

  /** Recording what a cover was taken of, and opening the case for the rest. */
  lemma RecordingKeeps(b: Books, r: Id, taken: int, unmatched: int, at: int, pending: seq<Cover>)
    requires Midway(b, pending) && r < |b.reversals|
    ensures Midway(OpenCase(AddFromCredit(b, r, taken), ByReversal(r), unmatched, at), pending)
  {
    hide Midway, CasesOk;
    var recorded := AddFromCredit(b, r, taken);
    MidwayCases(b, pending);
    RecordingGrows(b, r, taken);
    MidwayStays(b, recorded, pending);
    OpenCaseGrows(recorded, r, unmatched, at);
    MidwayStays(recorded, OpenCase(recorded, ByReversal(r), unmatched, at), pending);
  }

  /** A case is part of what its reversal holds. */
  lemma OpenCaseExcess(b: Books, r: Id, amount: int, at: int, q: Id)
    requires q < |b.reversals|
    ensures var b' := OpenCase(b, ByReversal(r), amount, at);
      && |b'.reversals| == |b.reversals|
      && Excess(b', q) == Excess(b, q) + if q == r then Max(0, amount) else 0
  {
    if amount > 0 {
      SumAppend(b.cases, Case(ByReversal(r), amount, false, at, b.rank(Cases, |b.cases|)));
    }
  }

  lemma RecordingExcess(b: Books, r: Id, amount: int, q: Id)
    requires q < |b.reversals|
    ensures var b' := AddFromCredit(b, r, amount);
      |b'.reversals| == |b.reversals| && Excess(b', q) == Excess(b, q)
  {
  }

  // ---- one cover -------------------------------------------------------------------------

  lemma GivenBackKeeps(b: Books, cover: Cover, rest: seq<Cover>, at: int)
    requires Midway(b, [cover] + rest) && PositiveCovers([cover] + rest)
    ensures Midway(GivenBack(b, cover, at), rest)
    ensures PositiveCovers(rest) && cover.amount > 0 && cover.reversal < |b.reversals|
  {
    var pending := [cover] + rest;
    assert pending[0] == cover;
    forall i | 0 <= i < |rest| ensures rest[i].amount > 0 {
      assert pending[i + 1] == rest[i];
    }
    PendingInReach(b, cover, rest);
    GivenBackKeepsRows(b, cover, at);
    GivenBackKeepsSolvent(b, cover, rest, at);
    GivenBackKeepsNets(b, cover, at);
  }

  /** Lifting one cover leaves the others to be lifted, and everything else in order. */
  lemma LiftCoverKeeps(b: Books, cover: Cover, rest: seq<Cover>, at: int)
    requires Midway(b, [cover] + rest) && PositiveCovers([cover] + rest)
    ensures Midway(LiftCover(b, cover, at), rest)
  {
    hide Midway, WithdrawalNow, TakeNow;
    var q, amount := cover.reversal, cover.amount;
    GivenBackKeeps(b, cover, rest, at);
    var given := GivenBack(b, cover, at);
    var w := WithdrawalNow(given, PaymentOf(given, q), amount);
    TakeNowKeeps(given, q, amount, at, rest);
    TakeNowExcess(given, q, amount, at, q);
    RecordingKeeps(TakeNow(given, q, amount, at), q, w.fromCredit, w.unmatched, at, rest);
  }

  /** A lifted cover changes what no reversal holds: what was given back is taken again, or a case. */
  lemma LiftCoverExcess(b: Books, cover: Cover, at: int, q: Id)
    requires cover.amount > 0 && cover.reversal < |b.reversals| && q < |b.reversals|
    ensures |LiftCover(b, cover, at).reversals| == |b.reversals|
    ensures Excess(LiftCover(b, cover, at), q) == Excess(b, q)
  {
    var r, amount := cover.reversal, cover.amount;
    var given := GivenBack(b, cover, at);
    var p := PaymentOf(given, r);
    var w := WithdrawalNow(given, p, amount);
    WithdrawalAddsUp(amount, Own(given, p), InvoicesOf(given, p), CoveringOf(given, p));
    var taken := TakeNow(given, r, amount, at);
    GivenBackExcess(b, cover, at, q);
    TakeNowExcess(given, r, amount, at, q);
    RecordingExcess(taken, r, w.fromCredit, q);
    OpenCaseExcess(AddFromCredit(taken, r, w.fromCredit), r, w.unmatched, at, q);
  }

  // ---- how far a lifted cover reaches ----------------------------------------------------

  lemma TakeWrites(
    b: Books, r: Id, q: Id, credits: seq<Part>, invoices: seq<Part>, at: int, p: Id)
    requires OfChain(b, r, p) && b.reversals[r].payment == q
    requires forall i :: Names(invoices, i) ==> InChainOf(b, q, i)
    ensures ReversalWrites(b, Take(b, r, q, credits, invoices, at), p)
  {
    var b' := Take(b, r, q, credits, invoices, at);
    TakeFrame(b, r, q, credits, invoices, at);
    EntriesFrame(b, credits, Taken, ByReversal(r), at);
    SettlementsFrame(b, invoices, q, Reversed, Some(r), at);
    hide Take;
    forall k | 0 <= k < |b'.entries|
      ensures k < |b.entries| ==> b'.entries[k] == b.entries[k]
      ensures k >= |b.entries| ==> BySourceIn(b, b'.entries[k].source, p)
    {
      EntriesFollow(b, credits, Taken, ByReversal(r), at, k);
    }
    forall k | 0 <= k < |b'.settlements|
      ensures k < |b.settlements| ==> b'.settlements[k] == b.settlements[k]
      ensures k >= |b.settlements| ==>
        && b'.settlements[k].reversal == Some(r) && InChainOf(b, p, b'.settlements[k].invoice)
    {
      SettlementsFollow(b, invoices, q, Reversed, Some(r), at, k);
      if k >= |b.settlements| {
        assert Names(invoices, invoices[k - |b.settlements|].id);
      }
    }
  }

  lemma TakeNowWrites(b: Books, r: Id, amount: nat, at: int, p: Id)
    requires RowsOk(b) && OfChain(b, r, p)
    ensures ReversalWrites(b, TakeNow(b, r, amount, at), p)
  {
    var q := b.reversals[r].payment;
    WithdrawalInReach(b, r, q, amount);
    var w := WithdrawalNow(b, q, amount);
    TakeWrites(b, r, q, w.credits + w.covering, w.invoices, at, p);
  }

  lemma GivenBackWrites(b: Books, cover: Cover, at: int, p: Id)
    requires OfChain(b, cover.reversal, p)
    ensures ReversalWrites(b, GivenBack(b, cover, at), p)
  {
  }

  lemma RecordingWrites(b: Books, r: Id, amount: int, p: Id)
    requires OfChain(b, r, p)
    ensures ReversalWrites(b, AddFromCredit(b, r, amount), p)
  {
  }

  lemma OpenCaseWrites(b: Books, r: Id, amount: int, at: int, p: Id)
    requires OfChain(b, r, p)
    ensures ReversalWrites(b, OpenCase(b, ByReversal(r), amount, at), p)
  {
  }

  /** All a lifted cover writes are rows of its reversal, in the chain of the payment taken back. */
  lemma LiftCoverWrites(b: Books, cover: Cover, rest: seq<Cover>, at: int, p: Id)
    requires Midway(b, [cover] + rest) && PositiveCovers([cover] + rest) && OfChain(b, cover.reversal, p)
    ensures ReversalWrites(b, LiftCover(b, cover, at), p)
  {
    hide TakeNow, WithdrawalNow, ReversalWrites, GivenBack, AddFromCredit, OpenCase;
    GivenBackKeeps(b, cover, rest, at);
    hide Midway;
    var q, amount := cover.reversal, cover.amount;
    var given := GivenBack(b, cover, at);
    var w := WithdrawalNow(given, PaymentOf(given, q), amount);
    var taken := TakeNow(given, q, amount, at);
    var recorded := AddFromCredit(taken, q, w.fromCredit);
    GivenBackWrites(b, cover, at, p);
    WritesReach(b, given, p);
    MidwayRows(given, rest);
    TakeNowWrites(given, q, amount, at, p);
    WritesReach(given, taken, p);
    RecordingWrites(taken, q, w.fromCredit, p);
    WritesReach(taken, recorded, p);
    OpenCaseWrites(recorded, q, w.unmatched, at, p);
    WritesTwice(b, given, taken, p);
    WritesTwice(b, taken, recorded, p);
    WritesTwice(b, recorded, OpenCase(recorded, ByReversal(q), w.unmatched, at), p);
  }

  lemma WritesReach(b: Books, b': Books, p: Id)
    requires ReversalWrites(b, b', p)
    ensures SameBase(b, b') && forall r: Id :: OfChain(b', r, p) <==> OfChain(b, r, p)
  {
  }

  lemma MidwayRows(b: Books, pending: seq<Cover>)
    requires Midway(b, pending)
    ensures RowsOk(b)
  {
  }

  // ---- what the reversals record ---------------------------------------------------------

  /** Reversals record more taken of credits, and nothing else. */
  ghost predicate RecordsRise(b: Books, b': Books) {
    && |b'.reversals| == |b.reversals|
    && forall i :: 0 <= i < |b.reversals| ==>
         && b'.reversals[i] == b.reversals[i].(fromCredit := b'.reversals[i].fromCredit)
         && b'.reversals[i].fromCredit >= b.reversals[i].fromCredit
  }

  lemma LiftCoverRecords(b: Books, cover: Cover, at: int)
    requires cover.amount > 0 && cover.reversal < |b.reversals|
    ensures RecordsRise(b, LiftCover(b, cover, at))
    ensures forall i :: 0 <= i < |b.reversals| && i != cover.reversal ==>
      LiftCover(b, cover, at).reversals[i] == b.reversals[i]
  {
    hide WithdrawalNow;
    var given := GivenBack(b, cover, at);
    var w := WithdrawalNow(given, PaymentOf(given, cover.reversal), cover.amount);
    TakeFrame(given, cover.reversal, PaymentOf(given, cover.reversal), w.credits + w.covering, w.invoices, at);
  }

  /** What a withdrawal takes of the payment's credits is left of them. */
  lemma FromCreditLeft(b: Books, p: Id, amount: nat)
    requires CreditsOk(b) && TakenFromCredits(b, p) <= Sum(b.credits, LeftFrom(p))
    ensures 0 <= WithdrawalNow(b, p, amount).fromCredit
    ensures TakenFromCredits(b, p) + WithdrawalNow(b, p, amount).fromCredit <= Sum(b.credits, LeftFrom(p))
  {
    OwnLeft(b, p);
    WithdrawalAddsUp(amount, Own(b, p), InvoicesOf(b, p), CoveringOf(b, p));
  }

  lemma RecordingSums(b: Books, r: Id, amount: int, p: Id)
    requires r < |b.reversals| && amount >= 0
    ensures TakenFromCredits(AddFromCredit(b, r, amount), p)
         == TakenFromCredits(b, p) + if b.reversals[r].payment == p then amount else 0
  {
    SumUpdate(b.reversals, r, b.reversals[r].(fromCredit := b.reversals[r].fromCredit + amount), FromCreditOf(p));
  }

  lemma LiftCoverFromCredits(b: Books, cover: Cover, at: int)
    requires CreditsOk(b) && FromCreditsOk(b) && cover.amount > 0 && cover.reversal < |b.reversals|
    ensures FromCreditsOk(LiftCover(b, cover, at))
  {
    var given := GivenBack(b, cover, at);
    var q, amount := cover.reversal, cover.amount;
    var p := PaymentOf(given, q);
    assert CreditsOk(given) by {
      KeepsCredits(b, given);
    }
    assert TakenFromCredits(given, p) <= Sum(given.credits, LeftFrom(p));
    FromCreditLeft(given, p, amount);
    hide WithdrawalNow;
    var w := WithdrawalNow(given, p, amount);
    TakeFrame(given, q, p, w.credits + w.covering, w.invoices, at);
    var taken := TakeNow(given, q, amount, at);
    forall other: Id
      ensures TakenFromCredits(LiftCover(b, cover, at), other) <= Sum(b.credits, LeftFrom(other))
    {
      assert TakenFromCredits(taken, other) == TakenFromCredits(b, other) <= Sum(b.credits, LeftFrom(other));
      RecordingSums(taken, q, w.fromCredit, other);
    }
  }
}
