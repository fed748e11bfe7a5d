/** What a reversal takes back when more of its payment is withdrawn: written first, the covers it
    lifts given back after it, one by one, each taken again as a withdrawal of its own payment. */
module Withdrawals {
  import opened Sums
  import opened PaymentRules
  import opened InvoiceChain
  import opened Books
  import opened Soundness
  import opened Brought

  // ---- the steps -------------------------------------------------------------------------

  /** What one reversal writes: entries on `credits`, settlements on `invoices`. */
  function Take(b: Books, r: Id, p: Id, credits: seq<Part>, invoices: seq<Part>, at: int): Books {
    WriteSettlements(WriteEntries(b, credits, Taken, ByReversal(r), at), invoices, p, Reversed, Some(r), at)
  }

  function PaymentOf(b: Books, r: Id): Id {
    if r < |b.reversals| then b.reversals[r].payment else 0
  }

  /** What a withdrawal of `amount` of payment `p` takes, as everything stands now. */
  function WithdrawalNow(b: Books, p: Id, amount: nat): Withdrawal {
    WithdrawalOf(amount, Own(b, p), InvoicesOf(b, p), CoveringOf(b, p))
  }

  function AddFromCredit(b: Books, r: Id, amount: int): Books {
    if amount > 0 && r < |b.reversals|
    then b.(reversals := b.reversals[r := b.reversals[r].(fromCredit := b.reversals[r].fromCredit + amount)])
    else b
  }

  /** A reversal takes `amount` of its payment: of the payment's credits, of what covers its invoices,
      and of the invoices. */
  function TakeNow(b: Books, r: Id, amount: nat, at: int): Books {
    var w := WithdrawalNow(b, PaymentOf(b, r), amount);
    Take(b, r, PaymentOf(b, r), w.credits + w.covering, w.invoices, at)
  }

  function GivenBack(b: Books, cover: Cover, at: int): Books {
    AddEntry(b, cover.credit, TakenBack, cover.amount, ByReversal(cover.reversal), at)
  }

  /** Reverses one cover, divides its amount anew for the reversal that held it, and opens a case for the remainder. */
  function LiftCover(b: Books, cover: Cover, at: int): Books {
    var given := GivenBack(b, cover, at);
    var amount := Max(0, cover.amount);
    var w := WithdrawalNow(given, PaymentOf(given, cover.reversal), amount);
    OpenCase(AddFromCredit(TakeNow(given, cover.reversal, amount, at), cover.reversal, w.fromCredit),
             ByReversal(cover.reversal), w.unmatched, at)
  }

  function LiftAll(b: Books, lifted: seq<Cover>, at: int): Books {
    if lifted == [] then b
    else LiftCover(LiftAll(b, lifted[..|lifted| - 1], at), lifted[|lifted| - 1], at)
  }

  function LiftedParts(lifted: seq<Cover>): seq<Part> {
    if lifted == [] then []
    else LiftedParts(lifted[..|lifted| - 1]) + [Part(lifted[|lifted| - 1].credit, lifted[|lifted| - 1].amount)]
  }

  /** Of each own credit, the sum of all parts under it, in one entry. */
  function TakenOfOwn(own: seq<Reversible>, all: seq<Part>): seq<Part> {
    if own == [] then []
    else Push(TakenOfOwn(own[..|own| - 1], all), own[|own| - 1].id, On(all, own[|own| - 1].id))
  }

  /** The covers a withdrawal lifts. */
  function LiftedBy(b: Books, p: Id, amount: nat): seq<Cover> {
    Lifted(WithdrawalNow(b, p, amount).beyondOpen, AllCovers(b, Own(b, p), p))
  }

  function TakenCredits(b: Books, p: Id, amount: nat): seq<Part> {
    TakenOfOwn(Own(b, p), WithdrawalNow(b, p, amount).credits + LiftedParts(LiftedBy(b, p, amount)))
  }

  /** The withdrawal as it is written before any cover is lifted. */
  function WithdrawalWritten(b: Books, r: Id, amount: nat, at: int): Books {
    var p := PaymentOf(b, r);
    var w := WithdrawalNow(b, p, amount);
    Take(b, r, p, TakenCredits(b, p, amount) + w.covering, w.invoices, at)
  }

  /** A withdrawal of `amount` as one change of the books. */
  function Withdraw(b: Books, r: Id, amount: nat, at: int): Books {
    var p := PaymentOf(b, r);
    var lifted := LiftedBy(b, p, amount);
    OpenCase(LiftAll(WithdrawalWritten(b, r, amount, at), lifted, at),
             ByReversal(r), WithdrawalNow(b, p, amount).unmatched - Sum(lifted, CoverAmount()), at)
  }

  // ---- what taking changes ---------------------------------------------------------------

  lemma TakeFrame(b: Books, r: Id, p: Id, credits: seq<Part>, invoices: seq<Part>, at: int)
    ensures var b' := Take(b, r, p, credits, invoices, at);
      b' == b.(entries := b'.entries, settlements := b'.settlements)
    ensures Take(b, r, p, credits, invoices, at).entries
         == WriteEntries(b, credits, Taken, ByReversal(r), at).entries
    ensures Take(b, r, p, credits, invoices, at).settlements
         == WriteSettlements(b, invoices, p, Reversed, Some(r), at).settlements
  {
    EntriesFrame(b, credits, Taken, ByReversal(r), at);
    var b1 := WriteEntries(b, credits, Taken, ByReversal(r), at);
    SettlementsFrame(b1, invoices, p, Reversed, Some(r), at);
    SettlementsIgnoreEntries(b, b1.entries, invoices, p, Reversed, Some(r), at);
  }

  lemma {:induction false} SettlementsIgnoreEntries(
    b: Books, entries: seq<Entry>, parts: seq<Part>, p: Id, kind: SettlementKind, reversal: Option<Id>, at: int)
    ensures WriteSettlements(b.(entries := entries), parts, p, kind, reversal, at)
         == WriteSettlements(b, parts, p, kind, reversal, at).(entries := entries)
  {
    if parts != [] {
      SettlementsIgnoreEntries(b, entries, parts[..|parts| - 1], p, kind, reversal, at);
    }
  }

  /** What a reversal takes is what it holds more. */
  lemma TakeExcess(b: Books, r: Id, p: Id, credits: seq<Part>, invoices: seq<Part>, at: int, q: Id)
    requires q < |b.reversals|
    ensures |Take(b, r, p, credits, invoices, at).reversals| == |b.reversals|
    ensures Excess(Take(b, r, p, credits, invoices, at), q)
         == Excess(b, q) + if q == r then Total(credits) + Total(invoices) else 0
  {
    TakeFrame(b, r, p, credits, invoices, at);
    EntriesInAll(b, credits, Taken, ByReversal(r), at, ByReversal(q));
    ReversalSettlements(b, invoices, p, Reversed, r, at, q);
  }

  lemma TakePaidOut(b: Books, r: Id, p: Id, credits: seq<Part>, invoices: seq<Part>, at: int, c: Id)
    ensures PaidOut(Take(b, r, p, credits, invoices, at), c) == PaidOut(b, c) + On(credits, c)
  {
    TakeFrame(b, r, p, credits, invoices, at);
    EntriesPaidOut(b, credits, Taken, ByReversal(r), at, c);
  }

  lemma TakeTook(b: Books, r: Id, p: Id, credits: seq<Part>, invoices: seq<Part>, at: int, c: Id, whose: Source)
    ensures Took(Take(b, r, p, credits, invoices, at), c, whose)
         == Took(b, c, whose) + if whose == ByReversal(r) then On(credits, c) else 0
  {
    TakeFrame(b, r, p, credits, invoices, at);
    EntriesTook(b, credits, Taken, ByReversal(r), at, c, whose);
  }

  lemma TakeNet(b: Books, r: Id, p: Id, credits: seq<Part>, invoices: seq<Part>, at: int, q: Id, i: Id)
    ensures Net(Take(b, r, p, credits, invoices, at), q, i)
         == Net(b, q, i) - if q == p then On(invoices, i) else 0
  {
    TakeFrame(b, r, p, credits, invoices, at);
    SettlementsNet(b, invoices, p, Reversed, Some(r), at, q, i);
  }

  lemma TakeSettled(b: Books, r: Id, p: Id, credits: seq<Part>, invoices: seq<Part>, at: int, i: Id)
    ensures SettledOn(Take(b, r, p, credits, invoices, at), i) == SettledOn(b, i) - On(invoices, i)
  {
    TakeFrame(b, r, p, credits, invoices, at);
    SettlementsOn(b, invoices, p, Reversed, Some(r), at, i);
  }

  // ---- what taking keeps -----------------------------------------------------------------

  /** What may be taken: of credits in the reversal's reach, and of invoices of its payment's chain. */
  ghost predicate MayTake(b: Books, r: Id, p: Id, credits: seq<Part>, invoices: seq<Part>) {
    && r < |b.reversals| && b.reversals[r].payment == p
    && Positive(credits) && Positive(invoices)
    && (forall c :: Names(credits, c) ==> InReach(b, r, c))
    && (forall i :: Names(invoices, i) ==> MaySettle(b, p, i))
  }

  lemma TakeKeepsRows(b: Books, r: Id, p: Id, credits: seq<Part>, invoices: seq<Part>, at: int)
    requires RowsOk(b) && MayTake(b, r, p, credits, invoices)
    ensures RowsOk(Take(b, r, p, credits, invoices, at))
  {
    var b' := Take(b, r, p, credits, invoices, at);
    TakeFrame(b, r, p, credits, invoices, at);
    EntriesFrame(b, credits, Taken, ByReversal(r), at);
    SettlementsFrame(b, invoices, p, Reversed, Some(r), at);
    assert Grows(b, b');
    forall k | 0 <= k < |b'.entries|
      ensures k < |b.entries| ==> b'.entries[k] == b.entries[k]
      ensures k >= |b.entries| ==> EntryOk(b', b'.entries[k])
    {
      EntriesFollow(b, credits, Taken, ByReversal(r), at, k);
      if k >= |b.entries| {
        assert Names(credits, credits[k - |b.entries|].id);
      }
    }
    forall k | 0 <= k < |b'.settlements|
      ensures k < |b.settlements| ==> b'.settlements[k] == b.settlements[k]
      ensures k >= |b.settlements| ==> SettlementOk(b', b'.settlements[k])
    {
      SettlementsFollow(b, invoices, p, Reversed, Some(r), at, k);
      if k >= |b.settlements| {
        assert Names(invoices, invoices[k - |b.settlements|].id);
      }
    }
    KeepsEntries(b, b');
    KeepsSettlements(b, b');
    SameCredits(b, b');
  }

  /** Where only entries, settlements and what reversals record changed, every other row still stands. */
  lemma SameCredits(b: Books, b': Books)
    requires RowsOk(b) && Grows(b, b')
    requires b'.invoices == b.invoices && b'.cancellations == b.cancellations
    requires b'.payments == b.payments && b'.credits == b.credits && b'.refunds == b.refunds
    requires b'.cases == b.cases && |b'.reversals| == |b.reversals|
    ensures PaymentsOk(b') && CreditsOk(b') && CasesOk(b') && RefundsOk(b') && ReversalsOk(b')
    ensures Chained(b'.invoices, b'.cancellations)
  {
    forall i | 0 <= i < |b'.payments| ensures PaymentOk(b', b'.payments[i]) {
      assert PaymentOk(b, b.payments[i]);
    }
    forall i | 0 <= i < |b'.reversals| ensures ReversalOk(b', b'.reversals[i]) {
      assert ReversalOk(b, b.reversals[i]);
    }
    KeepsCredits(b, b');
    KeepsCases(b, b');
    forall i | 0 <= i < |b'.refunds| ensures RefundOk(b', b'.refunds[i]) {
      assert RefundOk(b, b.refunds[i]);
    }
  }

  lemma TakeKeepsNets(b: Books, r: Id, p: Id, credits: seq<Part>, invoices: seq<Part>, at: int)
    requires NetsOk(b) && Bounded(b) && Positive(invoices)
    requires forall i: Id :: On(invoices, i) <= Net(b, p, i)
    ensures NetsOk(Take(b, r, p, credits, invoices, at))
    ensures Bounded(Take(b, r, p, credits, invoices, at))
  {
    var b' := Take(b, r, p, credits, invoices, at);
    TakeFrame(b, r, p, credits, invoices, at);
    PositiveOn(invoices);
    forall q: Id, i: Id ensures 0 <= Net(b', q, i) <= Net(b, q, i) {
      TakeNet(b, r, p, credits, invoices, at, q, i);
    }
    forall i ensures SettledOn(b', i) <= SettledOn(b, i) {
      TakeSettled(b, r, p, credits, invoices, at, i);
    }
  }

  /** Whether the credits can give `credits` to reversal `r` with `pending` still to be given back. */
  ghost predicate Affords(b: Books, r: Id, credits: seq<Part>, pending: seq<Cover>) {
    && (forall c :: 0 <= c < |b.credits| ==> On(credits, c) <= Open(b, c) + Sum(pending, OfCredit(c)))
    && (forall c: Id, q: Id :: Sum(pending, OfPair(c, q))
          <= Took(b, c, ByReversal(q)) + if q == r then On(credits, c) else 0)
  }

  lemma TakeKeepsSolvent(
    b: Books, r: Id, p: Id, credits: seq<Part>, invoices: seq<Part>, at: int, pending: seq<Cover>)
    requires Affords(b, r, credits, pending)
    requires forall c: Id, f: Id :: 0 <= Took(b, c, ByRefund(f))
    requires forall c: Id :: 0 <= Took(b, c, ByPayout)
    ensures Solvent(Take(b, r, p, credits, invoices, at), pending)
  {
    var b' := Take(b, r, p, credits, invoices, at);
    TakeFrame(b, r, p, credits, invoices, at);
    forall c | 0 <= c < |b'.credits| ensures 0 <= Open(b', c) + Sum(pending, OfCredit(c)) {
      TakePaidOut(b, r, p, credits, invoices, at, c);
    }
    forall c: Id, q: Id ensures Sum(pending, OfPair(c, q)) <= Took(b', c, ByReversal(q)) {
      TakeTook(b, r, p, credits, invoices, at, c, ByReversal(q));
    }
    forall c: Id, f: Id ensures 0 <= Took(b', c, ByRefund(f)) {
      TakeTook(b, r, p, credits, invoices, at, c, ByRefund(f));
    }
    forall c: Id ensures 0 <= Took(b', c, ByPayout) {
      TakeTook(b, r, p, credits, invoices, at, c, ByPayout);
    }
  }

  // ---- a withdrawal as everything stands -------------------------------------------------

  lemma NamesConcat(a: seq<Part>, b: seq<Part>, id: Id)
    ensures Names(a + b, id) ==> Names(a, id) || Names(b, id)
  {
    if Names(a + b, id) {
      var i :| 0 <= i < |a + b| && (a + b)[i].id == id;
      assert i < |a| ==> a[i].id == id;
      assert i >= |a| ==> b[i - |a|].id == id;
    }
  }

  /** Own credits and covering credits are in reach of the reversal. */
  lemma WithdrawalInReach(b: Books, r: Id, p: Id, amount: nat)
    requires RowsOk(b) && r < |b.reversals| && b.reversals[r].payment == p
    ensures var w := WithdrawalNow(b, p, amount);
      && (forall c :: Names(w.credits, c) ==> InReach(b, r, c))
      && (forall c :: Names(w.covering, c) ==> InReach(b, r, c))
      && (forall i :: Names(w.invoices, i) ==> MaySettle(b, p, i))
  {
    var w := WithdrawalNow(b, p, amount);
    WithdrawalPositive(amount, Own(b, p), InvoicesOf(b, p), CoveringOf(b, p));
    forall c | Names(w.credits, c) ensures InReach(b, r, c) {
      WithdrawalOn(amount, Own(b, p), InvoicesOf(b, p), CoveringOf(b, p), c);
      PositiveNamed(w.credits, c);
      OwnOpen(b, p, c);
      OwnInReach(b, r, c);
    }
    forall c | Names(w.covering, c) ensures InReach(b, r, c) {
      WithdrawalOn(amount, Own(b, p), InvoicesOf(b, p), CoveringOf(b, p), c);
      PositiveNamed(w.covering, c);
      CoveringOffers(b, p, c);
      CoveringInChain(b, p, c);
    }
    forall i | Names(w.invoices, i) ensures MaySettle(b, p, i) {
      WithdrawalOn(amount, Own(b, p), InvoicesOf(b, p), CoveringOf(b, p), i);
      OfferedNames(w.invoices, InvoicesOf(b, p), i);
      InvoicesInChain(b, p, i);
    }
  }

  lemma OwnInReach(b: Books, r: Id, c: Id)
    requires RowsOk(b) && r < |b.reversals| && LeftByWhom(b, b.reversals[r].payment)(c)
    ensures InReach(b, r, c)
  {
    assert CreditOk(b, b.credits[c]);
    assert ReversalOk(b, b.reversals[r]);
    assert PaymentOk(b, b.payments[b.reversals[r].payment]);
  }

  /** Own and covering credits are different credits, so together they take of each no more than is
      read as open of it. */
  lemma WithdrawalWithinOpen(b: Books, p: Id, amount: nat, c: Id)
    ensures var w := WithdrawalNow(b, p, amount);
      && On(w.credits + w.covering, c) == On(w.credits, c) + On(w.covering, c) <= ReadOpen(b, c)
      && (On(w.covering, c) > 0 ==> !LeftByWhom(b, p)(c))
      && On(w.invoices, c) <= Max(0, Net(b, p, c))
  {
    var w := WithdrawalNow(b, p, amount);
    WithdrawalOn(amount, Own(b, p), InvoicesOf(b, p), CoveringOf(b, p), c);
    OwnOpen(b, p, c);
    CoveringOffers(b, p, c);
    InvoicesOn(b, p, c);
    SumConcat(w.credits, w.covering, Under(c));
  }

  lemma PendingNonNegative(pending: seq<Cover>, c: Id)
    requires PositiveCovers(pending)
    ensures 0 <= Sum(pending, OfCredit(c))
  {
    SumNonNegative(pending, OfCredit(c));
  }

  lemma TakeNowKeepsRows(b: Books, r: Id, amount: nat, at: int)
    requires RowsOk(b) && r < |b.reversals|
    ensures RowsOk(TakeNow(b, r, amount, at))
  {
    var p := b.reversals[r].payment;
    var w := WithdrawalNow(b, p, amount);
    var credits := w.credits + w.covering;
    WithdrawalPositive(amount, Own(b, p), InvoicesOf(b, p), CoveringOf(b, p));
    WithdrawalInReach(b, r, p, amount);
    forall c | Names(credits, c) ensures InReach(b, r, c) {
      NamesConcat(w.credits, w.covering, c);
    }
    TakeKeepsRows(b, r, p, credits, w.invoices, at);
  }

  lemma TakeNowKeepsNets(b: Books, r: Id, amount: nat, at: int)
    requires NetsOk(b) && Bounded(b)
    ensures NetsOk(TakeNow(b, r, amount, at)) && Bounded(TakeNow(b, r, amount, at))
  {
    var p := PaymentOf(b, r);
    var w := WithdrawalNow(b, p, amount);
    WithdrawalPositive(amount, Own(b, p), InvoicesOf(b, p), CoveringOf(b, p));
    forall i: Id ensures On(w.invoices, i) <= Net(b, p, i) {
      WithdrawalWithinOpen(b, p, amount, i);
    }
    TakeKeepsNets(b, r, p, w.credits + w.covering, w.invoices, at);
  }

  lemma TakeNowAffords(b: Books, r: Id, amount: nat, pending: seq<Cover>)
    requires Solvent(b, pending) && PositiveCovers(pending)
    ensures var w := WithdrawalNow(b, PaymentOf(b, r), amount);
      Affords(b, r, w.credits + w.covering, pending)
  {
    var p := PaymentOf(b, r);
    var w := WithdrawalNow(b, p, amount);
    var credits := w.credits + w.covering;
    WithdrawalPositive(amount, Own(b, p), InvoicesOf(b, p), CoveringOf(b, p));
    PositiveOn(credits);
    forall c | 0 <= c < |b.credits| ensures On(credits, c) <= Open(b, c) + Sum(pending, OfCredit(c)) {
      WithdrawalWithinOpen(b, p, amount, c);
      PendingNonNegative(pending, c);
    }
  }

  /** A reversal that takes again, as everything stands, keeps what holds between writes. */
  lemma TakeNowKeeps(b: Books, r: Id, amount: nat, at: int, pending: seq<Cover>)
    requires Midway(b, pending) && PositiveCovers(pending) && r < |b.reversals|
    ensures Midway(TakeNow(b, r, amount, at), pending)
  {
    var p := PaymentOf(b, r);
    var w := WithdrawalNow(b, p, amount);
    TakeNowKeepsRows(b, r, amount, at);
    TakeNowKeepsNets(b, r, amount, at);
    TakeNowAffords(b, r, amount, pending);
    TakeKeepsSolvent(b, r, p, w.credits + w.covering, w.invoices, at, pending);
  }

  /** Of what it takes again, what is unmatched is all that is missing. */
  lemma TakeNowExcess(b: Books, r: Id, amount: nat, at: int, q: Id)
    requires r < |b.reversals| && q < |b.reversals|
    ensures |TakeNow(b, r, amount, at).reversals| == |b.reversals|
    ensures Excess(TakeNow(b, r, amount, at), q)
         == Excess(b, q) + if q == r then amount - WithdrawalNow(b, PaymentOf(b, r), amount).unmatched else 0
  {
    var p := PaymentOf(b, r);
    var w := WithdrawalNow(b, p, amount);
    WithdrawalAddsUp(amount, Own(b, p), InvoicesOf(b, p), CoveringOf(b, p));
    SumConcat(w.credits, w.covering, Amount());
    TakeExcess(b, r, p, w.credits + w.covering, w.invoices, at, q);
  }
}
