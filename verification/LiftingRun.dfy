/** A run in which a cover is lifted: two payments of one invoice, of which the second leaves a credit; the
    first is taken back, and that credit covers it; then the second is taken back. */
module LiftingRun {
  import opened Sums
  import opened PaymentRules
  import opened InvoiceChain
  import opened Books
  import opened Soundness
  import opened Brought
  import opened Withdrawals
  import opened WholeWithdrawals
  import opened Reinstatements
  import opened ReversalReports
  import opened PaymentRecords
  import opened Corrections
  import opened LedgerRuns

  // ---- sums and orders of one row --------------------------------------------------------

  lemma OneRow<T>(x: T, key: T -> Key)
    ensures Sort([x], key) == [x]
    ensures forall f: T -> int :: Sum([x], f) == f(x)
  {
    assert [x][..0] == [];
  }

  lemma OnePart(x: Part)
    ensures Gathered([x]) == [x]
  {
    assert [x][..0] == [];
  }

  lemma TakenOfOne(offer: Part, amount: nat)
    ensures PaymentRules.Taken([offer], amount) == TakeOne(Taking([], amount), offer)
  {
    assert [offer][..0] == [];
    assert TakeOn(Taking([], amount), [offer][..0]) == Taking([], amount);
  }

  lemma UncoveredOfOne(opening: Part, covered: nat)
    ensures Uncovered([opening], covered) == KeepOff(Taking([], covered), opening)
  {
    assert [opening][..0] == [];
  }

  // ---- the payments ----------------------------------------------------------------------

  function TwoPaid(rank: (Table, nat) -> int, x: nat): Books {
    Books(map[1 := Invoice(1, 0, 5, 9, x)], map[],
          [Payment(10, 5, 1, 9, x, 1), Payment(11, 5, 1, 9, x, 2)],
          [Settlement(1, 0, Paid, x, None, 1, rank(Settlements, 0))],
          [Credit(5, 9, x, FromPayment(1), 2, rank(Credits, 0))], [], [], [], [], rank)
  }

  function Paying(x: nat): seq<Op> {
    [Issue(1, 5, 9, x), Collect(NewPayment(10, 1, 9, x, 1)), Collect(NewPayment(11, 1, 9, x, 2))]
  }

  lemma StandsAlone(b: Books)
    requires b.cancellations == map[] && 1 in b.invoices
    ensures StandingOf(b, 1) == Some(1) && !Corrected(b.cancellations, 1)
  {
  }

  lemma FirstPaid(rank: (Table, nat) -> int, x: nat)
    requires x > 0
    ensures var b := Empty(rank).(invoices := map[1 := Invoice(1, 0, 5, 9, x)]);
      Apply(b, Collect(NewPayment(10, 1, 9, x, 1)))
        == b.(payments := [Payment(10, 5, 1, 9, x, 1)],
              settlements := [Settlement(1, 0, Paid, x, None, 1, rank(Settlements, 0))])
  {
    var b := Empty(rank).(invoices := map[1 := Invoice(1, 0, 5, 9, x)]);
    StandsAlone(b);
    hide StandingOf, Corrected;
    DividedIs(b, NewPayment(10, 1, 9, x, 1));
    assert SettledOn(b, 1) == 0;
  }

  lemma SecondPaid(rank: (Table, nat) -> int, x: nat)
    requires x > 0
    ensures var b := Empty(rank).(
              invoices := map[1 := Invoice(1, 0, 5, 9, x)], payments := [Payment(10, 5, 1, 9, x, 1)],
              settlements := [Settlement(1, 0, Paid, x, None, 1, rank(Settlements, 0))]);
      Apply(b, Collect(NewPayment(11, 1, 9, x, 2))) == TwoPaid(rank, x)
  {
    var b := Empty(rank).(
      invoices := map[1 := Invoice(1, 0, 5, 9, x)], payments := [Payment(10, 5, 1, 9, x, 1)],
      settlements := [Settlement(1, 0, Paid, x, None, 1, rank(Settlements, 0))]);
    StandsAlone(b);
    hide StandingOf, Corrected;
    var pay := NewPayment(11, 1, 9, x, 2);
    DividedIs(b, pay);
    OneRow(b.settlements[0], SettlementKey());
    assert SettledOn(b, 1) == x;
    assert Find(b.payments, PaymentRef(11)).None? by {
      assert b.payments[..0] == [];
    }
  }

  lemma BothPaid(rank: (Table, nat) -> int, x: nat)
    requires x > 0
    ensures After(rank, Paying(x)) == TwoPaid(rank, x)
  {
    var o := Paying(x);
    assert o == ([] + [o[0]] + [o[1]]) + [o[2]];
    AfterMore(rank, [] + [o[0]] + [o[1]], o[2]);
    AfterMore(rank, [] + [o[0]], o[1]);
    AfterMore(rank, [], o[0]);
    FirstPaid(rank, x);
    SecondPaid(rank, x);
    hide Apply;
    IssuedFirst(rank, x);
  }

  lemma IssuedFirst(rank: (Table, nat) -> int, x: nat)
    ensures Apply(Empty(rank), Issue(1, 5, 9, x)) == Empty(rank).(invoices := map[1 := Invoice(1, 0, 5, 9, x)])
  {
  }

  // ---- what is read of both payments -----------------------------------------------------

  /** Whether the invoice, the payments, what they settle and the credit stand as they were paid. */
  predicate AsPaid(b: Books, x: nat) {
    var paid := TwoPaid(b.rank, x);
    && b.invoices == paid.invoices && b.cancellations == paid.cancellations && b.payments == paid.payments
    && b.settlements == paid.settlements && b.credits == paid.credits
  }

  lemma OneCredit(b: Books, picks: Id -> bool)
    requires |b.credits| == 1
    ensures CreditsWhere(b, picks) == if picks(0) then [0] else []
  {
    assert Indices(0, picks) == [];
    assert Indices(1, picks) == if picks(0) then [] + [0] else [];
    OneRow<Id>(0, CreditKey(b));
  }

  lemma SettledBy(b: Books, x: nat)
    requires AsPaid(b, x)
    ensures InvoicesOf(b, 0) == [Part(1, x)] && InvoicesOf(b, 1) == []
  {
    OneRow(b.settlements[0], SettlementKey());
    assert b.settlements == [b.settlements[0]] && [b.settlements[0]][..0] == [];
    assert SignedParts([], IsOfPayment(0)) == [] && SignedParts([], IsOfPayment(1)) == [];
    assert SignedParts(b.settlements, IsOfPayment(0)) == [] + [Part(1, x)];
    OnePart(Part(1, x));
  }

  /** The first payment left no credit; it settles the invoice, and the second's credit covers it. */
  lemma ReadFirst(b: Books, x: nat)
    requires AsPaid(b, x)
    ensures Own(b, 0) == [] && InvoicesOf(b, 0) == [Part(1, x)] && CoveringOf(b, 0) == [Part(0, ReadOpen(b, 0))]
  {
    SettledBy(b, x);
    OneCredit(b, LeftByWhom(b, 0));
    var invoices := InvoicesOf(b, 0);
    OneCredit(b, Covers(b, 0, invoices));
    assert invoices[0].id == 1;
    assert IsCovering(b, 0, invoices, 0);
    assert [0][..0] == [];
    assert OpenParts(b, []) == [];
    assert OpenParts(b, [0]) == [] + [Part(0, ReadOpen(b, 0))];
  }

  /** The second payment settles nothing; it left the credit. */
  lemma ReadSecond(b: Books, x: nat)
    requires AsPaid(b, x) && TakenFromCredits(b, 1) == 0
    ensures Own(b, 1) == [Reversible(0, x, ReadOpen(b, 0))] && InvoicesOf(b, 1) == [] && CoveringOf(b, 1) == []
  {
    SettledBy(b, x);
    OneCredit(b, LeftByWhom(b, 1));
    OneCredit(b, Covers(b, 1, []));
    assert !IsCovering(b, 1, [], 0);
    assert [0][..0] == [];
    assert CountingOf(b, [], 0) == Counting([], 0);
    assert CountingOf(b, [0], 0).own == [] + [Reversible(0, x, ReadOpen(b, 0))];
  }

  /** A withdrawal of all that one invoice is settled by: one credit covers it, or none of it. */
  lemma OneCovering(x: nat, open: nat)
    requires x > 0 && (open == x || open == 0)
    ensures WithdrawalOf(x, [], [Part(1, x)], [Part(0, open)]) == if open == x
      then Withdrawal(0, [], [], [Part(0, x)], [], 0) else Withdrawal(0, [], [], [], [Part(1, x)], 0)
  {
    TakenOfOne(Part(1, x), x);
    OnePartTotal(Part(1, x));
    TakenOfOne(Part(0, open), x);
    UncoveredOfOne(Part(1, x), x);
    UncoveredOfOne(Part(1, x), 0);
    hide PaymentRules.Taken, Uncovered, Total;
    assert OwnShareOf([], x) == OwnShare([], [], x);
  }

  /** With the credit open it covers the whole of the first payment; with none of it open the invoice opens
      again. */
  lemma FirstTakenBack(b: Books, x: nat)
    requires AsPaid(b, x) && x > 0 && (ReadOpen(b, 0) == x || ReadOpen(b, 0) == 0)
    ensures WithdrawalNow(b, 0, x) == if ReadOpen(b, 0) == x
      then Withdrawal(0, [], [], [Part(0, x)], [], 0) else Withdrawal(0, [], [], [], [Part(1, x)], 0)
  {
    hide Own, InvoicesOf, CoveringOf, ReadOpen, WithdrawalOf, AsPaid;
    ReadFirst(b, x);
    OneCovering(x, ReadOpen(b, 0));
  }

  lemma OnePartTotal(part: Part)
    ensures Total([part]) == part.amount && Total([]) == 0
    ensures forall id :: On([part], id) == if id == part.id then part.amount else 0
  {
    SumAppend([], part);
    assert [] + [part] == [part];
    forall id ensures On([part], id) == Under(id)(part) {
    }
    assert Total([part]) == Amount()(part);
  }

  /** With none of the credit open all of the second payment is beyond it. */
  lemma SecondTakenBack(b: Books, x: nat)
    requires AsPaid(b, x) && x > 0 && ReadOpen(b, 0) == 0 && TakenFromCredits(b, 1) == 0
    ensures WithdrawalNow(b, 1, x) == Withdrawal(x, [], [Part(0, x)], [], [], x)
  {
    ReadSecond(b, x);
    hide Own, InvoicesOf, CoveringOf, ReadOpen;
    var own := [Reversible(0, x, 0)];
    assert own[..0] == [];
    assert OwnShareOf(own[..0], x) == OwnShare([], [], x);
    assert OwnShareOf(own, x) == OwnShare([], [Part(0, x)], 0);
    OnePartTotal(Part(0, x));
  }

  // ---- the first reversal is covered -----------------------------------------------------

  function FirstReport(x: nat): Report {
    Report(7, 10, 9, x, 0, 3)
  }

  /** The books once the first reversal took the second payment's credit. */
  function Covered(rank: (Table, nat) -> int, x: nat): Books {
    TwoPaid(rank, x).(
      reversals := [Reversal(7, 0, x, 0, 0, 0)],
      entries := [Entry(0, EntryKind.Taken, x, ByReversal(0), 3, rank(Entries, 0))])
  }

  lemma NothingBeyondOpen(b: Books, p: Id, amount: nat)
    requires WithdrawalNow(b, p, amount).beyondOpen == []
    ensures LiftedBy(b, p, amount) == [] && LiftAll(b, [], 0) == b
  {
  }

  lemma FirstWithdraws(b: Books, x: nat)
    requires AsPaid(b, x) && x > 0 && b.entries == [] && b.reversals == [Reversal(7, 0, 0, 0, 0, 0)]
    ensures Withdraw(b, 0, x, 3)
         == b.(entries := [Entry(0, EntryKind.Taken, x, ByReversal(0), 3, b.rank(Entries, 0))])
    ensures WithdrawalNow(b, 0, x).fromCredit == 0
  {
    assert ReadOpen(b, 0) == x;
    ReadFirst(b, x);
    FirstTakenBack(b, x);
    NothingBeyondOpen(b, 0, x);
    hide WithdrawalNow, LiftedBy, Own, InvoicesOf, CoveringOf;
    assert TakenCredits(b, 0, x) == [];
    assert [Part(0, x)][..0] == [];
    assert WriteEntries(b, [], EntryKind.Taken, ByReversal(0), 3) == b;
    assert WithdrawalWritten(b, 0, x, 3)
      == b.(entries := [] + [Entry(0, EntryKind.Taken, x, ByReversal(0), 3, b.rank(Entries, 0))]);
    assert Sum([], CoverAmount()) == 0;
  }

  lemma PaymentFound(b: Books, x: nat)
    requires AsPaid(b, x)
    ensures Find(b.payments, PaymentRef(10)) == Some(0) && Find(b.payments, PaymentRef(11)) == Some(1)
  {
    assert b.payments[..1] == [b.payments[0]] && b.payments[..1][..0] == [];
  }

  lemma FirstCovered(rank: (Table, nat) -> int, x: nat)
    requires x > 0
    ensures Apply(TwoPaid(rank, x), ReportReversal(FirstReport(x))) == Covered(rank, x)
  {
    hide Withdraw, WithdrawalNow, Reinstate, ReinstatementNow;
    var b := TwoPaid(rank, x);
    PaymentFound(b, x);
    var held := AddReversal(b, 7, 0);
    assert HeldReversal(b, 7, 0) == (held, 0);
    FirstWithdraws(held, x);
    assert Withdrawn(held, 0, x, 3) == Covered(rank, x);
    assert Returned(Covered(rank, x), 0, 0, 3) == Covered(rank, x);
  }

  // ---- the second reversal lifts the cover -----------------------------------------------

  function SecondReport(x: nat): Report {
    Report(8, 11, 9, x, 0, 4)
  }

  /** The books as the second reversal begins. */
  function Begun(rank: (Table, nat) -> int, x: nat): Books {
    AddReversal(Covered(rank, x), 8, 1)
  }

  lemma BegunReads(rank: (Table, nat) -> int, x: nat)
    requires x > 0
    ensures var b := Begun(rank, x);
      && AsPaid(b, x) && PaidOut(b, 0) == x && ReadOpen(b, 0) == 0 && TakenFromCredits(b, 1) == 0
  {
    var b := Begun(rank, x);
    OneRow(b.entries[0], EntryKey());
    assert b.entries == [b.entries[0]];
    SumZero(b.reversals, FromCreditOf(1));
  }

  lemma OneGiven(b: Books, e: Entry)
    requires b.entries == [e] && e.credit == 0 && e.kind == EntryKind.Taken && e.amount > 0
    requires e.source == ByReversal(0) && OfAnotherPayment(b, 1, e)
    ensures CoversGivenBy(b, 0, 1) == [Cover(0, 0, e.amount)]
  {
    var part := Part(0, e.amount);
    OneRow(e, EntryKey());
    assert [e][..0] == [] && CoverParts(b, [], 0, 1) == [];
    assert CoverParts(b, [e], 0, 1) == [] + [part];
    OnePart(part);
    assert [part][..0] == [] && HeldCovers([], 0) == [];
    assert HeldCovers([part], 0) == [] + [Cover(0, 0, e.amount)];
  }

  /** The one cover lifted is that of the first reversal. */
  lemma CoverLifted(rank: (Table, nat) -> int, x: nat)
    requires x > 0
    ensures var b := Begun(rank, x);
      && LiftedBy(b, 1, x) == [Cover(0, 0, x)] && TakenCredits(b, 1, x) == [Part(0, x)]
  {
    var b := Begun(rank, x);
    hide Own, InvoicesOf, CoveringOf, CoversGivenBy, WithdrawalNow, TakenCredits, LiftedBy, AsPaid, ReadOpen, PaidOut;
    hide TakenFromCredits;
    BegunReads(rank, x);
    SecondTakenBack(b, x);
    ReadSecond(b, x);
    OneGiven(b, b.entries[0]);
    LiftedFromOne(b, x);
  }

  lemma OneLifted(cover: Cover)
    requires cover.amount > 0
    ensures Lifted([Part(cover.credit, cover.amount)], [cover]) == [cover]
    ensures LiftedParts([cover]) == [Part(cover.credit, cover.amount)]
  {
    var part := Part(cover.credit, cover.amount);
    assert [cover][..0] == [] && [part][..0] == [];
    assert LiftOn(Lifting([], cover.amount), cover.credit, []) == Lifting([], cover.amount);
    assert LiftOn(Lifting([], cover.amount), cover.credit, [cover]) == Lifting([] + [cover], 0);
    assert Lifted([], [cover]) == [] && LiftedParts([]) == [];
    assert LiftedParts([cover]) == [] + [part];
  }

  lemma OneTakenOf(own: Reversible, part: Part)
    requires part.id == own.id && part.amount > 0
    ensures TakenOfOwn([own], [part]) == [part]
  {
    OnePartTotal(part);
    assert [own][..0] == [] && TakenOfOwn([], [part]) == [];
    assert TakenOfOwn([own], [part]) == [] + [part];
  }

  lemma LiftedFromOne(b: Books, x: nat)
    requires x > 0 && CoversGivenBy(b, 0, 1) == [Cover(0, 0, x)]
    requires Own(b, 1) == [Reversible(0, x, 0)]
    requires WithdrawalNow(b, 1, x).beyondOpen == [Part(0, x)] && WithdrawalNow(b, 1, x).credits == []
    ensures LiftedBy(b, 1, x) == [Cover(0, 0, x)] && TakenCredits(b, 1, x) == [Part(0, x)]
  {
    hide Own, WithdrawalNow, CoversGivenBy, Lifted, LiftedParts, TakenOfOwn;
    var own, cover := Own(b, 1), Cover(0, 0, x);
    assert own[..0] == [] && AllCovers(b, [], 1) == [];
    assert AllCovers(b, own, 1) == [] + [cover];
    OneLifted(cover);
    assert [] + [Part(0, x)] == [Part(0, x)];
    OneTakenOf(own[0], Part(0, x));
    assert own == [own[0]] && AllCovers(b, own, 1) == [cover];
  }

  /** The books once the withdrawal is written, and once the cover is lifted. */
  function Written(rank: (Table, nat) -> int, x: nat): Books {
    var b := Begun(rank, x);
    b.(entries := b.entries + [Entry(0, EntryKind.Taken, x, ByReversal(1), 4, rank(Entries, 1))])
  }

  function Relieved(rank: (Table, nat) -> int, x: nat): Books {
    var b := Written(rank, x);
    b.(entries := b.entries + [Entry(0, TakenBack, x, ByReversal(0), 4, rank(Entries, 2))],
       settlements := b.settlements + [Settlement(1, 0, Reversed, x, Some(0), 4, rank(Settlements, 1))])
  }

  lemma OneEntry(b: Books, part: Part, source: Source, at: int)
    ensures WriteEntries(b, [part], EntryKind.Taken, source, at)
         == AddEntry(b, part.id, EntryKind.Taken, part.amount, source, at)
    ensures WriteSettlements(b, [], 0, Reversed, Some(0), at) == b
  {
    assert [part][..0] == [] && WriteEntries(b, [], EntryKind.Taken, source, at) == b;
  }

  lemma WrittenIs(rank: (Table, nat) -> int, x: nat)
    requires x > 0
    ensures WithdrawalWritten(Begun(rank, x), 1, x, 4) == Written(rank, x)
  {
    hide WithdrawalNow, LiftedBy, TakenCredits, AsPaid, ReadOpen, PaidOut, TakenFromCredits;
    var b := Begun(rank, x);
    BegunReads(rank, x);
    SecondTakenBack(b, x);
    CoverLifted(rank, x);
    OneEntry(b, Part(0, x), ByReversal(1), 4);
    assert [Part(0, x)] + [] == [Part(0, x)];
  }

  /** Until the cover is lifted the credit stands below nothing by all of it. */
  lemma WrittenOpen(rank: (Table, nat) -> int, x: nat)
    requires x > 0
    ensures PaidOut(Written(rank, x), 0) == 2 * x
  {
    BegunReads(rank, x);
    SumAppend(Begun(rank, x).entries, Entry(0, EntryKind.Taken, x, ByReversal(1), 4, rank(Entries, 1)));
  }

  lemma CoverRelieved(rank: (Table, nat) -> int, x: nat)
    requires x > 0
    ensures LiftCover(Written(rank, x), Cover(0, 0, x), 4) == Relieved(rank, x)
  {
    var b := Written(rank, x);
    var given := GivenBack(b, Cover(0, 0, x), 4);
    WrittenOpen(rank, x);
    SumAppend(b.entries, Entry(0, TakenBack, x, ByReversal(0), 4, rank(Entries, 2)));
    assert ReadOpen(given, 0) == 0;
    FirstTakenBack(given, x);
    hide WithdrawalNow;
    assert [Part(1, x)][..0] == [];
    assert WriteEntries(given, [] + [], EntryKind.Taken, ByReversal(0), 4) == given;
    assert WriteSettlements(given, [], 0, Reversed, Some(0), 4) == given;
  }

  lemma SecondWithdraws(rank: (Table, nat) -> int, x: nat)
    requires x > 0
    ensures Withdraw(Begun(rank, x), 1, x, 4) == Relieved(rank, x)
    ensures WithdrawalNow(Begun(rank, x), 1, x).fromCredit == x
  {
    hide WithdrawalNow, LiftedBy, WithdrawalWritten, LiftCover, AsPaid, ReadOpen, PaidOut, TakenFromCredits;
    var b, cover := Begun(rank, x), Cover(0, 0, x);
    BegunReads(rank, x);
    SecondTakenBack(b, x);
    CoverLifted(rank, x);
    WrittenIs(rank, x);
    CoverRelieved(rank, x);
    assert [cover][..0] == [] && LiftAll(Written(rank, x), [], 4) == Written(rank, x);
    SumAppend([], cover);
    assert [] + [cover] == [cover];
    assert Sum([cover], CoverAmount()) == CoverAmount()(cover);
  }

  /** The books after the run. */
  function AfterLift(rank: (Table, nat) -> int, x: nat): Books {
    Relieved(rank, x).(reversals := [Reversal(7, 0, x, 0, 0, 0), Reversal(8, 1, x, x, 0, 0)])
  }

  lemma SecondLifts(rank: (Table, nat) -> int, x: nat)
    requires x > 0
    ensures Apply(Covered(rank, x), ReportReversal(SecondReport(x))) == AfterLift(rank, x)
  {
    hide Withdraw, WithdrawalNow, Reinstate, ReinstatementNow;
    var b := Covered(rank, x);
    PaymentFound(b, x);
    NewReference(b);
    assert HeldReversal(b, 8, 1) == (Begun(rank, x), 1);
    SecondWithdraws(rank, x);
    assert Withdrawn(Begun(rank, x), 1, x, 4) == AfterLift(rank, x);
    assert Returned(AfterLift(rank, x), 1, 0, 4) == AfterLift(rank, x);
  }

  lemma NewReference(b: Books)
    requires |b.reversals| == 1 && b.reversals[0].ref != 8
    ensures Find(b.reversals, ReversalRef(8)).None?
  {
    assert b.reversals[..0] == [];
  }

  /** The run up to where the first reversal is covered, and the report that lifts its cover. */
  function CoveringRun(x: nat): seq<Op> {
    Paying(x) + [ReportReversal(FirstReport(x))]
  }

  /** From empty tables a cover comes to be lifted: the first reversal took all of the credit, the second lifts
      that, and between its first write and the lifting the credit stands below nothing by all of it.
      Afterwards the credit owes nothing, the first reversal holds as much reopened on the invoice, and the
      invoice is owed again. */
  lemma CoverComesToBeLifted(rank: (Table, nat) -> int, x: nat)
    requires x > 0
    ensures var before := After(rank, CoveringRun(x));
      var begun := AddReversal(before, 8, 1);
      && |before.credits| == 1 && |before.reversals| == 1
      && Took(before, 0, ByReversal(0)) == x && Sum(before.settlements, ReopenedBy(0)) == 0
      && LiftedBy(begun, 1, x) == [Cover(0, 0, x)]
      && |WithdrawalWritten(begun, 1, x, 4).credits| == 1
      && Open(WithdrawalWritten(begun, 1, x, 4), 0) + x == 0
    ensures var after := After(rank, CoveringRun(x) + [ReportReversal(SecondReport(x))]);
      && |after.credits| == 1 && |after.reversals| == 2 && after.reversals[0].amount == x
      && Open(after, 0) == 0 && Took(after, 0, ByReversal(0)) == 0 && Took(after, 0, ByReversal(1)) == x
      && Sum(after.settlements, ReopenedBy(0)) == x && OwedAt(after, 1) == x
  {
    hide Apply, WithdrawalWritten, LiftedBy, PaidOut, Took, OwedAt;
    AfterMore(rank, Paying(x), ReportReversal(FirstReport(x)));
    AfterMore(rank, CoveringRun(x), ReportReversal(SecondReport(x)));
    BothPaid(rank, x);
    FirstCovered(rank, x);
    SecondLifts(rank, x);
    CoverLifted(rank, x);
    WrittenIs(rank, x);
    WrittenOpen(rank, x);
    CoveredSums(rank, x);
    LiftingSums(rank, x);
  }

  lemma CoveredSums(rank: (Table, nat) -> int, x: nat)
    ensures Took(Covered(rank, x), 0, ByReversal(0)) == x
    ensures Sum(Covered(rank, x).settlements, ReopenedBy(0)) == 0
  {
    var b := Covered(rank, x);
    OneRow(b.entries[0], EntryKey());
    OneRow(b.settlements[0], SettlementKey());
  }

  lemma LiftingSums(rank: (Table, nat) -> int, x: nat)
    ensures var b := AfterLift(rank, x);
      && PaidOut(b, 0) == x && Took(b, 0, ByReversal(0)) == 0 && Took(b, 0, ByReversal(1)) == x
      && Sum(b.settlements, ReopenedBy(0)) == x && OwedAt(b, 1) == x
  {
    var b := AfterLift(rank, x);
    var e, s := b.entries, b.settlements;
    assert e == [e[0]] + [e[1]] + [e[2]] && s == [s[0]] + [s[1]];
    OneRow(e[0], EntryKey());
    OneRow(s[0], SettlementKey());
    SumAppend([e[0]], e[1]);
    SumAppend([e[0]] + [e[1]], e[2]);
    SumAppend([s[0]], s[1]);
    assert SettledOn(b, 1) == 0;
  }
}
