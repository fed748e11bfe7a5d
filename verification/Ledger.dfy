/** The ledger as it runs: tables that each step changes row by row, as the adapters do, proved against
    what the step does to the books as a whole. What holds of the books over every run is proved of those
    whole steps; here each loop is shown to write exactly them. */
module Ledger {
  import opened Sums
  import opened PaymentRules
  import opened InvoiceChain
  import opened Books
  import opened Soundness
  import opened ReversalFrame
  import opened Brought
  import opened Withdrawals
  import opened LiftedCovers
  import opened WholeWithdrawals
  import opened Reinstatements
  import opened GiveBacks
  import opened ReversalReports
  import opened PaymentRecords
  import opened Corrections
  import opened Refunds

  class Ledger {
    var invoices: Invoices
    var cancellations: Cancellations
    var payments: seq<Payment>
    var settlements: seq<Settlement>
    var credits: seq<Credit>
    var entries: seq<Entry>
    var reversals: seq<Reversal>
    var cases: seq<Case>
    var refunds: seq<Refund>
    const rank: (Table, nat) -> int

    constructor (rank: (Table, nat) -> int)
      ensures Snap() == Empty(rank)
    {
      this.rank := rank;
      invoices, cancellations, payments, settlements := map[], map[], [], [];
      credits, entries, reversals, cases, refunds := [], [], [], [], [];
    }

    /** What the tables hold. */
    function Snap(): Books
      reads this
    {
      Books(invoices, cancellations, payments, settlements, credits, entries, reversals, cases, refunds, rank)
    }

    // ---- rows --------------------------------------------------------------------------

    method WriteEntry(credit: Id, kind: EntryKind, amount: int, source: Source, at: int)
      modifies this`entries
      ensures Snap() == AddEntry(old(Snap()), credit, kind, amount, source, at)
    {
      entries := entries + [Entry(credit, kind, amount, source, at, rank(Entries, |entries|))];
    }

    method WriteSettlement(invoice: Id, payment: Id, kind: SettlementKind, amount: int, reversal: Option<Id>, at: int)
      modifies this`settlements
      ensures Snap() == AddSettlement(old(Snap()), invoice, payment, kind, amount, reversal, at)
    {
      settlements := settlements
        + [Settlement(invoice, payment, kind, amount, reversal, at, rank(Settlements, |settlements|))];
    }

    method CreateCredit(subscriber: Id, currency: Id, amount: int, origin: Origin, at: int)
      modifies this`credits
      ensures Snap() == AddCredit(old(Snap()), subscriber, currency, amount, origin, at)
    {
      credits := credits + [Credit(subscriber, currency, amount, origin, at, rank(Credits, |credits|))];
    }

    method OpenCaseOf(about: Source, unmatched: int, at: int)
      modifies this`cases
      ensures Snap() == OpenCase(old(Snap()), about, unmatched, at)
    {
      if unmatched > 0 {
        cases := cases + [Case(about, unmatched, false, at, rank(Cases, |cases|))];
      }
    }

    method WriteEachEntry(parts: seq<Part>, kind: EntryKind, source: Source, at: int)
      modifies this`entries
      ensures Snap() == WriteEntries(old(Snap()), parts, kind, source, at)
    {
      for k := 0 to |parts|
        invariant Snap() == WriteEntries(old(Snap()), parts[..k], kind, source, at)
      {
        assert parts[..k + 1][..k] == parts[..k];
        WriteEntry(parts[k].id, kind, parts[k].amount, source, at);
      }
      assert parts[..|parts|] == parts;
    }

    method WriteEachSettlement(parts: seq<Part>, payment: Id, kind: SettlementKind, reversal: Option<Id>, at: int)
      modifies this`settlements
      ensures Snap() == WriteSettlements(old(Snap()), parts, payment, kind, reversal, at)
    {
      for k := 0 to |parts|
        invariant Snap() == WriteSettlements(old(Snap()), parts[..k], payment, kind, reversal, at)
      {
        assert parts[..k + 1][..k] == parts[..k];
        WriteSettlement(parts[k].id, payment, kind, parts[k].amount, reversal, at);
      }
      assert parts[..|parts|] == parts;
    }

    /** Walks the cases and closes each open one that is about `about` and picked; the ids closed are the answer. */
    method CloseCasesOf(about: Source, picked: Id -> bool) returns (closed: seq<Id>)
      modifies this`cases
      ensures Snap() == CloseCases(old(Snap()), about, picked)
      ensures forall k: Id :: k in closed <==>
        k < |old(cases)| && old(cases)[k].about == about && !old(cases)[k].closed && picked(k)
    {
      ghost var was := Snap();
      var ids := Indices(|cases|, (k: Id) => true);
      IndicesHold(|cases|, (k: Id) => true);
      closed := [];
      for i := 0 to |ids|
        invariant |cases| == |was.cases|
        invariant forall k: Id :: k in closed <==> k in ids[..i] && ToClose(was, about, picked, k)
        invariant forall k: Id :: k < |cases| ==>
          cases[k] == if k in closed then was.cases[k].(closed := true) else was.cases[k]
      {
        var k := ids[i];
        assert k in ids;
        if cases[k].about == about && !cases[k].closed && picked(k) {
          cases := cases[k := cases[k].(closed := true)];
          closed := closed + [k];
        }
        assert ids[..i + 1] == ids[..i] + [k];
      }
      assert ids[..|ids|] == ids;
      assert cases == CloseCases(was, about, picked).cases;
    }

    // ---- a withdrawal ------------------------------------------------------------------

    /** Inserts the entries, then the settlements. */
    method WriteTaken(r: Id, p: Id, taken: seq<Part>, reopens: seq<Part>, at: int)
      modifies this`entries, this`settlements
      ensures Snap() == Take(old(Snap()), r, p, taken, reopens, at)
    {
      WriteEachEntry(taken, EntryKind.Taken, ByReversal(r), at);
      WriteEachSettlement(reopens, p, Reversed, Some(r), at);
    }

    /** The three reads before any division. */
    method BroughtBy(p: Id) returns (own: seq<Reversible>, settled: seq<Part>, covering: seq<Part>)
      ensures own == Own(Snap(), p) && settled == InvoicesOf(Snap(), p) && covering == CoveringOf(Snap(), p)
    {
      settled := GatherAll(SignedParts(Sort(settlements, SettlementKey()), IsOfPayment(p)));
      own := Own(Snap(), p);
      covering := OpenParts(Snap(), CreditsWhere(Snap(), Covers(Snap(), p, settled)));
    }

    method LiftCoverOf(cover: Cover, at: int)
      modifies this`entries, this`settlements, this`reversals, this`cases
      ensures Snap() == LiftCover(old(Snap()), cover, at)
    {
      hide Take, WithdrawalOf, Own, InvoicesOf, CoveringOf, OpenCase;
      var q := cover.reversal;
      WriteEntry(cover.credit, TakenBack, cover.amount, ByReversal(q), at);
      ghost var given := Snap();
      var p := PaymentOf(Snap(), q);
      var own, settled, covering := BroughtBy(p);
      var parts := WithdrawalParts(Max(0, cover.amount), own, settled, covering);
      WriteTaken(q, p, parts.credits + parts.covering, parts.invoices, at);
      assert Snap() == TakeNow(given, q, Max(0, cover.amount), at);
      ghost var taken := Snap();
      if parts.fromCredit > 0 && q < |reversals| {
        reversals := reversals[q := reversals[q].(fromCredit := reversals[q].fromCredit + parts.fromCredit)];
      }
      assert Snap() == AddFromCredit(taken, q, parts.fromCredit);
      OpenCaseOf(ByReversal(q), parts.unmatched, at);
    }

    /** A withdrawal row by row: written, covers lifted in turn, and a case for the remainder. */
    method WithdrawMore(r: Id, amount: nat, at: int) returns (fromCredit: int)
      requires r < |reversals|
      modifies this`entries, this`settlements, this`reversals, this`cases
      ensures Snap() == Withdraw(old(Snap()), r, amount, at)
      ensures fromCredit == WithdrawalNow(old(Snap()), old(reversals[r].payment), amount).fromCredit
    {
      hide Take, LiftCover, OpenCase, Own, InvoicesOf, CoveringOf, CoversGivenBy, WithdrawalOf, Lifted;
      ghost var was := Snap();
      var p := reversals[r].payment;
      var own, settled, covering := BroughtBy(p);
      var parts := WithdrawalParts(amount, own, settled, covering);
      var covers := [];
      for i := 0 to |own|
        invariant Snap() == was && covers == AllCovers(was, own[..i], p)
      {
        assert own[..i + 1][..i] == own[..i];
        covers := covers + CoversGivenBy(Snap(), own[i].id, p);
      }
      assert own[..|own|] == own;
      var lifted := CoversLifted(parts.beyondOpen, covers);
      var all := parts.credits + LiftedParts(lifted);
      var taken := [];
      for i := 0 to |own|
        invariant Snap() == was && taken == TakenOfOwn(own[..i], all)
      {
        assert own[..i + 1][..i] == own[..i];
        taken := Push(taken, own[i].id, On(all, own[i].id));
      }
      assert own[..|own|] == own;
      WriteTaken(r, p, taken + parts.covering, parts.invoices, at);
      ghost var written := Snap();
      assert written == WithdrawalWritten(was, r, amount, at);
      for i := 0 to |lifted|
        invariant Snap() == LiftAll(written, lifted[..i], at)
      {
        assert lifted[..i + 1][..i] == lifted[..i];
        LiftCoverOf(lifted[i], at);
      }
      assert lifted[..|lifted|] == lifted;
      OpenCaseOf(ByReversal(r), parts.unmatched - Sum(lifted, CoverAmount()), at);
      fromCredit := parts.fromCredit;
    }

    // ---- a give-back -------------------------------------------------------------------

    /** Nets the reversal's settlements, moves each to where its chain stands, and reads what is owed there. */
    method ReopenedNow(r: Id) returns (reopened: seq<Reopened>)
      requires StepsUp(invoices, cancellations) && SettlementsOk(Snap())
      ensures reopened == WithOwed(Snap(), ReopenedParts(Snap(), r))
    {
      var left := RestoodNow(r);
      var gathered := GatherAll(left);
      reopened := [];
      for k := 0 to |gathered|
        invariant reopened == WithOwed(Snap(), gathered[..k])
      {
        assert gathered[..k + 1][..k] == gathered[..k];
        reopened := reopened + [Reopened(gathered[k].id, gathered[k].amount, OwedAt(Snap(), gathered[k].id))];
      }
      assert gathered[..|gathered|] == gathered;
    }

    /** What a reversal left open on each invoice, under the invoice its chain has come to. */
    method RestoodNow(r: Id) returns (left: seq<Part>)
      requires StepsUp(invoices, cancellations) && SettlementsOk(Snap())
      ensures left == Restood(Snap(), NetsOf(Snap(), IsOfReversal(r)))
    {
      hide SettlementsOk, StepsUp;
      var nets := GatherAll(SignedParts(Sort(settlements, SettlementKey()), IsOfReversal(r)));
      left := [];
      for k := 0 to |nets|
        invariant left == Restood(Snap(), nets[..k])
      {
        assert nets[..k + 1][..k] == nets[..k];
        assert Names(nets, nets[k].id);
        SettledInvoice(Snap(), r, nets[k].id);
        var standing := StandingInvoiceIdOf(invoices, cancellations, nets[k].id);
        left := left + [Part(if standing.Some? then standing.value else nets[k].id, -nets[k].amount)];
      }
      assert nets[..|nets|] == nets;
    }

    /** How `amount`, newly given back, divides as everything stands now, and the cases it covers. */
    method DivideGiven(r: Id, amount: nat) returns (parts: Reinstatement, covered: seq<Id>)
      requires r < |reversals| && StepsUp(invoices, cancellations) && SettlementsOk(Snap())
      ensures parts == ReinstatementNow(Snap(), r, amount)
      ensures AmongOnly(covered) == CoveredNow(Snap(), r, amount)
    {
      hide SettlementsOk, StepsUp, WithOwed, ReopenedParts, OwnFirst, CasesOf, ReinstatementOf;
      var about := CasesOf(Snap(), ByReversal(r));
      var coveredBefore := reversals[r].reinstatedToCases;
      var took := GatherAll(PaidParts(Sort(entries, EntryKey()), ByReversal(r)));
      var reopened := ReopenedNow(r);
      parts := ReinstatementParts(amount, Total(about) - coveredBefore,
                                  OwnFirst(Snap(), reversals[r].payment, took), reopened);
      covered := CoveredCases(about, coveredBefore + parts.covered);
    }

    /** A give-back row by row: cases closed, entries and settlements inserted, and a credit for the remainder. */
    method GiveBackMore(r: Id, amount: nat, at: int) returns (toCases: nat)
      requires r < |reversals| && reversals[r].payment < |payments|
      requires StepsUp(invoices, cancellations) && SettlementsOk(Snap())
      modifies this`entries, this`settlements, this`credits, this`cases
      ensures Snap() == Reinstate(old(Snap()), r, amount, at)
      ensures toCases == ReinstatementNow(old(Snap()), r, amount).covered
    {
      hide SettlementsOk, StepsUp, ReinstatementNow, CoveredNow, CloseCases;
      var p := reversals[r].payment;
      var parts, covered := DivideGiven(r, amount);
      var closed := CloseCasesOf(ByReversal(r), AmongOnly(covered));
      WriteEachEntry(parts.credits, TakenBack, ByReversal(r), at);
      WriteEachSettlement(parts.invoices, p, Reinstated, Some(r), at);
      if parts.credited > 0 {
        CreateCredit(payments[p].subscriber, payments[p].currency, parts.credited, FromReversal(r), at);
      }
      toCases := parts.covered;
    }

    // ---- a report of a reversal --------------------------------------------------------

    /** Finds the row under `ref`, or inserts one. */
    method HoldReversal(ref: Id, p: Id) returns (r: Id)
      modifies this`reversals
      ensures (Snap(), r) == HeldReversal(old(Snap()), ref, p)
      ensures r < |reversals|
    {
      var found := Find(reversals, ReversalRef(ref));
      match found {
        case Some(held) => r := held;
        case None =>
          r := |reversals|;
          reversals := reversals + [Reversal(ref, p, 0, 0, 0, 0)];
      }
    }

    /** Withdraws what is reported beyond what the reversal recorded, and records it. */
    method WithdrawReported(r: Id, withdrawn: int, at: int) returns (grew: bool)
      requires Sound(Snap()) && r < |reversals|
      modifies this`entries, this`settlements, this`reversals, this`cases
      ensures Snap() == Withdrawn(old(Snap()), r, withdrawn, at)
      ensures grew <==> withdrawn > old(reversals[r].amount)
    {
      hide Sound, Withdraw, WithdrawalNow;
      var record := reversals[r];
      var more := withdrawn - record.amount;
      grew := more > 0;
      if grew {
        WithdrawnShape(Snap(), r, withdrawn, at);
        var fromCredit := WithdrawMore(r, more, at);
        reversals := reversals[r := record.(amount := withdrawn, fromCredit := record.fromCredit + fromCredit)];
      }
    }

    /** Gives back what is reported beyond what the reversal recorded, and records it. */
    method GiveBackReported(r: Id, reinstated: int, at: int) returns (grew: bool)
      requires Sound(Snap()) && r < |reversals| && reversals[r].payment < |payments|
      modifies this`entries, this`settlements, this`credits, this`reversals, this`cases
      ensures Snap() == Returned(old(Snap()), r, reinstated, at)
      ensures grew <==> Min(reinstated, old(reversals[r].amount)) > old(reversals[r].reinstated)
    {
      hide Sound, Reinstate, ReinstatementNow, StepsUp, SettlementsOk, ReversalsOk;
      var record := reversals[r];
      var given := Min(reinstated, record.amount) - record.reinstated;
      grew := given > 0;
      if grew {
        SoundForWalk(Snap());
        ReinstateShape(Snap(), r, given, at);
        var toCases := GiveBackMore(r, given, at);
        reversals := reversals[r := record.(reinstated := record.reinstated + given,
                                            reinstatedToCases := record.reinstatedToCases + toCases)];
      }
    }

    /** The whole report as one transaction; where it is refused no table has changed. */
    method RecordReversalReport(report: Report) returns (outcome: ReportOutcome)
      requires Sound(Snap())
      modifies this
      ensures Step(Snap(), outcome) == RecordReversal(old(Snap()), report)
      ensures Sound(Snap())
    {
      hide Sound, Withdrawn, Returned, HeldReversal, ReversalWrites;
      ghost var was := Snap();
      RecordReversalSound(was, report);
      var payment := Find(payments, PaymentRef(report.paymentRef));
      if payment.None? {
        return UnknownPayment;
      }
      var p := payment.value;
      if report.currency != payments[p].currency {
        return WrongCurrency;
      }
      HeldSound(was, report.ref, p);
      var r := HoldReversal(report.ref, p);
      ghost var held := Snap();
      if reversals[r].payment != p {
        return OfAnother;
      }
      WithdrawnSound(held, r, report.withdrawn, report.at);
      var took := WithdrawReported(r, report.withdrawn, report.at);
      ghost var withdrawn := Snap();
      ReturnedSound(withdrawn, r, report.reinstated, report.at);
      var gave := GiveBackReported(r, report.reinstated, report.at);
      outcome := if !took && !gave then Unchanged(r) else Applied(r);
    }

    // ---- payments and credits ----------------------------------------------------------

    /** Runs the walk, and reads what is owed where it ends. */
    method OwedByStanding(invoice: Id) returns (standing: Option<Id>, owed: int)
      requires StepsUp(invoices, cancellations) && invoice in invoices
      ensures standing == StandingOf(Snap(), invoice) && owed == StandingOwes(Snap(), invoice)
    {
      standing := StandingInvoiceIdOf(invoices, cancellations, invoice);
      owed := if standing.Some? then OwedAt(Snap(), standing.value) else 0;
    }

    method RecordPaymentOf(pay: NewPayment) returns (outcome: PaymentOutcome)
      requires Sound(Snap())
      modifies this`payments, this`settlements, this`credits
      ensures Step(Snap(), outcome) == RecordPayment(old(Snap()), pay)
      ensures Sound(Snap())
    {
      hide Sound, StepsUp, SettlementsOk, ReversalsOk, StandingOf, StandingOwes, OwedAt;
      ghost var was := Snap();
      RecordPaymentSound(was, pay);
      SoundForWalk(was);
      if pay.invoice !in invoices {
        return PaymentOutcome.UnknownInvoice;
      }
      var invoice := invoices[pay.invoice];
      if pay.currency != invoice.currency {
        return OtherCurrency;
      }
      if Find(payments, PaymentRef(pay.ref)).Some? {
        return PaidBefore;
      }
      var standing, owed := OwedByStanding(pay.invoice);
      StandingToSettle(was, pay.invoice);
      var p := |payments|;
      payments := payments
        + [Payment(pay.ref, invoice.subscriber, pay.invoice, invoice.currency, pay.amount, pay.at)];
      var settles := SettlesOf(pay.amount, owed);
      if standing.Some? && settles > 0 {
        WriteSettlement(standing.value, p, Paid, settles, None, pay.at);
      }
      if pay.amount - settles > 0 {
        CreateCredit(invoice.subscriber, invoice.currency, pay.amount - settles, FromPayment(p), pay.at);
      }
      outcome := PaidNow(p, settles, pay.amount - settles);
    }

    method CreditInvoiceOf(invoice: Id, at: int) returns (outcome: CreditOutcome)
      requires Sound(Snap())
      modifies this`credits
      ensures Step(Snap(), outcome) == CreditInvoice(old(Snap()), invoice, at)
      ensures Sound(Snap())
    {
      hide Sound, IsCancellation;
      CreditInvoiceSound(Snap(), invoice, at);
      if invoice !in invoices {
        return NoInvoice;
      }
      var of := invoices[invoice];
      if of.gross >= 0 || IsCancellation(cancellations, invoice) {
        return NothingToCredit;
      }
      if Find(credits, FromInvoiceIs(invoice)).Some? {
        return CreditedBefore;
      }
      outcome := CreditedNow(|credits|);
      CreateCredit(of.subscriber, of.currency, -of.gross, FromInvoice(invoice), at);
    }

    // ---- issuing and cancelling --------------------------------------------------------

    method IssueOne(id: Id, subscriber: Id, currency: Id, gross: int) returns (outcome: IssueOutcome)
      requires Sound(Snap())
      modifies this`invoices
      ensures Step(Snap(), outcome) == IssueInvoice(old(Snap()), id, subscriber, currency, gross)
      ensures Sound(Snap())
    {
      hide Sound;
      IssueInvoiceSound(Snap(), id, subscriber, currency, gross);
      if id in invoices {
        return IdTaken;
      }
      invoices := Issued(invoices, id, subscriber, currency, gross);
      outcome := IssuedNow;
    }

    /** One pass writes the settlements out of one invoice and into the other, a second the credits. */
    method MoveShares(cancelled: Id, replacement: Option<Id>, moves: seq<Moved>, at: int)
      requires cancelled in invoices
      modifies this`settlements, this`credits
      ensures Snap() == WriteMovedCredits(WriteMoves(old(Snap()), moves, cancelled, replacement, at),
                                          moves, old(invoices[cancelled]), cancelled, at)
    {
      MoveSettlements(cancelled, replacement, moves, at);
      ghost var moved := Snap();
      var invoice := invoices[cancelled];
      for k := 0 to |moves|
        invariant Snap() == WriteMovedCredits(moved, moves[..k], invoice, cancelled, at)
      {
        assert moves[..k + 1][..k] == moves[..k];
        if moves[k].credited > 0 {
          CreateCredit(invoice.subscriber, invoice.currency, moves[k].credited,
                       FromCancellation(moves[k].payment, cancelled), at);
        }
      }
      assert moves[..|moves|] == moves;
    }

    method MoveSettlements(cancelled: Id, replacement: Option<Id>, moves: seq<Moved>, at: int)
      modifies this`settlements
      ensures Snap() == WriteMoves(old(Snap()), moves, cancelled, replacement, at)
    {
      ghost var was := Snap();
      for k := 0 to |moves|
        invariant Snap() == WriteMoves(was, moves[..k], cancelled, replacement, at)
      {
        assert moves[..k + 1][..k] == moves[..k];
        WriteSettlement(cancelled, moves[k].payment, MovedOut, moves[k].movedOut, None, at);
        if replacement.Some? && moves[k].movedIn > 0 {
          WriteSettlement(replacement.value, moves[k].payment, MovedIn, moves[k].movedIn, None, at);
        }
      }
      assert moves[..|moves|] == moves;
    }

    /** Nets the invoice's settlements under each payment and puts those in order. */
    method SharesNow(invoice: Id) returns (shares: seq<Part>)
      ensures shares == Shares(Snap(), invoice)
    {
      var parts := [];
      for k := 0 to |settlements|
        invariant parts == ShareParts(settlements[..k], invoice)
      {
        assert settlements[..k + 1][..k] == settlements[..k];
        if settlements[k].invoice == invoice {
          parts := parts + [Part(settlements[k].payment, Signed(settlements[k]))];
        }
      }
      assert settlements[..|settlements|] == settlements;
      var gathered := GatherAll(parts);
      shares := Sort(gathered, ShareKey(Snap()));
    }

    method CancelInvoice(invoice: Id, c: Correction, at: int) returns (outcome: CancelOutcome)
      requires Sound(Snap())
      modifies this`invoices, this`cancellations, this`settlements, this`credits
      ensures Step(Snap(), outcome) == Cancel(old(Snap()), invoice, c, at)
      ensures Sound(Snap())
    {
      hide Sound, IsCancellation, Shares, MovingOf, CancelledInvoices, CancelledRows, WriteMoves, WriteMovedCredits;
      ghost var was := Snap();
      CancelSound(was, invoice, c, at);
      if invoice !in invoices {
        return NotFound;
      }
      if IsCancellation(cancellations, invoice) {
        return IsACancellation;
      }
      if invoice in cancellations {
        return CancelledBefore;
      }
      if invoices[invoice].gross < 0 {
        return StatesACredit;
      }
      if c.replacement.Some? && c.gross < 0 {
        return LeavesACredit;
      }
      if !Fresh(invoices, c) {
        return IdInUse;
      }
      var shares := SharesNow(invoice);
      var moves := MovedParts(shares, if c.replacement.Some? then c.gross else 0);
      FreshKeeps(invoices, invoice, c);
      invoices, cancellations := CancelledInvoices(invoices, invoice, c), CancelledRows(cancellations, invoice, c);
      MoveShares(invoice, c.replacement, moves, at);
      outcome := CancelledNow(moves);
    }

    // ---- refunds, payouts and cases ----------------------------------------------------

    /** A new refund: entries on credits, and a case for what they could not take. */
    method PayOutRefund(f: Id, p: Id, subscriber: Id, currency: Id, amount: nat, at: int) returns (t: Taking)
      modifies this`entries, this`cases
      ensures t == RefundDivision(old(Snap()), p, subscriber, currency, amount)
      ensures Snap() == PaidOutOf(old(Snap()), f, t, at)
    {
      hide OwnFirst, Standings, WriteEntries, OpenCase;
      var parts, unmatched := TakeEach(OwnFirst(Snap(), p, Standings(Snap(), subscriber, currency)), amount);
      t := Taking(parts, unmatched);
      WriteEachEntry(parts, Refunded, ByRefund(f), at);
      OpenCaseOf(ByRefund(f), unmatched, at);
    }

    /** A known refund: its status, and where that ends it, entries against those it wrote. */
    method RestateRefund(f: Id, status: RefundStatus, at: int) returns (outcome: RefundOutcome)
      requires f < |refunds|
      modifies this`entries, this`cases, this`refunds
      ensures Step(Snap(), outcome) == Restate(old(Snap()), f, status, at)
    {
      hide WriteEntries, CloseCases, TakenByRefund;
      if Ended(refunds[f].status) || status == refunds[f].status {
        return RefundUnchanged(f);
      }
      var parts := TakenByRefund(Snap(), f);
      refunds := refunds[f := refunds[f].(status := status)];
      if !Ended(status) {
        return RefundUnchanged(f);
      }
      WriteEachEntry(parts, RefundFailed, ByRefund(f), at);
      var closed := CloseCasesOf(ByRefund(f), EveryCase());
      outcome := GivenBackNow(f, parts);
    }

    method RecordRefundReport(report: RefundReport) returns (outcome: RefundOutcome)
      requires Sound(Snap())
      modifies this`entries, this`cases, this`refunds
      ensures Step(Snap(), outcome) == RecordRefund(old(Snap()), report)
      ensures Sound(Snap())
    {
      hide Sound, Restate, PaidOutOf, Standings, OwnFirst;
      ghost var was := Snap();
      RecordRefundSound(was, report);
      var payment := Find(payments, PaymentRef(report.paymentRef));
      if payment.None? {
        return NoPayment;
      }
      var p := payment.value;
      if report.currency != payments[p].currency {
        return InOtherCurrency;
      }
      var existing := Find(refunds, RefundRef(report.ref));
      if existing.Some? {
        outcome := RestateRefund(existing.value, report.status, report.at);
        return;
      }
      var f := |refunds|;
      refunds := refunds + [Refund(report.ref, p, report.currency, report.amount, report.status)];
      if Ended(report.status) {
        return PaidOutNow(f, [], 0);
      }
      var t := PayOutRefund(f, p, payments[p].subscriber, report.currency, report.amount, report.at);
      outcome := PaidOutNow(f, t.parts, t.left);
    }

    method RecordPayoutOf(credit: Id, amount: nat, at: int) returns (outcome: PayoutOutcome)
      requires Sound(Snap())
      modifies this`entries
      ensures Step(Snap(), outcome) == RecordPayout(old(Snap()), credit, amount, at)
      ensures Sound(Snap())
    {
      hide Sound;
      RecordPayoutSound(Snap(), credit, amount, at);
      if credit >= |credits| {
        return UnknownCredit;
      }
      var open := ReadOpen(Snap(), credit);
      if amount > open {
        return ExceedsOpen(open);
      }
      WriteEntry(credit, PaidOff, amount, ByPayout, at);
      outcome := PayoutRecorded(open - amount);
    }

    method CloseOne(id: Id) returns (outcome: CloseOutcome)
      requires Sound(Snap())
      modifies this`cases
      ensures Step(Snap(), outcome) == CloseCase(old(Snap()), id)
      ensures Sound(Snap())
    {
      hide Sound;
      CloseCaseSound(Snap(), id);
      if id >= |cases| {
        return UnknownCase;
      }
      if cases[id].closed {
        return ClosedBefore;
      }
      cases := cases[id := cases[id].(closed := true)];
      outcome := ClosedNow;
    }
  }

  lemma StandingToSettle(b: Books, i: Id)
    ensures StandingOwes(b, i) > 0 ==> StandingOf(b, i).Some?
  {
  }

  lemma FreshKeeps(invoices: Invoices, i: Id, c: Correction)
    requires i in invoices && Fresh(invoices, c)
    ensures i in CancelledInvoices(invoices, i, c) && CancelledInvoices(invoices, i, c)[i] == invoices[i]
  {
    CancelExtends(invoices, i, c);
  }

  predicate ToClose(b: Books, about: Source, picked: Id -> bool, k: Id) {
    k < |b.cases| && b.cases[k].about == about && !b.cases[k].closed && picked(k)
  }

  lemma SettledInvoice(b: Books, r: Id, i: Id)
    requires SettlementsOk(b) && Names(NetsOf(b, IsOfReversal(r)), i)
    ensures i in b.invoices
  {
    NetsNames(b, IsOfReversal(r), i);
    var k :| 0 <= k < |b.settlements| && IsOfReversal(r)(b.settlements[k]) && b.settlements[k].invoice == i;
    assert SettlementOk(b, b.settlements[k]);
  }

  lemma SoundForWalk(b: Books)
    requires Sound(b)
    ensures StepsUp(b.invoices, b.cancellations) && SettlementsOk(b) && ReversalsOk(b)
  {
  }

  /** A withdrawal leaves the reversal's own row to its report. */
  lemma WithdrawnShape(b: Books, r: Id, withdrawn: int, at: int)
    requires Sound(b) && r < |b.reversals| && withdrawn > b.reversals[r].amount
    ensures |Withdraw(b, r, withdrawn - b.reversals[r].amount, at).reversals| == |b.reversals|
  {
    hide Sound, Midway, RowsOk, FromCreditsOk, Withdraw, ReversalWrites;
    SoundIs(b);
    WithdrawKeeps(b, r, withdrawn - b.reversals[r].amount, at);
  }

  lemma ReinstateShape(b: Books, r: Id, amount: nat, at: int)
    requires Sound(b) && r < |b.reversals| && b.reversals[r].payment < |b.payments|
    ensures Reinstate(b, r, amount, at).reversals == b.reversals
  {
    hide Sound, Midway, Reinstate, ReversalWrites;
    SoundMidway(b);
    ReinstateKeeps(b, r, amount, at);
  }
}
