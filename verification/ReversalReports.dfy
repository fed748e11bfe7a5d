/** One report of a reversal as a step: its totals are compared with those on record, and only an excess
    over them is acted on. */
module ReversalReports {
  import opened Sums
  import opened PaymentRules
  import opened InvoiceChain
  import opened Books
  import opened Soundness
  import opened ReversalFrame
  import opened Brought
  import opened Withdrawals
  import opened LiftedCovers
  import opened WholeWithdrawals
  import opened Reinstatements
  import opened GiveBacks

  // ---- the step --------------------------------------------------------------------------

  /** What the gateway reports: withdrawn and given back in total, up to `at`. */
  datatype Report = Report(ref: Id, paymentRef: Id, currency: Id, withdrawn: int, reinstated: int, at: int)

  datatype ReportOutcome =
    | UnknownPayment
    | WrongCurrency
    | OfAnother
    | Unchanged(reversal: Id)
    | Applied(reversal: Id)

  function ReversalRef(ref: Id): Reversal -> bool {
    (r: Reversal) => r.ref == ref
  }

  function AddReversal(b: Books, ref: Id, p: Id): Books {
    b.(reversals := b.reversals + [Reversal(ref, p, 0, 0, 0, 0)])
  }

  function SetReversal(b: Books, r: Id, record: Reversal): Books {
    if r < |b.reversals| then b.(reversals := b.reversals[r := record]) else b
  }

  /** Applies what was withdrawn beyond what the reversal recorded. */
  function Withdrawn(b: Books, r: Id, withdrawn: int, at: int): Books
    requires r < |b.reversals|
  {
    var record := b.reversals[r];
    var more := withdrawn - record.amount;
    if more <= 0 then b
    else SetReversal(Withdraw(b, r, more, at), r, record.(
           amount := withdrawn,
           fromCredit := record.fromCredit + WithdrawalNow(b, record.payment, more).fromCredit))
  }

  /** What a report of `reinstated` newly gives back: never more than was withdrawn. */
  function NewlyGiven(record: Reversal, reinstated: int): int {
    Min(reinstated, record.amount) - record.reinstated
  }

  /** Applies what was given back beyond what the reversal recorded. */
  ghost function Returned(b: Books, r: Id, reinstated: int, at: int): Books
    requires r < |b.reversals| && b.reversals[r].payment < |b.payments|
  {
    var record := b.reversals[r];
    var given := NewlyGiven(record, reinstated);
    if given <= 0 then b
    else SetReversal(Reinstate(b, r, given, at), r, record.(
           reinstated := record.reinstated + given,
           reinstatedToCases := record.reinstatedToCases + ReinstatementNow(b, r, given).covered))
  }

  /** The row under `ref`, added with nothing withdrawn where there is none. */
  function HeldReversal(b: Books, ref: Id, p: Id): (Books, Id) {
    match Find(b.reversals, ReversalRef(ref))
    case Some(r) => (b, r)
    case None => (AddReversal(b, ref, p), |b.reversals|)
  }

  ghost function Applies(b: Books, r: Id, report: Report): Books
    requires r < |b.reversals|
  {
    var withdrawn := Withdrawn(b, r, report.withdrawn, report.at);
    if r < |withdrawn.reversals| && withdrawn.reversals[r].payment < |withdrawn.payments|
    then Returned(withdrawn, r, report.reinstated, report.at)
    else withdrawn
  }

  /** The step: refused, without effect, or applied. */
  ghost function RecordReversal(b: Books, report: Report): Step<ReportOutcome> {
    var payment := Find(b.payments, PaymentRef(report.paymentRef));
    if payment.None? then Step(b, UnknownPayment)
    else if report.currency != b.payments[payment.value].currency then Step(b, WrongCurrency)
    else
      var (held, r) := HeldReversal(b, report.ref, payment.value);
      if held.reversals[r].payment != payment.value then Step(b, OfAnother)
      else
        var b' := Applies(held, r, report);
        Step(b', if ChangesNothing(held.reversals[r], report) then Unchanged(r) else Applied(r))
  }

  /** Whether a report says nothing the reversal did not record. */
  predicate ChangesNothing(record: Reversal, report: Report) {
    report.withdrawn <= record.amount && Min(report.reinstated, record.amount) <= record.reinstated
  }

  // ---- a new reversal --------------------------------------------------------------------

  /** A reversal that is not there holds nothing. */
  lemma NothingHeld(b: Books, r: Id)
    requires RowsOk(b) && r >= |b.reversals|
    ensures Sum(b.entries, EntryBy(ByReversal(r))) == 0
    ensures Sum(b.settlements, ReopenedBy(r)) == 0
    ensures Sum(b.cases, CaseAbout(ByReversal(r))) == 0
    ensures Sum(b.credits, CreditedFrom(r)) == 0
  {
    assert EntriesOk(b) && SettlementsOk(b) && CasesOk(b) && CreditsOk(b);
    hide Chained, RowsOk;
    forall k | 0 <= k < |b.entries| ensures EntryBy(ByReversal(r))(b.entries[k]) == 0 {
      assert EntryOk(b, b.entries[k]);
    }
    SumZero(b.entries, EntryBy(ByReversal(r)));
    forall k | 0 <= k < |b.settlements| ensures ReopenedBy(r)(b.settlements[k]) == 0 {
      assert SettlementOk(b, b.settlements[k]);
    }
    SumZero(b.settlements, ReopenedBy(r));
    forall k | 0 <= k < |b.cases| ensures CaseAbout(ByReversal(r))(b.cases[k]) == 0 {
      assert CaseOk(b, b.cases[k]);
    }
    SumZero(b.cases, CaseAbout(ByReversal(r)));
    forall k | 0 <= k < |b.credits| ensures CreditedFrom(r)(b.credits[k]) == 0 {
      assert CreditOk(b, b.credits[k]);
    }
    SumZero(b.credits, CreditedFrom(r));
  }

  lemma AddedMidway(b: Books, ref: Id, p: Id)
    requires Midway(b, []) && p < |b.payments|
    ensures Midway(AddReversal(b, ref, p), [])
  {
    hide Chained;
    var b' := AddReversal(b, ref, p);
    assert Grows(b, b');
    hide Grows;
    KeepsEntries(b, b');
    KeepsSettlements(b, b');
    KeepsCredits(b, b');
    KeepsCases(b, b');
    forall i | 0 <= i < |b'.payments| ensures PaymentOk(b', b'.payments[i]) {
      assert PaymentOk(b, b.payments[i]);
    }
    forall i | 0 <= i < |b'.reversals| ensures ReversalOk(b', b'.reversals[i]) {
      assert i < |b.reversals| ==> ReversalOk(b, b.reversals[i]);
    }
    forall i | 0 <= i < |b'.refunds| ensures RefundOk(b', b'.refunds[i]) {
      assert RefundOk(b, b.refunds[i]);
    }
    SameSums(b, b', []);
  }

  lemma AddedSound(b: Books, ref: Id, p: Id)
    requires Sound(b) && p < |b.payments|
    requires forall i :: 0 <= i < |b.reversals| ==> b.reversals[i].ref != ref
    ensures Sound(AddReversal(b, ref, p))
  {
    hide Midway, RowsOk, CreditsOk, RefundsLive, Sound;
    SoundIs(b);
    var b' := AddReversal(b, ref, p);
    AddedMidway(b, ref, p);
    var n := |b.reversals|;
    NothingHeld(b, n);
    assert Balanced(b') by {
      forall r | 0 <= r < |b'.reversals| ensures Excess(b', r) == 0 {
        assert r < n ==> Excess(b, r) == 0;
      }
    }
    assert InRanges(b') by {
      forall r | 0 <= r < |b'.reversals|
        ensures InRange(b', b'.reversals[r], Sum(b'.cases, CaseAbout(ByReversal(r))))
      {
        assert r < n ==> InRange(b, b.reversals[r], Sum(b.cases, CaseAbout(ByReversal(r))));
      }
    }
    assert Conserved(b') by {
      forall q | 0 <= q < |b'.payments| ensures Missing(b', q) == 0 {
        assert Missing(b, q) == 0;
      }
    }
    assert FromCreditsOk(b') by {
      forall q: Id ensures Sum(b'.reversals, FromCreditOf(q)) == Sum(b.reversals, FromCreditOf(q)) {
        SumAppend(b.reversals, Reversal(ref, p, 0, 0, 0, 0));
      }
    }
    AddedRefunds(b, ref, p);
    IsSound(b');
  }

  lemma AddedRefunds(b: Books, ref: Id, p: Id)
    requires RefundsLive(b)
    ensures RefundsLive(AddReversal(b, ref, p))
  {
    var b' := AddReversal(b, ref, p);
    forall f: Id | 0 <= f < |b'.refunds| ensures RefundLives(b', f) {
      assert RefundLives(b, f);
      assert forall c: Id :: Took(b', c, ByRefund(f)) == Took(b, c, ByRefund(f));
    }
  }

  // ---- recording -------------------------------------------------------------------------

  lemma SetMidway(b: Books, r: Id, record: Reversal)
    requires Midway(b, []) && r < |b.reversals|
    requires record.ref == b.reversals[r].ref && record.payment == b.reversals[r].payment
    ensures Midway(SetReversal(b, r, record), [])
  {
    hide Midway;
    MidwayCases(b, []);
    hide CasesOk;
    SetGrows(b, r, record);
    MidwayStays(b, SetReversal(b, r, record), []);
  }

  lemma SetGrows(b: Books, r: Id, record: Reversal)
    requires r < |b.reversals| && record.payment == b.reversals[r].payment
    ensures Grows(b, SetReversal(b, r, record))
    ensures CasesOk(b) ==> CasesOk(SetReversal(b, r, record))
  {
  }

  lemma SetWrites(b: Books, r: Id, record: Reversal, p: Id)
    requires r < |b.reversals| && OfChain(b, r, p)
    requires record.ref == b.reversals[r].ref && record.payment == b.reversals[r].payment
    ensures ReversalWrites(b, SetReversal(b, r, record), p)
  {
  }

  lemma SetExcess(b: Books, r: Id, record: Reversal, q: Id)
    requires r < |b.reversals| && q < |b.reversals|
    ensures var b' := SetReversal(b, r, record);
      var was := b.reversals[r];
      && |b'.reversals| == |b.reversals|
      && Excess(b', q) == Excess(b, q)
           - (if q == r then (record.amount - record.reinstated) - (was.amount - was.reinstated)
                             + record.reinstatedToCases - was.reinstatedToCases
              else 0)
  {
  }

  lemma SetFromCredits(b: Books, r: Id, record: Reversal, q: Id)
    requires r < |b.reversals| && record.payment == b.reversals[r].payment
    ensures Sum(SetReversal(b, r, record).reversals, FromCreditOf(q))
         == Sum(b.reversals, FromCreditOf(q))
            + if q == record.payment then record.fromCredit - b.reversals[r].fromCredit else 0
  {
    SumUpdate(b.reversals, r, record, FromCreditOf(q));
  }

  // ---- what was withdrawn ----------------------------------------------------------------

  /** How a withdrawal changes what every reversal records. */
  ghost predicate RecordsMore(b: Books, b': Books, r: Id, withdrawn: int) {
    && |b'.reversals| == |b.reversals|
    && forall i :: 0 <= i < |b.reversals| ==>
         b'.reversals[i].fromCredit >= b.reversals[i].fromCredit
         && b'.reversals[i] == (if i == r then b.reversals[i].(amount := Max(b.reversals[i].amount, withdrawn))
                                else b.reversals[i]).(fromCredit := b'.reversals[i].fromCredit)
  }

  lemma SameTaken(b: Books, b': Books, p: Id)
    requires SameRecordsOf(b, b', p) && forall i :: 0 <= i < |b.reversals| ==> b'.reversals[i].payment == b.reversals[i].payment
    ensures TakenFromCredits(b', p) == TakenFromCredits(b, p)
  {
    SumGrown(b.reversals, b'.reversals, FromCreditOf(p));
  }

  /** What a withdrawal takes of the payment's credits is never below nothing. */
  lemma FromCreditSum(b: Books, p: Id, amount: nat)
    ensures 0 <= WithdrawalNow(b, p, amount).fromCredit
  {
    OwnShareTotal(Own(b, p), amount);
  }

  lemma WithdrawnMidway(b: Books, r: Id, withdrawn: int, at: int)
    requires Sound(b) && r < |b.reversals|
    ensures var p := b.reversals[r].payment;
      var b' := Withdrawn(b, r, withdrawn, at);
      && OfChain(b, r, p)
      && Midway(b', []) && ReversalWrites(b, b', p) && Balanced(b') && RecordsMore(b, b', r, withdrawn)
  {
    hide Sound, RowsOk, Midway, FromCreditsOk, CreditsOk, Withdraw, WithdrawalNow, ReversalWrites;
    hide Conserved, InRanges, RefundsLive, RefundEntriesUnique, RefsUnique;
    SoundIs(b);
    PaymentsOwnChain(b, r);
    var p := b.reversals[r].payment;
    var record := b.reversals[r];
    var more := withdrawn - record.amount;
    if more <= 0 {
      WritesNothing(b, p);
    } else {
      var b1 := Withdraw(b, r, more, at);
      WithdrawKeeps(b, r, more, at);
      WritesReach(b, b1, p);
      FromCreditSum(b, p, more);
      var record' := record.(amount := withdrawn,
                             fromCredit := record.fromCredit + WithdrawalNow(b, p, more).fromCredit);
      var b' := SetReversal(b1, r, record');
      SetMidway(b1, r, record');
      SetWrites(b1, r, record', p);
      WritesTwice(b, b1, b', p);
      forall q | 0 <= q < |b.reversals| ensures |b'.reversals| == |b.reversals| && Excess(b', q) == 0 {
        assert Excess(b, q) == 0;
        SetExcess(b1, r, record', q);
      }
    }
  }

  lemma WithdrawnFromCredits(b: Books, r: Id, withdrawn: int, at: int)
    requires Sound(b) && r < |b.reversals|
    ensures FromCreditsOk(Withdrawn(b, r, withdrawn, at))
  {
    hide Sound, RowsOk, Midway, CreditsOk, Withdraw, WithdrawalNow, ReversalWrites, RecordsRise;
    hide Conserved, Balanced, InRanges, RefundsLive, RefundEntriesUnique, RefsUnique;
    SoundIs(b);
    var p := b.reversals[r].payment;
    var record := b.reversals[r];
    var more := withdrawn - record.amount;
    if more > 0 {
      WithdrawKeeps(b, r, more, at);
      FromCreditLeft(b, p, more);
      var b1 := Withdraw(b, r, more, at);
      var record' := record.(amount := withdrawn,
                             fromCredit := record.fromCredit + WithdrawalNow(b, p, more).fromCredit);
      WritesReach(b, b1, p);
      SameTaken(b, b1, p);
      ReversalKeepsLeft(b, b1, p, p);
      forall q: Id
        ensures Sum(SetReversal(b1, r, record').reversals, FromCreditOf(q)) <= Sum(b1.credits, LeftFrom(q))
      {
        assert Sum(b1.reversals, FromCreditOf(q)) <= Sum(b1.credits, LeftFrom(q));
        SetFromCredits(b1, r, record', q);
      }
    }
  }

  lemma WithdrawnInRanges(b: Books, b': Books, r: Id, withdrawn: int, p: Id)
    requires InRanges(b) && RecordsMore(b, b', r, withdrawn) && CasesWritten(b, b', p) && CasesOk(b')
    ensures InRanges(b')
  {
    forall i | 0 <= i < |b'.reversals|
      ensures InRange(b', b'.reversals[i], Sum(b'.cases, CaseAbout(ByReversal(i))))
    {
      assert InRange(b, b.reversals[i], Sum(b.cases, CaseAbout(ByReversal(i))));
      CasesOnlyGrow(b, b', p, ByReversal(i));
    }
  }

  /** What a reversal does beside balancing: conservation, refunds and references stay. */
  lemma WritesKeepSound(b: Books, b': Books, p: Id)
    requires Sound(b) && ReversalWrites(b, b', p)
    requires Midway(b', []) && Balanced(b') && InRanges(b') && FromCreditsOk(b')
    ensures Sound(b')
  {
    hide Midway, Balanced, InRanges, FromCreditsOk, Conserved, RefundsLive, RefundEntriesUnique, RefsUnique;
    ReversalKeepsConserved(b, b', p);
    ReversalKeepsRefunds(b, b', p);
  }

  lemma WithdrawnSound(b: Books, r: Id, withdrawn: int, at: int)
    requires Sound(b) && r < |b.reversals|
    ensures var p := b.reversals[r].payment;
      var b' := Withdrawn(b, r, withdrawn, at);
      Sound(b') && ReversalWrites(b, b', p) && RecordsMore(b, b', r, withdrawn) && OfChain(b, r, p)
  {
    hide Sound, Withdrawn, RecordsMore, Midway, CasesOk, RowsOk, CreditsOk;
    hide Conserved, Balanced, InRanges, FromCreditsOk, RefundsLive, RefundEntriesUnique, RefsUnique;
    SoundIs(b);
    var p := b.reversals[r].payment;
    var b' := Withdrawn(b, r, withdrawn, at);
    WithdrawnMidway(b, r, withdrawn, at);
    WithdrawnFromCredits(b, r, withdrawn, at);
    MidwayCases(b', []);
    WithdrawnInRanges(b, b', r, withdrawn, p);
    WritesKeepSound(b, b', p);
  }

  // ---- what was given back ---------------------------------------------------------------

  /** How a give-back changes what every reversal records. */
  ghost predicate RecordsGiven(b: Books, b': Books, r: Id, reinstated: int) {
    && r < |b.reversals| && |b'.reversals| == |b.reversals|
    && (forall i :: 0 <= i < |b.reversals| && i != r ==> b'.reversals[i] == b.reversals[i])
    && b'.reversals[r] == b.reversals[r].(
         reinstated := Max(b.reversals[r].reinstated, Min(reinstated, b.reversals[r].amount)),
         reinstatedToCases := b'.reversals[r].reinstatedToCases)
    && b.reversals[r].reinstatedToCases <= b'.reversals[r].reinstatedToCases
       <= Min(b'.reversals[r].reinstated, Sum(b.cases, CaseAbout(ByReversal(r))))
  }

  /** What a give-back makes of its reversal's record. */
  ghost function GivenRecord(b: Books, r: Id, given: nat): Reversal
    requires r < |b.reversals|
  {
    var record := b.reversals[r];
    record.(reinstated := record.reinstated + given,
            reinstatedToCases := record.reinstatedToCases + ReinstatementNow(b, r, given).covered)
  }

  /** A give-back that is recorded leaves every reversal balanced. */
  lemma ReturnedBalanced(b: Books, r: Id, given: nat, at: int)
    requires Sound(b) && r < |b.reversals| && b.reversals[r].payment < |b.payments|
    requires 0 < given <= b.reversals[r].amount - b.reversals[r].reinstated
    ensures Balanced(SetReversal(Reinstate(b, r, given, at), r, GivenRecord(b, r, given)))
  {
    hide Sound, RowsOk, Midway, CreditsOk, Reinstate, ReinstatementNow, Conserved, InRanges, FromCreditsOk, RefundsLive;
    hide RefundEntriesUnique, RefsUnique;
    SoundIs(b);
    var b1 := Reinstate(b, r, given, at);
    var b' := SetReversal(b1, r, GivenRecord(b, r, given));
    ReinstateKeeps(b, r, given, at);
    NothingBeyond(b, r, given);
    hide ReversalWrites, OfChain;
    forall q | 0 <= q < |b'.reversals| ensures Excess(b', q) == 0 {
      assert Excess(b, q) == 0;
      ReinstateExcess(b, r, given, at, q);
      SetExcess(b1, r, GivenRecord(b, r, given), q);
    }
  }

  lemma ReturnedMidway(b: Books, r: Id, reinstated: int, at: int)
    requires Sound(b) && r < |b.reversals|
    ensures b.reversals[r].payment < |b.payments|
    ensures var p := b.reversals[r].payment;
      var b' := Returned(b, r, reinstated, at);
      && Midway(b', []) && ReversalWrites(b, b', p) && Balanced(b') && RecordsGiven(b, b', r, reinstated)
  {
    hide Sound, RowsOk, Midway, CreditsOk, Reinstate, ReinstatementNow, ReversalWrites, Balanced;
    hide Conserved, FromCreditsOk, RefundsLive, RefundEntriesUnique, RefsUnique;
    var record := b.reversals[r];
    var p := record.payment;
    var given := NewlyGiven(record, reinstated);
    SoundIs(b);
    assert InRange(b, record, Sum(b.cases, CaseAbout(ByReversal(r))));
    PaymentsOwnChain(b, r);
    if given <= 0 {
      WritesNothing(b, p);
    } else {
      var b1 := Reinstate(b, r, given, at);
      ReinstateKeeps(b, r, given, at);
      WritesReach(b, b1, p);
      ReinstateExcess(b, r, given, at, r);
      var record' := GivenRecord(b, r, given);
      SetMidway(b1, r, record');
      SetWrites(b1, r, record', p);
      WritesTwice(b, b1, SetReversal(b1, r, record'), p);
      ReturnedBalanced(b, r, given, at);
    }
  }

  lemma ReturnedRanges(b: Books, b': Books, r: Id, reinstated: int, p: Id)
    requires InRanges(b) && RecordsGiven(b, b', r, reinstated) && CasesWritten(b, b', p) && CasesOk(b')
    ensures InRanges(b')
  {
    hide CasesWritten, CasesOk;
    forall i | 0 <= i < |b'.reversals|
      ensures InRange(b', b'.reversals[i], Sum(b'.cases, CaseAbout(ByReversal(i))))
    {
      assert InRange(b, b.reversals[i], Sum(b.cases, CaseAbout(ByReversal(i))));
      CasesOnlyGrow(b, b', p, ByReversal(i));
    }
  }

  lemma ReturnedFromCredits(b: Books, b': Books, r: Id, reinstated: int, p: Id)
    requires FromCreditsOk(b) && RecordsGiven(b, b', r, reinstated) && ReversalWrites(b, b', p)
    ensures FromCreditsOk(b')
  {
    hide ReversalWrites;
    forall q: Id ensures Sum(b'.reversals, FromCreditOf(q)) <= Sum(b'.credits, LeftFrom(q)) {
      assert Sum(b.reversals, FromCreditOf(q)) <= Sum(b.credits, LeftFrom(q));
      ReversalKeepsLeft(b, b', p, q);
      SumGrown(b.reversals, b'.reversals, FromCreditOf(q));
    }
  }

  lemma ReturnedSound(b: Books, r: Id, reinstated: int, at: int)
    requires Sound(b) && r < |b.reversals|
    ensures b.reversals[r].payment < |b.payments|
    ensures var p := b.reversals[r].payment;
      var b' := Returned(b, r, reinstated, at);
      Sound(b') && ReversalWrites(b, b', p) && RecordsGiven(b, b', r, reinstated)
  {
    hide Sound, Returned, RecordsGiven, Midway, CasesOk, RowsOk, CreditsOk;
    hide Conserved, Balanced, InRanges, FromCreditsOk, RefundsLive, RefundEntriesUnique, RefsUnique;
    SoundIs(b);
    ReturnedMidway(b, r, reinstated, at);
    var p := b.reversals[r].payment;
    var b' := Returned(b, r, reinstated, at);
    MidwayCases(b', []);
    ReturnedRanges(b, b', r, reinstated, p);
    ReturnedFromCredits(b, b', r, reinstated, p);
    WritesKeepSound(b, b', p);
  }

  // ---- the whole report ------------------------------------------------------------------

  /** What the reversal records after a report: the larger of what it recorded and what is reported,
      of what was given back no more than was withdrawn. */
  predicate RecordedAs(was: Reversal, now: Reversal, report: Report) {
    && now.ref == was.ref && now.payment == was.payment
    && now.amount == Max(was.amount, report.withdrawn)
    && now.reinstated == Max(was.reinstated, Min(report.reinstated, now.amount))
  }

  predicate SameTotals(was: Reversal, now: Reversal) {
    && now.ref == was.ref && now.payment == was.payment
    && now.amount == was.amount && now.reinstated == was.reinstated
  }

  /** What a report changes of what every reversal records. */
  ghost predicate RecordsReport(b: Books, b': Books, r: Id, report: Report) {
    && r < |b.reversals| && |b'.reversals| == |b.reversals|
    && RecordedAs(b.reversals[r], b'.reversals[r], report)
    && forall i :: 0 <= i < |b.reversals| && i != r ==> SameTotals(b.reversals[i], b'.reversals[i])
  }

  lemma AppliesSound(b: Books, r: Id, report: Report)
    requires Sound(b) && r < |b.reversals|
    ensures var p := b.reversals[r].payment;
      var b' := Applies(b, r, report);
      Sound(b') && ReversalWrites(b, b', p) && RecordsReport(b, b', r, report) && OfChain(b, r, p)
  {
    hide Sound, Withdrawn, Returned, ReversalWrites;
    var b1 := Withdrawn(b, r, report.withdrawn, report.at);
    WithdrawnSound(b, r, report.withdrawn, report.at);
    ReturnedSound(b1, r, report.reinstated, report.at);
    var p := b.reversals[r].payment;
    WritesReach(b, b1, p);
    WritesTwice(b, b1, Returned(b1, r, report.reinstated, report.at), p);
    WritesReach(b, Applies(b, r, report), p);
  }

  lemma HeldSound(b: Books, ref: Id, p: Id)
    requires Sound(b) && p < |b.payments|
    ensures var (held, r) := HeldReversal(b, ref, p);
      && Sound(held) && r < |held.reversals| && held.reversals[r].ref == ref
      && |b.reversals| <= |held.reversals| && held.payments == b.payments
      && (forall i :: 0 <= i < |b.reversals| ==> held.reversals[i] == b.reversals[i])
      && (r >= |b.reversals| ==>
            held == AddReversal(b, ref, p) && held.reversals[r] == Reversal(ref, p, 0, 0, 0, 0))
      && (r < |b.reversals| ==> held == b)
  {
    hide Sound;
    if Find(b.reversals, ReversalRef(ref)).None? {
      AddedSound(b, ref, p);
    }
  }

  /** Every report keeps the books sound. One that is refused changes nothing. */
  lemma RecordReversalSound(b: Books, report: Report)
    requires Sound(b)
    ensures var s := RecordReversal(b, report);
      Sound(s.books) && (s.outcome.UnknownPayment? || s.outcome.WrongCurrency? || s.outcome.OfAnother? ==> s.books == b)
  {
    hide Sound, Applies, HeldReversal;
    var payment := Find(b.payments, PaymentRef(report.paymentRef));
    if payment.Some? && report.currency == b.payments[payment.value].currency {
      HeldSound(b, report.ref, payment.value);
      var (held, r) := HeldReversal(b, report.ref, payment.value);
      if held.reversals[r].payment == payment.value {
        AppliesSound(held, r, report);
      }
    }
  }

  /** A report that is accepted is recorded under its reference, and changes what no other reversal
      withdrew or gave back; all it writes lies in the one chain of the payment it names. */
  lemma RecordReversalEffect(b: Books, report: Report)
    requires Sound(b)
    requires RecordReversal(b, report).outcome.Applied? || RecordReversal(b, report).outcome.Unchanged?
    ensures var s := RecordReversal(b, report);
      var r := s.outcome.reversal;
      var p := Find(b.payments, PaymentRef(report.paymentRef));
      var held := if r < |b.reversals| then b else AddReversal(b, report.ref, p.value);
      && p.Some? && p.value < |b.payments|
      && RecordsReport(held, s.books, r, report) && ReversalWrites(held, s.books, p.value)
      && held.reversals[r].ref == report.ref && held.reversals[r].payment == p.value
      && (r >= |b.reversals| ==> held.reversals[r] == Reversal(report.ref, p.value, 0, 0, 0, 0))
  {
    hide Sound, Applies, HeldReversal, ReversalWrites, RecordsReport;
    var payment := Find(b.payments, PaymentRef(report.paymentRef));
    HeldSound(b, report.ref, payment.value);
    var (held, r) := HeldReversal(b, report.ref, payment.value);
    AppliesSound(held, r, report);
  }
}
