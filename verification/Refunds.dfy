/** Refunds as the gateway reports them, payouts, and cases an operator closes. Each refund takes its amount
    of credits and of a case a single time, and undoes that a single time if it ends. */
module Refunds {
  import opened Sums
  import opened PaymentRules
  import opened InvoiceChain
  import opened Books
  import opened Soundness
  import opened ReversalFrame
  import opened QuietWrites
  import opened Brought
  import opened Reinstatements
  import opened GiveBacks

  // ---- the steps -------------------------------------------------------------------------

  datatype RefundReport = RefundReport(
    ref: Id, paymentRef: Id, currency: Id, amount: nat, status: RefundStatus, at: int)

  datatype RefundOutcome =
    | NoPayment
    | InOtherCurrency
    | PaidOutNow(refund: Id, parts: seq<Part>, unmatched: nat)
    | RefundUnchanged(refund: Id)
    | GivenBackNow(refund: Id, parts: seq<Part>)

  function RefundRef(ref: Id): Refund -> bool {
    (f: Refund) => f.ref == ref
  }

  function HeldBy(b: Books, subscriber: Id, currency: Id): Id -> bool {
    (c: Id) => c < |b.credits| && b.credits[c].subscriber == subscriber && b.credits[c].currency == currency
  }

  /** What a refund may draw on, by age. */
  function Standings(b: Books, subscriber: Id, currency: Id): seq<Part> {
    OpenParts(b, CreditsWhere(b, HeldBy(b, subscriber, currency)))
  }

  /** A greedy division over those credits, the ones of payment `p` put in front. */
  function RefundDivision(b: Books, p: Id, subscriber: Id, currency: Id, amount: nat): Taking {
    PaymentRules.Taken(OwnFirst(b, p, Standings(b, subscriber, currency)), amount)
  }

  function AddRefund(b: Books, report: RefundReport, p: Id): Books {
    b.(refunds := b.refunds + [Refund(report.ref, p, report.currency, report.amount, report.status)])
  }

  /** Writes the division `t` of refund `f`: its entries, and a case for the remainder. */
  function PaidOutOf(b: Books, f: Id, t: Taking, at: int): Books {
    OpenCase(WriteEntries(b, t.parts, Refunded, ByRefund(f), at), ByRefund(f), t.left, at)
  }

  /** What refund `f` paid out of each credit, in order. */
  function RefundParts(rows: seq<Entry>, f: Id): seq<Part> {
    if rows == [] then []
    else
      var n := |rows| - 1;
      var before := RefundParts(rows[..n], f);
      if rows[n].source == ByRefund(f) && rows[n].kind == Refunded
      then before + [Part(rows[n].credit, rows[n].amount)] else before
  }

  function TakenByRefund(b: Books, f: Id): seq<Part> {
    RefundParts(Sort(b.entries, EntryKey()), f)
  }

  function SetStatus(b: Books, f: Id, status: RefundStatus): Books
    requires f < |b.refunds|
  {
    b.(refunds := b.refunds[f := b.refunds[f].(status := status)])
  }

  function EveryCase(): Id -> bool {
    (k: Id) => true
  }

  /** Undoes refund `f`: an entry against each of its entries, and its case closed. */
  function EndedBooks(b: Books, f: Id, status: RefundStatus, at: int): Books
    requires f < |b.refunds|
  {
    CloseCases(WriteEntries(SetStatus(b, f, status), TakenByRefund(b, f), RefundFailed, ByRefund(f), at),
               ByRefund(f), EveryCase())
  }

  /** A refund seen again. */
  function Restate(b: Books, f: Id, status: RefundStatus, at: int): Step<RefundOutcome>
    requires f < |b.refunds|
  {
    if Ended(b.refunds[f].status) || status == b.refunds[f].status then Step(b, RefundUnchanged(f))
    else if !Ended(status) then Step(SetStatus(b, f, status), RefundUnchanged(f))
    else Step(EndedBooks(b, f, status, at), GivenBackNow(f, TakenByRefund(b, f)))
  }

  function RecordRefund(b: Books, report: RefundReport): Step<RefundOutcome> {
    var payment := Find(b.payments, PaymentRef(report.paymentRef));
    if payment.None? then Step(b, NoPayment)
    else
      var p := payment.value;
      if report.currency != b.payments[p].currency then Step(b, InOtherCurrency)
      else
        match Find(b.refunds, RefundRef(report.ref))
        case Some(f) => Restate(b, f, report.status, report.at)
        case None =>
          var f := |b.refunds|;
          var added := AddRefund(b, report, p);
          if Ended(report.status) then Step(added, PaidOutNow(f, [], 0))
          else
            var t := RefundDivision(added, p, b.payments[p].subscriber, report.currency, report.amount);
            Step(PaidOutOf(added, f, t, report.at), PaidOutNow(f, t.parts, t.left))
  }

  datatype PayoutOutcome = UnknownCredit | ExceedsOpen(open: nat) | PayoutRecorded(left: int)

  /** Pays `amount` of a credit out, where it still owes as much. */
  function RecordPayout(b: Books, c: Id, amount: nat, at: int): Step<PayoutOutcome> {
    if c >= |b.credits| then Step(b, UnknownCredit)
    else if amount > ReadOpen(b, c) then Step(b, ExceedsOpen(ReadOpen(b, c)))
    else Step(AddEntry(b, c, PaidOff, amount, ByPayout, at), PayoutRecorded(ReadOpen(b, c) - amount))
  }

  datatype CloseOutcome = UnknownCase | ClosedBefore | ClosedNow

  /** An operator closes an open case, once. */
  function CloseCase(b: Books, k: Id): Step<CloseOutcome> {
    if k >= |b.cases| then Step(b, UnknownCase)
    else if b.cases[k].closed then Step(b, ClosedBefore)
    else Step(b.(cases := b.cases[k := b.cases[k].(closed := true)]), ClosedNow)
  }

  // ---- what such a step leaves alone -----------------------------------------------------

  predicate CaseStays(k: Case, k': Case) {
    k'.about == k.about && k'.amount == k.amount && (k.closed ==> k'.closed)
  }

  /** Entries of no reversal are added, and cases about none opened. */
  ghost predicate BesideReversing(b: Books, b': Books) {
    && b'.invoices == b.invoices && b'.cancellations == b.cancellations && b'.payments == b.payments
    && b'.settlements == b.settlements && b'.credits == b.credits && b'.reversals == b.reversals
    && Prefix(b.entries, b'.entries)
    && (forall i :: |b.entries| <= i < |b'.entries| ==> !b'.entries[i].source.ByReversal?)
    && |b.cases| <= |b'.cases|
    && (forall i :: 0 <= i < |b.cases| ==> CaseStays(b.cases[i], b'.cases[i]))
    && (forall i :: |b.cases| <= i < |b'.cases| ==> !b'.cases[i].about.ByReversal?)
  }

  lemma BesideKeepsReversals(b: Books, b': Books)
    requires BesideReversing(b, b') && Balanced(b) && InRanges(b) && FromCreditsOk(b)
    ensures Balanced(b') && InRanges(b') && FromCreditsOk(b')
  {
    forall r: Id | 0 <= r < |b'.reversals|
      ensures Excess(b', r) == 0 && InRange(b', b'.reversals[r], Sum(b'.cases, CaseAbout(ByReversal(r))))
    {
      assert Excess(b, r) == 0;
      assert InRange(b, b.reversals[r], Sum(b.cases, CaseAbout(ByReversal(r))));
      SumGrown(b.entries, b'.entries, EntryBy(ByReversal(r)));
      SumGrown(b.cases, b'.cases, CaseAbout(ByReversal(r)));
    }
  }

  lemma BesideKeepsSums(b: Books, b': Books)
    requires BesideReversing(b, b') && NetsOk(b) && Bounded(b) && Conserved(b)
    ensures NetsOk(b') && Bounded(b') && Conserved(b')
  {
    assert forall p: Id, i: Id :: Net(b', p, i) == Net(b, p, i);
    assert forall i: Id :: SettledOn(b', i) == SettledOn(b, i);
    forall q | 0 <= q < |b'.payments| ensures Missing(b', q) == 0 {
      assert Missing(b, q) == 0;
    }
  }

  /** What is left to show of such a step. */
  lemma BesideSound(b: Books, b': Books)
    requires Sound(b) && BesideReversing(b, b')
    requires RowsOk(b') && Solvent(b', []) && RefundsLive(b') && RefundEntriesUnique(b') && RefsUnique(b')
    ensures Sound(b')
  {
    hide Sound, Midway, RowsOk, Balanced, InRanges, FromCreditsOk, RefundsLive, RefundEntriesUnique, BesideReversing;
    hide NetsOk, Bounded, Conserved, RefsUnique, Solvent, CreditsOk;
    SoundIs(b);
    MidwaySums(b);
    BesideKeepsReversals(b, b');
    BesideKeepsSums(b, b');
    IsMidway(b', []);
    IsSound(b');
  }

  /** Whether nothing was written about refund `f`. */
  ghost predicate Untold(b: Books, b': Books, f: Id) {
    && f < |b.refunds| && f < |b'.refunds| && b'.refunds[f] == b.refunds[f]
    && (forall i :: |b.entries| <= i < |b'.entries| ==> b'.entries[i].source != ByRefund(f))
    && (forall i :: |b.cases| <= i < |b'.cases| ==> b'.cases[i].about != ByRefund(f))
  }

  /** A refund nothing was written about lives as it did. */
  lemma UntoldLives(b: Books, b': Books, f: Id)
    requires BesideReversing(b, b') && Untold(b, b', f) && RefundLives(b, f)
    ensures RefundLives(b', f)
  {
    SumGrown(b.entries, b'.entries, EntryBy(ByRefund(f)));
    SumGrown(b.cases, b'.cases, CaseAbout(ByRefund(f)));
    forall c: Id ensures Took(b', c, ByRefund(f)) == Took(b, c, ByRefund(f)) {
      SumGrown(b.entries, b'.entries, OnCreditBy(c, ByRefund(f)));
    }
  }

  // ---- counting --------------------------------------------------------------------------

  lemma {:induction false} AtMostOne<T>(s: seq<T>, f: T -> int)
    requires forall i :: 0 <= i < |s| ==> 0 <= f(s[i]) <= 1
    requires forall i, j :: 0 <= i < j < |s| ==> f(s[i]) + f(s[j]) <= 1
    ensures Sum(s, f) <= 1
  {
    if s != [] {
      var n := |s| - 1;
      AtMostOne(s[..n], f);
      if f(s[n]) == 1 {
        forall i | 0 <= i < n ensures f(s[..n][i]) == 0 {
          assert f(s[i]) + f(s[n]) <= 1;
        }
        SumZero(s[..n], f);
      }
    }
  }

  lemma {:induction false} TakenCount(offers: seq<Part>, amount: nat, c: Id)
    ensures Sum(PaymentRules.Taken(offers, amount).parts, CountOf(c)) <= Sum(offers, CountOf(c))
  {
    if offers != [] {
      var n := |offers| - 1;
      TakenCount(offers[..n], amount, c);
      var t := PaymentRules.Taken(offers[..n], amount);
      SumAppend(t.parts, Part(offers[n].id, Min(t.left, Max(0, offers[n].amount))));
    }
  }

  lemma {:induction false} OpenPartsCount(b: Books, ids: seq<Id>, c: Id)
    ensures Sum(OpenParts(b, ids), CountOf(c)) == Sum(ids, Is(c))
  {
    if ids != [] {
      var n := |ids| - 1;
      OpenPartsCount(b, ids[..n], c);
      SumAppend(OpenParts(b, ids[..n]), Part(ids[n], ReadOpen(b, ids[n])));
    }
  }

  /** Whether credit `c` is owed to the subscriber in the currency. */
  predicate OwedTo(b: Books, subscriber: Id, currency: Id, c: Id) {
    c < |b.credits| && b.credits[c].subscriber == subscriber && b.credits[c].currency == currency
  }

  /** A refund takes of each credit once, no more than is open, of the subscriber's credits alone. */
  lemma DivisionOk(b: Books, p: Id, subscriber: Id, currency: Id, amount: nat)
    ensures var t := RefundDivision(b, p, subscriber, currency, amount);
      && Distinct(t.parts) && Positive(t.parts) && Total(t.parts) + t.left == amount
      && forall c: Id :: 0 <= On(t.parts, c) <= if OwedTo(b, subscriber, currency, c) then ReadOpen(b, c) else 0
  {
    var standings := Standings(b, subscriber, currency);
    var offers := OwnFirst(b, p, standings);
    var picks := HeldBy(b, subscriber, currency);
    var t := RefundDivision(b, p, subscriber, currency, amount);
    TakenPositive(offers, amount);
    TakenTotal(offers, amount);
    PositiveOn(t.parts);
    hide OwnFirst;
    forall c: Id ensures Sum(t.parts, CountOf(c)) <= 1 {
      TakenCount(offers, amount, c);
      OwnFirstSum(b, p, standings, CountOf(c));
      OpenPartsCount(b, CreditsWhere(b, picks), c);
      CreditsWhereSum(b, picks, c, Is(c));
    }
    CountsDistinct(t.parts);
    forall c: Id ensures On(t.parts, c) <= if picks(c) then ReadOpen(b, c) else 0 {
      TakenOn(offers, amount, c);
      OwnFirstSum(b, p, standings, OfferedUnder(c));
      OpenPartsOffered(b, CreditsWhere(b, picks), c);
      CreditsWhereSum(b, picks, c, OpenAt(b, c));
    }
  }

  /** A refund takes of a credit the payment did not leave only once it took the whole open part of every
      credit the payment left. */
  lemma RefundOwnFirst(b: Books, p: Id, subscriber: Id, currency: Id, amount: nat, own: Id, other: Id)
    requires var t := RefundDivision(b, p, subscriber, currency, amount);
      On(t.parts, other) > 0 && !LeftByWhom(b, p)(other)
    requires LeftByWhom(b, p)(own) && OwedTo(b, subscriber, currency, own)
    ensures On(RefundDivision(b, p, subscriber, currency, amount).parts, own) == ReadOpen(b, own)
  {
    var picks := IsOwn(b, p);
    var standings := Standings(b, subscriber, currency);
    var first := Sort(Picked(standings, picks), PartKey(b));
    var later := Sort(Unpicked(standings, picks), PartKey(b));
    var t := RefundDivision(b, p, subscriber, currency, amount);
    DivisionOk(b, p, subscriber, currency, amount);
    hide Standings, Picked, Unpicked;
    TakenInOrder(Taking([], amount), first, later);
    var before := PaymentRules.Taken(first, amount);
    LaterTakes(before, later, own);
    TakenWhole(first, amount, own);
    TakenOn(first, amount, other);
    forall c: Id ensures Sum(first, OfferedUnder(c)) == if LeftByWhom(b, p)(c) then Sum(standings, OfferedUnder(c)) else 0 {
      SortSum(Picked(standings, picks), PartKey(b), OfferedUnder(c));
      OwnUnder(b, p, standings, c);
    }
    StandingOffers(b, subscriber, currency, own);
  }

  lemma StandingOffers(b: Books, subscriber: Id, currency: Id, c: Id)
    ensures Sum(Standings(b, subscriber, currency), OfferedUnder(c))
         == if HeldBy(b, subscriber, currency)(c) then ReadOpen(b, c) else 0
  {
    var picks := HeldBy(b, subscriber, currency);
    OpenPartsOffered(b, CreditsWhere(b, picks), c);
    CreditsWhereSum(b, picks, c, OpenAt(b, c));
  }

  // ---- a new refund ----------------------------------------------------------------------

  lemma PaidOutFrame(b: Books, f: Id, t: Taking, at: int)
    ensures var b' := PaidOutOf(b, f, t, at);
      && b' == b.(entries := b'.entries, cases := b'.cases)
      && b'.entries == WriteEntries(b, t.parts, Refunded, ByRefund(f), at).entries
      && b'.cases == if t.left > 0
           then b.cases + [Case(ByRefund(f), t.left, false, at, b.rank(Cases, |b.cases|))] else b.cases
  {
    EntriesFrame(b, t.parts, Refunded, ByRefund(f), at);
  }

  lemma PaidOutWrites(b: Books, f: Id, t: Taking, at: int)
    ensures var b' := PaidOutOf(b, f, t, at);
      && BesideReversing(b, b')
      && (forall i :: |b.entries| <= i < |b'.entries| ==>
            && i - |b.entries| < |t.parts|
            && EntryFor(b'.entries[i], t.parts[i - |b.entries|], Refunded, ByRefund(f)))
      && |b'.entries| == |b.entries| + |t.parts|
  {
    hide PaidOutOf;
    var b' := PaidOutOf(b, f, t, at);
    PaidOutFrame(b, f, t, at);
    EntriesFrame(b, t.parts, Refunded, ByRefund(f), at);
    forall i | 0 <= i < |b'.entries|
      ensures i < |b.entries| ==> b'.entries[i] == b.entries[i]
      ensures i >= |b.entries| ==> EntryFor(b'.entries[i], t.parts[i - |b.entries|], Refunded, ByRefund(f))
    {
      EntriesFollow(b, t.parts, Refunded, ByRefund(f), at, i);
    }
  }

  /** What a division takes is within what the credits of the books owe. */
  ghost predicate WithinOpen(b: Books, t: Taking) {
    Distinct(t.parts) && Positive(t.parts) && forall c: Id :: 0 <= On(t.parts, c) <= ReadOpen(b, c)
  }

  lemma PaidOutRows(b: Books, f: Id, t: Taking, at: int)
    requires RowsOk(b) && f < |b.refunds| && WithinOpen(b, t)
    ensures RowsOk(PaidOutOf(b, f, t, at))
  {
    hide Chained, PaidOutOf, RowsOk;
    var b' := PaidOutOf(b, f, t, at);
    PaidOutFrame(b, f, t, at);
    PaidOutWrites(b, f, t, at);
    RowsChained(b);
    assert Grows(b, b');
    forall i | |b.entries| <= i < |b'.entries| ensures EntryOk(b', b'.entries[i]) {
      assert EntryFor(b'.entries[i], t.parts[i - |b.entries|], Refunded, ByRefund(f));
      var c := t.parts[i - |b.entries|].id;
      assert Names(t.parts, c);
      PositiveNamed(t.parts, c);
      assert On(t.parts, c) <= ReadOpen(b, c);
    }
    RowsGrow(b, b');
  }

  lemma RowsChained(b: Books)
    requires RowsOk(b)
    ensures Chained(b.invoices, b.cancellations)
  {
  }

  lemma PaidOutSolvent(b: Books, f: Id, t: Taking, at: int)
    requires Solvent(b, []) && WithinOpen(b, t)
    ensures Solvent(PaidOutOf(b, f, t, at), [])
  {
    hide PaidOutOf;
    var b' := PaidOutOf(b, f, t, at);
    PaidOutFrame(b, f, t, at);
    forall c | 0 <= c < |b'.credits| ensures 0 <= Open(b', c) + Sum([], OfCredit(c)) {
      EntriesPaidOut(b, t.parts, Refunded, ByRefund(f), at, c);
      assert 0 <= Open(b, c) + Sum([], OfCredit(c));
      assert On(t.parts, c) <= ReadOpen(b, c);
    }
    forall c: Id, s: Source ensures Took(b', c, s) >= Took(b, c, s) {
      EntriesTook(b, t.parts, Refunded, ByRefund(f), at, c, s);
    }
    forall c: Id, q: Id ensures Sum([], OfPair(c, q)) <= Took(b', c, ByReversal(q)) {
      assert Sum([], OfPair(c, q)) <= Took(b, c, ByReversal(q));
    }
  }

  /** Nothing is told of a refund that does not exist yet. */
  lemma UntoldRefund(b: Books, f: Id)
    requires EntriesOk(b) && CasesOk(b) && f >= |b.refunds|
    ensures forall i :: 0 <= i < |b.entries| ==> b.entries[i].source != ByRefund(f)
    ensures forall i :: 0 <= i < |b.cases| ==> b.cases[i].about != ByRefund(f)
    ensures Sum(b.entries, EntryBy(ByRefund(f))) == 0 && Sum(b.cases, CaseAbout(ByRefund(f))) == 0
    ensures forall c: Id :: Took(b, c, ByRefund(f)) == 0
  {
    forall i | 0 <= i < |b.entries| ensures b.entries[i].source != ByRefund(f) {
      assert EntryOk(b, b.entries[i]);
    }
    forall i | 0 <= i < |b.cases| ensures b.cases[i].about != ByRefund(f) {
      assert CaseOk(b, b.cases[i]);
    }
    SumZero(b.entries, EntryBy(ByRefund(f)));
    SumZero(b.cases, CaseAbout(ByRefund(f)));
    forall c: Id ensures Took(b, c, ByRefund(f)) == 0 {
      SumZero(b.entries, OnCreditBy(c, ByRefund(f)));
    }
  }

  /** A refund just paid out is paid out in full, of credits and as a case. */
  lemma PaidOutLives(b: Books, f: Id, t: Taking, at: int)
    requires f < |b.refunds| && !Ended(b.refunds[f].status) && b.refunds[f].amount == Total(t.parts) + t.left
    requires forall i :: 0 <= i < |b.entries| ==> b.entries[i].source != ByRefund(f)
    requires Sum(b.entries, EntryBy(ByRefund(f))) == 0 && Sum(b.cases, CaseAbout(ByRefund(f))) == 0
    ensures var b' := PaidOutOf(b, f, t, at); f < |b'.refunds| && RefundLives(b', f)
  {
    hide PaidOutOf, WriteEntries;
    var b' := PaidOutOf(b, f, t, at);
    PaidOutFrame(b, f, t, at);
    PaidOutWrites(b, f, t, at);
    EntriesInAll(b, t.parts, Refunded, ByRefund(f), at, ByRefund(f));
    SumAppend(b.cases, Case(ByRefund(f), t.left, false, at, b.rank(Cases, |b.cases|)));
    forall e | 0 <= e < |b'.entries| && b'.entries[e].source == ByRefund(f)
      ensures b'.entries[e].kind == Refunded
    {
      assert e >= |b.entries|;
      assert EntryFor(b'.entries[e], t.parts[e - |b.entries|], Refunded, ByRefund(f));
    }
  }

  lemma PaidOutUnique(b: Books, f: Id, t: Taking, at: int)
    requires RefundEntriesUnique(b) && Distinct(t.parts)
    requires forall i :: 0 <= i < |b.entries| ==> b.entries[i].source != ByRefund(f)
    ensures RefundEntriesUnique(PaidOutOf(b, f, t, at))
  {
    hide PaidOutOf;
    var b' := PaidOutOf(b, f, t, at);
    PaidOutWrites(b, f, t, at);
    forall i, j | 0 <= i < j < |b'.entries| ensures !SameRefundEntry(b'.entries[i], b'.entries[j]) {
      if j < |b.entries| {
        assert !SameRefundEntry(b.entries[i], b.entries[j]);
      } else {
        assert EntryFor(b'.entries[j], t.parts[j - |b.entries|], Refunded, ByRefund(f));
        if i >= |b.entries| {
          assert EntryFor(b'.entries[i], t.parts[i - |b.entries|], Refunded, ByRefund(f));
        }
      }
    }
  }

  lemma AddedRefundSound(b: Books, report: RefundReport, p: Id)
    requires RowsOk(b) && Solvent(b, []) && p < |b.payments|
    ensures RowsOk(AddRefund(b, report, p)) && Solvent(AddRefund(b, report, p), [])
    ensures BesideReversing(b, AddRefund(b, report, p))
  {
    hide RowsOk, Chained;
    RowsChained(b);
    var b' := AddRefund(b, report, p);
    assert Grows(b, b');
    RowsGrow(b, b');
    assert forall c: Id, s: Source :: Took(b', c, s) == Took(b, c, s);
    assert forall c: Id :: PaidOut(b', c) == PaidOut(b, c);
  }

  lemma NewRefundUnique(b: Books, b': Books, f: Id)
    requires RefsUnique(b) && b'.payments == b.payments && b'.reversals == b.reversals
    requires f == |b.refunds| && |b'.refunds| == f + 1 && Prefix(b.refunds, b'.refunds)
    requires forall i :: 0 <= i < |b.refunds| ==> b.refunds[i].ref != b'.refunds[f].ref
    ensures RefsUnique(b')
  {
  }

  lemma BesideTwice(b: Books, b': Books, b'': Books)
    requires BesideReversing(b, b') && BesideReversing(b', b'')
    ensures BesideReversing(b, b'')
  {
  }

  /** A new refund keeps the books sound, even one that arrives ended. */
  lemma FirstSeenSound(b: Books, report: RefundReport, p: Id, t: Taking)
    requires Sound(b) && p < |b.payments|
    requires forall i :: 0 <= i < |b.refunds| ==> b.refunds[i].ref != report.ref
    requires Ended(report.status) ==> t == Taking([], 0)
    requires WithinOpen(AddRefund(b, report, p), t) && (!Ended(report.status) ==> Total(t.parts) + t.left == report.amount)
    ensures Sound(PaidOutOf(AddRefund(b, report, p), |b.refunds|, t, report.at))
  {
    hide Sound, Midway, RowsOk, Balanced, InRanges, FromCreditsOk, RefundsLive, RefundEntriesUnique, BesideReversing;
    hide NetsOk, Bounded, Conserved, RefsUnique, Solvent, CreditsOk, PaidOutOf, Chained, RefundLives;
    var f := |b.refunds|;
    var added := AddRefund(b, report, p);
    var b' := PaidOutOf(added, f, t, report.at);
    SoundIs(b);
    MidwayIs(b, []);
    UntoldRefund(b, f);
    AddedRefundSound(b, report, p);
    hide WithinOpen;
    PaidOutRows(added, f, t, report.at);
    PaidOutSolvent(added, f, t, report.at);
    PaidOutWrites(added, f, t, report.at);
    PaidOutFrame(added, f, t, report.at);
    BesideTwice(b, added, b');
    NewRefundUnique(b, b', f);
    assert Distinct(t.parts) by {
      WithinIs(added, t);
    }
    UniqueSame(b, added);
    PaidOutUnique(added, f, t, report.at);
    FirstSeenLives(b, report, p, t);
    BesideSound(b, b');
  }

  lemma WithinIs(b: Books, t: Taking)
    requires WithinOpen(b, t)
    ensures Distinct(t.parts)
  {
  }

  lemma UniqueSame(b: Books, b': Books)
    requires RefundEntriesUnique(b) && b'.entries == b.entries
    ensures RefundEntriesUnique(b')
  {
  }

  lemma FirstSeenLives(b: Books, report: RefundReport, p: Id, t: Taking)
    requires EntriesOk(b) && CasesOk(b) && RefundsLive(b)
    requires Ended(report.status) ==> t == Taking([], 0)
    requires !Ended(report.status) ==> Total(t.parts) + t.left == report.amount
    ensures RefundsLive(PaidOutOf(AddRefund(b, report, p), |b.refunds|, t, report.at))
  {
    hide PaidOutOf, RefundLives, EntriesOk, CasesOk;
    var f := |b.refunds|;
    var added := AddRefund(b, report, p);
    var b' := PaidOutOf(added, f, t, report.at);
    UntoldRefund(b, f);
    PaidOutFrame(added, f, t, report.at);
    PaidOutWrites(added, f, t, report.at);
    forall g: Id | 0 <= g < |b'.refunds| ensures RefundLives(b', g) {
      if g < f {
        assert RefundLives(b, g);
        FirstSeenOthers(b, b', f, g, t);
      } else if Ended(report.status) {
        EndedAtOnce(added, f, report.at);
      } else {
        PaidOutLives(added, f, t, report.at);
      }
    }
  }

  lemma EndedAtOnce(b: Books, f: Id, at: int)
    requires f < |b.refunds| && Ended(b.refunds[f].status)
    requires forall i :: 0 <= i < |b.entries| ==> b.entries[i].source != ByRefund(f)
    requires forall i :: 0 <= i < |b.cases| ==> b.cases[i].about != ByRefund(f)
    ensures var b' := PaidOutOf(b, f, Taking([], 0), at); f < |b'.refunds| && RefundLives(b', f)
  {
    forall c: Id ensures Took(b, c, ByRefund(f)) == 0 {
      SumZero(b.entries, OnCreditBy(c, ByRefund(f)));
    }
  }

  lemma FirstSeenOthers(b: Books, b': Books, f: Id, g: Id, t: Taking)
    requires g < f <= |b.refunds| && RefundLives(b, g) && Prefix(b.refunds, b'.refunds)
    requires BesideReversing(b, b'.(refunds := b.refunds))
    requires forall i :: |b.entries| <= i < |b'.entries| ==> b'.entries[i].source == ByRefund(f)
    requires forall i :: |b.cases| <= i < |b'.cases| ==> b'.cases[i].about == ByRefund(f)
    ensures RefundLives(b', g)
  {
    UntoldLives(b, b'.(refunds := b.refunds), g);
    assert forall c: Id :: Took(b', c, ByRefund(g)) == Took(b'.(refunds := b.refunds), c, ByRefund(g));
  }

  // ---- a refund that ends ----------------------------------------------------------------

  function RefundedOn(c: Id, f: Id): Entry -> int {
    (e: Entry) => if e.credit == c && e.source == ByRefund(f) && e.kind == Refunded then e.amount else 0
  }

  function RefundedCount(c: Id, f: Id): Entry -> int {
    (e: Entry) => if e.credit == c && e.source == ByRefund(f) && e.kind == Refunded then 1 else 0
  }

  lemma {:induction false} RefundPartsSums(rows: seq<Entry>, f: Id, c: Id)
    ensures On(RefundParts(rows, f), c) == Sum(rows, RefundedOn(c, f))
    ensures Sum(RefundParts(rows, f), CountOf(c)) == Sum(rows, RefundedCount(c, f))
  {
    if rows != [] {
      var n := |rows| - 1;
      RefundPartsSums(rows[..n], f, c);
      if rows[n].source == ByRefund(f) && rows[n].kind == Refunded {
        SumAppend(RefundParts(rows[..n], f), Part(rows[n].credit, rows[n].amount));
      }
    }
  }

  lemma {:induction false} RefundPartsNames(rows: seq<Entry>, f: Id, k: nat)
    requires k < |RefundParts(rows, f)|
    ensures exists e :: e in rows && e.credit == RefundParts(rows, f)[k].id && e.source == ByRefund(f)
              && e.amount == RefundParts(rows, f)[k].amount
  {
    var n := |rows| - 1;
    var before := RefundParts(rows[..n], f);
    if k < |before| {
      RefundPartsNames(rows[..n], f, k);
      var e :| e in rows[..n] && e.credit == before[k].id && e.source == ByRefund(f) && e.amount == before[k].amount;
      assert e in rows;
    } else {
      assert rows[n] in rows;
    }
  }

  lemma RefundedAlone(b: Books, f: Id, c: Id)
    requires f < |b.refunds| && !Ended(b.refunds[f].status) && RefundLives(b, f)
    ensures forall i :: 0 <= i < |b.entries| ==>
      RefundedOn(c, f)(b.entries[i]) == OnCreditBy(c, ByRefund(f))(b.entries[i])
  {
  }

  /** What a refund that ends gives back of each credit is what it holds of it, once. */
  lemma TakenByRefundOn(b: Books, f: Id, c: Id)
    requires f < |b.refunds| && !Ended(b.refunds[f].status) && RefundLives(b, f)
    ensures On(TakenByRefund(b, f), c) == Took(b, c, ByRefund(f))
  {
    hide RefundLives, RefundedOn, OnCreditBy;
    RefundPartsSums(Sort(b.entries, EntryKey()), f, c);
    SortSum(b.entries, EntryKey(), RefundedOn(c, f));
    RefundedAlone(b, f, c);
    SumSame(b.entries, RefundedOn(c, f), OnCreditBy(c, ByRefund(f)));
  }

  lemma TakenByRefundDistinct(b: Books, f: Id)
    requires RefundEntriesUnique(b)
    ensures Distinct(TakenByRefund(b, f))
  {
    forall c: Id ensures Sum(TakenByRefund(b, f), CountOf(c)) <= 1 {
      RefundPartsSums(Sort(b.entries, EntryKey()), f, c);
      SortSum(b.entries, EntryKey(), RefundedCount(c, f));
      forall i, j | 0 <= i < j < |b.entries|
        ensures RefundedCount(c, f)(b.entries[i]) + RefundedCount(c, f)(b.entries[j]) <= 1
      {
        assert !SameRefundEntry(b.entries[i], b.entries[j]);
      }
      AtMostOne(b.entries, RefundedCount(c, f));
    }
    CountsDistinct(TakenByRefund(b, f));
  }

  lemma EndedFrame(b: Books, f: Id, status: RefundStatus, at: int)
    requires f < |b.refunds|
    ensures var b' := EndedBooks(b, f, status, at);
      && b' == b.(entries := b'.entries, cases := b'.cases, refunds := SetStatus(b, f, status).refunds)
      && b'.entries == WriteEntries(SetStatus(b, f, status), TakenByRefund(b, f), RefundFailed, ByRefund(f), at).entries
      && |b'.entries| == |b.entries| + |TakenByRefund(b, f)|
      && |b'.cases| == |b.cases|
      && (forall k: Id :: k < |b.cases| ==>
            b'.cases[k] == if b.cases[k].about == ByRefund(f) then b.cases[k].(closed := true) else b.cases[k])
  {
    hide TakenByRefund;
    EntriesFrame(SetStatus(b, f, status), TakenByRefund(b, f), RefundFailed, ByRefund(f), at);
    CloseCasesKeeps(WriteEntries(SetStatus(b, f, status), TakenByRefund(b, f), RefundFailed, ByRefund(f), at),
                    ByRefund(f), EveryCase());
  }

  lemma EndedWrites(b: Books, f: Id, status: RefundStatus, at: int)
    requires f < |b.refunds|
    ensures var b' := EndedBooks(b, f, status, at);
      && BesideReversing(b, b')
      && |b'.entries| == |b.entries| + |TakenByRefund(b, f)|
      && forall i :: |b.entries| <= i < |b'.entries| ==>
           EntryFor(b'.entries[i], TakenByRefund(b, f)[i - |b.entries|], RefundFailed, ByRefund(f))
  {
    hide EndedBooks, TakenByRefund;
    var b' := EndedBooks(b, f, status, at);
    EndedFrame(b, f, status, at);
    forall i | 0 <= i < |b'.entries|
      ensures i < |b.entries| ==> b'.entries[i] == b.entries[i]
      ensures i >= |b.entries| ==>
        EntryFor(b'.entries[i], TakenByRefund(b, f)[i - |b.entries|], RefundFailed, ByRefund(f))
    {
      EntriesFollow(SetStatus(b, f, status), TakenByRefund(b, f), RefundFailed, ByRefund(f), at, i);
    }
  }

  lemma RefundEntryOk(b: Books, f: Id, k: nat)
    requires EntriesOk(b) && k < |TakenByRefund(b, f)|
    ensures TakenByRefund(b, f)[k].id < |b.credits| && TakenByRefund(b, f)[k].amount >= 0
  {
    RefundPartsNames(Sort(b.entries, EntryKey()), f, k);
    SortOrders(b.entries, EntryKey());
    var e :| e in Sort(b.entries, EntryKey()) && e.credit == TakenByRefund(b, f)[k].id && e.source == ByRefund(f)
      && e.amount == TakenByRefund(b, f)[k].amount;
    assert e in b.entries;
    var i :| 0 <= i < |b.entries| && b.entries[i] == e;
    assert EntryOk(b, b.entries[i]);
  }

  lemma EndedRows(b: Books, f: Id, status: RefundStatus, at: int)
    requires RowsOk(b) && EntriesOk(b) && f < |b.refunds|
    ensures RowsOk(EndedBooks(b, f, status, at))
  {
    hide Chained, RowsOk, EndedBooks, TakenByRefund, EntriesOk;
    RowsChained(b);
    var b' := EndedBooks(b, f, status, at);
    EndedFrame(b, f, status, at);
    EndedWrites(b, f, status, at);
    assert Grows(b, b');
    forall i | |b.entries| <= i < |b'.entries| ensures EntryOk(b', b'.entries[i]) {
      assert EntryFor(b'.entries[i], TakenByRefund(b, f)[i - |b.entries|], RefundFailed, ByRefund(f));
      RefundEntryOk(b, f, i - |b.entries|);
    }
    RowsGrow(b, b');
  }

  lemma EndedTook(b: Books, f: Id, status: RefundStatus, at: int, c: Id, s: Source)
    requires f < |b.refunds| && !Ended(b.refunds[f].status) && RefundLives(b, f)
    ensures Took(EndedBooks(b, f, status, at), c, s) == if s == ByRefund(f) then 0 else Took(b, c, s)
    ensures PaidOut(EndedBooks(b, f, status, at), c) == PaidOut(b, c) - Took(b, c, ByRefund(f))
  {
    hide EndedBooks, TakenByRefund;
    EndedFrame(b, f, status, at);
    TakenByRefundOn(b, f, c);
    var restated := SetStatus(b, f, status);
    EntriesTook(restated, TakenByRefund(b, f), RefundFailed, ByRefund(f), at, c, s);
    EntriesPaidOut(restated, TakenByRefund(b, f), RefundFailed, ByRefund(f), at, c);
  }

  lemma EndedSolvent(b: Books, f: Id, status: RefundStatus, at: int)
    requires f < |b.refunds| && !Ended(b.refunds[f].status) && RefundLives(b, f) && Solvent(b, [])
    ensures Solvent(EndedBooks(b, f, status, at), [])
  {
    hide EndedBooks, RefundLives;
    var b' := EndedBooks(b, f, status, at);
    EndedFrame(b, f, status, at);
    forall c: Id, s: Source
      ensures Took(b', c, s) == if s == ByRefund(f) then 0 else Took(b, c, s)
      ensures PaidOut(b', c) <= PaidOut(b, c)
    {
      EndedTook(b, f, status, at, c, s);
    }
    forall c | 0 <= c < |b'.credits| ensures 0 <= Open(b', c) + Sum([], OfCredit(c)) {
      assert 0 <= Open(b, c) + Sum([], OfCredit(c));
      EndedTook(b, f, status, at, c, ByPayout);
    }
    forall c: Id, q: Id ensures Sum([], OfPair(c, q)) <= Took(b', c, ByReversal(q)) {
      assert Sum([], OfPair(c, q)) <= Took(b, c, ByReversal(q));
    }
  }

  lemma EndedUnique(b: Books, f: Id, status: RefundStatus, at: int)
    requires f < |b.refunds| && !Ended(b.refunds[f].status) && RefundLives(b, f) && RefundEntriesUnique(b)
    ensures RefundEntriesUnique(EndedBooks(b, f, status, at))
  {
    hide EndedBooks, TakenByRefund;
    var b' := EndedBooks(b, f, status, at);
    EndedWrites(b, f, status, at);
    TakenByRefundDistinct(b, f);
    var parts := TakenByRefund(b, f);
    forall i, j | 0 <= i < j < |b'.entries| ensures !SameRefundEntry(b'.entries[i], b'.entries[j]) {
      if j < |b.entries| {
        assert !SameRefundEntry(b.entries[i], b.entries[j]);
      } else {
        assert EntryFor(b'.entries[j], parts[j - |b.entries|], RefundFailed, ByRefund(f));
        if i >= |b.entries| {
          assert EntryFor(b'.entries[i], parts[i - |b.entries|], RefundFailed, ByRefund(f));
        } else {
          assert b'.entries[i] == b.entries[i];
        }
      }
    }
  }

  /** A refund that ended holds nothing of any credit, and no case about it is open. */
  lemma EndedLives(b: Books, f: Id, status: RefundStatus, at: int)
    requires f < |b.refunds| && !Ended(b.refunds[f].status) && Ended(status) && RefundLives(b, f)
    ensures var b' := EndedBooks(b, f, status, at); f < |b'.refunds| && RefundLives(b', f)
  {
    hide EndedBooks;
    EndedFrame(b, f, status, at);
    forall c: Id ensures Took(EndedBooks(b, f, status, at), c, ByRefund(f)) == 0 {
      EndedTook(b, f, status, at, c, ByRefund(f));
    }
  }

  lemma SameStatusRefs(b: Books, b': Books)
    requires RefsUnique(b) && b'.payments == b.payments && b'.reversals == b.reversals
    requires |b'.refunds| == |b.refunds| && forall i :: 0 <= i < |b.refunds| ==> b'.refunds[i].ref == b.refunds[i].ref
    ensures RefsUnique(b')
  {
  }

  lemma EndedSound(b: Books, f: Id, status: RefundStatus, at: int)
    requires Sound(b) && f < |b.refunds| && !Ended(b.refunds[f].status) && Ended(status)
    ensures Sound(EndedBooks(b, f, status, at))
  {
    hide Sound, Midway, RowsOk, Balanced, InRanges, FromCreditsOk, RefundEntriesUnique, BesideReversing;
    hide NetsOk, Bounded, Conserved, RefsUnique, Solvent, EndedBooks, Chained, RefundLives, TakenByRefund;
    hide CreditsOk, EntriesOk, CasesOk, PaymentsOk, ReversalsOk, SettlementsOk;
    var b' := EndedBooks(b, f, status, at);
    SoundIs(b);
    MidwayIs(b, []);
    assert RefundLives(b, f);
    EndedFrame(b, f, status, at);
    EndedWrites(b, f, status, at);
    EndedRows(b, f, status, at);
    EndedSolvent(b, f, status, at);
    EndedUnique(b, f, status, at);
    SameStatusRefs(b, b');
    forall g: Id | 0 <= g < |b'.refunds| ensures RefundLives(b', g) {
      assert RefundLives(b, g);
      if g == f {
        EndedLives(b, f, status, at);
      } else {
        UntoldLives(b, b', g);
      }
    }
    BesideSound(b, b');
  }

  // ---- the other steps -------------------------------------------------------------------

  lemma SetStatusSound(b: Books, f: Id, status: RefundStatus)
    requires Sound(b) && f < |b.refunds| && !Ended(b.refunds[f].status) && !Ended(status)
    ensures Sound(SetStatus(b, f, status))
  {
    hide Sound, Midway, RowsOk, Balanced, InRanges, FromCreditsOk, RefundEntriesUnique;
    hide NetsOk, Bounded, Conserved, RefsUnique, Chained, RefundLives;
    var b' := SetStatus(b, f, status);
    SoundIs(b);
    MidwayIs(b, []);
    SetStatusRows(b, f, status);
    SameStatusRefs(b, b');
    UniqueSame(b, b');
    forall g: Id | 0 <= g < |b'.refunds| ensures RefundLives(b', g) {
      assert RefundLives(b, g);
      SetStatusLives(b, f, status, g);
    }
    BesideSound(b, b');
  }

  lemma SetStatusRows(b: Books, f: Id, status: RefundStatus)
    requires RowsOk(b) && Solvent(b, []) && f < |b.refunds|
    ensures RowsOk(SetStatus(b, f, status)) && Solvent(SetStatus(b, f, status), [])
  {
    hide RowsOk, Chained;
    RowsChained(b);
    var b' := SetStatus(b, f, status);
    assert Grows(b, b');
    RowsGrow(b, b');
    assert forall c: Id, s: Source :: Took(b', c, s) == Took(b, c, s);
    assert forall c: Id :: PaidOut(b', c) == PaidOut(b, c);
  }

  lemma SetStatusLives(b: Books, f: Id, status: RefundStatus, g: Id)
    requires f < |b.refunds| && g < |b.refunds| && !Ended(b.refunds[f].status) && !Ended(status) && RefundLives(b, g)
    ensures RefundLives(SetStatus(b, f, status), g)
  {
    assert forall c: Id :: Took(SetStatus(b, f, status), c, ByRefund(g)) == Took(b, c, ByRefund(g));
  }

  /** Every report of a refund keeps the books sound. */
  lemma RecordRefundSound(b: Books, report: RefundReport)
    requires Sound(b)
    ensures var s := RecordRefund(b, report);
      Sound(s.books) && (s.outcome.NoPayment? || s.outcome.InOtherCurrency? ==> s.books == b)
  {
    hide Sound, EndedBooks, PaidOutOf, SetStatus, RefundDivision;
    var payment := Find(b.payments, PaymentRef(report.paymentRef));
    if payment.Some? && report.currency == b.payments[payment.value].currency {
      var p := payment.value;
      match Find(b.refunds, RefundRef(report.ref))
      case Some(f) =>
        if !(Ended(b.refunds[f].status) || report.status == b.refunds[f].status) {
          if Ended(report.status) {
            EndedSound(b, f, report.status, report.at);
          } else {
            SetStatusSound(b, f, report.status);
          }
        }
      case None =>
        var added := AddRefund(b, report, p);
        var t := if Ended(report.status) then Taking([], 0)
                 else RefundDivision(added, p, b.payments[p].subscriber, report.currency, report.amount);
        if !Ended(report.status) {
          DivisionOk(added, p, b.payments[p].subscriber, report.currency, report.amount);
        } else {
          NothingPaidOut(added, |b.refunds|, report.at);
        }
        FirstSeenSound(b, report, p, t);
    }
  }

  lemma NothingPaidOut(b: Books, f: Id, at: int)
    ensures PaidOutOf(b, f, Taking([], 0), at) == b
  {
  }

  lemma OpenIs(b: Books, c: Id)
    requires Sound(b) && c < |b.credits|
    ensures 0 <= Open(b, c)
  {
    SoundMidway(b);
    MidwayIs(b, []);
    assert 0 <= Open(b, c) + Sum([], OfCredit(c));
  }

  lemma RecordPayoutSound(b: Books, c: Id, amount: nat, at: int)
    requires Sound(b)
    ensures Sound(RecordPayout(b, c, amount, at).books)
  {
    hide Sound, Midway, RowsOk, Balanced, InRanges, FromCreditsOk, RefundEntriesUnique, BesideReversing;
    hide NetsOk, Bounded, Conserved, RefsUnique, Chained, RefundLives, RefundsLive, Solvent;
    if RecordPayout(b, c, amount, at).outcome.PayoutRecorded? {
      SoundIs(b);
      MidwayIs(b, []);
      OpenIs(b, c);
      PayoutRows(b, c, amount, at);
      PayoutSums(b, c, amount, at);
      PayoutRefunds(b, c, amount, at);
      BesideSound(b, RecordPayout(b, c, amount, at).books);
    }
  }

  /** A payout takes no more than the credit still owes, and exactly that much of it. */
  lemma RecordPayoutEffect(b: Books, c: Id, amount: nat, at: int)
    requires Sound(b) && RecordPayout(b, c, amount, at).outcome.PayoutRecorded?
    ensures c < |b.credits| && amount <= Open(b, c)
    ensures var s := RecordPayout(b, c, amount, at);
      c < |s.books.credits| && s.outcome.left == Open(s.books, c) == Open(b, c) - amount
  {
    hide Sound, Solvent;
    SoundMidway(b);
    MidwayIs(b, []);
    OpenIs(b, c);
    PayoutSums(b, c, amount, at);
  }

  lemma PayoutRows(b: Books, c: Id, amount: nat, at: int)
    requires RowsOk(b) && c < |b.credits|
    ensures var b' := AddEntry(b, c, PaidOff, amount, ByPayout, at); RowsOk(b') && BesideReversing(b, b')
  {
    hide RowsOk, Chained;
    RowsChained(b);
    var b' := AddEntry(b, c, PaidOff, amount, ByPayout, at);
    assert Grows(b, b');
    RowsGrow(b, b');
  }

  lemma PayoutSums(b: Books, c: Id, amount: nat, at: int)
    requires Solvent(b, []) && c < |b.credits| && amount <= Open(b, c)
    ensures var b' := AddEntry(b, c, PaidOff, amount, ByPayout, at);
      Solvent(b', []) && Open(b', c) == Open(b, c) - amount
  {
    var b' := AddEntry(b, c, PaidOff, amount, ByPayout, at);
    SumAppend(b.entries, b'.entries[|b.entries|]);
    forall d | 0 <= d < |b'.credits|
      ensures Open(b', d) == Open(b, d) - if d == c then amount else 0
      ensures 0 <= Open(b', d) + Sum([], OfCredit(d))
    {
      assert 0 <= Open(b, d) + Sum([], OfCredit(d));
    }
    forall d: Id, s: Source ensures Took(b', d, s) >= Took(b, d, s) {
    }
    forall d: Id, q: Id ensures Sum([], OfPair(d, q)) <= Took(b', d, ByReversal(q)) {
      assert Sum([], OfPair(d, q)) <= Took(b, d, ByReversal(q));
    }
  }

  lemma PayoutRefunds(b: Books, c: Id, amount: nat, at: int)
    requires RefundsLive(b) && RefundEntriesUnique(b) && RefsUnique(b) && c < |b.credits|
    ensures var b' := AddEntry(b, c, PaidOff, amount, ByPayout, at);
      RefundsLive(b') && RefundEntriesUnique(b') && RefsUnique(b')
  {
    hide RefundLives;
    var b' := AddEntry(b, c, PaidOff, amount, ByPayout, at);
    forall f: Id | 0 <= f < |b'.refunds| ensures RefundLives(b', f) {
      assert RefundLives(b, f);
      UntoldLives(b, b', f);
    }
    forall i, j | 0 <= i < j < |b'.entries| ensures !SameRefundEntry(b'.entries[i], b'.entries[j]) {
      assert j < |b.entries| ==> !SameRefundEntry(b.entries[i], b.entries[j]);
    }
  }

  /** Closing a case changes no amount. */
  lemma CloseCaseSound(b: Books, k: Id)
    requires Sound(b)
    ensures Sound(CloseCase(b, k).books)
  {
    hide Sound, Midway, RowsOk, Balanced, InRanges, FromCreditsOk, RefundEntriesUnique;
    hide NetsOk, Bounded, Conserved, RefsUnique, Chained, RefundLives;
    var b' := CloseCase(b, k).books;
    if b' != b {
      SoundIs(b);
      MidwayIs(b, []);
      CloseCaseRows(b, k);
      UniqueSame(b, b');
      SameStatusRefs(b, b');
      forall f: Id | 0 <= f < |b'.refunds| ensures RefundLives(b', f) {
        assert RefundLives(b, f);
        UntoldLives(b, b', f);
      }
      BesideSound(b, b');
    }
  }

  lemma CloseCaseRows(b: Books, k: Id)
    requires RowsOk(b) && Solvent(b, [])
    ensures RowsOk(CloseCase(b, k).books) && Solvent(CloseCase(b, k).books, [])
  {
    hide RowsOk, Chained;
    RowsChained(b);
    var b' := CloseCase(b, k).books;
    assert Grows(b, b');
    RowsGrow(b, b');
    assert forall c: Id, s: Source :: Took(b', c, s) == Took(b, c, s);
    assert forall c: Id :: PaidOut(b', c) == PaidOut(b, c);
  }
}
