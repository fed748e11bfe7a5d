/** What a give-back closes, returns, settles and credits, said of the tables alone. */
module GiveBackAnswers {
  import opened Sums
  import opened PaymentRules
  import opened InvoiceChain
  import opened Books
  import opened Soundness
  import opened ReversalFrame
  import opened Brought
  import opened Withdrawals
  import opened Reinstatements
  import opened LiftedCovers
  import opened GiveBacks
  import opened ReversalReports
  import opened WithdrawalAnswers

  // ---- where the chain stands ------------------------------------------------------------

  /** The invoice that stands in the chain payment `p` was collected for. */
  ghost function StandingFor(b: Books, p: Id): Option<Id> {
    if p < |b.payments| && b.payments[p].invoice in b.invoices
    then StandingOf(b, b.invoices[b.payments[p].invoice].chainId) else None
  }

  lemma StandsAlike(b: Books, p: Id, i: Id)
    requires Chained(b.invoices, b.cancellations) && PaymentsOk(b) && MaySettle(b, p, i)
    ensures StandingOf(b, i) == StandingFor(b, p)
    ensures StandingOf(b, i).None? ==> i in b.cancellations
  {
    assert PaymentOk(b, b.payments[p]);
    StandingFromTheFirst(b.invoices, b.cancellations, i);
  }

  /** What a payment settles it settles of the one invoice that stands in its chain. */
  lemma SettlesWhereItStands(b: Books, p: Id, i: Id)
    requires Sound(b) && Net(b, p, i) > 0
    ensures StandingFor(b, p) == Some(i)
  {
    hide Sound, Chained;
    SoundMidway(b);
    MidwayIs(b, []);
    if forall k :: 0 <= k < |b.settlements| ==> OfPaymentOn(p, i)(b.settlements[k]) == 0 {
      SumZero(b.settlements, OfPaymentOn(p, i));
    }
    var k :| 0 <= k < |b.settlements| && OfPaymentOn(p, i)(b.settlements[k]) != 0;
    assert SettlementOk(b, b.settlements[k]);
    StandsAlike(b, p, i);
    assert i !in b.cancellations;
    StandsThere(b, i);
  }

  lemma StandsThere(b: Books, i: Id)
    requires Chained(b.invoices, b.cancellations) && i in b.invoices && i !in b.cancellations
    ensures StandingOf(b, i) == Some(i)
  {
  }

  /** What reversal `r` opened stands where its payment's chain stands, or owes nothing. */
  lemma ReopenedStands(b: Books, r: Id, i: Id)
    requires Sound(b) && r < |b.reversals| && Names(ReopenedParts(b, r), i)
    ensures var s := StandingFor(b, b.reversals[r].payment);
      if s.Some? then i == s.value else OwedAt(b, i) == 0
  {
    hide Sound, Chained, ReopenedParts, StandingOf;
    SoundMidway(b);
    MidwayIs(b, []);
    var p := b.reversals[r].payment;
    var j := ReopenedFrom(b, r, i);
    var k :| 0 <= k < |b.settlements| && IsOfReversal(r)(b.settlements[k]) && b.settlements[k].invoice == j;
    assert SettlementOk(b, b.settlements[k]);
    StandsAlike(b, p, j);
  }

  // ---- what it divides into --------------------------------------------------------------

  lemma {:induction false} NothingOwed(invoices: seq<Reopened>, amount: nat)
    requires forall k :: 0 <= k < |invoices| ==> invoices[k].owed <= 0
    ensures ResettledOf(invoices, amount).invoices == []
  {
    if invoices != [] {
      NothingOwed(invoices[..|invoices| - 1], amount);
    }
  }

  lemma OneResettled(invoice: Reopened, amount: nat)
    ensures ResettledOf([invoice], amount) == ResettleOne(Resettled([], 0, amount), invoice)
  {
    assert [invoice][..0] == [];
    assert ResettledOf([invoice][..0], amount) == Resettled([], 0, amount);
  }

  lemma {:induction false} WithOwedAt(b: Books, parts: seq<Part>, k: nat)
    requires k < |parts|
    ensures |WithOwed(b, parts)| == |parts|
    ensures WithOwed(b, parts)[k] == Reopened(parts[k].id, parts[k].amount, OwedAt(b, parts[k].id))
  {
    WithOwedLength(b, parts);
    if k < |parts| - 1 {
      WithOwedAt(b, parts[..|parts| - 1], k);
    } else {
      WithOwedLength(b, parts[..|parts| - 1]);
    }
  }

  lemma {:induction false} WithOwedLength(b: Books, parts: seq<Part>)
    ensures |WithOwed(b, parts)| == |parts|
  {
    if parts != [] {
      WithOwedLength(b, parts[..|parts| - 1]);
    }
  }

  /** What a give-back reads of what a reversal opened: at most the invoice that stands. */
  lemma ReopenedShape(b: Books, r: Id)
    requires Sound(b) && r < |b.reversals|
    ensures var s := StandingFor(b, b.reversals[r].payment);
      var invoices := WithOwed(b, ReopenedParts(b, r));
      var held := Sum(b.settlements, ReopenedBy(r));
      && (s.Some? ==> if invoices == [] then held == 0
                      else invoices == [Reopened(s.value, held, OwedAt(b, s.value))])
      && (s.None? ==> forall k :: 0 <= k < |invoices| ==> invoices[k].owed <= 0)
  {
    hide Sound, ReopenedParts, StandingFor, OwedAt;
    var s := StandingFor(b, b.reversals[r].payment);
    var parts := ReopenedParts(b, r);
    var invoices := WithOwed(b, parts);
    ReopenedPartsTotal(b, r);
    WithOwedLength(b, parts);
    forall k | 0 <= k < |parts|
      ensures if s.Some? then parts[k].id == s.value else OwedAt(b, parts[k].id) == 0
    {
      assert Names(parts, parts[k].id);
      ReopenedStands(b, r, parts[k].id);
    }
    forall k | 0 <= k < |invoices|
      ensures invoices[k] == Reopened(parts[k].id, parts[k].amount, OwedAt(b, parts[k].id))
    {
      WithOwedAt(b, parts, k);
    }
    if s.Some? && parts != [] {
      OnlyPart(parts, s.value);
    }
  }

  /** What of `left` settles what a reversal opened: of the invoice that stands, what that owes. */
  lemma ResettledStanding(b: Books, r: Id, left: nat)
    requires Sound(b) && r < |b.reversals|
    requires left <= Sum(WithOwed(b, ReopenedParts(b, r)), ReopenedLeft())
    ensures var s := StandingFor(b, b.reversals[r].payment);
      var settled := if s.Some? then Min(left, Max(0, OwedAt(b, s.value))) else 0;
      var t := ResettledOf(WithOwed(b, ReopenedParts(b, r)), left);
      && t.invoices == (if settled > 0 then [Part(s.value, settled)] else [])
      && t.credited == left - settled && t.left == 0
  {
    hide Sound, ReopenedParts, StandingFor, OwedAt, WithOwed;
    var s := StandingFor(b, b.reversals[r].payment);
    var invoices := WithOwed(b, ReopenedParts(b, r));
    ReopenedShape(b, r);
    ResettledTotal(invoices, left);
    assert Total([]) == 0;
    if s.Some? && invoices != [] {
      OneResettled(invoices[0], left);
    } else if s.None? {
      NothingOwed(invoices, left);
    }
  }

  lemma FirstTwoApart(parts: seq<Part>)
    requires Distinct(parts) && |parts| > 1
    ensures parts[0].id != parts[1].id
  {
  }

  lemma OnlyPart(parts: seq<Part>, i: Id)
    requires Distinct(parts) && parts != [] && forall k :: 0 <= k < |parts| ==> parts[k].id == i
    ensures |parts| == 1 && Total(parts) == parts[0].amount
  {
    if |parts| > 1 {
      FirstTwoApart(parts);
    }
    SumAppend([], parts[0]);
    assert [] + [parts[0]] == parts;
  }

  /** How an amount given back divides: it covers what of the reversal's cases no give-back covered, then returns
      what the reversal holds of credits, then settles what the invoice owes that stands in the chain, and what
      remains of what the reversal opened is credited. */
  lemma GiveBackParts(b: Books, r: Id, amount: nat)
    requires Sound(b) && r < |b.reversals| && amount <= b.reversals[r].amount - b.reversals[r].reinstated
    ensures var g := ReinstatementNow(b, r, amount);
      var s := StandingFor(b, b.reversals[r].payment);
      var covered := Min(amount, Sum(b.cases, CaseAbout(ByReversal(r))) - b.reversals[r].reinstatedToCases);
      var returned := Min(amount - covered, Sum(b.entries, EntryBy(ByReversal(r))));
      var left := amount - covered - returned;
      var settled := if s.Some? then Min(left, Max(0, OwedAt(b, s.value))) else 0;
      && g.covered == covered && Total(g.credits) == returned && g.credited == left - settled && g.beyond == 0
      && g.invoices == (if settled > 0 then [Part(s.value, settled)] else [])
  {
    hide Sound, Midway, RowsOk, CasesOf, TookOf, OwnFirst, ReopenedParts, WithOwed, StandingFor, OwedAt, CreditsOk;
    hide Conserved, FromCreditsOk, RefundsLive, RefundEntriesUnique, RefsUnique, PaymentRules.Taken, ResettledOf;
    SoundIs(b);
    assert InRange(b, b.reversals[r], Sum(b.cases, CaseAbout(ByReversal(r))));
    assert Excess(b, r) == 0;
    hide InRanges, Balanced, Holds;
    var p := b.reversals[r].payment;
    var credits := OwnFirst(b, p, TookOf(b, r));
    var unmatched := Sum(b.cases, CaseAbout(ByReversal(r))) - b.reversals[r].reinstatedToCases;
    CasesTotal(b, ByReversal(r));
    NothingBeyond(b, r, amount);
    TookOffered(b, r);
    OwnFirstSum(b, p, TookOf(b, r), Offered());
    var covered := Min(amount, unmatched);
    TakenTotal(credits, amount - covered);
    var left := PaymentRules.Taken(credits, amount - covered).left;
    ReopenedLeftOver(b, r);
    ResettledTotal(WithOwed(b, ReopenedParts(b, r)), left);
    ResettledStanding(b, r, left);
  }

  lemma ReopenedLeftOver(b: Books, r: Id)
    ensures Sum(b.settlements, ReopenedBy(r)) <= Sum(WithOwed(b, ReopenedParts(b, r)), ReopenedLeft())
    ensures 0 <= Sum(WithOwed(b, ReopenedParts(b, r)), ReopenedLeft())
  {
    ReopenedPartsTotal(b, r);
    OfferedAtLeastTotal(ReopenedParts(b, r));
    WithOwedLeft(b, ReopenedParts(b, r));
  }

  /** Nothing a reversal took of a credit and gave back is below nothing. */
  lemma TookOffered(b: Books, r: Id)
    requires Sound(b)
    ensures Sum(TookOf(b, r), Offered()) == Sum(b.entries, EntryBy(ByReversal(r)))
  {
    hide Sound, TookOf;
    SoundMidway(b);
    MidwayIs(b, []);
    var took := TookOf(b, r);
    TookOfSums(b, r, 0);
    forall k | 0 <= k < |took| ensures Offered()(took[k]) == Amount()(took[k]) {
      TookOfSums(b, r, took[k].id);
      OnAt(took, k);
      assert Sum([], OfPair(took[k].id, r)) <= Took(b, took[k].id, ByReversal(r));
    }
    SumSame(took, Offered(), Amount());
  }

  // ---- what it writes --------------------------------------------------------------------

  lemma OneSettlement(b: Books, part: Part, p: Id, r: Id, at: int)
    ensures WriteSettlements(b, [], p, Reinstated, Some(r), at) == b
    ensures WriteSettlements(b, [part], p, Reinstated, Some(r), at)
         == AddSettlement(b, part.id, p, Reinstated, part.amount, Some(r), at)
  {
    assert [part][..0] == [];
    assert WriteSettlements(b, [part][..0], p, Reinstated, Some(r), at) == b;
  }

  /** A give-back writes one settlement at most, on the invoice that stands in the chain, of what that owes of what
      is left once cases and credits have theirs; and it writes a credit of what that invoice does not take, so
      only where the invoice then owes nothing. */
  lemma GiveBackDoes(b: Books, r: Id, amount: nat, at: int)
    requires Sound(b) && r < |b.reversals| && amount <= b.reversals[r].amount - b.reversals[r].reinstated
    ensures b.reversals[r].payment < |b.payments|
    ensures var p := b.reversals[r].payment;
      var b' := Reinstate(b, r, amount, at);
      var s := StandingFor(b, p);
      var covered := Min(amount, Sum(b.cases, CaseAbout(ByReversal(r))) - b.reversals[r].reinstatedToCases);
      var returned := Min(amount - covered, Sum(b.entries, EntryBy(ByReversal(r))));
      var left := amount - covered - returned;
      var settled := if s.Some? then Min(left, Max(0, OwedAt(b, s.value))) else 0;
      && b'.settlements == (if settled > 0
           then b.settlements + [Settlement(s.value, p, Reinstated, settled, Some(r), at,
                                            b.rank(Settlements, |b.settlements|))]
           else b.settlements)
      && b'.credits == (if left > settled
           then b.credits + [Credit(b.payments[p].subscriber, b.payments[p].currency, left - settled,
                                    FromReversal(r), at, b.rank(Credits, |b.credits|))]
           else b.credits)
      && Sum(b'.entries, EntryBy(ByReversal(r))) == Sum(b.entries, EntryBy(ByReversal(r))) - returned
      && (s.Some? ==> OwedAt(b', s.value) == OwedAt(b, s.value) - settled)
      && (s.Some? && left > settled ==> OwedAt(b', s.value) <= 0)
  {
    hide Sound, Reinstate, StandingFor, OwedAt;
    GiveBackRows(b, r, amount, at);
    SettledMore(b, Reinstate(b, r, amount, at), StandingFor(b, b.reversals[r].payment));
  }

  lemma GiveBackRows(b: Books, r: Id, amount: nat, at: int)
    requires Sound(b) && r < |b.reversals| && amount <= b.reversals[r].amount - b.reversals[r].reinstated
    ensures b.reversals[r].payment < |b.payments|
    ensures var p := b.reversals[r].payment;
      var b' := Reinstate(b, r, amount, at);
      var s := StandingFor(b, p);
      var covered := Min(amount, Sum(b.cases, CaseAbout(ByReversal(r))) - b.reversals[r].reinstatedToCases);
      var returned := Min(amount - covered, Sum(b.entries, EntryBy(ByReversal(r))));
      var left := amount - covered - returned;
      var settled := if s.Some? then Min(left, Max(0, OwedAt(b, s.value))) else 0;
      && b'.invoices == b.invoices && b'.cancellations == b.cancellations
      && b'.settlements == (if settled > 0
           then b.settlements + [Settlement(s.value, p, Reinstated, settled, Some(r), at,
                                            b.rank(Settlements, |b.settlements|))]
           else b.settlements)
      && b'.credits == (if left > settled
           then b.credits + [Credit(b.payments[p].subscriber, b.payments[p].currency, left - settled,
                                    FromReversal(r), at, b.rank(Credits, |b.credits|))]
           else b.credits)
      && Sum(b'.entries, EntryBy(ByReversal(r))) == Sum(b.entries, EntryBy(ByReversal(r))) - returned
  {
    hide Sound, ReinstatementNow, Reinstate, StandingFor, OwedAt;
    ReversalIsOfPayment(b, r);
    GiveBackParts(b, r, amount);
    ReinstateRows(b, r, amount, at);
  }

  lemma ReversalIsOfPayment(b: Books, r: Id)
    requires Sound(b) && r < |b.reversals|
    ensures b.reversals[r].payment < |b.payments|
  {
    SoundIs(b);
  }

  /** The rows a give-back writes, of what it divides into. */
  lemma ReinstateRows(b: Books, r: Id, amount: nat, at: int)
    requires r < |b.reversals| && b.reversals[r].payment < |b.payments|
    requires |ReinstatementNow(b, r, amount).invoices| <= 1
    ensures var p := b.reversals[r].payment;
      var b' := Reinstate(b, r, amount, at);
      var g := ReinstatementNow(b, r, amount);
      && b'.invoices == b.invoices && b'.cancellations == b.cancellations
      && b'.settlements == (if g.invoices == [] then b.settlements
           else b.settlements + [Settlement(g.invoices[0].id, p, Reinstated, g.invoices[0].amount, Some(r), at,
                                            b.rank(Settlements, |b.settlements|))])
      && b'.credits == (if g.credited > 0
           then b.credits + [Credit(b.payments[p].subscriber, b.payments[p].currency, g.credited,
                                    FromReversal(r), at, b.rank(Credits, |b.credits|))]
           else b.credits)
      && Sum(b'.entries, EntryBy(ByReversal(r))) == Sum(b.entries, EntryBy(ByReversal(r))) - Total(g.credits)
  {
    hide ReinstatementNow, CoveredNow, CloseCases, GiveBack;
    var p := b.reversals[r].payment;
    var g := ReinstatementNow(b, r, amount);
    var closed := CloseCases(b, ByReversal(r), CoveredNow(b, r, amount));
    CloseCasesKeeps(b, ByReversal(r), CoveredNow(b, r, amount));
    GiveBackFrame(closed, r, p, g.credits, g.invoices, g.credited, at);
    OneSettlement(closed, if g.invoices == [] then Part(0, 0) else g.invoices[0], p, r, at);
    EntriesInAll(closed, g.credits, TakenBack, ByReversal(r), at, ByReversal(r));
  }

  lemma SettledMore(b: Books, b': Books, s: Option<Id>)
    requires b'.invoices == b.invoices && b'.cancellations == b.cancellations
    requires b'.settlements == b.settlements
      || (|b'.settlements| == |b.settlements| + 1 && b'.settlements == b.settlements + [b'.settlements[|b.settlements|]]
          && s == Some(b'.settlements[|b.settlements|].invoice) && !Reopens(b'.settlements[|b.settlements|].kind)
          && OwedAt(b, s.value) > 0)
    ensures s.Some? ==> (OwedAt(b', s.value) == OwedAt(b, s.value)
      - if b'.settlements == b.settlements then 0 else b'.settlements[|b.settlements|].amount)
  {
    if b'.settlements != b.settlements {
      SumAppend(b.settlements, b'.settlements[|b.settlements|]);
    }
  }

  // ---- the order credits come in ---------------------------------------------------------

  lemma OwnFirstDistinct(b: Books, p: Id, parts: seq<Part>)
    requires Distinct(parts)
    ensures Distinct(OwnFirst(b, p, parts))
    ensures forall x :: x in OwnFirst(b, p, parts) <==> x in parts
  {
    forall id ensures Sum(OwnFirst(b, p, parts), CountOf(id)) <= 1 {
      OwnFirstSum(b, p, parts, CountOf(id));
      DistinctCounts(parts, id);
    }
    CountsDistinct(OwnFirst(b, p, parts));
    PickedHolds(parts, IsOwn(b, p));
    PickedAll(parts, IsOwn(b, p));
    SortOrders(Picked(parts, IsOwn(b, p)), PartKey(b));
    SortOrders(Unpicked(parts, IsOwn(b, p)), PartKey(b));
  }

  lemma {:induction false} PickedAll<T>(rows: seq<T>, picks: T -> bool)
    ensures forall x :: x in rows ==> x in Picked(rows, picks) || x in Unpicked(rows, picks)
  {
    if rows != [] {
      PickedAll(rows[..|rows| - 1], picks);
    }
  }

  /** Credits payment `p` left come before all others, and of either kind the older first. */
  predicate ComesBefore(b: Books, p: Id, c: Id, d: Id) {
    if OwnCredit(b, p, c) == OwnCredit(b, p, d) then Older(b, c, d) else OwnCredit(b, p, c)
  }

  lemma NotBoth(b: Books, p: Id, x: Part, y: Part)
    requires x.id < |b.credits| && y.id < |b.credits| && ComesBefore(b, p, x.id, y.id)
    ensures !MayPrecede(b, p, y, x) && x != y
  {
  }

  lemma OwnFirstHolds(b: Books, p: Id, parts: seq<Part>, c: Id) returns (i: nat)
    requires Names(parts, c)
    ensures i < |OwnFirst(b, p, parts)| && OwnFirst(b, p, parts)[i].id == c
  {
    var x :| 0 <= x < |parts| && parts[x].id == c;
    PickedAll(parts, IsOwn(b, p));
    SortOrders(Picked(parts, IsOwn(b, p)), PartKey(b));
    SortOrders(Unpicked(parts, IsOwn(b, p)), PartKey(b));
    assert parts[x] in OwnFirst(b, p, parts);
    i :| 0 <= i < |OwnFirst(b, p, parts)| && OwnFirst(b, p, parts)[i] == parts[x];
  }

  lemma OwnFirstPlaces(b: Books, p: Id, parts: seq<Part>, c: Id, d: Id) returns (i: nat, j: nat)
    requires Names(parts, c) && Names(parts, d) && c < |b.credits| && d < |b.credits| && ComesBefore(b, p, c, d)
    ensures i < j < |OwnFirst(b, p, parts)| && OwnFirst(b, p, parts)[i].id == c && OwnFirst(b, p, parts)[j].id == d
  {
    hide OwnFirst, ComesBefore, MayPrecede, Names;
    i := OwnFirstHolds(b, p, parts, c);
    j := OwnFirstHolds(b, p, parts, d);
    var s := OwnFirst(b, p, parts);
    NotBoth(b, p, s[i], s[j]);
    if j < i {
      Precedes(b, p, parts, j, i);
    }
  }

  lemma Precedes(b: Books, p: Id, parts: seq<Part>, i: nat, j: nat)
    requires i < j < |OwnFirst(b, p, parts)|
    ensures MayPrecede(b, p, OwnFirst(b, p, parts)[i], OwnFirst(b, p, parts)[j])
  {
    OwnFirstOrdered(b, p, parts);
  }

  /** What a give-back returns to credits it returns to those its payment left first, and to older before younger
      ones: to none before all of those before it have back what the reversal took. */
  lemma ReturnsInOrder(b: Books, r: Id, amount: nat, c: Id, d: Id)
    requires Sound(b) && r < |b.reversals| && c < |b.credits| && d < |b.credits|
    requires ComesBefore(b, b.reversals[r].payment, c, d)
    ensures var given := ReinstatementNow(b, r, amount).credits;
      On(given, d) > 0 ==> On(given, c) == Took(b, c, ByReversal(r))
  {
    hide Sound, TookOf, OwnFirst, WithOwed, ReopenedParts, CasesOf, ComesBefore, Took;
    SoundMidway(b);
    MidwayIs(b, []);
    var p := b.reversals[r].payment;
    var took := TookOf(b, r);
    var offers := OwnFirst(b, p, took);
    var g := ReinstatementNow(b, r, amount);
    GivenWithin(b, r, amount, c);
    ReinstatementPositive(amount, Total(CasesOf(b, ByReversal(r))) - b.reversals[r].reinstatedToCases, offers,
                          WithOwed(b, ReopenedParts(b, r)));
    PositiveOn(g.credits);
    TookOfSums(b, r, c);
    TookOfSums(b, r, d);
    GivenWithin(b, r, amount, d);
    OwnFirstDistinct(b, p, took);
    if On(g.credits, d) > 0 && Took(b, c, ByReversal(r)) > 0 {
      OnNamed(took, c);
      OnNamed(took, d);
      var i, j := OwnFirstPlaces(b, p, took, c, d);
      PlacedPart(took, offers, c, i);
      TakenBefore(offers, amount - g.covered, i, j);
    }
  }

  lemma OnNamed(parts: seq<Part>, c: Id)
    requires On(parts, c) > 0
    ensures Names(parts, c)
  {
    if !Names(parts, c) {
      UnnamedIsZero(parts, c);
    }
  }

  lemma PlacedPart(parts: seq<Part>, offers: seq<Part>, c: Id, i: nat)
    requires Distinct(parts) && i < |offers| && offers[i].id == c && forall x :: x in offers <==> x in parts
    ensures offers[i].amount == On(parts, c)
  {
    assert offers[i] in parts;
    var k :| 0 <= k < |parts| && parts[k] == offers[i];
    OnAt(parts, k);
  }

  // ---- the cases it closes ---------------------------------------------------------------

  /** Case `j` was opened before case `k`, or at the same moment under a lower id. */
  predicate OpenedBefore(b: Books, j: Id, k: Id)
    requires j < |b.cases| && k < |b.cases|
  {
    b.cases[j].at < b.cases[k].at || (b.cases[j].at == b.cases[k].at && b.cases[j].rank < b.cases[k].rank)
  }

  /** What the cases about reversal `r` that were opened before case `k`, and it, come to. */
  function WithThoseBefore(b: Books, r: Id, k: Id, n: nat): int
    requires k < |b.cases| && n <= |b.cases|
  {
    if n == 0 then 0
    else
      WithThoseBefore(b, r, k, n - 1)
      + if b.cases[n - 1].about == ByReversal(r) && (n - 1 == k || OpenedBefore(b, n - 1, k))
        then b.cases[n - 1].amount else 0
  }

  /** What the cases about reversal `r` that were not opened after case `k` come to. */
  function WithoutThoseAfter(b: Books, r: Id, k: Id, n: nat): int
    requires k < |b.cases| && n <= |b.cases|
  {
    if n == 0 then 0
    else
      WithoutThoseAfter(b, r, k, n - 1)
      + if b.cases[n - 1].about == ByReversal(r) && !OpenedBefore(b, k, n - 1) then b.cases[n - 1].amount else 0
  }

  function AmountBefore(b: Books, k: Id): Id -> int
    requires k < |b.cases|
  {
    (j: Id) => if j < |b.cases| && (j == k || OpenedBefore(b, j, k)) then b.cases[j].amount else 0
  }

  function AmountNotAfter(b: Books, k: Id): Id -> int
    requires k < |b.cases|
  {
    (j: Id) => if j < |b.cases| && !OpenedBefore(b, k, j) then b.cases[j].amount else 0
  }

  lemma {:induction false} IndexBefore(b: Books, r: Id, k: Id, n: nat)
    requires k < |b.cases| && n <= |b.cases|
    ensures Sum(Indices(n, CasesAbout(b, ByReversal(r))), AmountBefore(b, k)) == WithThoseBefore(b, r, k, n)
  {
    hide OpenedBefore;
    if n > 0 {
      IndexBefore(b, r, k, n - 1);
      NextIndex(n, CasesAbout(b, ByReversal(r)), AmountBefore(b, k));
    }
  }

  lemma {:induction false} IndexNotAfter(b: Books, r: Id, k: Id, n: nat)
    requires k < |b.cases| && n <= |b.cases|
    ensures Sum(Indices(n, CasesAbout(b, ByReversal(r))), AmountNotAfter(b, k)) == WithoutThoseAfter(b, r, k, n)
  {
    hide OpenedBefore;
    if n > 0 {
      IndexNotAfter(b, r, k, n - 1);
      NextIndex(n, CasesAbout(b, ByReversal(r)), AmountNotAfter(b, k));
    }
  }

  lemma NextIndex(n: nat, picks: Id -> bool, f: Id -> int)
    requires n > 0
    ensures Sum(Indices(n, picks), f) == Sum(Indices(n - 1, picks), f) + if picks(n - 1) then f(n - 1) else 0
  {
    SumAppend(Indices(n - 1, picks), n - 1);
  }

  lemma {:induction false} SumAtMost<T>(s: seq<T>, f: T -> int, g: T -> int)
    requires forall i :: 0 <= i < |s| ==> f(s[i]) <= g(s[i])
    ensures Sum(s, f) <= Sum(s, g)
  {
    if s != [] {
      SumAtMost(s[..|s| - 1], f, g);
    }
  }

  /** The cases about the reversal in the order they are read. */
  function CaseOrder(b: Books, r: Id): seq<Id> {
    Sort(Indices(|b.cases|, CasesAbout(b, ByReversal(r))), CaseKey(b))
  }

  lemma CaseOrderDistinct(b: Books, r: Id, i: nat, j: nat)
    requires i < j < |CaseOrder(b, r)|
    ensures CaseOrder(b, r)[i] != CaseOrder(b, r)[j]
  {
    var sorted: seq<Id> := CaseOrder(b, r);
    if sorted[i] == sorted[j] {
      SumTwo<Id>(sorted, Is(sorted[i]), i, j);
      SortSum<Id>(Indices(|b.cases|, CasesAbout(b, ByReversal(r))), CaseKey(b), Is(sorted[i]));
      IndicesSum(|b.cases|, CasesAbout(b, ByReversal(r)), sorted[i], Is(sorted[i]));
    }
  }

  lemma CaseOrderHolds(b: Books, r: Id)
    ensures Ordered(CaseOrder(b, r), CaseKey(b))
    ensures forall k: Id :: k in CaseOrder(b, r) <==> k < |b.cases| && b.cases[k].about == ByReversal(r)
  {
    SortOrders<Id>(Indices(|b.cases|, CasesAbout(b, ByReversal(r))), CaseKey(b));
    IndicesHold(|b.cases|, CasesAbout(b, ByReversal(r)));
  }

  lemma {:induction false} CasePartsAt(b: Books, ids: seq<Id>, k: nat)
    requires k <= |ids|
    ensures |CaseParts(b, ids)| == |ids| && CaseParts(b, ids)[..k] == CaseParts(b, ids[..k])
    ensures forall i :: 0 <= i < |ids| ==>
      CaseParts(b, ids)[i] == Part(ids[i], if ids[i] < |b.cases| then b.cases[ids[i]].amount else 0)
  {
    if ids != [] {
      var n := |ids| - 1;
      CasePartsAt(b, ids[..n], if k <= n then k else n);
      if k == |ids| {
        assert ids[..k] == ids && CaseParts(b, ids)[..k] == CaseParts(b, ids);
      } else {
        assert ids[..n][..k] == ids[..k];
      }
    }
  }

  /** The running total of the cases up to place `m` lies between what surely comes first and what may. */
  lemma RunningBetween(b: Books, r: Id, m: nat)
    requires CasesOk(b) && m < |CaseOrder(b, r)| && CaseOrder(b, r)[m] < |b.cases|
    ensures var k := CaseOrder(b, r)[m];
      WithThoseBefore(b, r, k, |b.cases|) <= Sum(CaseOrder(b, r)[..m + 1], CaseAmount(b))
        <= WithoutThoseAfter(b, r, k, |b.cases|)
  {
    hide WithThoseBefore, WithoutThoseAfter, CaseOrder, CaseAmount, AmountBefore, AmountNotAfter, CasesOk;
    var sorted: seq<Id> := CaseOrder(b, r);
    var k := sorted[m];
    OrderSums(b, r, k);
    var first: seq<Id>, later: seq<Id> := sorted[..m + 1], sorted[m + 1..];
    assert sorted == first + later;
    SumConcat<Id>(first, later, AmountBefore(b, k));
    SumConcat<Id>(first, later, AmountNotAfter(b, k));
    FirstBetween(b, r, m);
  }

  lemma OrderSums(b: Books, r: Id, k: Id)
    requires k < |b.cases|
    ensures Sum(CaseOrder(b, r), AmountBefore(b, k)) == WithThoseBefore(b, r, k, |b.cases|)
    ensures Sum(CaseOrder(b, r), AmountNotAfter(b, k)) == WithoutThoseAfter(b, r, k, |b.cases|)
  {
    var ids: seq<Id> := Indices(|b.cases|, CasesAbout(b, ByReversal(r)));
    IndexBefore(b, r, k, |b.cases|);
    IndexNotAfter(b, r, k, |b.cases|);
    SortSum<Id>(ids, CaseKey(b), AmountBefore(b, k));
    SortSum<Id>(ids, CaseKey(b), AmountNotAfter(b, k));
  }

  lemma KeyOrder(b: Books, j: Id, k: Id)
    requires j < |b.cases| && k < |b.cases| && NotAfter(CaseKey(b)(j), CaseKey(b)(k))
    ensures !OpenedBefore(b, k, j)
  {
  }

  lemma InItsPlace(b: Books, r: Id, m: nat, i: nat)
    requires m < |CaseOrder(b, r)| && i < |CaseOrder(b, r)|
    ensures CaseOrder(b, r)[m] < |b.cases| && CaseOrder(b, r)[i] < |b.cases|
    ensures i <= m ==> !OpenedBefore(b, CaseOrder(b, r)[m], CaseOrder(b, r)[i])
    ensures i > m ==>
      CaseOrder(b, r)[i] != CaseOrder(b, r)[m] && !OpenedBefore(b, CaseOrder(b, r)[i], CaseOrder(b, r)[m])
  {
    hide CaseOrder, OpenedBefore, CaseKey;
    var sorted: seq<Id> := CaseOrder(b, r);
    CaseOrderHolds(b, r);
    assert sorted[m] in sorted && sorted[i] in sorted;
    if i <= m {
      KeysInOrder<Id>(sorted, CaseKey(b), i, m);
      KeyOrder(b, sorted[i], sorted[m]);
    } else {
      KeysInOrder<Id>(sorted, CaseKey(b), m, i);
      KeyOrder(b, sorted[m], sorted[i]);
      CaseOrderDistinct(b, r, m, i);
    }
  }

  lemma FirstBetween(b: Books, r: Id, m: nat)
    requires CasesOk(b) && m < |CaseOrder(b, r)| && CaseOrder(b, r)[m] < |b.cases|
    ensures var sorted: seq<Id> := CaseOrder(b, r);
      && Sum(sorted[..m + 1], AmountBefore(b, sorted[m])) <= Sum(sorted[..m + 1], CaseAmount(b))
      && Sum(sorted[..m + 1], CaseAmount(b)) <= Sum(sorted[..m + 1], AmountNotAfter(b, sorted[m]))
      && Sum(sorted[m + 1..], AmountBefore(b, sorted[m])) == 0
      && Sum(sorted[m + 1..], AmountNotAfter(b, sorted[m])) >= 0
  {
    var sorted: seq<Id> := CaseOrder(b, r);
    var k := sorted[m];
    CaseOrderHolds(b, r);
    forall i | 0 <= i < |sorted| ensures sorted[i] < |b.cases| && b.cases[sorted[i]].amount > 0 {
      assert sorted[i] in sorted;
      assert CaseOk(b, b.cases[sorted[i]]);
    }
    forall i | 0 <= i < |sorted|
      ensures i <= m ==> !OpenedBefore(b, k, sorted[i])
      ensures i > m ==> sorted[i] != k && !OpenedBefore(b, sorted[i], k)
    {
      InItsPlace(b, r, m, i);
    }
    hide OpenedBefore, CaseOrder;
    SumAtMost<Id>(sorted[..m + 1], AmountBefore(b, k), CaseAmount(b));
    SumAtMost<Id>(sorted[..m + 1], CaseAmount(b), AmountNotAfter(b, k));
    SumZero<Id>(sorted[m + 1..], AmountBefore(b, k));
    SumNonNegative<Id>(sorted[m + 1..], AmountNotAfter(b, k));
  }

  /** A give-back closes a case about its reversal where it, and all about the reversal not opened after it, come to
      no more than all give-backs of the reversal covered, this one included; and closes no other, but where it
      and those opened before it do. Between cases of different moments or ids the two are one condition. */
  lemma ClosesTheCovered(b: Books, r: Id, amount: nat, at: int, k: Id)
    requires Sound(b) && r < |b.reversals| && amount <= b.reversals[r].amount - b.reversals[r].reinstated
    requires k < |b.cases|
    ensures b.reversals[r].payment < |b.payments|
    ensures var b' := Reinstate(b, r, amount, at);
      var now := Min(amount, Sum(b.cases, CaseAbout(ByReversal(r))) - b.reversals[r].reinstatedToCases);
      var covered := b.reversals[r].reinstatedToCases + now;
      && |b'.cases| == |b.cases| && b'.cases[k] == b.cases[k].(closed := b'.cases[k].closed)
      && (b.cases[k].closed ==> b'.cases[k].closed)
      && (b.cases[k].about != ByReversal(r) ==> b'.cases[k] == b.cases[k])
      && (b.cases[k].about == ByReversal(r) && WithoutThoseAfter(b, r, k, |b.cases|) <= covered
          ==> b'.cases[k].closed)
      && (b'.cases[k].closed && !b.cases[k].closed ==> WithThoseBefore(b, r, k, |b.cases|) <= covered)
  {
    hide Sound, ReinstatementNow, Reinstate, WithThoseBefore, WithoutThoseAfter, RowsOk, Midway, CasesOf;
    SoundIs(b);
    PaymentsOwnChain(b, r);
    hide Conserved, Balanced, InRanges, FromCreditsOk, RefundsLive, RefundEntriesUnique, RefsUnique, CreditsOk;
    GiveBackParts(b, r, amount);
    var g := ReinstatementNow(b, r, amount);
    ReinstateCases(b, r, amount, at);
    CloseCasesKeeps(b, ByReversal(r), CoveredNow(b, r, amount));
    if b.cases[k].about == ByReversal(r) {
      MidwayCases(b, []);
      ClosedIff(b, r, b.reversals[r].reinstatedToCases + g.covered, k);
    }
  }

  lemma ReinstateCases(b: Books, r: Id, amount: nat, at: int)
    requires r < |b.reversals| && b.reversals[r].payment < |b.payments|
    ensures Reinstate(b, r, amount, at).cases == CloseCases(b, ByReversal(r), CoveredNow(b, r, amount)).cases
  {
    hide ReinstatementNow, CoveredNow, CloseCases, GiveBack;
    var g := ReinstatementNow(b, r, amount);
    var closed := CloseCases(b, ByReversal(r), CoveredNow(b, r, amount));
    CloseCasesKeeps(b, ByReversal(r), CoveredNow(b, r, amount));
    GiveBackFrame(closed, r, b.reversals[r].payment, g.credits, g.invoices, g.credited, at);
  }

  lemma ClosedIff(b: Books, r: Id, covered: int, k: Id)
    requires CasesOk(b) && k < |b.cases| && b.cases[k].about == ByReversal(r)
    ensures var ids := CasesCovered(CasesOf(b, ByReversal(r)), covered).ids;
      && (WithoutThoseAfter(b, r, k, |b.cases|) <= covered ==> k in ids)
      && (k in ids ==> WithThoseBefore(b, r, k, |b.cases|) <= covered)
  {
    hide WithThoseBefore, WithoutThoseAfter, CaseOrder, CasesOf, CasesOk, CasesCovered, CaseParts;
    var sorted: seq<Id> := CaseOrder(b, r);
    var cases := CasesOf(b, ByReversal(r));
    CaseOrderHolds(b, r);
    var m :| 0 <= m < |sorted| && sorted[m] == k;
    CasesInOrder(b, r, m);
    CoveredInFull(cases, covered, m);
    RunningBetween(b, r, m);
  }

  lemma CasesInOrder(b: Books, r: Id, m: nat)
    requires m < |CaseOrder(b, r)|
    ensures var cases := CasesOf(b, ByReversal(r));
      && Distinct(cases) && m < |cases| && cases[m].id == CaseOrder(b, r)[m]
      && Total(cases[..m + 1]) == Sum(CaseOrder(b, r)[..m + 1], CaseAmount(b))
  {
    hide CaseAmount;
    var sorted: seq<Id> := CaseOrder(b, r);
    var cases := CasesOf(b, ByReversal(r));
    CasePartsAt(b, sorted, m + 1);
    CasePartsTotal(b, sorted[..m + 1]);
    forall i, j | 0 <= i < j < |cases| ensures cases[i].id != cases[j].id {
      CaseOrderDistinct(b, r, i, j);
    }
  }
}
