/** A give-back and what it is divided over: a reversal's cases, the credits it holds parts of, and the
    invoices it left open, each taken for where its chain now stands. */
module Reinstatements {
  import opened Sums
  import opened PaymentRules
  import opened InvoiceChain
  import opened Books
  import opened Soundness
  import opened ReversalFrame
  import opened Brought
  import opened Withdrawals

  // ---- the cases -------------------------------------------------------------------------

  function CaseKey(b: Books): Id -> Key {
    (k: Id) => if k < |b.cases| then (b.cases[k].at, b.cases[k].rank) else (0, 0)
  }

  function CasesAbout(b: Books, about: Source): Id -> bool {
    (k: Id) => k < |b.cases| && b.cases[k].about == about
  }

  function CaseParts(b: Books, ids: seq<Id>): seq<Part> {
    if ids == [] then []
    else
      var k := ids[|ids| - 1];
      CaseParts(b, ids[..|ids| - 1]) + [Part(k, if k < |b.cases| then b.cases[k].amount else 0)]
  }

  /** The cases about `about`, in the order they were opened. */
  function CasesOf(b: Books, about: Source): seq<Part> {
    CaseParts(b, Sort(Indices(|b.cases|, CasesAbout(b, about)), CaseKey(b)))
  }

  function CaseAmount(b: Books): Id -> int {
    (k: Id) => if k < |b.cases| then b.cases[k].amount else 0
  }

  lemma {:induction false} CasePartsTotal(b: Books, ids: seq<Id>)
    ensures Total(CaseParts(b, ids)) == Sum(ids, CaseAmount(b))
  {
    if ids != [] {
      var n := |ids| - 1;
      CasePartsTotal(b, ids[..n]);
      SumAppend(CaseParts(b, ids[..n]), Part(ids[n], CaseAmount(b)(ids[n])));
    }
  }

  lemma {:induction false} CaseIndicesTotal(b: Books, about: Source, n: nat)
    requires n <= |b.cases|
    ensures Sum(Indices(n, CasesAbout(b, about)), CaseAmount(b)) == Sum(b.cases[..n], CaseAbout(about))
  {
    if n > 0 {
      CaseIndicesTotal(b, about, n - 1);
      assert b.cases[..n][..n - 1] == b.cases[..n - 1];
      SumAppend(Indices(n - 1, CasesAbout(b, about)), n - 1);
    }
  }

  lemma CasesTotal(b: Books, about: Source)
    ensures Total(CasesOf(b, about)) == Sum(b.cases, CaseAbout(about))
  {
    var ids := Indices(|b.cases|, CasesAbout(b, about));
    CasePartsTotal(b, Sort(ids, CaseKey(b)));
    SortSum(ids, CaseKey(b), CaseAmount(b));
    CaseIndicesTotal(b, about, |b.cases|);
    assert b.cases[..|b.cases|] == b.cases;
  }

  /** The open cases about `about` that `picked` names are closed, once. */
  function CloseCases(b: Books, about: Source, picked: Id -> bool): Books {
    b.(cases := seq(|b.cases|, (k: nat) requires k < |b.cases| =>
         if b.cases[k].about == about && picked(k) then b.cases[k].(closed := true) else b.cases[k]))
  }

  function AmongOnly(ids: seq<Id>): Id -> bool {
    (k: Id) => k in ids
  }

  // ---- the credits it took ---------------------------------------------------------------

  /** What the entries of `source` paid out of each credit, in order. */
  function PaidParts(rows: seq<Entry>, source: Source): seq<Part> {
    if rows == [] then []
    else
      var n := |rows| - 1;
      var before := PaidParts(rows[..n], source);
      if rows[n].source == source then before + [Part(rows[n].credit, PaidOutBy(rows[n]))] else before
  }

  lemma {:induction false} PaidPartsSums(rows: seq<Entry>, source: Source, c: Id)
    ensures On(PaidParts(rows, source), c) == Sum(rows, OnCreditBy(c, source))
    ensures Total(PaidParts(rows, source)) == Sum(rows, EntryBy(source))
  {
    if rows != [] {
      var n := |rows| - 1;
      PaidPartsSums(rows[..n], source, c);
      SumAppend(PaidParts(rows[..n], source), Part(rows[n].credit, PaidOutBy(rows[n])));
    }
  }

  /** The reversal's net entries, credit by credit. */
  function TookOf(b: Books, r: Id): seq<Part> {
    Gathered(PaidParts(Sort(b.entries, EntryKey()), ByReversal(r)))
  }

  lemma TookOfSums(b: Books, r: Id, c: Id)
    ensures Distinct(TookOf(b, r))
    ensures On(TookOf(b, r), c) == Took(b, c, ByReversal(r))
    ensures Total(TookOf(b, r)) == Sum(b.entries, EntryBy(ByReversal(r)))
  {
    var rows := Sort(b.entries, EntryKey());
    PaidPartsSums(rows, ByReversal(r), c);
    SortSum(b.entries, EntryKey(), OnCreditBy(c, ByReversal(r)));
    SortSum(b.entries, EntryKey(), EntryBy(ByReversal(r)));
    GatheredKeeps(PaidParts(rows, ByReversal(r)));
  }

  /** Whether payment `p` left the credit a part is of. */
  function IsOwn(b: Books, p: Id): Part -> bool {
    (x: Part) => LeftByWhom(b, p)(x.id)
  }

  lemma OwnUnder(b: Books, p: Id, parts: seq<Part>, c: Id)
    ensures Sum(Picked(parts, IsOwn(b, p)), OfferedUnder(c))
         == if LeftByWhom(b, p)(c) then Sum(parts, OfferedUnder(c)) else 0
  {
    var g := (x: Part) => if IsOwn(b, p)(x) then OfferedUnder(c)(x) else 0;
    PickedSumOf(parts, IsOwn(b, p), OfferedUnder(c), g);
    if LeftByWhom(b, p)(c) {
      SumSame(parts, g, OfferedUnder(c));
    } else {
      SumZero(parts, g);
    }
  }

  function PartKey(b: Books): Part -> Key {
    (x: Part) => CreditKey(b)(x.id)
  }

  /** The credits payment `p` left first, then the others, the oldest of each first. */
  function OwnFirst(b: Books, p: Id, parts: seq<Part>): seq<Part> {
    Sort(Picked(parts, IsOwn(b, p)), PartKey(b)) + Sort(Unpicked(parts, IsOwn(b, p)), PartKey(b))
  }

  lemma OwnFirstSum(b: Books, p: Id, parts: seq<Part>, f: Part -> int)
    ensures Sum(OwnFirst(b, p, parts), f) == Sum(parts, f)
  {
    var own := Picked(parts, IsOwn(b, p));
    var other := Unpicked(parts, IsOwn(b, p));
    SumConcat(Sort(own, PartKey(b)), Sort(other, PartKey(b)), f);
    SortSum(own, PartKey(b), f);
    SortSum(other, PartKey(b), f);
    PickedSum(parts, IsOwn(b, p), f);
  }

  predicate OwnPart(b: Books, p: Id, x: Part) {
    && x.id < |b.credits| && (b.credits[x.id].origin.FromPayment? || b.credits[x.id].origin.FromCancellation?)
    && b.credits[x.id].origin.payment == p
  }

  /** Whether `x` may stand before `y`: a credit payment `p` left before any other, and of either kind one that was
      not created later, nor at the same moment under a higher id. */
  predicate MayPrecede(b: Books, p: Id, x: Part, y: Part) {
    x.id < |b.credits| && y.id < |b.credits| ==>
      if OwnPart(b, p, x) != OwnPart(b, p, y) then OwnPart(b, p, x)
      else
        || b.credits[x.id].at < b.credits[y.id].at
        || (b.credits[x.id].at == b.credits[y.id].at && b.credits[x.id].rank <= b.credits[y.id].rank)
  }

  lemma KeyPrecedes(b: Books, p: Id, x: Part, y: Part)
    requires if IsOwn(b, p)(x) == IsOwn(b, p)(y) then NotAfter(PartKey(b)(x), PartKey(b)(y)) else IsOwn(b, p)(x)
    ensures MayPrecede(b, p, x, y)
  {
    assert PartKey(b)(x) == CreditKey(b)(x.id) && PartKey(b)(y) == CreditKey(b)(y.id);
    assert IsOwn(b, p)(x) == LeftByWhom(b, p)(x.id) && IsOwn(b, p)(y) == LeftByWhom(b, p)(y.id);
  }

  lemma OwnFirstOrdered(b: Books, p: Id, parts: seq<Part>)
    ensures var s := OwnFirst(b, p, parts);
      forall i, j :: 0 <= i < j < |s| ==> MayPrecede(b, p, s[i], s[j])
  {
    hide MayPrecede;
    var picks := IsOwn(b, p);
    var own, other := Picked(parts, picks), Unpicked(parts, picks);
    PickedHolds(parts, picks);
    SortOrders(own, PartKey(b));
    SortOrders(other, PartKey(b));
    var s := OwnFirst(b, p, parts);
    var n := |Sort(own, PartKey(b))|;
    forall i | 0 <= i < |s| ensures picks(s[i]) <==> i < n {
      assert i < n ==> s[i] in Sort(own, PartKey(b));
      assert i >= n ==> s[i] in Sort(other, PartKey(b));
    }
    forall i, j | 0 <= i < j < |s| ensures MayPrecede(b, p, s[i], s[j]) {
      KeyPrecedes(b, p, s[i], s[j]);
    }
  }

  // ---- the invoices it opened ------------------------------------------------------------

  /** Where the chain of `i` stands, `i` itself if nowhere. */
  ghost function StandsFor(b: Books, i: Id): Id {
    if StandingOf(b, i).Some? then StandingOf(b, i).value else i
  }

  ghost function Restood(b: Books, nets: seq<Part>): seq<Part> {
    if nets == [] then []
    else
      var n := |nets| - 1;
      Restood(b, nets[..n]) + [Part(StandsFor(b, nets[n].id), -nets[n].amount)]
  }

  lemma {:induction false} RestoodTotal(b: Books, nets: seq<Part>)
    ensures Total(Restood(b, nets)) == -Total(nets)
  {
    if nets != [] {
      var n := |nets| - 1;
      RestoodTotal(b, nets[..n]);
      SumAppend(Restood(b, nets[..n]), Part(StandsFor(b, nets[n].id), -nets[n].amount));
    }
  }

  lemma {:induction false} RestoodNames(b: Books, nets: seq<Part>, i: Id)
    requires Names(Restood(b, nets), i)
    ensures exists j: Id :: Names(nets, j) && i == StandsFor(b, j)
  {
    var n := |nets| - 1;
    var before := Restood(b, nets[..n]);
    var k :| 0 <= k < |Restood(b, nets)| && Restood(b, nets)[k].id == i;
    if k < |before| {
      assert before[k].id == i;
      RestoodNames(b, nets[..n], i);
      var j: Id :| Names(nets[..n], j) && i == StandsFor(b, j);
      var l :| 0 <= l < n && nets[..n][l].id == j;
      assert nets[l].id == j;
    } else {
      assert Names(nets, nets[n].id);
    }
  }

  /** The reversal's net openings, gathered under the invoices that stand for them. */
  ghost function ReopenedParts(b: Books, r: Id): seq<Part> {
    Gathered(Restood(b, NetsOf(b, IsOfReversal(r))))
  }

  function Negative(): Part -> int {
    (x: Part) => -x.amount
  }

  lemma {:induction false} NegativeTotal(parts: seq<Part>)
    ensures Sum(parts, Negative()) == -Total(parts)
  {
    if parts != [] {
      NegativeTotal(parts[..|parts| - 1]);
    }
  }

  lemma ReopenedPartsTotal(b: Books, r: Id)
    ensures Distinct(ReopenedParts(b, r))
    ensures Total(ReopenedParts(b, r)) == Sum(b.settlements, ReopenedBy(r))
  {
    var rows := Sort(b.settlements, SettlementKey());
    var signed := SignedParts(rows, IsOfReversal(r));
    var nets := NetsOf(b, IsOfReversal(r));
    SignedPartsSum(rows, IsOfReversal(r), Negative(), ReopenedBy(r));
    SortSum(b.settlements, SettlementKey(), ReopenedBy(r));
    NegativeTotal(signed);
    GatheredKeeps(signed);
    RestoodTotal(b, nets);
    GatheredKeeps(Restood(b, nets));
  }

  lemma StandsInChain(b: Books, i: Id)
    requires i in b.invoices
    ensures SameChain(b.invoices, StandsFor(b, i), i)
    ensures b.invoices[StandsFor(b, i)].step % 2 == b.invoices[i].step % 2
  {
    if StepsUp(b.invoices, b.cancellations) {
      StandingStaysInChain(b.invoices, b.cancellations, i);
    }
  }

  lemma ReopenedFrom(b: Books, r: Id, i: Id) returns (j: Id)
    requires Names(ReopenedParts(b, r), i)
    ensures SettledUnder(b.settlements, IsOfReversal(r), j) && i == StandsFor(b, j)
  {
    hide NetsOf, StandsFor;
    var nets := NetsOf(b, IsOfReversal(r));
    GatheredKeeps(Restood(b, nets));
    RestoodNames(b, nets, i);
    j :| Names(nets, j) && i == StandsFor(b, j);
    NetsNames(b, IsOfReversal(r), j);
  }

  /** Each stands in the chain of the reversal's payment. */
  lemma ReopenedInChain(b: Books, r: Id, i: Id)
    requires SettlementsOk(b) && r < |b.reversals| && Names(ReopenedParts(b, r), i)
    ensures MaySettle(b, b.reversals[r].payment, i)
  {
    var j := ReopenedFrom(b, r, i);
    var k :| 0 <= k < |b.settlements| && IsOfReversal(r)(b.settlements[k]) && b.settlements[k].invoice == j;
    assert SettlementOk(b, b.settlements[k]);
    StandsInChain(b, j);
  }

  function WithOwed(b: Books, parts: seq<Part>): seq<Reopened> {
    if parts == [] then []
    else
      var n := |parts| - 1;
      WithOwed(b, parts[..n]) + [Reopened(parts[n].id, parts[n].amount, OwedAt(b, parts[n].id))]
  }

  lemma {:induction false} WithOwedLeft(b: Books, parts: seq<Part>)
    ensures Sum(WithOwed(b, parts), ReopenedLeft()) == Sum(parts, Offered())
  {
    if parts != [] {
      var n := |parts| - 1;
      WithOwedLeft(b, parts[..n]);
      SumAppend(WithOwed(b, parts[..n]), Reopened(parts[n].id, parts[n].amount, OwedAt(b, parts[n].id)));
    }
  }

  lemma {:induction false} WithOwedUnder(b: Books, parts: seq<Part>, i: Id)
    requires Distinct(parts)
    ensures Sum(WithOwed(b, parts), OwedUnder(i)) == if Names(parts, i) then Max(0, OwedAt(b, i)) else 0
  {
    if parts != [] {
      var n := |parts| - 1;
      hide OwedAt;
      WithOwedUnder(b, parts[..n], i);
      SumAppend(WithOwed(b, parts[..n]), Reopened(parts[n].id, parts[n].amount, OwedAt(b, parts[n].id)));
      NamesLast(parts, i);
    }
  }

  // ---- the give-back ---------------------------------------------------------------------

  /** What `amount`, newly given back for reversal `r`, divides into as everything stands now. */
  ghost function ReinstatementNow(b: Books, r: Id, amount: nat): Reinstatement
    requires r < |b.reversals|
  {
    ReinstatementOf(amount,
                    Total(CasesOf(b, ByReversal(r))) - b.reversals[r].reinstatedToCases,
                    OwnFirst(b, b.reversals[r].payment, TookOf(b, r)),
                    WithOwed(b, ReopenedParts(b, r)))
  }

  /** The cases a give-back covers in full, counting what earlier ones covered. */
  ghost function CoveredNow(b: Books, r: Id, amount: nat): Id -> bool
    requires r < |b.reversals|
  {
    AmongOnly(CasesCovered(CasesOf(b, ByReversal(r)),
                           b.reversals[r].reinstatedToCases + ReinstatementNow(b, r, amount).covered).ids)
  }

  /** The three writes of a give-back after its cases are closed. */
  function GiveBack(b: Books, r: Id, p: Id, credits: seq<Part>, invoices: seq<Part>, credited: int, at: int): Books
    requires p < |b.payments|
  {
    var given := WriteSettlements(WriteEntries(b, credits, TakenBack, ByReversal(r), at),
                                  invoices, p, Reinstated, Some(r), at);
    if credited > 0
    then AddCredit(given, b.payments[p].subscriber, b.payments[p].currency, credited, FromReversal(r), at)
    else given
  }

  /** A give-back of `amount` as one change of the books. */
  ghost function Reinstate(b: Books, r: Id, amount: nat, at: int): Books
    requires r < |b.reversals| && b.reversals[r].payment < |b.payments|
  {
    var g := ReinstatementNow(b, r, amount);
    GiveBack(CloseCases(b, ByReversal(r), CoveredNow(b, r, amount)), r, b.reversals[r].payment,
             g.credits, g.invoices, g.credited, at)
  }
}
