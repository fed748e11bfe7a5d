/** What a reversal reads before it takes anything: the credits of its payment, its net on each invoice,
    the open credits of the chain's other payments, and which covers its own credits are holding up for
    reversals of those. */
module Brought {
  import opened Sums
  import opened PaymentRules
  import opened InvoiceChain
  import opened Books
  import opened Soundness

  // ---- the ids a query lists -------------------------------------------------------------

  /** The ids below `n` the condition picks. */
  function Indices(n: nat, picks: Id -> bool): seq<Id> {
    if n == 0 then []
    else if picks(n - 1) then Indices(n - 1, picks) + [n - 1]
    else Indices(n - 1, picks)
  }

  lemma {:induction false} IndicesSum(n: nat, picks: Id -> bool, c: Id, f: Id -> int)
    requires forall x :: x != c ==> f(x) == 0
    ensures Sum(Indices(n, picks), f) == if c < n && picks(c) then f(c) else 0
  {
    if n > 0 {
      IndicesSum(n - 1, picks, c, f);
      SumAppend(Indices(n - 1, picks), n - 1);
    }
  }

  lemma {:induction false} IndicesHold(n: nat, picks: Id -> bool)
    ensures forall c: Id :: c in Indices(n, picks) <==> c < n && picks(c)
  {
    if n > 0 {
      IndicesHold(n - 1, picks);
    }
  }

  function Is(c: Id): Id -> int {
    (x: Id) => if x == c then 1 else 0
  }

  /** Credits in the order they were created, ids deciding between those of one moment. */
  function CreditKey(b: Books): Id -> Key {
    (c: Id) => if c < |b.credits| then (b.credits[c].at, b.credits[c].rank) else (0, 0)
  }

  function CreditsWhere(b: Books, picks: Id -> bool): seq<Id> {
    Sort(Indices(|b.credits|, picks), CreditKey(b))
  }

  /** Each credit the condition picks is listed once. */
  lemma CreditsWhereSum(b: Books, picks: Id -> bool, c: Id, f: Id -> int)
    requires forall x :: x != c ==> f(x) == 0
    ensures Sum(CreditsWhere(b, picks), f) == if c < |b.credits| && picks(c) then f(c) else 0
  {
    SortSum(Indices(|b.credits|, picks), CreditKey(b), f);
    IndicesSum(|b.credits|, picks, c, f);
  }

  lemma CreditsWhereHold(b: Books, picks: Id -> bool)
    ensures forall c: Id :: c in CreditsWhere(b, picks) <==> c < |b.credits| && picks(c)
  {
    SortOrders(Indices(|b.credits|, picks), CreditKey(b));
    IndicesHold(|b.credits|, picks);
  }

  lemma CreditsWhereDistinct(b: Books, picks: Id -> bool, i: nat, j: nat)
    requires i < j < |CreditsWhere(b, picks)|
    ensures CreditsWhere(b, picks)[i] != CreditsWhere(b, picks)[j]
  {
    var ids := CreditsWhere(b, picks);
    if ids[i] == ids[j] {
      SumTwo(ids, Is(ids[i]), i, j);
      CreditsWhereSum(b, picks, ids[i], Is(ids[i]));
    }
  }

  // ---- the credits the payment left ------------------------------------------------------

  function LeftByWhom(b: Books, p: Id): Id -> bool {
    (c: Id) => c < |b.credits| && LeftByPayment(b.credits[c].origin, p)
  }

  function AmountOf(b: Books): Id -> int {
    (c: Id) => if c < |b.credits| then b.credits[c].amount else 0
  }

  /** What credit `c` still owes as it is read: never below nothing. */
  function ReadOpen(b: Books, c: Id): nat {
    if c < |b.credits| then OpenOf(b.credits[c].amount, PaidOut(b, c)) else 0
  }

  function OpenAt(b: Books, c: Id): Id -> int {
    (x: Id) => if x == c then ReadOpen(b, c) else 0
  }

  datatype Counting = Counting(own: seq<Reversible>, taken: nat)

  /** Counts `taken` off the credits listed, first to last, to see what of each is left to take. */
  function CountingOf(b: Books, ids: seq<Id>, taken: nat): Counting {
    if ids == [] then Counting([], taken)
    else
      var n := |ids| - 1;
      var before := CountingOf(b, ids[..n], taken);
      var amount := AmountOf(b)(ids[n]);
      var takenHere := Max(0, Min(amount, before.taken));
      Counting(before.own + [Reversible(ids[n], amount - takenHere, ReadOpen(b, ids[n]))],
               before.taken - takenHere)
  }

  function TakenFromCredits(b: Books, p: Id): int {
    Sum(b.reversals, FromCreditOf(p))
  }

  function Own(b: Books, p: Id): seq<Reversible> {
    CountingOf(b, CreditsWhere(b, LeftByWhom(b, p)), Max(0, TakenFromCredits(b, p))).own
  }

  lemma {:induction false} CountingIds(b: Books, ids: seq<Id>, taken: nat)
    ensures var own := CountingOf(b, ids, taken).own;
      |own| == |ids| && forall i :: 0 <= i < |ids| ==> own[i].id == ids[i]
  {
    if ids != [] {
      CountingIds(b, ids[..|ids| - 1], taken);
    }
  }

  lemma {:induction false} CountingOpen(b: Books, ids: seq<Id>, taken: nat, c: Id)
    ensures Sum(CountingOf(b, ids, taken).own, OpenUnder(c)) == Sum(ids, OpenAt(b, c))
  {
    if ids != [] {
      var n := |ids| - 1;
      CountingOpen(b, ids[..n], taken, c);
      var before := CountingOf(b, ids[..n], taken);
      var amount := AmountOf(b)(ids[n]);
      var takenHere := Max(0, Min(amount, before.taken));
      SumAppend(before.own, Reversible(ids[n], amount - takenHere, ReadOpen(b, ids[n])));
    }
  }

  lemma {:induction false} CountingTaken(b: Books, ids: seq<Id>, taken: nat)
    requires forall i :: 0 <= i < |ids| ==> AmountOf(b)(ids[i]) >= 0
    ensures 0 <= Sum(ids, AmountOf(b))
    ensures CountingOf(b, ids, taken).taken == Max(0, taken - Sum(ids, AmountOf(b)))
  {
    if ids != [] {
      CountingTaken(b, ids[..|ids| - 1], taken);
    }
  }

  lemma {:induction false} CountingLeft(b: Books, ids: seq<Id>, taken: nat)
    requires forall i :: 0 <= i < |ids| ==> AmountOf(b)(ids[i]) >= 0
    ensures Sum(CountingOf(b, ids, taken).own, LeftOf())
         == Sum(ids, AmountOf(b)) - (taken - CountingOf(b, ids, taken).taken)
  {
    if ids != [] {
      var n := |ids| - 1;
      CountingLeft(b, ids[..n], taken);
      var before := CountingOf(b, ids[..n], taken);
      var takenHere := Max(0, Min(AmountOf(b)(ids[n]), before.taken));
      SumAppend(before.own, Reversible(ids[n], AmountOf(b)(ids[n]) - takenHere, ReadOpen(b, ids[n])));
    }
  }

  /** Of its own credits a withdrawal reads each once, open by what the credit owes. */
  lemma OwnOpen(b: Books, p: Id, c: Id)
    ensures Sum(Own(b, p), OpenUnder(c)) == if LeftByWhom(b, p)(c) then ReadOpen(b, c) else 0
  {
    var ids := CreditsWhere(b, LeftByWhom(b, p));
    CountingOpen(b, ids, Max(0, TakenFromCredits(b, p)), c);
    CreditsWhereSum(b, LeftByWhom(b, p), c, OpenAt(b, c));
  }

  lemma OwnNames(b: Books, p: Id)
    ensures DistinctOwn(Own(b, p))
    ensures forall c :: NamesOwn(Own(b, p), c) <==> LeftByWhom(b, p)(c)
  {
    var ids := CreditsWhere(b, LeftByWhom(b, p));
    var own := Own(b, p);
    CountingIds(b, ids, Max(0, TakenFromCredits(b, p)));
    CreditsWhereHold(b, LeftByWhom(b, p));
    forall i, j | 0 <= i < j < |own| ensures own[i].id != own[j].id {
      CreditsWhereDistinct(b, LeftByWhom(b, p), i, j);
    }
    forall c: Id ensures NamesOwn(own, c) <==> LeftByWhom(b, p)(c) {
      if c in ids {
        var i :| 0 <= i < |ids| && ids[i] == c;
        assert own[i].id == c;
      }
    }
  }

  lemma {:induction false} IndicesAmount(b: Books, p: Id, n: nat)
    requires n <= |b.credits|
    ensures Sum(Indices(n, LeftByWhom(b, p)), AmountOf(b)) == Sum(b.credits[..n], LeftFrom(p))
  {
    if n > 0 {
      IndicesAmount(b, p, n - 1);
      assert b.credits[..n][..n - 1] == b.credits[..n - 1];
      SumAppend(Indices(n - 1, LeftByWhom(b, p)), n - 1);
    }
  }

  /** Of its own credits a withdrawal may take what the payment left less what its reversals took. */
  lemma OwnLeft(b: Books, p: Id)
    requires CreditsOk(b)
    ensures Sum(Own(b, p), LeftOf()) == Max(0, Sum(b.credits, LeftFrom(p)) - Max(0, TakenFromCredits(b, p)))
  {
    var ids := CreditsWhere(b, LeftByWhom(b, p));
    CreditsWhereHold(b, LeftByWhom(b, p));
    forall i | 0 <= i < |ids| ensures AmountOf(b)(ids[i]) >= 0 {
      assert ids[i] in ids;
      assert CreditOk(b, b.credits[ids[i]]);
    }
    CountingTaken(b, ids, Max(0, TakenFromCredits(b, p)));
    CountingLeft(b, ids, Max(0, TakenFromCredits(b, p)));
    SortSum(Indices(|b.credits|, LeftByWhom(b, p)), CreditKey(b), AmountOf(b));
    IndicesAmount(b, p, |b.credits|);
    assert b.credits[..|b.credits|] == b.credits;
  }

  // ---- the invoices it settles -----------------------------------------------------------

  function SettlementKey(): Settlement -> Key {
    (s: Settlement) => (s.at, s.rank)
  }

  /** The settlements a condition picks, as what each takes off its invoice, in order. */
  function SignedParts(rows: seq<Settlement>, picks: Settlement -> bool): seq<Part> {
    if rows == [] then []
    else
      var n := |rows| - 1;
      var before := SignedParts(rows[..n], picks);
      if picks(rows[n]) then before + [Part(rows[n].invoice, Signed(rows[n]))] else before
  }

  function IsOfPayment(p: Id): Settlement -> bool {
    (s: Settlement) => s.payment == p
  }

  function IsOfReversal(r: Id): Settlement -> bool {
    (s: Settlement) => s.reversal == Some(r)
  }

  lemma {:induction false} SignedPartsSum(
    rows: seq<Settlement>, picks: Settlement -> bool, g: Part -> int, f: Settlement -> int)
    requires forall s: Settlement :: f(s) == if picks(s) then g(Part(s.invoice, Signed(s))) else 0
    ensures Sum(SignedParts(rows, picks), g) == Sum(rows, f)
  {
    if rows != [] {
      var n := |rows| - 1;
      SignedPartsSum(rows[..n], picks, g, f);
      SumAppend(SignedParts(rows[..n], picks), Part(rows[n].invoice, Signed(rows[n])));
    }
  }

  /** Whether a settlement the condition picks stands on invoice `i`. */
  predicate SettledUnder(rows: seq<Settlement>, picks: Settlement -> bool, i: Id) {
    exists k :: 0 <= k < |rows| && picks(rows[k]) && rows[k].invoice == i
  }

  lemma {:induction false} SignedPartsNames(rows: seq<Settlement>, picks: Settlement -> bool, k: nat)
    requires k < |SignedParts(rows, picks)|
    ensures SettledUnder(rows, picks, SignedParts(rows, picks)[k].id)
  {
    var n := |rows| - 1;
    var before := SignedParts(rows[..n], picks);
    if k < |before| {
      SignedPartsNames(rows[..n], picks, k);
      var j :| 0 <= j < n && picks(rows[..n][j]) && rows[..n][j].invoice == before[k].id;
      assert picks(rows[j]) && rows[j].invoice == SignedParts(rows, picks)[k].id;
    } else {
      assert picks(rows[n]) && rows[n].invoice == SignedParts(rows, picks)[k].id;
    }
  }

  /** The settlements a condition picks, netted under each invoice. */
  function NetsOf(b: Books, picks: Settlement -> bool): seq<Part> {
    Gathered(SignedParts(Sort(b.settlements, SettlementKey()), picks))
  }

  function InvoicesOf(b: Books, p: Id): seq<Part> {
    NetsOf(b, IsOfPayment(p))
  }

  lemma InvoicesOn(b: Books, p: Id, i: Id)
    ensures On(InvoicesOf(b, p), i) == Net(b, p, i)
    ensures Sum(InvoicesOf(b, p), OfferedUnder(i)) == Max(0, Net(b, p, i))
  {
    var rows := Sort(b.settlements, SettlementKey());
    var parts := SignedParts(rows, IsOfPayment(p));
    SignedPartsSum(rows, IsOfPayment(p), Under(i), OfPaymentOn(p, i));
    SortSum(b.settlements, SettlementKey(), OfPaymentOn(p, i));
    GatheredKeeps(parts);
    DistinctOffered(Gathered(parts), i);
  }

  /** Every invoice a condition's settlements come to something on has such a settlement. */
  lemma NetsNames(b: Books, picks: Settlement -> bool, i: Id)
    requires Names(NetsOf(b, picks), i)
    ensures SettledUnder(b.settlements, picks, i)
  {
    var rows := Sort(b.settlements, SettlementKey());
    var parts := SignedParts(rows, picks);
    GatheredKeeps(parts);
    var k :| 0 <= k < |parts| && parts[k].id == i;
    SignedPartsNames(rows, picks, k);
    SortKeepsPicked(b.settlements, picks, i);
  }

  lemma SortKeepsPicked(rows: seq<Settlement>, picks: Settlement -> bool, i: Id)
    requires SettledUnder(Sort(rows, SettlementKey()), picks, i)
    ensures SettledUnder(rows, picks, i)
  {
    var sorted := Sort(rows, SettlementKey());
    var j :| 0 <= j < |sorted| && picks(sorted[j]) && sorted[j].invoice == i;
    SortOrders(rows, SettlementKey());
    assert sorted[j] in rows;
  }

  /** A payment settles invoices of its own chain only. */
  lemma InvoicesInChain(b: Books, p: Id, i: Id)
    requires SettlementsOk(b) && Names(InvoicesOf(b, p), i)
    ensures MaySettle(b, p, i)
  {
    NetsNames(b, IsOfPayment(p), i);
    var j :| 0 <= j < |b.settlements| && IsOfPayment(p)(b.settlements[j]) && b.settlements[j].invoice == i;
    assert SettlementOk(b, b.settlements[j]);
  }

  // ---- the credits that cover them -------------------------------------------------------

  /** Whether another payment collected for an invoice of a chain of `invoices` left credit `c`. */
  predicate IsCovering(b: Books, p: Id, invoices: seq<Part>, c: Id) {
    && c < |b.credits|
    && ByPayment(b.credits[c].origin)
    && b.credits[c].origin.payment < |b.payments|
    && b.credits[c].origin.payment != p
    && exists k :: 0 <= k < |invoices|
         && SameChain(b.invoices, b.payments[b.credits[c].origin.payment].invoice, invoices[k].id)
  }

  function Covers(b: Books, p: Id, invoices: seq<Part>): Id -> bool {
    (c: Id) => IsCovering(b, p, invoices, c)
  }

  function OpenParts(b: Books, ids: seq<Id>): seq<Part> {
    if ids == [] then [] else OpenParts(b, ids[..|ids| - 1]) + [Part(ids[|ids| - 1], ReadOpen(b, ids[|ids| - 1]))]
  }

  lemma {:induction false} OpenPartsOffered(b: Books, ids: seq<Id>, c: Id)
    ensures Sum(OpenParts(b, ids), OfferedUnder(c)) == Sum(ids, OpenAt(b, c))
  {
    if ids != [] {
      var n := |ids| - 1;
      OpenPartsOffered(b, ids[..n], c);
      SumAppend(OpenParts(b, ids[..n]), Part(ids[n], ReadOpen(b, ids[n])));
    }
  }

  /** The open credits other payments of the same chains left, the oldest first. */
  function CoveringOf(b: Books, p: Id): seq<Part> {
    OpenParts(b, CreditsWhere(b, Covers(b, p, InvoicesOf(b, p))))
  }

  lemma CoveringOffers(b: Books, p: Id, c: Id)
    ensures Sum(CoveringOf(b, p), OfferedUnder(c))
         == if IsCovering(b, p, InvoicesOf(b, p), c) then ReadOpen(b, c) else 0
  {
    var picks := Covers(b, p, InvoicesOf(b, p));
    OpenPartsOffered(b, CreditsWhere(b, picks), c);
    CreditsWhereSum(b, picks, c, OpenAt(b, c));
  }

  /** A covering credit was left in the chain of the payment it covers. */
  lemma CoveringInChain(b: Books, p: Id, c: Id)
    requires SettlementsOk(b) && IsCovering(b, p, InvoicesOf(b, p), c)
    ensures InChainOf(b, p, b.payments[b.credits[c].origin.payment].invoice)
  {
    var invoices := InvoicesOf(b, p);
    var k :| 0 <= k < |invoices|
      && SameChain(b.invoices, b.payments[b.credits[c].origin.payment].invoice, invoices[k].id);
    assert Names(invoices, invoices[k].id);
    InvoicesInChain(b, p, invoices[k].id);
  }

  // ---- the covers its own credits gave ---------------------------------------------------

  function EntryKey(): Entry -> Key {
    (e: Entry) => (e.at, e.rank)
  }

  /** Whether the entry is of a reversal of another payment. */
  predicate OfAnotherPayment(b: Books, p: Id, e: Entry) {
    e.source.ByReversal? && e.source.reversal < |b.reversals| && b.reversals[e.source.reversal].payment != p
  }

  /** What other payments' reversals took of credit `c` and gave back to it, in order. */
  function CoverParts(b: Books, rows: seq<Entry>, c: Id, p: Id): seq<Part> {
    if rows == [] then []
    else
      var n := |rows| - 1;
      var before := CoverParts(b, rows[..n], c, p);
      if rows[n].credit == c && OfAnotherPayment(b, p, rows[n])
      then before + [Part(rows[n].source.reversal, PaidOutBy(rows[n]))]
      else before
  }

  lemma {:induction false} CoverPartsOn(b: Books, rows: seq<Entry>, c: Id, p: Id, q: Id)
    ensures On(CoverParts(b, rows, c, p), q)
         == if q < |b.reversals| && b.reversals[q].payment != p then Sum(rows, OnCreditBy(c, ByReversal(q))) else 0
  {
    if rows != [] {
      var n := |rows| - 1;
      CoverPartsOn(b, rows[..n], c, p, q);
      if rows[n].credit == c && OfAnotherPayment(b, p, rows[n]) {
        SumAppend(CoverParts(b, rows[..n], c, p), Part(rows[n].source.reversal, PaidOutBy(rows[n])));
      }
    }
  }

  /** The parts still held, as covers credit `c` gave. */
  function HeldCovers(parts: seq<Part>, c: Id): seq<Cover> {
    if parts == [] then []
    else
      var n := |parts| - 1;
      var before := HeldCovers(parts[..n], c);
      if parts[n].amount > 0 then before + [Cover(c, parts[n].id, parts[n].amount)] else before
  }

  lemma {:induction false} HeldCoversPair(parts: seq<Part>, c: Id, d: Id, q: Id)
    ensures PositiveCovers(HeldCovers(parts, c))
    ensures Sum(HeldCovers(parts, c), OfPair(d, q)) == if d == c then Sum(parts, OfferedUnder(q)) else 0
  {
    if parts != [] {
      var n := |parts| - 1;
      HeldCoversPair(parts[..n], c, d, q);
      SumAppend(HeldCovers(parts[..n], c), Cover(c, parts[n].id, parts[n].amount));
    }
  }

  /** What reversals of other payments hold of credit `c`, first come first. */
  function CoversGivenBy(b: Books, c: Id, p: Id): seq<Cover> {
    HeldCovers(Gathered(CoverParts(b, Sort(b.entries, EntryKey()), c, p)), c)
  }

  lemma CoversGivenPair(b: Books, c: Id, p: Id, d: Id, q: Id)
    ensures PositiveCovers(CoversGivenBy(b, c, p))
    ensures Sum(CoversGivenBy(b, c, p), OfPair(d, q))
         == if d == c && q < |b.reversals| && b.reversals[q].payment != p
            then Max(0, Took(b, c, ByReversal(q))) else 0
  {
    var rows := Sort(b.entries, EntryKey());
    var parts := CoverParts(b, rows, c, p);
    CoverPartsOn(b, rows, c, p, q);
    SortSum(b.entries, EntryKey(), OnCreditBy(c, ByReversal(q)));
    GatheredKeeps(parts);
    DistinctOffered(Gathered(parts), q);
    HeldCoversPair(Gathered(parts), c, d, q);
  }

  /** The covers all of the payment's own credits gave. */
  function AllCovers(b: Books, own: seq<Reversible>, p: Id): seq<Cover> {
    if own == [] then []
    else AllCovers(b, own[..|own| - 1], p) + CoversGivenBy(b, own[|own| - 1].id, p)
  }

  lemma {:induction false} AllCoversPositive(b: Books, own: seq<Reversible>, p: Id)
    ensures PositiveCovers(AllCovers(b, own, p))
  {
    if own != [] {
      AllCoversPositive(b, own[..|own| - 1], p);
      CoversGivenPair(b, own[|own| - 1].id, p, 0, 0);
    }
  }

  /** Each cover is what the reversal of another payment still holds of an own credit. */
  lemma {:induction false} AllCoversPair(b: Books, own: seq<Reversible>, p: Id, c: Id, q: Id)
    requires DistinctOwn(own)
    ensures Sum(AllCovers(b, own, p), OfPair(c, q))
         == if NamesOwn(own, c) && q < |b.reversals| && b.reversals[q].payment != p
            then Max(0, Took(b, c, ByReversal(q))) else 0
  {
    if own != [] {
      var n := |own| - 1;
      AllCoversPair(b, own[..n], p, c, q);
      CoversGivenPair(b, own[n].id, p, c, q);
      SumConcat(AllCovers(b, own[..n], p), CoversGivenBy(b, own[n].id, p), OfPair(c, q));
      if NamesOwn(own, c) {
        var i :| 0 <= i < |own| && own[i].id == c;
        assert i < n ==> own[..n][i].id == c;
      }
      if NamesOwn(own[..n], c) {
        var i :| 0 <= i < n && own[..n][i].id == c;
        assert own[i].id == c;
      }
    }
  }
}
