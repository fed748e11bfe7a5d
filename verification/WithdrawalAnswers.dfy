/** What a withdrawal takes of which credit and lifts of which cover, said of the tables alone. */
module WithdrawalAnswers {
  import opened Sums
  import opened PaymentRules
  import opened InvoiceChain
  import opened Books
  import opened Soundness
  import opened ReversalFrame
  import opened Brought
  import opened Withdrawals
  import opened WholeWithdrawals

  /** Credit `c` was created before credit `d`, or at the same moment under a lower id. */
  predicate Older(b: Books, c: Id, d: Id) {
    && c < |b.credits| && d < |b.credits|
    && (b.credits[c].at < b.credits[d].at
        || (b.credits[c].at == b.credits[d].at && b.credits[c].rank < b.credits[d].rank))
  }

  predicate LeftOrigin(o: Origin) {
    o.FromPayment? || o.FromCancellation?
  }

  /** Payment `p` left credit `c`, overpaid, or moved out of an invoice when that was cancelled. */
  predicate OwnCredit(b: Books, p: Id, c: Id) {
    c < |b.credits| && LeftOrigin(b.credits[c].origin) && b.credits[c].origin.payment == p
  }

  /** Another payment of the chain of `p` left credit `c`. */
  predicate LentCredit(b: Books, p: Id, c: Id) {
    && c < |b.credits| && LeftOrigin(b.credits[c].origin) && b.credits[c].origin.payment != p
    && b.credits[c].origin.payment < |b.payments| && p < |b.payments|
    && b.payments[b.credits[c].origin.payment].invoice in b.invoices && b.payments[p].invoice in b.invoices
    && b.invoices[b.payments[b.credits[c].origin.payment].invoice].chainId == b.invoices[b.payments[p].invoice].chainId
  }

  // ---- places in an order ----------------------------------------------------------------

  /** Two credits a condition picks stand among them in the order of their age. */
  lemma OlderFirst(b: Books, picks: Id -> bool, c: Id, d: Id) returns (i: nat, j: nat)
    requires Older(b, c, d) && picks(c) && picks(d)
    ensures i < j < |CreditsWhere(b, picks)| && CreditsWhere(b, picks)[i] == c && CreditsWhere(b, picks)[j] == d
  {
    var ids := CreditsWhere(b, picks);
    CreditsWhereHold(b, picks);
    SortOrders(Indices(|b.credits|, picks), CreditKey(b));
    i :| 0 <= i < |ids| && ids[i] == c;
    j :| 0 <= j < |ids| && ids[j] == d;
    if j <= i {
      KeysInOrder(ids, CreditKey(b), j, i);
    }
  }

  lemma {:induction false} OpenPartsAt(b: Books, ids: seq<Id>, k: nat)
    requires k < |ids|
    ensures |OpenParts(b, ids)| == |ids| && OpenParts(b, ids)[k] == Part(ids[k], ReadOpen(b, ids[k]))
  {
    if k < |ids| - 1 {
      OpenPartsAt(b, ids[..|ids| - 1], k);
    } else {
      OpenPartsLength(b, ids);
      OpenPartsLength(b, ids[..|ids| - 1]);
    }
  }

  lemma {:induction false} OpenPartsLength(b: Books, ids: seq<Id>)
    ensures |OpenParts(b, ids)| == |ids|
  {
    if ids != [] {
      OpenPartsLength(b, ids[..|ids| - 1]);
    }
  }

  /** Of open credits listed by age, an older one is taken whole before anything is taken of a younger one. */
  lemma OldestOpenFirst(b: Books, picks: Id -> bool, amount: nat, c: Id, d: Id)
    requires Older(b, c, d) && picks(c) && picks(d)
    ensures var parts := PaymentRules.Taken(OpenParts(b, CreditsWhere(b, picks)), amount).parts;
      On(parts, d) > 0 ==> On(parts, c) == ReadOpen(b, c)
  {
    var ids := CreditsWhere(b, picks);
    var offers := OpenParts(b, ids);
    var i, j := OlderFirst(b, picks, c, d);
    OpenPartsAt(b, ids, i);
    OpenPartsAt(b, ids, j);
    OpenDistinct(b, picks);
    TakenBefore(offers, amount, i, j);
  }

  lemma OpenDistinct(b: Books, picks: Id -> bool)
    ensures Distinct(OpenParts(b, CreditsWhere(b, picks)))
  {
    var ids := CreditsWhere(b, picks);
    OpenPartsLength(b, ids);
    forall i, j | 0 <= i < j < |ids| ensures OpenParts(b, ids)[i].id != OpenParts(b, ids)[j].id {
      OpenPartsAt(b, ids, i);
      OpenPartsAt(b, ids, j);
      CreditsWhereDistinct(b, picks, i, j);
    }
  }

  // ---- the credits that cover ------------------------------------------------------------

  /** Which credits cover: those another payment of the chain left, as soon as the payment settled anything. */
  lemma CoveringAre(b: Books, p: Id, c: Id)
    requires SettlementsOk(b) && PaymentsOk(b) && p < |b.payments|
    ensures IsCovering(b, p, InvoicesOf(b, p), c) <==> LentCredit(b, p, c) && InvoicesOf(b, p) != []
  {
    var invoices := InvoicesOf(b, p);
    assert PaymentOk(b, b.payments[p]);
    forall k | 0 <= k < |invoices| ensures SameChain(b.invoices, invoices[k].id, b.payments[p].invoice) {
      assert Names(invoices, invoices[k].id);
      InvoicesInChain(b, p, invoices[k].id);
    }
    if LentCredit(b, p, c) && invoices != [] {
      assert SameChain(b.invoices, b.payments[b.credits[c].origin.payment].invoice, invoices[0].id);
    }
  }

  /** What a withdrawal takes of the credits that cover it takes of the oldest first: one created before another
      is taken whole before anything is taken of that. */
  lemma CoversOldestFirst(b: Books, p: Id, amount: nat, c: Id, d: Id)
    requires SettlementsOk(b) && PaymentsOk(b) && p < |b.payments|
    requires LentCredit(b, p, c) && LentCredit(b, p, d) && Older(b, c, d)
    ensures var covering := WithdrawalNow(b, p, amount).covering;
      On(covering, d) > 0 ==> On(covering, c) == Max(0, Open(b, c))
  {
    var picks := Covers(b, p, InvoicesOf(b, p));
    CoveringAre(b, p, c);
    CoveringAre(b, p, d);
    CoveringOffers(b, p, d);
    WithdrawalOn(amount, Own(b, p), InvoicesOf(b, p), CoveringOf(b, p), d);
    if picks(c) && picks(d) {
      var opening := PaymentRules.Taken(InvoicesOf(b, p), OwnShareOf(Own(b, p), amount).left);
      OldestOpenFirst(b, picks, Max(0, Total(opening.parts)), c, d);
    }
  }

  // ---- the payment's own credits ---------------------------------------------------------

  function Lefts(own: seq<Reversible>): seq<Part> {
    seq(|own|, (k: nat) requires k < |own| => Part(own[k].id, own[k].left))
  }

  /** Of own credits, open or not, is taken as of offers of what is left of each. */
  lemma {:induction false} OwnAsOffers(own: seq<Reversible>, amount: nat, c: Id)
    ensures var s := OwnShareOf(own, amount);
      var t := PaymentRules.Taken(Lefts(own), amount);
      s.left == t.left && On(s.credits, c) + On(s.beyondOpen, c) == On(t.parts, c)
  {
    if own != [] {
      var n := |own| - 1;
      OwnAsOffers(own[..n], amount, c);
      assert Lefts(own)[..n] == Lefts(own[..n]);
      TakeOwnOn(OwnShareOf(own[..n], amount), own[n], c);
      var t := PaymentRules.Taken(Lefts(own[..n]), amount);
      PushOn(t.parts, own[n].id, Min(t.left, Max(0, own[n].left)), c);
    }
  }

  function AmountParts(b: Books, ids: seq<Id>): seq<Part> {
    seq(|ids|, (k: nat) requires k < |ids| => Part(ids[k], AmountOf(b)(ids[k])))
  }

  lemma PartsDistinct(b: Books, ids: seq<Id>, k: nat)
    requires Distinct(AmountParts(b, ids)) && k < |ids|
    ensures Distinct(AmountParts(b, ids[..|ids| - 1]))
    ensures k < |ids| - 1 ==> ids[k] != ids[|ids| - 1]
    ensures !Names(AmountParts(b, ids[..|ids| - 1]), ids[|ids| - 1])
  {
    var n := |ids| - 1;
    var parts := AmountParts(b, ids);
    assert parts[..n] == AmountParts(b, ids[..n]);
    assert k < n ==> parts[k].id != parts[n].id;
  }

  lemma NothingOfOthers(offers: seq<Part>, amount: nat, c: Id)
    requires !Names(offers, c)
    ensures On(PaymentRules.Taken(offers, amount).parts, c) == 0
  {
    LaterLeaves(Taking([], amount), offers, c);
    assert On([], c) == 0;
  }

  /** What reversals took before is counted off own credits as off offers of their amounts. */
  lemma {:induction false} CountedAsOffers(b: Books, ids: seq<Id>, taken: nat, k: nat)
    requires k < |ids| && Distinct(AmountParts(b, ids))
    ensures var own := CountingOf(b, ids, taken).own;
      var t := PaymentRules.Taken(AmountParts(b, ids), taken);
      && |own| == |ids| && own[k].id == ids[k]
      && own[k].left == AmountOf(b)(ids[k]) - On(t.parts, ids[k])
  {
    hide On, Names, Distinct;
    var n := |ids| - 1;
    var before := AmountParts(b, ids[..n]);
    assert AmountParts(b, ids)[..n] == before;
    CountingIds(b, ids, taken);
    CountingIds(b, ids[..n], taken);
    CountedLeft(b, ids[..n], taken);
    PartsDistinct(b, ids, k);
    var t := PaymentRules.Taken(before, taken);
    PushOn(t.parts, ids[n], Min(t.left, Max(0, AmountOf(b)(ids[n]))), ids[k]);
    if k < n {
      CountedAsOffers(b, ids[..n], taken, k);
    } else {
      NothingOfOthers(before, taken, ids[n]);
    }
  }

  lemma {:induction false} CountedLeft(b: Books, ids: seq<Id>, taken: nat)
    ensures CountingOf(b, ids, taken).taken == PaymentRules.Taken(AmountParts(b, ids), taken).left
  {
    if ids != [] {
      var n := |ids| - 1;
      assert AmountParts(b, ids)[..n] == AmountParts(b, ids[..n]);
      CountedLeft(b, ids[..n], taken);
    }
  }

  /** What is left to take of own credit `c`. */
  function LeftToTake(b: Books, p: Id, c: Id): int {
    Sum(Own(b, p), LeftUnder(c))
  }

  lemma OwnAt(b: Books, p: Id, c: Id, k: nat)
    requires k < |Own(b, p)| && Own(b, p)[k].id == c
    ensures LeftToTake(b, p, c) == Max(0, Own(b, p)[k].left)
  {
    OwnNames(b, p);
    OneLeft(Own(b, p), k);
  }

  lemma {:induction false} OneLeft(own: seq<Reversible>, k: nat)
    requires DistinctOwn(own) && k < |own|
    ensures Sum(own, LeftUnder(own[k].id)) == Max(0, own[k].left)
  {
    var n := |own| - 1;
    if k == n {
      assert !NamesOwn(own[..n], own[n].id);
      UnnamedOwn(own[..n], own[n].id);
    } else {
      OneLeft(own[..n], k);
    }
  }

  lemma AmountPartsDistinct(b: Books, picks: Id -> bool)
    ensures Distinct(AmountParts(b, CreditsWhere(b, picks)))
  {
    var ids := CreditsWhere(b, picks);
    forall i, j | 0 <= i < j < |ids| ensures ids[i] != ids[j] {
      CreditsWhereDistinct(b, picks, i, j);
    }
  }

  /** Where own credits `c` and `d` stand among those a withdrawal reads. */
  lemma OwnPlaces(b: Books, p: Id, c: Id, d: Id) returns (i: nat, j: nat)
    requires OwnCredit(b, p, c) && OwnCredit(b, p, d) && Older(b, c, d)
    ensures i < j < |Own(b, p)| && Own(b, p)[i].id == c && Own(b, p)[j].id == d
    ensures LeftToTake(b, p, c) == Max(0, Own(b, p)[i].left) && LeftToTake(b, p, d) == Max(0, Own(b, p)[j].left)
    ensures var ids := CreditsWhere(b, LeftByWhom(b, p)); |ids| == |Own(b, p)| && ids[i] == c && ids[j] == d
  {
    var ids := CreditsWhere(b, LeftByWhom(b, p));
    i, j := OlderFirst(b, LeftByWhom(b, p), c, d);
    CountingIds(b, ids, Max(0, TakenFromCredits(b, p)));
    OwnAt(b, p, c, i);
    OwnAt(b, p, d, j);
  }

  /** What reversals of a payment took of its credits counts against the oldest first: where one has less left than
      its amount, an older one has nothing left. */
  lemma CountedOldestFirst(b: Books, p: Id, c: Id, d: Id)
    requires CreditsOk(b) && OwnCredit(b, p, c) && OwnCredit(b, p, d) && Older(b, c, d)
    ensures 0 <= LeftToTake(b, p, c) <= b.credits[c].amount && 0 <= LeftToTake(b, p, d) <= b.credits[d].amount
    ensures LeftToTake(b, p, d) < b.credits[d].amount ==> LeftToTake(b, p, c) == 0
  {
    hide Own;
    var i, j := OwnPlaces(b, p, c, d);
    var ids, taken := CreditsWhere(b, LeftByWhom(b, p)), Max(0, TakenFromCredits(b, p));
    AmountPartsDistinct(b, LeftByWhom(b, p));
    OwnIsCounting(b, p);
    CountedAsOffers(b, ids, taken, i);
    CountedAsOffers(b, ids, taken, j);
    TakenBefore(AmountParts(b, ids), taken, i, j);
    CountedWithin(b, ids, taken, i);
    CountedWithin(b, ids, taken, j);
    assert CreditOk(b, b.credits[c]) && CreditOk(b, b.credits[d]);
  }

  lemma OwnIsCounting(b: Books, p: Id)
    ensures Own(b, p) == CountingOf(b, CreditsWhere(b, LeftByWhom(b, p)), Max(0, TakenFromCredits(b, p))).own
  {
  }

  lemma CountedWithin(b: Books, ids: seq<Id>, taken: nat, k: nat)
    requires k < |ids| && Distinct(AmountParts(b, ids))
    ensures 0 <= On(PaymentRules.Taken(AmountParts(b, ids), taken).parts, ids[k]) <= Max(0, AmountOf(b)(ids[k]))
  {
    var parts := AmountParts(b, ids);
    TakenPositive(parts, taken);
    PositiveOn(PaymentRules.Taken(parts, taken).parts);
    TakenOn(parts, taken, ids[k]);
    DistinctOffered(parts, ids[k]);
    OnAt(parts, k);
  }

  /** A withdrawal takes of what is left of the payment's own credits of the oldest first, open or not: of each its
      open part before anything beyond that, and nothing of a younger one while an older has any left. */
  lemma OwnOldestFirst(b: Books, p: Id, amount: nat, c: Id, d: Id)
    requires OwnCredit(b, p, c) && OwnCredit(b, p, d) && Older(b, c, d)
    ensures var w := WithdrawalNow(b, p, amount);
      On(w.credits, d) + On(w.beyondOpen, d) > 0 ==> On(w.credits, c) + On(w.beyondOpen, c) == LeftToTake(b, p, c)
  {
    hide Own, LeftToTake, CreditsWhere;
    var i, j := OwnPlaces(b, p, c, d);
    var own := Own(b, p);
    OwnAsOffers(own, amount, c);
    OwnAsOffers(own, amount, d);
    OwnNames(b, p);
    assert Distinct(Lefts(own));
    TakenBefore(Lefts(own), amount, i, j);
  }

  /** An invoice opens again only where every credit that could cover it was taken whole. */
  lemma OpensOnceCoversAreSpent(b: Books, p: Id, amount: nat, c: Id)
    requires SettlementsOk(b) && PaymentsOk(b) && p < |b.payments| && LentCredit(b, p, c)
    ensures var w := WithdrawalNow(b, p, amount);
      w.invoices != [] ==> On(w.covering, c) == Max(0, Open(b, c))
  {
    OpenedOnceSpent(amount, Own(b, p), InvoicesOf(b, p), CoveringOf(b, p), c);
    CoveringOffers(b, p, c);
    CoveringAre(b, p, c);
  }

  // ---- the covers lifted -----------------------------------------------------------------

  /** Reversal `q` began to take of credit `c` before reversal `r` did. */
  ghost predicate BeganBefore(b: Books, c: Id, q: Id, r: Id) {
    exists k :: 0 <= k < |b.entries| && TakesOf(b.entries[k], c, q) && BeforeAll(b, c, r, k)
  }

  predicate TakesOf(e: Entry, c: Id, q: Id) {
    e.credit == c && e.source == ByReversal(q)
  }

  ghost predicate BeforeAll(b: Books, c: Id, r: Id, k: nat)
    requires k < |b.entries|
  {
    forall m :: 0 <= m < |b.entries| && TakesOf(b.entries[m], c, r) ==>
      b.entries[k].at < b.entries[m].at
      || (b.entries[k].at == b.entries[m].at && b.entries[k].rank < b.entries[m].rank)
  }

  /** A part of `x` stands in the list before every part of `y`. */
  predicate Leads(parts: seq<Part>, x: Id, y: Id, i: nat) {
    i < |parts| && parts[i].id == x && forall j :: 0 <= j < |parts| && parts[j].id == y ==> i < j
  }

  lemma {:induction false} GatherPlaces(g: seq<Part>, x: Part, k: nat)
    requires k < |g|
    ensures k < |Gather(g, x)| && Gather(g, x)[k].id == g[k].id
    ensures !Names(g, x.id) ==> |Gather(g, x)| == |g| + 1 && Gather(g, x)[|g|].id == x.id
  {
    if g[0].id == x.id {
      assert Names(g, x.id);
    } else {
      if Names(g[1..], x.id) {
        var i :| 0 <= i < |g| - 1 && g[1..][i].id == x.id;
        assert g[i + 1].id == x.id;
      }
      if k > 0 {
        GatherPlaces(g[1..], x, k - 1);
      } else if |g| > 1 {
        GatherPlaces(g[1..], x, 0);
      }
    }
  }

  lemma LeadsLast(parts: seq<Part>, x: Id, y: Id, i: nat)
    requires Leads(parts, x, y, i) && Names(parts, y)
    ensures var n := |parts| - 1; i < n && Leads(parts[..n], x, y, i) && Names(parts[..n], x)
  {
    var n := |parts| - 1;
    var j :| 0 <= j < |parts| && parts[j].id == y;
    assert forall m :: 0 <= m < n ==> parts[..n][m] == parts[m];
    assert parts[..n][i].id == x;
  }

  lemma PlaceOf(parts: seq<Part>, x: Id) returns (k: nat)
    requires Names(parts, x)
    ensures k < |parts| && parts[k].id == x
  {
    k :| 0 <= k < |parts| && parts[k].id == x;
  }

  /** Gathering lists ids in the order of their first parts. */
  lemma {:induction false} GatheredPlaces(parts: seq<Part>, x: Id, y: Id, i: nat) returns (k: nat, l: nat)
    requires Leads(parts, x, y, i) && Names(parts, y)
    ensures k < l < |Gathered(parts)| && Gathered(parts)[k].id == x && Gathered(parts)[l].id == y
  {
    hide Names, Leads, Gather;
    LeadsLast(parts, x, y, i);
    var n := |parts| - 1;
    var before := Gathered(parts[..n]);
    GatheredKeeps(parts[..n]);
    NamesLast(parts, y);
    if Names(parts[..n], y) {
      k, l := GatheredPlaces(parts[..n], x, y, i);
      GatherPlaces(before, parts[n], l);
    } else {
      k := PlaceOf(before, x);
      l := |before|;
    }
    GatherPlaces(before, parts[n], k);
  }

  /** The rows of one reversal stand before those of another. */
  predicate RowsLead(rows: seq<Entry>, c: Id, q: Id, r: Id, a: nat) {
    a < |rows| && TakesOf(rows[a], c, q) && forall m :: 0 <= m < |rows| && TakesOf(rows[m], c, r) ==> a < m
  }

  lemma {:induction false} CoverPlaces(b: Books, rows: seq<Entry>, c: Id, p: Id, q: Id, r: Id, a: nat) returns (i: nat)
    requires RowsLead(rows, c, q, r, a) && OfAnotherPayment(b, p, rows[a])
    ensures Leads(CoverParts(b, rows, c, p), q, r, i)
  {
    var n := |rows| - 1;
    var before := CoverParts(b, rows[..n], c, p);
    if a < n {
      i := CoverPlaces(b, rows[..n], c, p, q, r, a);
    } else {
      i := |before|;
      NoneOfOther(b, rows[..n], c, p, r);
    }
  }

  lemma {:induction false} NoneOfOther(b: Books, rows: seq<Entry>, c: Id, p: Id, r: Id)
    requires forall m :: 0 <= m < |rows| ==> !TakesOf(rows[m], c, r)
    ensures forall j :: 0 <= j < |CoverParts(b, rows, c, p)| ==> CoverParts(b, rows, c, p)[j].id != r
  {
    if rows != [] {
      NoneOfOther(b, rows[..|rows| - 1], c, p, r);
    }
  }

  lemma SortedLead(b: Books, c: Id, q: Id, r: Id) returns (a: nat)
    requires BeganBefore(b, c, q, r)
    ensures RowsLead(Sort(b.entries, EntryKey()), c, q, r, a)
  {
    var rows := Sort(b.entries, EntryKey());
    var k :| 0 <= k < |b.entries| && TakesOf(b.entries[k], c, q) && BeforeAll(b, c, r, k);
    SortOrders(b.entries, EntryKey());
    assert b.entries[k] in rows;
    a :| 0 <= a < |rows| && rows[a] == b.entries[k];
    forall m | 0 <= m < |rows| && TakesOf(rows[m], c, r) ensures a < m {
      assert rows[m] in b.entries;
      var l :| 0 <= l < |b.entries| && b.entries[l] == rows[m];
      if m <= a {
        KeysInOrder(rows, EntryKey(), m, a);
      }
    }
  }

  /** The covers of one credit, as offers of the reversals that hold them. */
  function CoverOffers(covers: seq<Cover>, c: Id): seq<Part> {
    if covers == [] then []
    else
      var n := |covers| - 1;
      var before := CoverOffers(covers[..n], c);
      if covers[n].credit == c then before + [Part(covers[n].reversal, covers[n].amount)] else before
  }

  /** Covers of a credit are lifted as offers are taken. */
  lemma {:induction false} LiftAsOffers(l: Lifting, c: Id, covers: seq<Cover>, q: Id)
    requires l.reach >= 0 && PositiveCovers(covers)
    ensures var m := LiftOn(l, c, covers);
      var t := PaymentRules.Taken(CoverOffers(covers, c), l.reach);
      m.reach == t.left && Sum(m.lifted, OfPair(c, q)) == Sum(l.lifted, OfPair(c, q)) + On(t.parts, q)
  {
    if covers != [] {
      var n := |covers| - 1;
      LiftAsOffers(l, c, covers[..n], q);
      var before := LiftOn(l, c, covers[..n]);
      var t := PaymentRules.Taken(CoverOffers(covers[..n], c), l.reach);
      var taken := Min(t.left, Max(0, covers[n].amount));
      SumAppend(before.lifted, covers[n].(amount := taken));
      PushOn(t.parts, covers[n].reversal, taken, q);
      if covers[n].credit == c {
        assert CoverOffers(covers, c)[..|CoverOffers(covers[..n], c)|] == CoverOffers(covers[..n], c);
      }
    }
  }

  lemma {:induction false} LiftOthers(l: Lifting, d: Id, covers: seq<Cover>, c: Id, q: Id)
    requires c != d
    ensures Sum(LiftOn(l, d, covers).lifted, OfPair(c, q)) == Sum(l.lifted, OfPair(c, q))
  {
    if covers != [] {
      var n := |covers| - 1;
      LiftOthers(l, d, covers[..n], c, q);
      var before := LiftOn(l, d, covers[..n]);
      SumAppend(before.lifted, covers[n].(amount := Max(0, Min(before.reach, covers[n].amount))));
    }
  }

  /** Of the covers of credit `c` is lifted what is reached beyond its open part, one cover after another. */
  lemma {:induction false} LiftedAsOffers(beyondOpen: seq<Part>, covers: seq<Cover>, c: Id, q: Id)
    requires Distinct(beyondOpen) && Positive(beyondOpen) && PositiveCovers(covers)
    ensures 0 <= On(beyondOpen, c)
    ensures Sum(Lifted(beyondOpen, covers), OfPair(c, q))
         == On(PaymentRules.Taken(CoverOffers(covers, c), On(beyondOpen, c)).parts, q)
  {
    hide LiftOn, CoverOffers, PaymentRules.Taken;
    PositiveOn(beyondOpen);
    if beyondOpen == [] {
      NothingTaken(CoverOffers(covers, c), q);
    } else {
      var n := |beyondOpen| - 1;
      LiftedAsOffers(beyondOpen[..n], covers, c, q);
      var before := Lifted(beyondOpen[..n], covers);
      var start := Lifting(before, beyondOpen[n].amount);
      if beyondOpen[n].id == c {
        NamesLast(beyondOpen, c);
        UnnamedIsZero(beyondOpen[..n], c);
        NothingTaken(CoverOffers(covers, c), q);
        LiftAsOffers(start, c, covers, q);
      } else {
        LiftOthers(start, beyondOpen[n].id, covers, c, q);
      }
    }
  }

  lemma {:induction false} NothingTaken(offers: seq<Part>, q: Id)
    ensures PaymentRules.Taken(offers, 0) == Taking([], 0) && On([], q) == 0
  {
    if offers != [] {
      NothingTaken(offers[..|offers| - 1], q);
    }
  }

  lemma {:induction false} HeldOffers(parts: seq<Part>, c: Id, d: Id)
    ensures CoverOffers(HeldCovers(parts, c), d) == if d == c then Picked(parts, IsHeld()) else []
  {
    if parts != [] {
      var n := |parts| - 1;
      HeldOffers(parts[..n], c, d);
      var before := HeldCovers(parts[..n], c);
      if parts[n].amount > 0 {
        assert HeldCovers(parts, c)[..|before|] == before;
      }
    }
  }

  function IsHeld(): Part -> bool {
    (x: Part) => x.amount > 0
  }

  lemma {:induction false} OffersConcat(a: seq<Cover>, z: seq<Cover>, c: Id)
    ensures CoverOffers(a + z, c) == CoverOffers(a, c) + CoverOffers(z, c)
  {
    if z == [] {
      assert a + z == a;
    } else {
      var n := |z| - 1;
      assert (a + z)[..|a + z| - 1] == a + z[..n];
      OffersConcat(a, z[..n], c);
    }
  }

  /** What offers its covers, of one own credit: its own reversals' nets, those above nothing. */
  lemma {:induction false} AllOffers(b: Books, own: seq<Reversible>, p: Id, c: Id)
    requires DistinctOwn(own)
    ensures CoverOffers(AllCovers(b, own, p), c)
         == if NamesOwn(own, c) then Picked(Gathered(CoverParts(b, Sort(b.entries, EntryKey()), c, p)), IsHeld()) else []
  {
    hide CoverParts, Gathered;
    if own != [] {
      var n := |own| - 1;
      AllOffers(b, own[..n], p, c);
      OffersConcat(AllCovers(b, own[..n], p), CoversGivenBy(b, own[n].id, p), c);
      HeldOffers(Gathered(CoverParts(b, Sort(b.entries, EntryKey()), own[n].id, p)), own[n].id, c);
      NamesOwnLast(own, c);
    }
  }

  lemma NamesOwnLast(own: seq<Reversible>, c: Id)
    requires own != [] && DistinctOwn(own)
    ensures NamesOwn(own, c) <==> NamesOwn(own[..|own| - 1], c) || own[|own| - 1].id == c
    ensures own[|own| - 1].id == c ==> !NamesOwn(own[..|own| - 1], c)
  {
    var n := |own| - 1;
    if NamesOwn(own, c) {
      var i :| 0 <= i < |own| && own[i].id == c;
      assert i < n ==> own[..n][i].id == c;
    }
    if NamesOwn(own[..n], c) {
      var i :| 0 <= i < n && own[..n][i].id == c;
      assert own[i].id == c;
    }
    assert own[n].id == c ==> NamesOwn(own, c);
  }

  lemma {:induction false} PickedPlaces(parts: seq<Part>, k: nat, l: nat) returns (i: nat, j: nat)
    requires k < l < |parts| && parts[k].amount > 0 && parts[l].amount > 0
    ensures i < j < |Picked(parts, IsHeld())|
    ensures Picked(parts, IsHeld())[i] == parts[k] && Picked(parts, IsHeld())[j] == parts[l]
  {
    var n := |parts| - 1;
    if l < n {
      i, j := PickedPlaces(parts[..n], k, l);
    } else {
      i := PickedPlace(parts[..n], k);
      j := |Picked(parts[..n], IsHeld())|;
    }
  }

  lemma {:induction false} PickedPlace(parts: seq<Part>, k: nat) returns (i: nat)
    requires k < |parts| && parts[k].amount > 0
    ensures i < |Picked(parts, IsHeld())| && Picked(parts, IsHeld())[i] == parts[k]
  {
    var n := |parts| - 1;
    if k < n {
      i := PickedPlace(parts[..n], k);
    } else {
      i := |Picked(parts[..n], IsHeld())|;
    }
  }

  lemma {:induction false} PickedDistinct(parts: seq<Part>)
    requires Distinct(parts)
    ensures Distinct(Picked(parts, IsHeld()))
  {
    if parts != [] {
      var n := |parts| - 1;
      PickedDistinct(parts[..n]);
      PickedHolds(parts[..n], IsHeld());
      var before := Picked(parts[..n], IsHeld());
      forall i | 0 <= i < |before| ensures before[i].id != parts[n].id {
        assert before[i] in parts[..n];
      }
    }
  }

  /** What other payments' reversals hold of credit `c`, gathered. */
  function HeldOf(b: Books, c: Id, p: Id): seq<Part> {
    Gathered(CoverParts(b, Sort(b.entries, EntryKey()), c, p))
  }

  lemma HeldOfOn(b: Books, c: Id, p: Id, q: Id)
    ensures Distinct(HeldOf(b, c, p))
    ensures On(HeldOf(b, c, p), q)
         == if q < |b.reversals| && b.reversals[q].payment != p then Took(b, c, ByReversal(q)) else 0
  {
    var rows := Sort(b.entries, EntryKey());
    CoverPartsOn(b, rows, c, p, q);
    SortSum(b.entries, EntryKey(), OnCreditBy(c, ByReversal(q)));
    GatheredKeeps(CoverParts(b, rows, c, p));
  }

  /** Whose cover began first stands first. */
  lemma HeldPlaces(b: Books, p: Id, c: Id, q: Id, r: Id) returns (k: nat, l: nat)
    requires q < |b.reversals| && b.reversals[q].payment != p && BeganBefore(b, c, q, r)
    requires Names(HeldOf(b, c, p), r)
    ensures k < l < |HeldOf(b, c, p)| && HeldOf(b, c, p)[k].id == q && HeldOf(b, c, p)[l].id == r
  {
    var rows := Sort(b.entries, EntryKey());
    var a := SortedLead(b, c, q, r);
    var i := CoverPlaces(b, rows, c, p, q, r, a);
    GatheredKeeps(CoverParts(b, rows, c, p));
    k, l := GatheredPlaces(CoverParts(b, rows, c, p), q, r, i);
  }

  /** What is lifted of the cover reversal `q` holds of own credit `c`. */
  lemma LiftedOf(b: Books, p: Id, amount: nat, c: Id, q: Id)
    requires OwnCredit(b, p, c)
    ensures 0 <= On(WithdrawalNow(b, p, amount).beyondOpen, c)
    ensures Sum(LiftedBy(b, p, amount), OfPair(c, q))
         == On(PaymentRules.Taken(Picked(HeldOf(b, c, p), IsHeld()),
                                  On(WithdrawalNow(b, p, amount).beyondOpen, c)).parts, q)
  {
    var own := Own(b, p);
    OwnNames(b, p);
    OwnShareNames(own, amount);
    OwnSharePositive(own, amount);
    AllCoversPositive(b, own, p);
    AllOffers(b, own, p, c);
    LiftedAsOffers(WithdrawalNow(b, p, amount).beyondOpen, AllCovers(b, own, p), c, q);
  }

  /** Of the covers one credit gave, the one given first is lifted first, and whole before anything of a later one. */
  lemma FirstCoverFirst(b: Books, p: Id, amount: nat, c: Id, q: Id, r: Id)
    requires OwnCredit(b, p, c) && q < |b.reversals| && b.reversals[q].payment != p && BeganBefore(b, c, q, r)
    ensures var lifted := LiftedBy(b, p, amount);
      Sum(lifted, OfPair(c, r)) > 0 ==> Sum(lifted, OfPair(c, q)) == Max(0, Took(b, c, ByReversal(q)))
  {
    hide WithdrawalNow, LiftedBy, HeldOf, BeganBefore;
    var held := HeldOf(b, c, p);
    var offers := Picked(held, IsHeld());
    var reach := On(WithdrawalNow(b, p, amount).beyondOpen, c);
    LiftedOf(b, p, amount, c, q);
    LiftedOf(b, p, amount, c, r);
    HeldOfOn(b, c, p, q);
    PickedDistinct(held);
    if Sum(LiftedBy(b, p, amount), OfPair(c, r)) > 0 {
      OfferedPart(held, reach, r);
      var k, l := HeldPlaces(b, p, c, q, r);
      OnAt(held, k);
      if held[k].amount > 0 {
        OnAt(held, l);
        var i, j := PickedPlaces(held, k, l);
        TakenBefore(offers, reach, i, j);
      } else {
        NotOffered(held, reach, q);
      }
    }
  }

  /** What is taken of is held. */
  lemma OfferedPart(held: seq<Part>, reach: nat, r: Id)
    requires Distinct(held) && On(PaymentRules.Taken(Picked(held, IsHeld()), reach).parts, r) > 0
    ensures Names(held, r) && On(held, r) > 0
  {
    var offers := Picked(held, IsHeld());
    PickedHolds(held, IsHeld());
    if !Names(offers, r) {
      NothingOfOthers(offers, reach, r);
    } else {
      var i :| 0 <= i < |offers| && offers[i].id == r;
      assert offers[i] in held && offers[i].amount > 0;
      var k :| 0 <= k < |held| && held[k] == offers[i];
      OnAt(held, k);
    }
  }

  lemma NotOffered(held: seq<Part>, reach: nat, q: Id)
    requires Distinct(held) && On(held, q) <= 0
    ensures On(PaymentRules.Taken(Picked(held, IsHeld()), reach).parts, q) == 0
  {
    TakenPositive(Picked(held, IsHeld()), reach);
    PositiveOn(PaymentRules.Taken(Picked(held, IsHeld()), reach).parts);
    if On(PaymentRules.Taken(Picked(held, IsHeld()), reach).parts, q) > 0 {
      OfferedPart(held, reach, q);
    }
  }

  /** Where a withdrawal reaches further beyond the open part of a credit than it lifts covers of it, it lifts every
      cover that credit gave. */
  lemma CoversAllLifted(b: Books, p: Id, amount: nat, c: Id, q: Id)
    requires OwnCredit(b, p, c) && q < |b.reversals| && b.reversals[q].payment != p
    ensures var lifted := LiftedBy(b, p, amount);
      On(WithdrawalNow(b, p, amount).beyondOpen, c) > Sum(lifted, OfCredit(c))
      ==> Sum(lifted, OfPair(c, q)) == Max(0, Took(b, c, ByReversal(q)))
  {
    hide WithdrawalNow, LiftedBy, HeldOf;
    var held := HeldOf(b, c, p);
    var offers := Picked(held, IsHeld());
    var w := WithdrawalNow(b, p, amount);
    LiftedOf(b, p, amount, c, q);
    HeldOfOn(b, c, p, q);
    LiftedInAll(b, p, amount, c);
    TakenTotal(offers, On(w.beyondOpen, c));
    TakenWhole(offers, On(w.beyondOpen, c), q);
    PickedOffered(held, q);
    DistinctOffered(held, q);
  }

  lemma {:induction false} PickedOffered(held: seq<Part>, q: Id)
    ensures Sum(Picked(held, IsHeld()), OfferedUnder(q)) == Sum(held, OfferedUnder(q))
  {
    if held != [] {
      var n := |held| - 1;
      PickedOffered(held[..n], q);
      SumAppend(Picked(held[..n], IsHeld()), held[n]);
    }
  }

  lemma {:induction false} HoldersSums(lifted: seq<Cover>, c: Id, q: Id)
    ensures Total(CoverOffers(lifted, c)) == Sum(lifted, OfCredit(c))
    ensures On(CoverOffers(lifted, c), q) == Sum(lifted, OfPair(c, q))
  {
    if lifted != [] {
      var n := |lifted| - 1;
      HoldersSums(lifted[..n], c, q);
      SumAppend(CoverOffers(lifted[..n], c), Part(lifted[n].reversal, lifted[n].amount));
    }
  }

  /** All that is lifted of the covers of a credit is what is taken of them. */
  lemma LiftedInAll(b: Books, p: Id, amount: nat, c: Id)
    requires OwnCredit(b, p, c)
    ensures 0 <= On(WithdrawalNow(b, p, amount).beyondOpen, c)
    ensures Sum(LiftedBy(b, p, amount), OfCredit(c))
         == Total(PaymentRules.Taken(Picked(HeldOf(b, c, p), IsHeld()),
                                     On(WithdrawalNow(b, p, amount).beyondOpen, c)).parts)
  {
    hide WithdrawalNow, LiftedBy, HeldOf;
    LiftedOf(b, p, amount, c, 0);
    var lifted := LiftedBy(b, p, amount);
    var taken := PaymentRules.Taken(Picked(HeldOf(b, c, p), IsHeld()), On(WithdrawalNow(b, p, amount).beyondOpen, c));
    forall q ensures On(CoverOffers(lifted, c), q) == On(taken.parts, q) {
      HoldersSums(lifted, c, q);
      LiftedOf(b, p, amount, c, q);
    }
    SameOnSameTotal(CoverOffers(lifted, c), taken.parts);
    HoldersSums(lifted, c, 0);
  }
}
