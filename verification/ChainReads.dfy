/** What a reversal reads lies in the chain whose turn it holds: rows that reversals of other chains write change
    nothing of what it takes, lifts or gives back. */
module ChainReads {
  import opened Sums
  import opened PaymentRules
  import opened InvoiceChain
  import opened Books
  import opened Soundness
  import opened ReversalFrame
  import opened Brought
  import opened Withdrawals
  import opened Reinstatements
  import opened ReversalReports

  /** Whether a payment of the chain of payment `p` left credit `c`. */
  predicate LeftInChain(b: Books, c: Id, p: Id) {
    c < |b.credits| && ByPayment(b.credits[c].origin) && OneChain(b, b.credits[c].origin.payment, p)
  }

  ghost predicate SettledElsewhere(b: Books, b': Books, p: Id) {
    && Prefix(b.settlements, b'.settlements)
    && forall i :: |b.settlements| <= i < |b'.settlements| ==>
         var s := b'.settlements[i];
         !InChainOf(b, p, s.invoice) && s.payment != p && (s.reversal.Some? ==> !OfChain(b', s.reversal.value, p))
  }

  ghost predicate CreditedElsewhere(b: Books, b': Books) {
    && Prefix(b.credits, b'.credits)
    && forall i :: |b.credits| <= i < |b'.credits| ==> !ByPayment(b'.credits[i].origin)
  }

  ghost predicate EnteredElsewhere(b: Books, b': Books, p: Id) {
    && Prefix(b.entries, b'.entries)
    && forall i :: |b.entries| <= i < |b'.entries| ==>
         var e := b'.entries[i];
         !LeftInChain(b', e.credit, p) && (e.source.ByReversal? ==> !OfChain(b', e.source.reversal, p))
  }

  ghost predicate ReversedElsewhere(b: Books, b': Books, p: Id) {
    && |b.reversals| <= |b'.reversals|
    && (forall i :: 0 <= i < |b.reversals| ==>
          && b'.reversals[i].payment == b.reversals[i].payment
          && (OfChain(b, i, p) ==> b'.reversals[i] == b.reversals[i]))
    && forall i :: |b.reversals| <= i < |b'.reversals| ==> !OneChain(b, b'.reversals[i].payment, p)
  }

  ghost predicate CasesElsewhere(b: Books, b': Books, p: Id) {
    && |b.cases| <= |b'.cases|
    && (forall i :: 0 <= i < |b.cases| ==> Kept(b.cases[i], b'.cases[i]))
    && forall i :: |b.cases| <= i < |b'.cases| ==>
         b'.cases[i].about.ByReversal? ==> !OfChain(b', b'.cases[i].about.reversal, p)
  }

  /** All that changed from `b` to `b'` is of other chains than that of payment `p`. */
  ghost predicate Elsewhere(b: Books, b': Books, p: Id) {
    && p < |b.payments| && b.payments[p].invoice in b.invoices
    && b'.invoices == b.invoices && b'.cancellations == b.cancellations && b'.payments == b.payments
    && SettledElsewhere(b, b', p) && CreditedElsewhere(b, b') && EnteredElsewhere(b, b', p)
    && ReversedElsewhere(b, b', p) && CasesElsewhere(b, b', p)
  }

  // ---- orders that keep to what is picked ------------------------------------------------

  predicate SameKeys<T>(s: seq<T>, key: T -> Key, key': T -> Key) {
    forall i :: 0 <= i < |s| ==> key(s[i]) == key'(s[i])
  }

  lemma {:induction false} PlaceSameKeys<T>(s: seq<T>, x: T, key: T -> Key, key': T -> Key)
    requires SameKeys(s, key, key') && key(x) == key'(x)
    ensures Place(s, x, ByKey(key)) == Place(s, x, ByKey(key'))
  {
    if s != [] && !NotAfter(key(s[|s| - 1]), key(x)) {
      PlaceSameKeys(s[..|s| - 1], x, key, key');
    }
  }

  lemma {:induction false} SortSameKeys<T(!new)>(s: seq<T>, key: T -> Key, key': T -> Key)
    requires SameKeys(s, key, key')
    ensures Sort(s, key) == Sort(s, key')
  {
    if s != [] {
      var n := |s| - 1;
      SortSameKeys(s[..n], key, key');
      var before := Sort(s[..n], key);
      SortOrders(s[..n], key);
      forall i | 0 <= i < |before| ensures key(before[i]) == key'(before[i]) {
        assert before[i] in s[..n];
      }
      PlaceSameKeys(before, s[n], key, key');
    }
  }

  lemma {:induction false} SameIndices(n: nat, n': nat, picks: Id -> bool, picks': Id -> bool)
    requires n <= n' && forall i: nat :: i < n ==> (picks(i) <==> picks'(i))
    requires forall i: nat :: n <= i < n' ==> !picks'(i)
    ensures Indices(n', picks') == Indices(n, picks)
  {
    if n < n' {
      SameIndices(n, n' - 1, picks, picks');
    } else if n > 0 {
      SameIndices(n - 1, n - 1, picks, picks');
    }
  }

  /** A condition that picks the same credits lists them in the same order. */
  lemma SameCredits(b: Books, b': Books, picks: Id -> bool, picks': Id -> bool)
    requires CreditedElsewhere(b, b')
    requires forall c: Id :: c < |b.credits| ==> (picks(c) <==> picks'(c))
    requires forall c: Id :: |b.credits| <= c < |b'.credits| ==> !picks'(c)
    ensures CreditsWhere(b', picks') == CreditsWhere(b, picks)
  {
    SameIndices(|b.credits|, |b'.credits|, picks, picks');
    var ids := Indices(|b.credits|, picks);
    IndicesHold(|b.credits|, picks);
    forall i | 0 <= i < |ids| ensures CreditKey(b)(ids[i]) == CreditKey(b')(ids[i]) {
      assert ids[i] in ids;
    }
    SortSameKeys(ids, CreditKey(b), CreditKey(b'));
  }

  lemma {:induction false} PlaceUnsigned(s: seq<Settlement>, x: Settlement, picks: Settlement -> bool)
    requires !picks(x)
    ensures SignedParts(Place(s, x, ByKey(SettlementKey())), picks) == SignedParts(s, picks)
  {
    if s == [] || NotAfter(SettlementKey()(s[|s| - 1]), SettlementKey()(x)) {
      assert (s + [x])[..|s|] == s;
    } else {
      var n := |s| - 1;
      PlaceUnsigned(s[..n], x, picks);
      var inner := Place(s[..n], x, ByKey(SettlementKey()));
      PlaceLength(s[..n], x, ByKey(SettlementKey()));
      assert (inner + [s[n]])[..|s|] == inner;
    }
  }

  lemma {:induction false} PlaceLength<T>(s: seq<T>, x: T, before: (T, T) -> bool)
    ensures |Place(s, x, before)| == |s| + 1
  {
    if !(s == [] || before(s[|s| - 1], x)) {
      PlaceLength(s[..|s| - 1], x, before);
    }
  }

  /** Rows a condition does not pick, written later, leave what it picks, in the same order. */
  lemma {:induction false} SameSigned(s: seq<Settlement>, s': seq<Settlement>, picks: Settlement -> bool)
    requires Prefix(s, s') && forall i :: |s| <= i < |s'| ==> !picks(s'[i])
    ensures SignedParts(Sort(s', SettlementKey()), picks) == SignedParts(Sort(s, SettlementKey()), picks)
  {
    hide SignedParts, Place;
    if |s| == |s'| {
      assert s == s';
    } else {
      var n := |s'| - 1;
      SameSigned(s, s'[..n], picks);
      PlaceUnsigned(Sort(s'[..n], SettlementKey()), s'[n], picks);
    }
  }

  // ---- the entries -----------------------------------------------------------------------

  lemma {:induction false} PlaceUncovered(b: Books, s: seq<Entry>, x: Entry, c: Id, p: Id)
    requires x.credit != c
    ensures CoverParts(b, Place(s, x, ByKey(EntryKey())), c, p) == CoverParts(b, s, c, p)
  {
    if s == [] || NotAfter(EntryKey()(s[|s| - 1]), EntryKey()(x)) {
      assert (s + [x])[..|s|] == s;
    } else {
      var n := |s| - 1;
      var inner := Place(s[..n], x, ByKey(EntryKey()));
      PlaceUncovered(b, s[..n], x, c, p);
      PlaceLength(s[..n], x, ByKey(EntryKey()));
      assert (inner + [s[n]])[..|s|] == inner;
    }
  }

  lemma {:induction false} SameCoverRows(b: Books, s: seq<Entry>, s': seq<Entry>, c: Id, p: Id)
    requires Prefix(s, s') && forall i :: |s| <= i < |s'| ==> s'[i].credit != c
    ensures CoverParts(b, Sort(s', EntryKey()), c, p) == CoverParts(b, Sort(s, EntryKey()), c, p)
  {
    hide CoverParts, Place;
    if |s| == |s'| {
      assert s == s';
    } else {
      var n := |s'| - 1;
      SameCoverRows(b, s, s'[..n], c, p);
      PlaceUncovered(b, Sort(s'[..n], EntryKey()), s'[n], c, p);
    }
  }

  lemma {:induction false} SameCoverParts(b: Books, b': Books, rows: seq<Entry>, c: Id, p: Id)
    requires forall i :: 0 <= i < |rows| && rows[i].credit == c ==>
      (OfAnotherPayment(b, p, rows[i]) <==> OfAnotherPayment(b', p, rows[i]))
    ensures CoverParts(b', rows, c, p) == CoverParts(b, rows, c, p)
  {
    if rows != [] {
      SameCoverParts(b, b', rows[..|rows| - 1], c, p);
    }
  }

  lemma {:induction false} PlaceUnpaid(s: seq<Entry>, x: Entry, source: Source)
    requires x.source != source
    ensures PaidParts(Place(s, x, ByKey(EntryKey())), source) == PaidParts(s, source)
  {
    if s == [] || NotAfter(EntryKey()(s[|s| - 1]), EntryKey()(x)) {
      assert (s + [x])[..|s|] == s;
    } else {
      var n := |s| - 1;
      var inner := Place(s[..n], x, ByKey(EntryKey()));
      PlaceUnpaid(s[..n], x, source);
      PlaceLength(s[..n], x, ByKey(EntryKey()));
      assert (inner + [s[n]])[..|s|] == inner;
    }
  }

  lemma {:induction false} SamePaid(s: seq<Entry>, s': seq<Entry>, source: Source)
    requires Prefix(s, s') && forall i :: |s| <= i < |s'| ==> s'[i].source != source
    ensures PaidParts(Sort(s', EntryKey()), source) == PaidParts(Sort(s, EntryKey()), source)
  {
    hide PaidParts, Place;
    if |s| == |s'| {
      assert s == s';
    } else {
      var n := |s'| - 1;
      SamePaid(s, s'[..n], source);
      PlaceUnpaid(Sort(s'[..n], EntryKey()), s'[n], source);
    }
  }

  // ---- what a withdrawal reads -----------------------------------------------------------

  lemma SameOpen(b: Books, b': Books, p: Id, c: Id)
    requires Elsewhere(b, b', p) && LeftInChain(b, c, p)
    ensures ReadOpen(b', c) == ReadOpen(b, c)
  {
    assert LeftInChain(b', c, p);
    SumGrown(b.entries, b'.entries, OnCredit(c));
  }

  lemma OwnChain(b: Books, b': Books, p: Id)
    requires Elsewhere(b, b', p)
    ensures OneChain(b, p, p)
  {
  }

  lemma SameTaken(b: Books, b': Books, p: Id)
    requires Elsewhere(b, b', p)
    ensures TakenFromCredits(b', p) == TakenFromCredits(b, p)
  {
    OwnChain(b, b', p);
    forall i | 0 <= i < |b.reversals| ensures FromCreditOf(p)(b'.reversals[i]) == FromCreditOf(p)(b.reversals[i]) {
      assert b.reversals[i].payment == p ==> OfChain(b, i, p);
    }
    SumGrown(b.reversals, b'.reversals, FromCreditOf(p));
  }

  lemma {:induction false} SameCounting(b: Books, b': Books, ids: seq<Id>, taken: nat)
    requires forall i :: 0 <= i < |ids| ==>
      AmountOf(b')(ids[i]) == AmountOf(b)(ids[i]) && ReadOpen(b', ids[i]) == ReadOpen(b, ids[i])
    ensures CountingOf(b', ids, taken) == CountingOf(b, ids, taken)
  {
    if ids != [] {
      SameCounting(b, b', ids[..|ids| - 1], taken);
    }
  }

  lemma SameOwn(b: Books, b': Books, p: Id)
    requires Elsewhere(b, b', p)
    ensures Own(b', p) == Own(b, p)
  {
    OwnChain(b, b', p);
    SameCredits(b, b', LeftByWhom(b, p), LeftByWhom(b', p));
    SameTaken(b, b', p);
    var ids := CreditsWhere(b, LeftByWhom(b, p));
    CreditsWhereHold(b, LeftByWhom(b, p));
    forall i | 0 <= i < |ids|
      ensures AmountOf(b')(ids[i]) == AmountOf(b)(ids[i]) && ReadOpen(b', ids[i]) == ReadOpen(b, ids[i])
    {
      assert ids[i] in ids;
      SameOpen(b, b', p, ids[i]);
    }
    SameCounting(b, b', ids, Max(0, TakenFromCredits(b, p)));
  }

  lemma SameInvoices(b: Books, b': Books, p: Id)
    requires Elsewhere(b, b', p)
    ensures InvoicesOf(b', p) == InvoicesOf(b, p)
  {
    SameSigned(b.settlements, b'.settlements, IsOfPayment(p));
  }

  lemma {:induction false} SameOpenParts(b: Books, b': Books, ids: seq<Id>)
    requires forall i :: 0 <= i < |ids| ==> ReadOpen(b', ids[i]) == ReadOpen(b, ids[i])
    ensures OpenParts(b', ids) == OpenParts(b, ids)
  {
    if ids != [] {
      SameOpenParts(b, b', ids[..|ids| - 1]);
    }
  }

  lemma SameCovering(b: Books, b': Books, p: Id)
    requires Elsewhere(b, b', p) && SettlementsOk(b)
    ensures CoveringOf(b', p) == CoveringOf(b, p)
  {
    SameInvoices(b, b', p);
    var invoices := InvoicesOf(b, p);
    var picks := Covers(b, p, invoices);
    SameCredits(b, b', picks, Covers(b', p, invoices));
    var ids := CreditsWhere(b, picks);
    CreditsWhereHold(b, picks);
    forall i | 0 <= i < |ids| ensures ReadOpen(b', ids[i]) == ReadOpen(b, ids[i]) {
      assert ids[i] in ids;
      CoveringInChain(b, p, ids[i]);
      SameOpen(b, b', p, ids[i]);
    }
    SameOpenParts(b, b', ids);
  }

  lemma SameOther(b: Books, b': Books, p: Id, e: Entry)
    requires Elsewhere(b, b', p) && EntryOk(b, e)
    ensures OfAnotherPayment(b, p, e) <==> OfAnotherPayment(b', p, e)
  {
  }

  lemma SortedEntry(b: Books, i: nat)
    requires EntriesOk(b) && i < |Sort(b.entries, EntryKey())|
    ensures EntryOk(b, Sort(b.entries, EntryKey())[i])
  {
    var rows := Sort(b.entries, EntryKey());
    SortOrders(b.entries, EntryKey());
    assert rows[i] in b.entries;
  }

  lemma WrittenElsewhere(b: Books, b': Books, p: Id, c: Id)
    requires Elsewhere(b, b', p) && LeftByWhom(b, p)(c)
    ensures Prefix(b.entries, b'.entries) && forall i :: |b.entries| <= i < |b'.entries| ==> b'.entries[i].credit != c
  {
    OwnChain(b, b', p);
    assert LeftInChain(b', c, p);
  }

  lemma SameCoversGiven(b: Books, b': Books, p: Id, c: Id)
    requires Elsewhere(b, b', p) && EntriesOk(b) && LeftByWhom(b, p)(c)
    ensures CoversGivenBy(b', c, p) == CoversGivenBy(b, c, p)
  {
    hide Elsewhere, EntriesOk, EntryOk, OfAnotherPayment, LeftByWhom;
    WrittenElsewhere(b, b', p, c);
    SameCoverRows(b', b.entries, b'.entries, c, p);
    var rows := Sort(b.entries, EntryKey());
    forall i | 0 <= i < |rows| ensures OfAnotherPayment(b, p, rows[i]) <==> OfAnotherPayment(b', p, rows[i]) {
      SortedEntry(b, i);
      SameOther(b, b', p, rows[i]);
    }
    SameCoverParts(b, b', rows, c, p);
  }

  lemma {:induction false} SameCovers(b: Books, b': Books, own: seq<Reversible>, p: Id)
    requires Elsewhere(b, b', p) && EntriesOk(b)
    requires forall i :: 0 <= i < |own| ==> LeftByWhom(b, p)(own[i].id)
    ensures AllCovers(b', own, p) == AllCovers(b, own, p)
  {
    hide Elsewhere, EntriesOk;
    if own != [] {
      SameCovers(b, b', own[..|own| - 1], p);
      SameCoversGiven(b, b', p, own[|own| - 1].id);
    }
  }

  /** What a withdrawal takes of its payment, and which covers it lifts, does not depend on other chains. */
  lemma SameWithdrawal(b: Books, b': Books, p: Id, amount: nat)
    requires Elsewhere(b, b', p) && SettlementsOk(b) && EntriesOk(b)
    ensures WithdrawalNow(b', p, amount) == WithdrawalNow(b, p, amount)
    ensures LiftedBy(b', p, amount) == LiftedBy(b, p, amount)
    ensures TakenCredits(b', p, amount) == TakenCredits(b, p, amount)
  {
    hide Elsewhere, SettlementsOk, EntriesOk, Own, InvoicesOf, CoveringOf;
    SameOwn(b, b', p);
    SameInvoices(b, b', p);
    SameCovering(b, b', p);
    OwnNames(b, p);
    var own := Own(b, p);
    forall i | 0 <= i < |own| ensures LeftByWhom(b, p)(own[i].id) {
      assert NamesOwn(own, own[i].id);
    }
    SameCovers(b, b', own, p);
  }

  // ---- what a give-back reads ------------------------------------------------------------

  lemma {:induction false} SameCaseParts(b: Books, b': Books, ids: seq<Id>)
    requires forall i :: 0 <= i < |ids| ==>
      ids[i] < |b.cases| && ids[i] < |b'.cases| && b'.cases[ids[i]].amount == b.cases[ids[i]].amount
    ensures CaseParts(b', ids) == CaseParts(b, ids)
  {
    if ids != [] {
      SameCaseParts(b, b', ids[..|ids| - 1]);
    }
  }

  lemma SameCase(b: Books, b': Books, p: Id, k: Id)
    requires Elsewhere(b, b', p) && k < |b.cases|
    ensures k < |b'.cases| && Kept(b.cases[k], b'.cases[k]) && CaseKey(b)(k) == CaseKey(b')(k)
    ensures b'.cases[k].about == b.cases[k].about && b'.cases[k].amount == b.cases[k].amount
  {
  }

  lemma SameAbout(b: Books, b': Books, p: Id, r: Id)
    requires Elsewhere(b, b', p) && OfChain(b, r, p)
    ensures Indices(|b'.cases|, CasesAbout(b', ByReversal(r))) == Indices(|b.cases|, CasesAbout(b, ByReversal(r)))
  {
    assert OfChain(b', r, p);
    var picks, picks' := CasesAbout(b, ByReversal(r)), CasesAbout(b', ByReversal(r));
    forall k: Id | k < |b.cases| ensures picks(k) <==> picks'(k) {
      SameCase(b, b', p, k);
    }
    SameIndices(|b.cases|, |b'.cases|, picks, picks');
  }

  lemma SameCases(b: Books, b': Books, p: Id, r: Id)
    requires Elsewhere(b, b', p) && OfChain(b, r, p)
    ensures CasesOf(b', ByReversal(r)) == CasesOf(b, ByReversal(r))
  {
    hide Elsewhere, OfChain;
    SameAbout(b, b', p, r);
    var ids: seq<Id> := Indices(|b.cases|, CasesAbout(b, ByReversal(r)));
    IndicesHold(|b.cases|, CasesAbout(b, ByReversal(r)));
    forall i | 0 <= i < |ids| ensures CaseKey(b)(ids[i]) == CaseKey(b')(ids[i]) {
      assert ids[i] in ids;
      SameCase(b, b', p, ids[i]);
    }
    SortSameKeys<Id>(ids, CaseKey(b), CaseKey(b'));
    var sorted: seq<Id> := Sort<Id>(ids, CaseKey(b));
    SortOrders<Id>(ids, CaseKey(b));
    forall i | 0 <= i < |sorted|
      ensures sorted[i] < |b.cases| && sorted[i] < |b'.cases| && b'.cases[sorted[i]].amount == b.cases[sorted[i]].amount
    {
      assert sorted[i] in ids;
      SameCase(b, b', p, sorted[i]);
    }
    SameCaseParts(b, b', sorted);
  }

  lemma SameTookOf(b: Books, b': Books, p: Id, r: Id)
    requires Elsewhere(b, b', p) && OfChain(b, r, p)
    ensures TookOf(b', r) == TookOf(b, r)
  {
    assert OfChain(b', r, p);
    SamePaid(b.entries, b'.entries, ByReversal(r));
  }

  lemma {:induction false} SamePicked<T>(rows: seq<T>, picks: T -> bool, picks': T -> bool)
    requires forall i :: 0 <= i < |rows| ==> (picks(rows[i]) <==> picks'(rows[i]))
    ensures Picked(rows, picks') == Picked(rows, picks) && Unpicked(rows, picks') == Unpicked(rows, picks)
  {
    if rows != [] {
      SamePicked(rows[..|rows| - 1], picks, picks');
    }
  }

  lemma {:induction false} PickedKeys<T>(rows: seq<T>, picks: T -> bool, key: T -> Key, key': T -> Key)
    requires SameKeys(rows, key, key')
    ensures SameKeys(Picked(rows, picks), key, key') && SameKeys(Unpicked(rows, picks), key, key')
  {
    if rows != [] {
      PickedKeys(rows[..|rows| - 1], picks, key, key');
    }
  }

  /** Every part of what a reversal took is of a credit there is. */
  lemma TookOfCredits(b: Books, r: Id, i: nat)
    requires EntriesOk(b) && i < |TookOf(b, r)|
    ensures TookOf(b, r)[i].id < |b.credits|
  {
    var rows := Sort(b.entries, EntryKey());
    var parts := PaidParts(rows, ByReversal(r));
    GatheredKeeps(parts);
    assert Names(TookOf(b, r), TookOf(b, r)[i].id);
    var k :| 0 <= k < |parts| && parts[k].id == TookOf(b, r)[i].id;
    forall j | 0 <= j < |rows| ensures rows[j].credit < |b.credits| {
      SortedEntry(b, j);
    }
    PaidOfCredits(rows, ByReversal(r), |b.credits|, k);
  }

  lemma {:induction false} PaidOfCredits(rows: seq<Entry>, source: Source, n: nat, k: nat)
    requires k < |PaidParts(rows, source)| && forall j :: 0 <= j < |rows| ==> rows[j].credit < n
    ensures PaidParts(rows, source)[k].id < n
  {
    if k < |PaidParts(rows[..|rows| - 1], source)| {
      PaidOfCredits(rows[..|rows| - 1], source, n, k);
    }
  }

  lemma SameCredit(b: Books, b': Books, p: Id, q: Id, part: Part)
    requires Elsewhere(b, b', p) && part.id < |b.credits|
    ensures PartKey(b)(part) == PartKey(b')(part) && (IsOwn(b, q)(part) <==> IsOwn(b', q)(part))
  {
    assert b'.credits[part.id] == b.credits[part.id];
    assert CreditKey(b)(part.id) == CreditKey(b')(part.id);
    assert LeftByWhom(b, q)(part.id) <==> LeftByWhom(b', q)(part.id);
  }

  lemma SameOwnFirst(b: Books, b': Books, p: Id, q: Id, parts: seq<Part>)
    requires Elsewhere(b, b', p) && forall i :: 0 <= i < |parts| ==> parts[i].id < |b.credits|
    ensures OwnFirst(b', q, parts) == OwnFirst(b, q, parts)
  {
    hide Elsewhere;
    forall i | 0 <= i < |parts|
      ensures PartKey(b)(parts[i]) == PartKey(b')(parts[i]) && (IsOwn(b, q)(parts[i]) <==> IsOwn(b', q)(parts[i]))
    {
      SameCredit(b, b', p, q, parts[i]);
    }
    SamePicked(parts, IsOwn(b, q), IsOwn(b', q));
    PickedKeys(parts, IsOwn(b, q), PartKey(b), PartKey(b'));
    SortSameKeys(Picked(parts, IsOwn(b, q)), PartKey(b), PartKey(b'));
    SortSameKeys(Unpicked(parts, IsOwn(b, q)), PartKey(b), PartKey(b'));
  }

  lemma {:induction false} SameRestood(b: Books, b': Books, nets: seq<Part>)
    requires b'.invoices == b.invoices && b'.cancellations == b.cancellations
    ensures Restood(b', nets) == Restood(b, nets)
  {
    if nets != [] {
      SameRestood(b, b', nets[..|nets| - 1]);
    }
  }

  lemma SameReopened(b: Books, b': Books, p: Id, r: Id)
    requires Elsewhere(b, b', p) && OfChain(b, r, p)
    ensures ReopenedParts(b', r) == ReopenedParts(b, r)
  {
    assert OfChain(b', r, p);
    SameSigned(b.settlements, b'.settlements, IsOfReversal(r));
    SameRestood(b, b', NetsOf(b, IsOfReversal(r)));
  }

  lemma SameOwed(b: Books, b': Books, p: Id, i: Id)
    requires Elsewhere(b, b', p) && InChainOf(b, p, i)
    ensures OwedAt(b', i) == OwedAt(b, i)
  {
    SumGrown(b.settlements, b'.settlements, OfInvoice(i));
  }

  lemma {:induction false} SameWithOwed(b: Books, b': Books, parts: seq<Part>)
    requires forall i :: 0 <= i < |parts| ==> OwedAt(b', parts[i].id) == OwedAt(b, parts[i].id)
    ensures WithOwed(b', parts) == WithOwed(b, parts)
  {
    if parts != [] {
      SameWithOwed(b, b', parts[..|parts| - 1]);
    }
  }

  lemma SameReopenedOwed(b: Books, b': Books, p: Id, r: Id)
    requires Elsewhere(b, b', p) && OfChain(b, r, p) && SettlementsOk(b)
    ensures WithOwed(b', ReopenedParts(b', r)) == WithOwed(b, ReopenedParts(b, r))
  {
    SameReopened(b, b', p, r);
    var parts := ReopenedParts(b, r);
    forall i | 0 <= i < |parts| ensures OwedAt(b', parts[i].id) == OwedAt(b, parts[i].id) {
      assert Names(parts, parts[i].id);
      ReopenedInChain(b, r, parts[i].id);
      SameOwed(b, b', p, parts[i].id);
    }
    SameWithOwed(b, b', parts);
  }

  lemma SameTookFirst(b: Books, b': Books, p: Id, r: Id)
    requires Elsewhere(b, b', p) && OfChain(b, r, p) && EntriesOk(b)
    ensures OwnFirst(b', b.reversals[r].payment, TookOf(b', r)) == OwnFirst(b, b.reversals[r].payment, TookOf(b, r))
  {
    hide Elsewhere, EntriesOk, TookOf, OwnFirst;
    SameTookOf(b, b', p, r);
    var took := TookOf(b, r);
    forall i | 0 <= i < |took| ensures took[i].id < |b.credits| {
      TookOfCredits(b, r, i);
    }
    SameOwnFirst(b, b', p, b.reversals[r].payment, took);
  }

  lemma SameReversal(b: Books, b': Books, p: Id, r: Id)
    requires Elsewhere(b, b', p) && OfChain(b, r, p)
    ensures r < |b'.reversals| && b'.reversals[r] == b.reversals[r]
  {
  }

  /** Nor does what a give-back divides into, and which cases it closes. */
  lemma SameReinstatement(b: Books, b': Books, p: Id, r: Id, amount: nat)
    requires Elsewhere(b, b', p) && OfChain(b, r, p) && SettlementsOk(b) && EntriesOk(b)
    ensures r < |b'.reversals| && b'.reversals[r] == b.reversals[r]
    ensures ReinstatementNow(b', r, amount) == ReinstatementNow(b, r, amount)
    ensures CoveredNow(b', r, amount) == CoveredNow(b, r, amount)
  {
    hide Elsewhere, SettlementsOk, EntriesOk, TookOf, CasesOf, ReopenedParts, OwnFirst, WithOwed, OfChain;
    hide ReinstatementOf, CasesCovered, Total, AmongOnly;
    SameReversal(b, b', p, r);
    SameCases(b, b', p, r);
    SameTookFirst(b, b', p, r);
    SameReopenedOwed(b, b', p, r);
  }

  // ---- a report writes elsewhere ---------------------------------------------------------

  lemma ReversalApart(held: Books, b': Books, r: Id, q: Id, p: Id)
    requires SameBase(held, b') && OfChain(held, r, q) && !OneChain(held, q, p) && p < |held.payments|
    ensures r < |b'.reversals| && b'.reversals[r].payment == held.reversals[r].payment
    ensures !OfChain(b', r, p) && !OfChain(held, r, p) && b'.reversals[r].payment != p
  {
  }

  /** The books a report of payment `q` goes on in. */
  ghost predicate HeldFor(b: Books, held: Books, q: Id) {
    && held == b.(reversals := held.reversals) && Prefix(b.reversals, held.reversals)
    && forall i :: |b.reversals| <= i < |held.reversals| ==> held.reversals[i].payment == q
  }

  /** Rows written for reversals of the chain of `q` are of no other chain. */
  lemma WritesElsewhere(b: Books, held: Books, b': Books, q: Id, p: Id)
    requires HeldFor(b, held, q) && ReversalWrites(held, b', q) && SettlementsOk(b') && EntriesOk(b')
    requires p < |b.payments| && b.payments[p].invoice in b.invoices && !OneChain(b, q, p)
    ensures Elsewhere(b, b', p)
  {
    assert SettledElsewhere(b, b', p) by {
      forall i | |b.settlements| <= i < |b'.settlements|
        ensures !InChainOf(b, p, b'.settlements[i].invoice) && b'.settlements[i].payment != p
        ensures b'.settlements[i].reversal.Some? ==> !OfChain(b', b'.settlements[i].reversal.value, p)
      {
        assert SettlementOk(b', b'.settlements[i]);
        ReversalApart(held, b', b'.settlements[i].reversal.value, q, p);
      }
    }
    assert EnteredElsewhere(b, b', p) by {
      forall i | |b.entries| <= i < |b'.entries|
        ensures !LeftInChain(b', b'.entries[i].credit, p)
        ensures b'.entries[i].source.ByReversal? ==> !OfChain(b', b'.entries[i].source.reversal, p)
      {
        assert EntryOk(b', b'.entries[i]);
        ReversalApart(held, b', b'.entries[i].source.reversal, q, p);
      }
    }
    assert ReversedElsewhere(b, b', p) by {
      forall i | 0 <= i < |b.reversals| ensures b'.reversals[i] == b.reversals[i] || !OfChain(b, i, p) {
        if OfChain(held, i, q) {
          ReversalApart(held, b', i, q, p);
        }
      }
    }
    assert CasesElsewhere(b, b', p) by {
      forall i | |b.cases| <= i < |b'.cases| && b'.cases[i].about.ByReversal?
        ensures !OfChain(b', b'.cases[i].about.reversal, p)
      {
        ReversalApart(held, b', b'.cases[i].about.reversal, q, p);
      }
    }
  }

  lemma NothingElsewhere(b: Books, p: Id)
    requires p < |b.payments| && b.payments[p].invoice in b.invoices
    ensures Elsewhere(b, b, p)
  {
  }

  /** A report of a payment of another chain writes nothing of the chain of payment `p`. */
  lemma ReportElsewhere(b: Books, report: Report, p: Id)
    requires Sound(b) && p < |b.payments|
    requires var payment := Find(b.payments, PaymentRef(report.paymentRef));
      payment.Some? ==> !OneChain(b, payment.value, p)
    ensures Elsewhere(b, RecordReversal(b, report).books, p)
  {
    hide Sound, Elsewhere, RecordsReport, ReversalWrites, OneChain, Applies, RowsOk, SettlementsOk, EntriesOk, CreditsOk;
    hide CasesOk, ReversalsOk, Chained, Solvent, NetsOk, Bounded, Midway;
    var s := RecordReversal(b, report);
    SoundMidway(b);
    MidwayIs(b, []);
    assert PaymentOk(b, b.payments[p]);
    hide PaymentsOk;
    RecordReversalSound(b, report);
    if s.outcome.Applied? || s.outcome.Unchanged? {
      RecordReversalEffect(b, report);
      var q := Find(b.payments, PaymentRef(report.paymentRef)).value;
      var held := if s.outcome.reversal < |b.reversals| then b else AddReversal(b, report.ref, q);
      SoundMidway(s.books);
      MidwayIs(s.books, []);
      WritesElsewhere(b, held, s.books, q, p);
    } else {
      NothingElsewhere(b, p);
    }
  }

  /** Reports of different chains do not reach one another: after a report of the one, a withdrawal of a payment of
      the other takes what it would have taken, lifts the covers it would have lifted, and its reversal, as
      it was recorded, gives back what it would have given back. */
  lemma ReportsApart(b: Books, report: Report, r: Id, amount: nat)
    requires Sound(b) && r < |b.reversals|
    requires var payment := Find(b.payments, PaymentRef(report.paymentRef));
      payment.Some? ==> !OneChain(b, payment.value, b.reversals[r].payment)
    ensures var p := b.reversals[r].payment;
      var b' := RecordReversal(b, report).books;
      && r < |b'.reversals| && b'.reversals[r] == b.reversals[r]
      && WithdrawalNow(b', p, amount) == WithdrawalNow(b, p, amount)
      && LiftedBy(b', p, amount) == LiftedBy(b, p, amount)
      && TakenCredits(b', p, amount) == TakenCredits(b, p, amount)
      && ReinstatementNow(b', r, amount) == ReinstatementNow(b, r, amount)
      && CoveredNow(b', r, amount) == CoveredNow(b, r, amount)
  {
    hide Sound, RecordReversal, Elsewhere, WithdrawalNow, LiftedBy, TakenCredits, ReinstatementNow, CoveredNow;
    hide SettlementsOk, EntriesOk, PaymentsOk, Chained;
    var p := b.reversals[r].payment;
    SoundMidway(b);
    MidwayIs(b, []);
    OfItsChain(b, r);
    ReportElsewhere(b, report, p);
    var b' := RecordReversal(b, report).books;
    SameWithdrawal(b, b', p, amount);
    SameReinstatement(b, b', p, r, amount);
  }

  lemma OfItsChain(b: Books, r: Id)
    requires PaymentsOk(b) && ReversalsOk(b) && r < |b.reversals|
    ensures b.reversals[r].payment < |b.payments| && OfChain(b, r, b.reversals[r].payment)
  {
    assert ReversalOk(b, b.reversals[r]);
    assert PaymentOk(b, b.payments[b.reversals[r].payment]);
  }
}
