/** Whose payments a cancellation moves onto the replacement and whose it credits, said of the tables alone. */
module CorrectionAnswers {
  import opened Sums
  import opened PaymentRules
  import opened InvoiceChain
  import opened Books
  import opened Soundness
  import opened Brought
  import opened QuietWrites
  import opened PaymentRecords
  import opened Corrections
  import opened WithdrawalAnswers

  /** Payment `p` was recorded before payment `q`, or at the same moment under a lower id. */
  predicate RecordedBefore(b: Books, p: Id, q: Id) {
    && p < |b.payments| && q < |b.payments|
    && (b.payments[p].at < b.payments[q].at
        || (b.payments[p].at == b.payments[q].at && b.rank(Payments, p) < b.rank(Payments, q)))
  }

  /** Shares move in as offers are taken. */
  lemma {:induction false} MovingAsOffers(shares: seq<Part>, owes: nat, q: Id)
    ensures var m := MovingOf(shares, owes);
      var t := PaymentRules.Taken(shares, owes);
      m.owes == t.left && Sum(m.moves, InOf(q)) == On(t.parts, q)
  {
    if shares != [] {
      var n := |shares| - 1;
      MovingAsOffers(shares[..n], owes, q);
      var before := MovingOf(shares[..n], owes);
      var t := PaymentRules.Taken(shares[..n], owes);
      var share := shares[n];
      var movedIn := Min(share.amount, before.owes);
      PushOn(t.parts, share.id, Min(t.left, Max(0, share.amount)), q);
      SumAppend(before.moves, Moved(share.id, share.amount, movedIn, share.amount - movedIn));
    }
  }

  lemma SharesDistinct(b: Books, i: Id)
    ensures Distinct(Shares(b, i)) && Ordered(Shares(b, i), ShareKey(b))
    ensures forall q :: On(Shares(b, i), q) == Net(b, q, i)
  {
    var gathered := Gathered(ShareParts(b.settlements, i));
    GatheredKeeps(ShareParts(b.settlements, i));
    SortOrders(gathered, ShareKey(b));
    SortedDistinct(gathered, ShareKey(b));
    forall q ensures On(Shares(b, i), q) == Net(b, q, i) {
      SharePartsOn(b.settlements, i, q);
      SortSum(gathered, ShareKey(b), Under(q));
    }
  }

  /** Where the shares of two payments stand. */
  lemma SharePlaces(b: Books, i: Id, p: Id, q: Id) returns (k: nat, l: nat)
    requires RecordedBefore(b, p, q) && Net(b, p, i) > 0 && Net(b, q, i) > 0
    ensures k < l < |Shares(b, i)| && Shares(b, i)[k] == Part(p, Net(b, p, i)) && Shares(b, i)[l] == Part(q, Net(b, q, i))
  {
    SharesDistinct(b, i);
    k := SharePlace(b, i, p);
    l := SharePlace(b, i, q);
    if l <= k {
      KeysInOrder(Shares(b, i), ShareKey(b), l, k);
    }
  }

  lemma SharePlace(b: Books, i: Id, p: Id) returns (k: nat)
    requires Net(b, p, i) > 0
    ensures k < |Shares(b, i)| && Shares(b, i)[k] == Part(p, Net(b, p, i))
  {
    hide Net, Shares;
    SharesDistinct(b, i);
    var shares := Shares(b, i);
    if !Names(shares, p) {
      UnnamedIsZero(shares, p);
    }
    k :| 0 <= k < |shares| && shares[k].id == p;
    OnAt(shares, k);
  }

  /** What the moves of a cancellation count for payment `q`. */
  lemma MovesCount(b: Books, i: Id, c: Correction, q: Id)
    requires 0 <= Net(b, q, i)
    ensures var moves := MovesOf(b, i, c);
      var moved := On(PaymentRules.Taken(Shares(b, i), ReplacementAsks(c)).parts, q);
      && (forall k :: 0 <= k < |moves| ==> moves[k].credited >= 0)
      && Sum(moves, InOf(q)) == moved && Sum(moves, OfBoth(InOf(q))) == moved
      && Sum(moves, CreditedOf(q)) == Net(b, q, i) - moved
  {
    hide Shares, Net;
    var moves := MovesOf(b, i, c);
    MovesAre(b, i, c);
    hide MovesOf;
    MovingOk(Shares(b, i), ReplacementAsks(c));
    MovingAsOffers(Shares(b, i), ReplacementAsks(c), q);
    forall k | 0 <= k < |moves|
      ensures moves[k].credited >= 0 && OfBoth(InOf(q))(moves[k]) == InOf(q)(moves[k])
      ensures OutOf(q)(moves[k]) == InOf(q)(moves[k]) + CreditedOf(q)(moves[k])
    {
      assert MoveOk(moves[k], Shares(b, i));
    }
    SumSame(moves, OfBoth(InOf(q)), InOf(q));
    SumSplit(moves, OutOf(q), InOf(q), CreditedOf(q));
    MovesOutWhole(b, i, c, q);
  }

  /** What payment `q` comes to settle of the replacement. */
  lemma MovedIn(b: Books, i: Id, c: Correction, at: int, q: Id)
    requires Sound(b) && Cancellable(b, i, c)
    ensures var b' := CancelledBooks(b, i, c, at);
      var moved := On(PaymentRules.Taken(Shares(b, i), ReplacementAsks(c)).parts, q);
      && (c.replacement.Some? ==> Net(b', q, c.replacement.value) == moved)
      && (c.replacement.None? ==> moved == 0)
      && Sum(b'.credits, LeftFrom(q)) == Sum(b.credits, LeftFrom(q)) + Net(b, q, i) - moved
  {
    hide Sound, CancelledBooks, MovesOf, Corrected, CancelledInvoices, CancelledRows, Shares;
    NetAtLeast(b, q, i);
    MovesCount(b, i, c, q);
    CancelledLeft(b, i, c, at, q);
    if c.replacement.Some? {
      SoundConserved(b);
      UntouchedInvoice(b, c.replacement.value);
      CancelledSum(b, i, c, at, OfPaymentOn(q, c.replacement.value), OfBoth(InOf(q)));
      assert Net(b, q, c.replacement.value) == 0;
    } else {
      NothingTakenOf(Shares(b, i), q);
    }
  }

  lemma NothingTakenOf(offers: seq<Part>, q: Id)
    ensures On(PaymentRules.Taken(offers, 0).parts, q) == 0
  {
    NothingTaken(offers, q);
  }

  /** A cancellation moves every share out of the cancelled invoice whole, of it onto the replacement as much as that
      asks for, those of older payments first: where any of a payment's share is credited, nothing of a payment
      recorded after it moves in. All that moves in is the smaller of what was paid and what is asked for. */
  lemma CancelDoes(b: Books, i: Id, c: Correction, at: int, p: Id, q: Id)
    requires Sound(b) && Cancel(b, i, c, at).outcome.CancelledNow?
    ensures var b' := Cancel(b, i, c, at).books;
      var movedIn := (x: Id) => if c.replacement.Some? then Net(b', x, c.replacement.value) else 0;
      var credited := (x: Id) => Sum(b'.credits, LeftFrom(x)) - Sum(b.credits, LeftFrom(x));
      && Net(b', q, i) == 0 && Net(b, q, i) == movedIn(q) + credited(q)
      && 0 <= movedIn(q) && 0 <= credited(q)
      && (RecordedBefore(b, p, q) && credited(p) > 0 ==> movedIn(q) == 0)
      && (c.replacement.Some? ==> SettledOn(b', c.replacement.value) == Min(Max(0, c.gross), SettledOn(b, i)))
  {
    hide Sound, CancelledBooks, Shares, Corrected, Cancellable;
    CancelsCancellable(b, i, c, at);
    CancelledNets(b, i, c, at, q, i);
    MovedIn(b, i, c, at, q);
    MovedIn(b, i, c, at, p);
    NetAtLeast(b, p, i);
    NetAtLeast(b, q, i);
    InWithinShare(b, i, ReplacementAsks(c), p);
    InWithinShare(b, i, ReplacementAsks(c), q);
    if RecordedBefore(b, p, q) && Net(b, p, i) > 0 && Net(b, q, i) > 0 {
      OlderInFirst(b, i, ReplacementAsks(c), p, q);
    }
    if c.replacement.Some? {
      InAll(b, i, c, at);
    }
  }

  lemma CancelsCancellable(b: Books, i: Id, c: Correction, at: int)
    requires Cancel(b, i, c, at).outcome.CancelledNow?
    ensures Cancellable(b, i, c) && Cancel(b, i, c, at).books == CancelledBooks(b, i, c, at)
  {
  }

  lemma OlderInFirst(b: Books, i: Id, asks: nat, p: Id, q: Id)
    requires RecordedBefore(b, p, q) && Net(b, p, i) > 0 && Net(b, q, i) > 0
    ensures var parts := PaymentRules.Taken(Shares(b, i), asks).parts;
      On(parts, q) > 0 ==> On(parts, p) == Net(b, p, i)
  {
    hide Shares, Net;
    var k, l := SharePlaces(b, i, p, q);
    SharesDistinct(b, i);
    TakenBefore(Shares(b, i), asks, k, l);
  }

  lemma InWithinShare(b: Books, i: Id, asks: nat, q: Id)
    requires 0 <= Net(b, q, i)
    ensures 0 <= On(PaymentRules.Taken(Shares(b, i), asks).parts, q) <= Net(b, q, i)
  {
    SharesOn(b, i, q);
    TakenOn(Shares(b, i), asks, q);
    TakenPositive(Shares(b, i), asks);
    PositiveOn(PaymentRules.Taken(Shares(b, i), asks).parts);
  }

  /** What moves onto the replacement in all. */
  lemma InAll(b: Books, i: Id, c: Correction, at: int)
    requires Sound(b) && Cancellable(b, i, c) && c.replacement.Some?
    ensures SettledOn(CancelledBooks(b, i, c, at), c.replacement.value) == Min(Max(0, c.gross), SettledOn(b, i))
  {
    hide Sound, CancelledBooks, MovesOf, Corrected, CancelledInvoices, CancelledRows, Shares;
    var j := c.replacement.value;
    var moves := MovesOf(b, i, c);
    var shares := Shares(b, i);
    MovesAre(b, i, c);
    MovingOk(shares, ReplacementAsks(c));
    MovingIn(shares, ReplacementAsks(c));
    MovingAsOffers(shares, ReplacementAsks(c), 0);
    TakenTotal(shares, ReplacementAsks(c));
    SoundConserved(b);
    UntouchedInvoice(b, j);
    CancelledSum(b, i, c, at, OfInvoice(j), OfBoth(AllIn()));
    forall k | 0 <= k < |moves| ensures OfBoth(AllIn())(moves[k]) == AllIn()(moves[k]) {
      assert MoveOk(moves[k], shares);
    }
    SumSame(moves, OfBoth(AllIn()), AllIn());
    SharesTotal(b, i);
  }

  lemma {:induction false} SharePartsTotal(rows: seq<Settlement>, i: Id)
    ensures Total(ShareParts(rows, i)) == Sum(rows, OfInvoice(i))
  {
    if rows != [] {
      var n := |rows| - 1;
      SharePartsTotal(rows[..n], i);
      SumAppend(ShareParts(rows[..n], i), Part(rows[n].payment, Signed(rows[n])));
    }
  }

  lemma SharesTotal(b: Books, i: Id)
    requires Sound(b)
    ensures Sum(Shares(b, i), Offered()) == SettledOn(b, i)
  {
    hide Sound;
    var shares := Shares(b, i);
    SharePartsTotal(b.settlements, i);
    GatheredKeeps(ShareParts(b.settlements, i));
    SortSum(Gathered(ShareParts(b.settlements, i)), ShareKey(b), Amount());
    SharesDistinct(b, i);
    forall k | 0 <= k < |shares| ensures Offered()(shares[k]) == Amount()(shares[k]) {
      OnAt(shares, k);
      NetAtLeast(b, shares[k].id, i);
    }
    SumSame(shares, Offered(), Amount());
  }
}
