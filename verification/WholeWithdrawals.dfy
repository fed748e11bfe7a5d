/** A withdrawal from its first write to its last: between them credits may stand below nothing, after
    it none does, and the reversal holds exactly what it withdrew. */
module WholeWithdrawals {
  import opened Sums
  import opened PaymentRules
  import opened InvoiceChain
  import opened Books
  import opened Soundness
  import opened ReversalFrame
  import opened Brought
  import opened Withdrawals
  import opened LiftedCovers

  // ---- all the covers --------------------------------------------------------------------

  /** Whether each of `lifted` is held by a reversal of another payment of the chain of `p`. */
  ghost predicate LentInChain(b: Books, lifted: seq<Cover>, p: Id) {
    forall i :: 0 <= i < |lifted| ==>
      OfChain(b, lifted[i].reversal, p) && b.reversals[lifted[i].reversal].payment != p
  }

  ghost predicate SameExcess(b: Books, b': Books) {
    && |b'.reversals| == |b.reversals|
    && forall q :: 0 <= q < |b.reversals| ==> Excess(b', q) == Excess(b, q)
  }

  ghost predicate SameRecordsOf(b: Books, b': Books, p: Id) {
    && |b'.reversals| == |b.reversals|
    && forall q :: 0 <= q < |b.reversals| && b.reversals[q].payment == p ==> b'.reversals[q] == b.reversals[q]
  }

  /** What lifting covers leaves as it was, from `b` to `b'`. */
  ghost predicate Lifts(b: Books, b': Books, p: Id) {
    && ReversalWrites(b, b', p) && RecordsRise(b, b') && FromCreditsOk(b')
    && SameExcess(b, b') && SameRecordsOf(b, b', p)
  }

  lemma LiftOneMore(b: Books, s: Books, cover: Cover, rest: seq<Cover>, at: int, p: Id)
    requires Lifts(b, s, p) && Midway(s, [cover] + rest) && PositiveCovers([cover] + rest)
    requires OfChain(b, cover.reversal, p) && b.reversals[cover.reversal].payment != p
    ensures Lifts(b, LiftCover(s, cover, at), p)
    ensures Midway(LiftCover(s, cover, at), rest)
  {
    hide LiftCover, Midway, FromCreditsOk, CreditsOk, RecordsRise, ReversalWrites;
    assert ([cover] + rest)[0] == cover;
    LiftCoverKeeps(s, cover, rest, at);
    WritesReach(b, s, p);
    LiftCoverWrites(s, cover, rest, at, p);
    MidwayCases(s, [cover] + rest);
    var s' := LiftCover(s, cover, at);
    WritesTwice(b, s, s', p);
    WritesReach(b, s', p);
    forall q | 0 <= q < |b.reversals| ensures Excess(s', q) == Excess(b, q) {
      LiftCoverExcess(s, cover, at, q);
    }
    LiftCoverRecords(s, cover, at);
    RiseTwice(b, s, s');
    LiftCoverFromCredits(s, cover, at);
  }

  lemma RiseTwice(b: Books, b': Books, b'': Books)
    requires RecordsRise(b, b') && RecordsRise(b', b'')
    ensures RecordsRise(b, b'')
  {
  }

  /** The loop that lifts: with every cover lifted one credit less stands below nothing. */
  lemma {:induction false} LiftAllKeeps(b: Books, lifted: seq<Cover>, at: int, p: Id, k: nat)
    requires k <= |lifted| && Midway(b, lifted) && PositiveCovers(lifted)
    requires LentInChain(b, lifted, p) && FromCreditsOk(b)
    ensures var s := LiftAll(b, lifted[..k], at); Midway(s, lifted[k..]) && Lifts(b, s, p)
  {
    hide LiftCover, Midway, FromCreditsOk;
    if k == 0 {
      assert lifted[0..] == lifted;
      WritesNothing(b, p);
    } else {
      hide ReversalWrites;
      LiftAllKeeps(b, lifted, at, p, k - 1);
      assert lifted[k - 1..] == [lifted[k - 1]] + lifted[k..];
      assert lifted[..k][..k - 1] == lifted[..k - 1];
      LiftOneMore(b, LiftAll(b, lifted[..k - 1], at), lifted[k - 1], lifted[k..], at, p);
    }
  }

  // ---- what a withdrawal takes of its own credits ----------------------------------------

  lemma {:induction false} LiftedPartsSum(lifted: seq<Cover>, c: Id)
    ensures On(LiftedParts(lifted), c) == Sum(lifted, OfCredit(c))
    ensures Total(LiftedParts(lifted)) == Sum(lifted, CoverAmount())
    ensures PositiveCovers(lifted) ==> Positive(LiftedParts(lifted))
    ensures |LiftedParts(lifted)| == |lifted|
  {
    if lifted != [] {
      var n := |lifted| - 1;
      LiftedPartsSum(lifted[..n], c);
      SumAppend(LiftedParts(lifted[..n]), Part(lifted[n].credit, lifted[n].amount));
    }
  }

  lemma {:induction false} LiftedPartsNames(lifted: seq<Cover>, i: nat)
    requires i < |lifted|
    ensures |LiftedParts(lifted)| == |lifted| && LiftedParts(lifted)[i].id == lifted[i].credit
  {
    LiftedPartsSum(lifted, 0);
    var n := |lifted| - 1;
    if i < n {
      LiftedPartsNames(lifted[..n], i);
    }
  }

  lemma {:induction false} TakenOfOwnOn(own: seq<Reversible>, all: seq<Part>, c: Id)
    requires DistinctOwn(own)
    ensures Positive(TakenOfOwn(own, all))
    ensures On(TakenOfOwn(own, all), c) == if NamesOwn(own, c) then Max(0, On(all, c)) else 0
  {
    if own != [] {
      var n := |own| - 1;
      TakenOfOwnOn(own[..n], all, c);
      PushOn(TakenOfOwn(own[..n], all), own[n].id, On(all, own[n].id), c);
      NamesOwnPush(own, c);
      hide On;
    }
  }

  lemma NamesOwnPush(own: seq<Reversible>, c: Id)
    requires own != []
    ensures NamesOwn(own, c) <==> NamesOwn(own[..|own| - 1], c) || own[|own| - 1].id == c
  {
    var n := |own| - 1;
    if NamesOwn(own[..n], c) {
      var i :| 0 <= i < n && own[..n][i].id == c;
      assert own[i].id == c;
    }
    if NamesOwn(own, c) {
      var i :| 0 <= i < |own| && own[i].id == c;
      assert i < n ==> own[..n][i].id == c;
    }
  }

  lemma TakenOfOwnNames(own: seq<Reversible>, all: seq<Part>, c: Id)
    requires DistinctOwn(own) && Names(TakenOfOwn(own, all), c)
    ensures NamesOwn(own, c)
  {
    TakenOfOwnOn(own, all, c);
    PositiveNamed(TakenOfOwn(own, all), c);
  }

  /** What a withdrawal takes of its own credits, open parts and lifted covers, names them alone. */
  lemma OwnTakenNames(b: Books, p: Id, amount: nat, c: Id)
    ensures var all := WithdrawalNow(b, p, amount).credits + LiftedParts(LiftedBy(b, p, amount));
      Names(all, c) ==> LeftByWhom(b, p)(c)
  {
    var own := Own(b, p);
    var w := WithdrawalNow(b, p, amount);
    var lifted := LiftedBy(b, p, amount);
    var all := w.credits + LiftedParts(lifted);
    OwnNames(b, p);
    OwnShareNames(own, amount);
    LiftedReached(w.beyondOpen, AllCovers(b, own, p));
    if Names(all, c) {
      NamesConcat(w.credits, LiftedParts(lifted), c);
      if Names(w.credits, c) {
        var i :| 0 <= i < |w.credits| && w.credits[i].id == c;
        assert NamesOwn(own, w.credits[i].id);
      } else {
        LiftedPartsSum(lifted, c);
        var i :| 0 <= i < |lifted| && LiftedParts(lifted)[i].id == c;
        LiftedPartsNames(lifted, i);
        assert Names(w.beyondOpen, lifted[i].credit);
        var j :| 0 <= j < |w.beyondOpen| && w.beyondOpen[j].id == c;
        assert NamesOwn(own, w.beyondOpen[j].id);
      }
    }
  }

  lemma LiftedPositive(b: Books, p: Id, amount: nat)
    ensures PositiveCovers(LiftedBy(b, p, amount))
    ensures 0 <= Sum(LiftedBy(b, p, amount), CoverAmount()) <= Total(WithdrawalNow(b, p, amount).beyondOpen)
  {
    var w := WithdrawalNow(b, p, amount);
    WithdrawalPositive(amount, Own(b, p), InvoicesOf(b, p), CoveringOf(b, p));
    LiftedTotal(w.beyondOpen, AllCovers(b, Own(b, p), p));
    SumNonNegative(LiftedBy(b, p, amount), CoverAmount());
  }

  /** Of each own credit a withdrawal takes its open part and the covers it lifts of it. */
  lemma TakenCreditsOn(b: Books, p: Id, amount: nat, c: Id)
    ensures On(TakenCredits(b, p, amount), c)
         == On(WithdrawalNow(b, p, amount).credits, c) + Sum(LiftedBy(b, p, amount), OfCredit(c))
    ensures Positive(TakenCredits(b, p, amount))
    ensures Names(TakenCredits(b, p, amount), c) ==> LeftByWhom(b, p)(c)
  {
    var own := Own(b, p);
    var w := WithdrawalNow(b, p, amount);
    var lifted := LiftedBy(b, p, amount);
    var all := w.credits + LiftedParts(lifted);
    OwnNames(b, p);
    TakenOfOwnOn(own, all, c);
    if Names(TakenCredits(b, p, amount), c) {
      TakenOfOwnNames(own, all, c);
    }
    SumConcat(w.credits, LiftedParts(lifted), Under(c));
    LiftedPartsSum(lifted, c);
    LiftedPositive(b, p, amount);
    WithdrawalPositive(amount, own, InvoicesOf(b, p), CoveringOf(b, p));
    PositiveOn(all);
    OwnTakenNames(b, p, amount, c);
    if !Names(all, c) {
      UnnamedIsZero(all, c);
    }
  }

  lemma TakenCreditsTotal(b: Books, p: Id, amount: nat)
    ensures Total(TakenCredits(b, p, amount))
         == Total(WithdrawalNow(b, p, amount).credits) + Sum(LiftedBy(b, p, amount), CoverAmount())
  {
    var w := WithdrawalNow(b, p, amount);
    var lifted := LiftedBy(b, p, amount);
    var all := w.credits + LiftedParts(lifted);
    forall c ensures On(TakenCredits(b, p, amount), c) == On(all, c) {
      TakenCreditsOn(b, p, amount, c);
      SumConcat(w.credits, LiftedParts(lifted), Under(c));
      LiftedPartsSum(lifted, c);
    }
    SameOnSameTotal(TakenCredits(b, p, amount), all);
    SumConcat(w.credits, LiftedParts(lifted), Amount());
    LiftedPartsSum(lifted, 0);
  }

  // ---- the first write -------------------------------------------------------------------

  /** A cover lifted is no more than is held of it. */
  lemma LiftedHeld(b: Books, p: Id, amount: nat, c: Id, q: Id)
    requires 0 <= Took(b, c, ByReversal(q))
    ensures Sum(LiftedBy(b, p, amount), OfPair(c, q)) <= Took(b, c, ByReversal(q))
  {
    var own := Own(b, p);
    var w := WithdrawalNow(b, p, amount);
    OwnNames(b, p);
    OwnShareNames(own, amount);
    AllCoversPositive(b, own, p);
    LiftedPair(w.beyondOpen, AllCovers(b, own, p), c, q);
    AllCoversPair(b, own, p, c, q);
  }

  lemma CoveringPositive(b: Books, p: Id, amount: nat)
    ensures Positive(WithdrawalNow(b, p, amount).covering)
  {
    WithdrawalPositive(amount, Own(b, p), InvoicesOf(b, p), CoveringOf(b, p));
  }

  /** Of a credit is written what is taken of it, and what is lifted of the covers it gave. */
  lemma CreditsWritten(b: Books, p: Id, amount: nat, c: Id)
    ensures var w := WithdrawalNow(b, p, amount);
      On(TakenCredits(b, p, amount) + w.covering, c)
        == On(w.credits + w.covering, c) + Sum(LiftedBy(b, p, amount), OfCredit(c)) >= 0
  {
    hide WithdrawalNow, TakenCredits, LiftedBy;
    var w := WithdrawalNow(b, p, amount);
    CoveringPositive(b, p, amount);
    TakenCreditsOn(b, p, amount, c);
    PositiveOn(TakenCredits(b, p, amount));
    PositiveOn(w.covering);
    assert On(TakenCredits(b, p, amount), c) >= 0 && On(w.covering, c) >= 0;
    SumConcat(TakenCredits(b, p, amount), w.covering, Under(c));
    SumConcat(w.credits, w.covering, Under(c));
  }

  lemma WithdrawalAffords(b: Books, r: Id, amount: nat)
    requires Solvent(b, [])
    ensures var p := PaymentOf(b, r);
      Affords(b, r, TakenCredits(b, p, amount) + WithdrawalNow(b, p, amount).covering, LiftedBy(b, p, amount))
  {
    hide WithdrawalNow, TakenCredits, LiftedBy;
    var p := PaymentOf(b, r);
    var w := WithdrawalNow(b, p, amount);
    var credits := TakenCredits(b, p, amount) + w.covering;
    var lifted := LiftedBy(b, p, amount);
    forall c: Id ensures On(credits, c) == On(w.credits + w.covering, c) + Sum(lifted, OfCredit(c)) >= 0 {
      CreditsWritten(b, p, amount, c);
    }
    forall c | 0 <= c < |b.credits| ensures On(credits, c) <= Open(b, c) + Sum(lifted, OfCredit(c)) {
      WithdrawalWithinOpen(b, p, amount, c);
      assert Sum([], OfCredit(c)) == 0;
    }
    forall c: Id, q: Id
      ensures Sum(lifted, OfPair(c, q)) <= Took(b, c, ByReversal(q)) + if q == r then On(credits, c) else 0
    {
      assert Sum([], OfPair(c, q)) == 0;
      LiftedHeld(b, p, amount, c, q);
    }
  }

  lemma WithdrawalMayTake(b: Books, r: Id, amount: nat)
    requires RowsOk(b) && r < |b.reversals|
    ensures var p := PaymentOf(b, r);
      var w := WithdrawalNow(b, p, amount);
      MayTake(b, r, p, TakenCredits(b, p, amount) + w.covering, w.invoices)
  {
    var p := PaymentOf(b, r);
    var w := WithdrawalNow(b, p, amount);
    var credits := TakenCredits(b, p, amount) + w.covering;
    WithdrawalPositive(amount, Own(b, p), InvoicesOf(b, p), CoveringOf(b, p));
    TakenCreditsOn(b, p, amount, 0);
    WithdrawalInReach(b, r, p, amount);
    hide RowsOk, WithdrawalNow, TakenCredits;
    forall c | Names(credits, c) ensures InReach(b, r, c) {
      NamesConcat(TakenCredits(b, p, amount), w.covering, c);
      TakenCreditsOn(b, p, amount, c);
      if Names(TakenCredits(b, p, amount), c) {
        OwnInReach(b, r, c);
      }
    }
  }

  /** After the first write every cover to be lifted is still held, and with those given back no
      credit stands below nothing. */
  lemma WrittenKeeps(b: Books, r: Id, amount: nat, at: int)
    requires Midway(b, []) && r < |b.reversals|
    ensures Midway(WithdrawalWritten(b, r, amount, at), LiftedBy(b, PaymentOf(b, r), amount))
  {
    hide RowsOk, Bounded;
    var p := PaymentOf(b, r);
    var w := WithdrawalNow(b, p, amount);
    var credits := TakenCredits(b, p, amount) + w.covering;
    var lifted := LiftedBy(b, p, amount);
    WithdrawalMayTake(b, r, amount);
    WithdrawalAffords(b, r, amount);
    hide WithdrawalNow, TakenCredits, LiftedBy, Take;
    TakeKeepsRows(b, r, p, credits, w.invoices, at);
    forall i: Id ensures On(w.invoices, i) <= Net(b, p, i) {
      WithdrawalWithinOpen(b, p, amount, i);
    }
    TakeKeepsNets(b, r, p, credits, w.invoices, at);
    TakeKeepsSolvent(b, r, p, credits, w.invoices, at, lifted);
  }

  lemma LiftedOfBeyond(b: Books, p: Id, amount: nat, c: Id)
    requires Sum(LiftedBy(b, p, amount), OfCredit(c)) > 0
    ensures On(WithdrawalNow(b, p, amount).beyondOpen, c) > 0
  {
    var w := WithdrawalNow(b, p, amount);
    var lifted := LiftedBy(b, p, amount);
    LiftedReached(w.beyondOpen, AllCovers(b, Own(b, p), p));
    WithdrawalPositive(amount, Own(b, p), InvoicesOf(b, p), CoveringOf(b, p));
    if i :| 0 <= i < |lifted| && lifted[i].credit == c {
      PositiveNamed(w.beyondOpen, c);
    } else {
      SumZero(lifted, OfCredit(c));
    }
  }

  /** Between the first write and the last cover lifted a credit stands below nothing exactly where covers
      of it are lifted, and by what they come to. */
  lemma BelowNothingMeanwhile(b: Books, r: Id, amount: nat, at: int, c: Id)
    requires Solvent(b, []) && c < |b.credits|
    ensures var b' := WithdrawalWritten(b, r, amount, at);
      var lifted := Sum(LiftedBy(b, PaymentOf(b, r), amount), OfCredit(c));
      && c < |b'.credits| && lifted >= 0
      && (Open(b', c) < 0 <==> lifted > 0) && (lifted > 0 ==> Open(b', c) == -lifted)
  {
    var p := PaymentOf(b, r);
    var w := WithdrawalNow(b, p, amount);
    var lifted := LiftedBy(b, p, amount);
    var credits := TakenCredits(b, p, amount) + w.covering;
    assert 0 <= Open(b, c) + Sum([], OfCredit(c));
    WithdrawalWithinOpen(b, p, amount, c);
    TakenCreditsOn(b, p, amount, c);
    SumConcat(TakenCredits(b, p, amount), w.covering, Under(c));
    LiftedPositive(b, p, amount);
    SumNonNegative(lifted, OfCredit(c));
    WithdrawalPositive(amount, Own(b, p), InvoicesOf(b, p), CoveringOf(b, p));
    PositiveOn(w.covering);
    TakePaidOut(b, r, p, credits, w.invoices, at, c);
    TakeFrame(b, r, p, credits, w.invoices, at);
    if Sum(lifted, OfCredit(c)) > 0 {
      LiftedOfBeyond(b, p, amount, c);
      OwnNames(b, p);
      BeyondTheWhole(Own(b, p), amount, c);
      OwnOpen(b, p, c);
      LiftedIsOwn(b, p, amount, c);
    }
  }

  lemma LiftedIsOwn(b: Books, p: Id, amount: nat, c: Id)
    requires Sum(LiftedBy(b, p, amount), OfCredit(c)) > 0
    ensures LeftByWhom(b, p)(c)
  {
    var lifted := LiftedBy(b, p, amount);
    LiftedPartsSum(lifted, c);
    var w := WithdrawalNow(b, p, amount);
    if Names(LiftedParts(lifted), c) {
      var i :| 0 <= i < |LiftedParts(lifted)| && LiftedParts(lifted)[i].id == c;
      assert (w.credits + LiftedParts(lifted))[|w.credits| + i].id == c;
      OwnTakenNames(b, p, amount, c);
    } else {
      UnnamedIsZero(LiftedParts(lifted), c);
    }
  }

  lemma WrittenExcess(b: Books, r: Id, amount: nat, at: int, q: Id)
    requires r < |b.reversals| && q < |b.reversals|
    ensures var p := PaymentOf(b, r);
      var b' := WithdrawalWritten(b, r, amount, at);
      && |b'.reversals| == |b.reversals|
      && Excess(b', q) == Excess(b, q) + if q == r
           then amount - WithdrawalNow(b, p, amount).unmatched + Sum(LiftedBy(b, p, amount), CoverAmount())
           else 0
  {
    var p := PaymentOf(b, r);
    var w := WithdrawalNow(b, p, amount);
    WithdrawalAddsUp(amount, Own(b, p), InvoicesOf(b, p), CoveringOf(b, p));
    TakenCreditsTotal(b, p, amount);
    SumConcat(TakenCredits(b, p, amount), w.covering, Amount());
    TakeExcess(b, r, p, TakenCredits(b, p, amount) + w.covering, w.invoices, at, q);
  }

  lemma WrittenWrites(b: Books, r: Id, amount: nat, at: int)
    requires RowsOk(b) && r < |b.reversals|
    ensures var p := PaymentOf(b, r);
      var b' := WithdrawalWritten(b, r, amount, at);
      && ReversalWrites(b, b', p) && OfChain(b, r, p)
      && b'.reversals == b.reversals && b'.credits == b.credits
  {
    var p := PaymentOf(b, r);
    var w := WithdrawalNow(b, p, amount);
    assert ReversalOk(b, b.reversals[r]);
    assert PaymentOk(b, b.payments[p]);
    WithdrawalInReach(b, r, p, amount);
    TakeWrites(b, r, p, TakenCredits(b, p, amount) + w.covering, w.invoices, at, p);
    TakeFrame(b, r, p, TakenCredits(b, p, amount) + w.covering, w.invoices, at);
  }

  // ---- the whole withdrawal --------------------------------------------------------------

  lemma CoverHeld(b: Books, p: Id, covers: seq<Cover>, c: Id, q: Id)
    requires PositiveCovers(covers) && IsCover(covers, c, q)
    ensures Sum(covers, OfPair(c, q)) > 0
  {
    var i :| 0 <= i < |covers| && covers[i].credit == c && covers[i].reversal == q;
    SumNonNegative(covers, OfPair(c, q));
    assert OfPair(c, q)(covers[i]) > 0;
  }

  /** A cover of an own credit is held by a reversal of another payment of the same chain. */
  lemma CoverInChain(b: Books, p: Id, c: Id, q: Id)
    requires RowsOk(b) && IsCover(AllCovers(b, Own(b, p), p), c, q)
    ensures OfChain(b, q, p) && b.reversals[q].payment != p
  {
    var covers := AllCovers(b, Own(b, p), p);
    AllCoversPositive(b, Own(b, p), p);
    CoverHeld(b, p, covers, c, q);
    OwnNames(b, p);
    AllCoversPair(b, Own(b, p), p, c, q);
    TookByEntry(b, c, q);
  }

  lemma LiftedLent(b: Books, p: Id, amount: nat)
    requires RowsOk(b)
    ensures LentInChain(b, LiftedBy(b, p, amount), p)
  {
    var covers := AllCovers(b, Own(b, p), p);
    var lifted := LiftedBy(b, p, amount);
    LiftedReached(WithdrawalNow(b, p, amount).beyondOpen, covers);
    hide RowsOk;
    forall i | 0 <= i < |lifted|
      ensures OfChain(b, lifted[i].reversal, p) && b.reversals[lifted[i].reversal].payment != p
    {
      CoverInChain(b, p, lifted[i].credit, lifted[i].reversal);
    }
  }

  /** The books once every cover is lifted, before the case for what stays unmatched. */
  function Uncovering(b: Books, r: Id, amount: nat, at: int): Books {
    LiftAll(WithdrawalWritten(b, r, amount, at), LiftedBy(b, PaymentOf(b, r), amount), at)
  }

  lemma UncoveringKeeps(b: Books, r: Id, amount: nat, at: int)
    requires Midway(b, []) && r < |b.reversals| && FromCreditsOk(b)
    ensures var p := PaymentOf(b, r);
      && Midway(Uncovering(b, r, amount, at), [])
      && Lifts(WithdrawalWritten(b, r, amount, at), Uncovering(b, r, amount, at), p)
      && ReversalWrites(b, WithdrawalWritten(b, r, amount, at), p) && OfChain(b, r, p)
  {
    hide Midway, WithdrawalWritten, LiftedBy, LiftAll, Lifts, FromCreditsOk;
    var p := PaymentOf(b, r);
    var lifted := LiftedBy(b, p, amount);
    var written := WithdrawalWritten(b, r, amount, at);
    MidwayRows(b, []);
    WrittenKeeps(b, r, amount, at);
    WrittenWrites(b, r, amount, at);
    LiftedPositive(b, p, amount);
    LiftedLent(b, p, amount);
    assert LentInChain(written, lifted, p);
    SameFromCredits(b, written);
    LiftAllKeeps(written, lifted, at, p, |lifted|);
    assert lifted[..|lifted|] == lifted && lifted[|lifted|..] == [];
  }

  lemma SameFromCredits(b: Books, b': Books)
    requires FromCreditsOk(b) && b'.reversals == b.reversals && b'.credits == b.credits
    ensures FromCreditsOk(b')
  {
  }

  /** A withdrawal keeps what holds between commits, writes within its chain, and afterwards the
      reversal holds `amount` more: every other reversal, lifted covers included, what it held. */
  lemma WithdrawKeeps(b: Books, r: Id, amount: nat, at: int)
    requires Midway(b, []) && r < |b.reversals| && FromCreditsOk(b)
    ensures var p := PaymentOf(b, r);
      var b' := Withdraw(b, r, amount, at);
      && Midway(b', []) && ReversalWrites(b, b', p) && RecordsRise(b, b') && FromCreditsOk(b')
      && SameRecordsOf(b, b', p)
      && forall q :: 0 <= q < |b.reversals| ==> Excess(b', q) == Excess(b, q) + if q == r then amount else 0
  {
    hide Midway, WithdrawalWritten, LiftAll, FromCreditsOk, WithdrawalNow, LiftedBy, ReversalWrites, RecordsRise, OpenCase;
    var p := PaymentOf(b, r);
    var lifted := LiftedBy(b, p, amount);
    var written := WithdrawalWritten(b, r, amount, at);
    var lifting := Uncovering(b, r, amount, at);
    var unmatched := WithdrawalNow(b, p, amount).unmatched - Sum(lifted, CoverAmount());
    var b' := OpenCase(lifting, ByReversal(r), unmatched, at);
    assert b' == Withdraw(b, r, amount, at);
    MidwayRows(b, []);
    UncoveringKeeps(b, r, amount, at);
    WritesReach(b, written, p);
    WritesTwice(b, written, lifting, p);
    WritesReach(b, lifting, p);
    OpenCaseWrites(lifting, r, unmatched, at, p);
    WritesTwice(b, lifting, b', p);
    CaseKeeps(lifting, r, unmatched, at);
    WrittenWrites(b, r, amount, at);
    RecordsRiseFrom(b, written, lifting, b');
    UnmatchedLeft(b, p, amount);
    forall q | 0 <= q < |b.reversals| ensures Excess(b', q) == Excess(b, q) + if q == r then amount else 0 {
      WrittenExcess(b, r, amount, at, q);
      OpenCaseExcess(lifting, r, unmatched, at, q);
    }
  }

  lemma CaseKeeps(b: Books, r: Id, amount: int, at: int)
    requires Midway(b, []) && FromCreditsOk(b) && r < |b.reversals|
    ensures var b' := OpenCase(b, ByReversal(r), amount, at);
      Midway(b', []) && FromCreditsOk(b') && b'.reversals == b.reversals
  {
    hide Midway, CasesOk;
    MidwayCases(b, []);
    OpenCaseGrows(b, r, amount, at);
    MidwayStays(b, OpenCase(b, ByReversal(r), amount, at), []);
  }

  lemma RecordsRiseFrom(b: Books, written: Books, lifting: Books, b': Books)
    requires written.reversals == b.reversals && RecordsRise(written, lifting) && b'.reversals == lifting.reversals
    ensures RecordsRise(b, b')
  {
  }

  /** What lifting covers leaves unmatched is never below nothing. */
  lemma UnmatchedLeft(b: Books, p: Id, amount: nat)
    ensures 0 <= WithdrawalNow(b, p, amount).unmatched - Sum(LiftedBy(b, p, amount), CoverAmount())
  {
    LiftedPositive(b, p, amount);
    WithdrawalAddsUp(amount, Own(b, p), InvoicesOf(b, p), CoveringOf(b, p));
  }
}
