/** The arithmetic of the subscriber ledger, in whole cents: how amounts divide across credits and
    invoices, each rule as a fold and as the loop that computes it. */
module PaymentRules {
  import opened Sums

  // ---- greedy division -------------------------------------------------------------------

  /** What is taken so far, and what is still to take. */
  datatype Taking = Taking(parts: seq<Part>, left: nat)

  function TakeOne(t: Taking, offer: Part): Taking {
    var taken := Min(t.left, Max(0, offer.amount));
    Taking(Push(t.parts, offer.id, taken), t.left - taken)
  }

  /** `t` goes on to take of `offers` in the order given, of each no more than it offers. */
  function TakeOn(t: Taking, offers: seq<Part>): Taking {
    if offers == [] then t else TakeOne(TakeOn(t, offers[..|offers| - 1]), offers[|offers| - 1])
  }

  function Taken(offers: seq<Part>, amount: nat): Taking {
    TakeOn(Taking([], amount), offers)
  }

  lemma {:induction false} TakenPositive(offers: seq<Part>, amount: nat)
    ensures Positive(Taken(offers, amount).parts)
  {
    if offers != [] {
      TakenPositive(offers[..|offers| - 1], amount);
    }
  }

  /** The amount is taken, or everything on offer where that is less. */
  lemma {:induction false} TakenTotal(offers: seq<Part>, amount: nat)
    ensures var t := Taken(offers, amount);
      && 0 <= Sum(offers, Offered())
      && Total(t.parts) == amount - t.left == Min(amount, Sum(offers, Offered()))
  {
    if offers != [] {
      var n := |offers| - 1;
      TakenTotal(offers[..n], amount);
      var t := Taken(offers[..n], amount);
      PushTotal(t.parts, offers[n].id, Min(t.left, Max(0, offers[n].amount)));
    }
  }

  /** What is taken under an id stays within what the id offers. */
  lemma {:induction false} TakenOn(offers: seq<Part>, amount: nat, id: Id)
    ensures On(Taken(offers, amount).parts, id) <= Sum(offers, OfferedUnder(id))
  {
    if offers != [] {
      var n := |offers| - 1;
      TakenOn(offers[..n], amount, id);
      var t := Taken(offers[..n], amount);
      PushOn(t.parts, offers[n].id, Min(t.left, Max(0, offers[n].amount)), id);
    }
  }

  /** First come, first taken: what follows the first offers is reached only with what they left. */
  lemma {:induction false} TakenInOrder(t: Taking, first: seq<Part>, later: seq<Part>)
    ensures TakeOn(t, first + later) == TakeOn(TakeOn(t, first), later)
  {
    if later == [] {
      assert first + later == first;
    } else {
      var n := |later| - 1;
      TakenInOrder(t, first, later[..n]);
      assert (first + later)[..|first + later| - 1] == first + later[..n];
    }
  }

  /** Where anything is left to take, every offer was taken whole. */
  lemma {:induction false} TakenWhole(offers: seq<Part>, amount: nat, id: Id)
    ensures Taken(offers, amount).left > 0 ==>
      On(Taken(offers, amount).parts, id) == Sum(offers, OfferedUnder(id))
  {
    if offers != [] {
      var n := |offers| - 1;
      TakenWhole(offers[..n], amount, id);
      var t := Taken(offers[..n], amount);
      PushOn(t.parts, offers[n].id, Min(t.left, Max(0, offers[n].amount)), id);
    }
  }

  /** Later offers take off nothing that was taken, and where nothing is left to take, take nothing. */
  lemma {:induction false} LaterTakes(t: Taking, later: seq<Part>, id: Id)
    ensures On(TakeOn(t, later).parts, id) >= On(t.parts, id)
    ensures t.left == 0 ==> TakeOn(t, later) == t
  {
    if later != [] {
      var n := |later| - 1;
      LaterTakes(t, later[..n], id);
      var before := TakeOn(t, later[..n]);
      PushOn(before.parts, later[n].id, Min(before.left, Max(0, later[n].amount)), id);
    }
  }

  lemma {:induction false} LaterLeaves(t: Taking, later: seq<Part>, id: Id)
    requires !Names(later, id)
    ensures On(TakeOn(t, later).parts, id) == On(t.parts, id)
  {
    if later != [] {
      var n := |later| - 1;
      assert forall i :: 0 <= i < n ==> later[..n][i] == later[i];
      assert later[n].id != id && !Names(later[..n], id);
      LaterLeaves(t, later[..n], id);
      var before := TakeOn(t, later[..n]);
      PushOn(before.parts, later[n].id, Min(before.left, Max(0, later[n].amount)), id);
    }
  }

  lemma StandApart(offers: seq<Part>, i: nat, j: nat)
    requires i < j < |offers| && Distinct(offers)
    ensures var first, later := offers[..i + 1], offers[i + 1..];
      && Distinct(first) && !Names(first, offers[j].id)
      && !Names(later, offers[i].id) && !Names(first[..i], offers[i].id)
  {
  }

  /** Where anything is taken of an offer, every one before it was taken whole. */
  lemma TakenBefore(offers: seq<Part>, amount: nat, i: nat, j: nat)
    requires i < j < |offers| && Distinct(offers)
    ensures var parts := Taken(offers, amount).parts;
      On(parts, offers[j].id) > 0 ==> On(parts, offers[i].id) == Max(0, offers[i].amount)
  {
    var first, later := offers[..i + 1], offers[i + 1..];
    var c, d := offers[i].id, offers[j].id;
    hide Names, Distinct, Positive;
    assert offers == first + later && first == first[..i] + [first[i]];
    StandApart(offers, i, j);
    TakenInOrder(Taking([], amount), first, later);
    var t := Taken(first, amount);
    TakenOn(first, amount, d);
    TakenPositive(first, amount);
    PositiveOn(t.parts);
    DistinctOffered(first, d);
    UnnamedIsZero(first, d);
    LaterLeaves(t, later, c);
    LaterTakes(t, later, d);
    TakenWhole(first, amount, c);
    DistinctOffered(first, c);
    SumAppend(first[..i], first[i]);
    UnnamedIsZero(first[..i], c);
  }

  /** The loop every division runs: `Math.min(left, open)`, one offer after another. */
  method TakeEach(offers: seq<Part>, amount: nat) returns (parts: seq<Part>, left: nat)
    ensures Taking(parts, left) == Taken(offers, amount)
  {
    parts, left := [], amount;
    for k := 0 to |offers|
      invariant Taking(parts, left) == Taken(offers[..k], amount)
    {
      assert offers[..k + 1][..k] == offers[..k];
      var taken := Min(left, Max(0, offers[k].amount));
      parts := Push(parts, offers[k].id, taken);
      left := left - taken;
    }
    assert offers[..|offers|] == offers;
  }

  // ---- payments and credits --------------------------------------------------------------

  /** What a payment settles of what is owed; the rest of it is a credit. */
  function SettlesOf(amount: nat, owed: int): nat {
    Min(amount, Max(0, owed))
  }

  /** What a credit still owes after `paidOut`, never below nothing. */
  function OpenOf(amount: int, paidOut: int): nat {
    Max(0, amount - paidOut)
  }

  // ---- a reversal takes its payment back -------------------------------------------------

  /** A credit the reversed payment left: what no reversal of it took yet, and what is open of it. */
  datatype Reversible = Reversible(id: Id, left: int, open: int)

  function LeftOf(): Reversible -> int {
    (r: Reversible) => Max(0, r.left)
  }

  function LeftUnder(id: Id): Reversible -> int {
    (r: Reversible) => if r.id == id then Max(0, r.left) else 0
  }

  function OpenUnder(id: Id): Reversible -> int {
    (r: Reversible) => if r.id == id then Max(0, r.open) else 0
  }

  predicate DistinctOwn(own: seq<Reversible>) {
    forall i, j :: 0 <= i < j < |own| ==> own[i].id != own[j].id
  }

  predicate NamesOwn(own: seq<Reversible>, id: Id) {
    exists i :: 0 <= i < |own| && own[i].id == id
  }

  /** What a withdrawal takes of the payment's own credits: of their open part, and beyond it. */
  datatype OwnShare = OwnShare(credits: seq<Part>, beyondOpen: seq<Part>, left: nat)

  function TakeOwn(s: OwnShare, credit: Reversible): OwnShare {
    var taken := Min(s.left, Max(0, credit.left));
    var open := Min(taken, Max(0, credit.open));
    OwnShare(Push(s.credits, credit.id, open), Push(s.beyondOpen, credit.id, taken - open), s.left - taken)
  }

  function OwnShareOf(own: seq<Reversible>, amount: nat): OwnShare {
    if own == [] then OwnShare([], [], amount)
    else TakeOwn(OwnShareOf(own[..|own| - 1], amount), own[|own| - 1])
  }

  lemma TakeOwnSums(s: OwnShare, credit: Reversible)
    ensures var t := TakeOwn(s, credit);
      Total(t.credits) + Total(t.beyondOpen) + t.left == Total(s.credits) + Total(s.beyondOpen) + s.left
  {
    var taken := Min(s.left, Max(0, credit.left));
    var open := Min(taken, Max(0, credit.open));
    PushTotal(s.credits, credit.id, open);
    PushTotal(s.beyondOpen, credit.id, taken - open);
  }

  lemma {:induction false} OwnShareSums(own: seq<Reversible>, amount: nat)
    ensures var s := OwnShareOf(own, amount);
      Total(s.credits) + Total(s.beyondOpen) == amount - s.left
  {
    if own != [] {
      OwnShareSums(own[..|own| - 1], amount);
      TakeOwnSums(OwnShareOf(own[..|own| - 1], amount), own[|own| - 1]);
    }
  }

  lemma {:induction false} OwnSharePositive(own: seq<Reversible>, amount: nat)
    ensures Positive(OwnShareOf(own, amount).credits) && Positive(OwnShareOf(own, amount).beyondOpen)
  {
    if own != [] {
      OwnSharePositive(own[..|own| - 1], amount);
    }
  }

  lemma {:induction false} OwnShareLeft(own: seq<Reversible>, amount: nat)
    ensures 0 <= Sum(own, LeftOf())
    ensures amount - OwnShareOf(own, amount).left == Min(amount, Sum(own, LeftOf()))
  {
    if own != [] {
      OwnShareLeft(own[..|own| - 1], amount);
    }
  }

  lemma OwnShareTotal(own: seq<Reversible>, amount: nat)
    ensures var s := OwnShareOf(own, amount);
      && Positive(s.credits) && Positive(s.beyondOpen)
      && 0 <= Sum(own, LeftOf())
      && Total(s.credits) + Total(s.beyondOpen) == amount - s.left == Min(amount, Sum(own, LeftOf()))
  {
    OwnShareSums(own, amount);
    OwnSharePositive(own, amount);
    OwnShareLeft(own, amount);
  }

  lemma {:induction false} OwnShareOn(own: seq<Reversible>, amount: nat, id: Id)
    ensures var s := OwnShareOf(own, amount);
      && On(s.credits, id) <= Sum(own, OpenUnder(id))
      && On(s.credits, id) + On(s.beyondOpen, id) <= Sum(own, LeftUnder(id))
  {
    if own != [] {
      var n := |own| - 1;
      OwnShareOn(own[..n], amount, id);
      var s := OwnShareOf(own[..n], amount);
      var taken := Min(s.left, Max(0, own[n].left));
      var open := Min(taken, Max(0, own[n].open));
      PushOn(s.credits, own[n].id, open, id);
      PushOn(s.beyondOpen, own[n].id, taken - open, id);
    }
  }

  lemma {:induction false} UnnamedOwn(own: seq<Reversible>, id: Id)
    requires !NamesOwn(own, id)
    ensures Sum(own, LeftUnder(id)) == 0 && Sum(own, OpenUnder(id)) == 0
  {
    forall i | 0 <= i < |own| ensures LeftUnder(id)(own[i]) == 0 && OpenUnder(id)(own[i]) == 0 {
      assert own[i].id != id;
    }
    SumZero(own, LeftUnder(id));
    SumZero(own, OpenUnder(id));
  }

  lemma NothingOfUnnamed(own: seq<Reversible>, amount: nat, id: Id)
    requires !NamesOwn(own, id)
    ensures On(OwnShareOf(own, amount).credits, id) == 0 && On(OwnShareOf(own, amount).beyondOpen, id) == 0
  {
    hide NamesOwn;
    UnnamedOwn(own, id);
    OwnShareOn(own, amount, id);
    OwnSharePositive(own, amount);
    PositiveOn(OwnShareOf(own, amount).credits);
    PositiveOn(OwnShareOf(own, amount).beyondOpen);
  }

  lemma TakeOwnOn(s: OwnShare, credit: Reversible, id: Id)
    ensures var t := TakeOwn(s, credit);
      var taken := Min(s.left, Max(0, credit.left));
      var open := Min(taken, Max(0, credit.open));
      && On(t.credits, id) == On(s.credits, id) + (if credit.id == id then open else 0)
      && On(t.beyondOpen, id) == On(s.beyondOpen, id) + (if credit.id == id then taken - open else 0)
  {
    var taken := Min(s.left, Max(0, credit.left));
    var open := Min(taken, Max(0, credit.open));
    PushOn(s.credits, credit.id, open, id);
    PushOn(s.beyondOpen, credit.id, taken - open, id);
  }

  /** A withdrawal reaches beyond the open part of a credit only once it took the whole of it. */
  lemma {:induction false} BeyondTheWhole(own: seq<Reversible>, amount: nat, id: Id)
    requires DistinctOwn(own)
    ensures var s := OwnShareOf(own, amount);
      On(s.beyondOpen, id) > 0 ==> On(s.credits, id) == Sum(own, OpenUnder(id))
  {
    if own != [] {
      var n := |own| - 1;
      BeyondTheWhole(own[..n], amount, id);
      var s := OwnShareOf(own[..n], amount);
      if own[n].id == id {
        assert !NamesOwn(own[..n], id);
        UnnamedOwn(own[..n], id);
        NothingOfUnnamed(own[..n], amount, id);
      }
      TakeOwnOn(s, own[n], id);
      hide TakeOwn, On;
    }
  }

  /** A withdrawal names only the payment's own credits, and reaches beyond the open part of each at
      most once. */
  lemma {:induction false} OwnShareNames(own: seq<Reversible>, amount: nat)
    ensures var s := OwnShareOf(own, amount);
      && (forall i :: 0 <= i < |s.credits| ==> NamesOwn(own, s.credits[i].id))
      && (forall i :: 0 <= i < |s.beyondOpen| ==> NamesOwn(own, s.beyondOpen[i].id))
      && (DistinctOwn(own) ==> Distinct(s.beyondOpen))
  {
    if own != [] {
      var n := |own| - 1;
      OwnShareNames(own[..n], amount);
      assert NamesOwn(own, own[n].id);
      forall id ensures NamesOwn(own[..n], id) ==> NamesOwn(own, id) {
        if NamesOwn(own[..n], id) {
          var i :| 0 <= i < n && own[..n][i].id == id;
          assert own[i].id == id;
        }
      }
      if DistinctOwn(own) {
        assert !NamesOwn(own[..n], own[n].id);
      }
    }
  }

  /** The first loop of a withdrawal: the payment's own credits. */
  method OwnShares(own: seq<Reversible>, amount: nat) returns (s: OwnShare)
    ensures s == OwnShareOf(own, amount)
  {
    var credits, beyondOpen, left := [], [], amount;
    for k := 0 to |own|
      invariant 0 <= left
      invariant OwnShare(credits, beyondOpen, left) == OwnShareOf(own[..k], amount)
    {
      assert own[..k + 1][..k] == own[..k];
      var taken := Min(left, Max(0, own[k].left));
      var open := Min(taken, Max(0, own[k].open));
      credits := Push(credits, own[k].id, open);
      beyondOpen := Push(beyondOpen, own[k].id, taken - open);
      left := left - taken;
    }
    assert own[..|own|] == own;
    s := OwnShare(credits, beyondOpen, left);
  }

  function KeepOff(t: Taking, invoice: Part): Taking {
    var kept := Min(Max(0, invoice.amount), t.left);
    Taking(Push(t.parts, invoice.id, invoice.amount - kept), t.left - kept)
  }

  /** What of `opening` is opened after all, `covered` kept off it from the front. */
  function Uncovered(opening: seq<Part>, covered: nat): Taking {
    if opening == [] then Taking([], covered)
    else KeepOff(Uncovered(opening[..|opening| - 1], covered), opening[|opening| - 1])
  }

  lemma {:induction false} UncoveredPositive(opening: seq<Part>, covered: nat)
    ensures Positive(Uncovered(opening, covered).parts)
  {
    if opening != [] {
      UncoveredPositive(opening[..|opening| - 1], covered);
    }
  }

  lemma {:induction false} UncoveredTotal(opening: seq<Part>, covered: nat)
    requires Positive(opening)
    ensures 0 <= Total(opening)
    ensures Total(Uncovered(opening, covered).parts) == Max(0, Total(opening) - covered)
    ensures Uncovered(opening, covered).left == Max(0, covered - Total(opening))
  {
    if opening != [] {
      var n := |opening| - 1;
      UncoveredTotal(opening[..n], covered);
      var u := Uncovered(opening[..n], covered);
      PushTotal(u.parts, opening[n].id, opening[n].amount - Min(opening[n].amount, u.left));
    }
  }

  lemma {:induction false} UncoveredOn(opening: seq<Part>, covered: nat, id: Id)
    requires Positive(opening)
    ensures On(Uncovered(opening, covered).parts, id) <= On(opening, id)
  {
    if opening != [] {
      var n := |opening| - 1;
      UncoveredOn(opening[..n], covered, id);
      var u := Uncovered(opening[..n], covered);
      PushOn(u.parts, opening[n].id, opening[n].amount - Min(opening[n].amount, u.left), id);
    }
  }

  /** The last loop of a withdrawal: the invoices that stay open after what was covered. */
  method UncoveredParts(opening: seq<Part>, covered: nat) returns (parts: seq<Part>)
    ensures parts == Uncovered(opening, covered).parts
  {
    var left := covered;
    parts := [];
    for k := 0 to |opening|
      invariant 0 <= left
      invariant Taking(parts, left) == Uncovered(opening[..k], covered)
    {
      assert opening[..k + 1][..k] == opening[..k];
      var kept := Min(Max(0, opening[k].amount), left);
      left := left - kept;
      parts := Push(parts, opening[k].id, opening[k].amount - kept);
    }
    assert opening[..|opening|] == opening;
  }

  datatype Withdrawal = Withdrawal(
    fromCredit: int,
    credits: seq<Part>,
    beyondOpen: seq<Part>,
    covering: seq<Part>,
    invoices: seq<Part>,
    unmatched: int)

  /** How a withdrawn amount divides: the payment's own credits, then its invoices, what would be
      opened of those covered first by the open credits of other payments. */
  function WithdrawalOf(
    amount: nat, own: seq<Reversible>, invoices: seq<Part>, covering: seq<Part>): Withdrawal
  {
    var share := OwnShareOf(own, amount);
    var opening := Taken(invoices, share.left);
    var toCover := Max(0, Total(opening.parts));
    var covered := Taken(covering, toCover);
    Withdrawal(amount - share.left, share.credits, share.beyondOpen, covered.parts,
               Uncovered(opening.parts, Max(0, toCover - covered.left)).parts,
               Total(share.beyondOpen) + opening.left)
  }

  /** Every cent withdrawn is taken once. */
  lemma WithdrawalAddsUp(amount: nat, own: seq<Reversible>, invoices: seq<Part>, covering: seq<Part>)
    ensures var w := WithdrawalOf(amount, own, invoices, covering);
      && Total(w.credits) + Total(w.covering) + Total(w.invoices) + w.unmatched == amount
      && 0 <= Total(w.beyondOpen) <= w.unmatched
      && w.fromCredit == Total(w.credits) + Total(w.beyondOpen) == Min(amount, Sum(own, LeftOf()))
  {
    var share := OwnShareOf(own, amount);
    OwnShareTotal(own, amount);
    PositiveOn(share.beyondOpen);
    var opening := Taken(invoices, share.left);
    TakenTotal(invoices, share.left);
    TakenPositive(invoices, share.left);
    TakenTotal(covering, Total(opening.parts));
    UncoveredTotal(opening.parts, Total(opening.parts) - Taken(covering, Total(opening.parts)).left);
  }

  lemma WithdrawalPositive(amount: nat, own: seq<Reversible>, invoices: seq<Part>, covering: seq<Part>)
    ensures var w := WithdrawalOf(amount, own, invoices, covering);
      Positive(w.credits) && Positive(w.beyondOpen) && Positive(w.covering) && Positive(w.invoices)
  {
    OwnSharePositive(own, amount);
    var opening := Taken(invoices, OwnShareOf(own, amount).left).parts;
    var toCover := Max(0, Total(opening));
    TakenPositive(covering, toCover);
    UncoveredPositive(opening, Max(0, toCover - Taken(covering, toCover).left));
  }

  /** A withdrawal takes of nothing more than it offers. */
  lemma WithdrawalOn(amount: nat, own: seq<Reversible>, invoices: seq<Part>, covering: seq<Part>, id: Id)
    ensures var w := WithdrawalOf(amount, own, invoices, covering);
      && On(w.credits, id) <= Sum(own, OpenUnder(id))
      && On(w.credits, id) + On(w.beyondOpen, id) <= Sum(own, LeftUnder(id))
      && On(w.covering, id) <= Sum(covering, OfferedUnder(id))
      && On(w.invoices, id) <= Sum(invoices, OfferedUnder(id))
  {
    var share := OwnShareOf(own, amount);
    OwnShareOn(own, amount, id);
    var opening := Taken(invoices, share.left);
    TakenPositive(invoices, share.left);
    TakenOn(invoices, share.left, id);
    var toCover := Max(0, Total(opening.parts));
    TakenOn(covering, toCover, id);
    UncoveredOn(opening.parts, Max(0, toCover - Taken(covering, toCover).left), id);
  }

  /** The order of a withdrawal: covering credits and invoices come in only once nothing of the own
      credits is left, an invoice only once every covering credit is spent, and anything is unmatched
      only once the invoices are spent as well. */
  lemma WithdrawalOrder(amount: nat, own: seq<Reversible>, invoices: seq<Part>, covering: seq<Part>)
    ensures var w := WithdrawalOf(amount, own, invoices, covering);
      && (Total(w.covering) + Total(w.invoices) > 0 ==> w.fromCredit == Sum(own, LeftOf()))
      && (Total(w.invoices) > 0 ==> Total(w.covering) == Sum(covering, Offered()))
      && (w.unmatched > Total(w.beyondOpen)
          ==> Total(w.covering) + Total(w.invoices) == Sum(invoices, Offered()))
  {
    WithdrawalAddsUp(amount, own, invoices, covering);
    var share := OwnShareOf(own, amount);
    OwnShareTotal(own, amount);
    var opening := Taken(invoices, share.left);
    TakenTotal(invoices, share.left);
    TakenPositive(invoices, share.left);
    TakenTotal(covering, Total(opening.parts));
    UncoveredTotal(opening.parts, Total(opening.parts) - Taken(covering, Total(opening.parts)).left);
  }

  /** An invoice opens only where every covering credit was taken whole. */
  lemma OpenedOnceSpent(amount: nat, own: seq<Reversible>, invoices: seq<Part>, covering: seq<Part>, id: Id)
    ensures var w := WithdrawalOf(amount, own, invoices, covering);
      w.invoices != [] ==> invoices != [] && On(w.covering, id) == Sum(covering, OfferedUnder(id))
  {
    hide OwnShareOf, Taken, Uncovered, Positive;
    var left := OwnShareOf(own, amount).left;
    var opening := Taken(invoices, left);
    TakenPositive(invoices, left);
    PositiveOn(opening.parts);
    var toCover := Total(opening.parts);
    var covered := Taken(covering, toCover);
    TakenTotal(covering, toCover);
    UncoveredTotal(opening.parts, toCover - covered.left);
    UncoveredPositive(opening.parts, toCover - covered.left);
    TakenWhole(covering, toCover, id);
    TotalOfSome(Uncovered(opening.parts, toCover - covered.left).parts);
    if invoices == [] {
      TakenOfNone(left);
      UncoveredTotal([], 0);
    }
  }

  lemma TakenOfNone(amount: nat)
    ensures Taken([], amount).parts == []
  {
  }

  lemma TotalOfSome(parts: seq<Part>)
    requires Positive(parts)
    ensures Total(parts) > 0 <==> parts != []
  {
    SumNonNegative(parts, Amount());
    if parts != [] {
      assert Amount()(parts[0]) > 0;
    }
  }

  /** The four loops of a withdrawal, one after another. */
  method WithdrawalParts(
    amount: nat, own: seq<Reversible>, invoices: seq<Part>, covering: seq<Part>)
    returns (w: Withdrawal)
    ensures w == WithdrawalOf(amount, own, invoices, covering)
  {
    var share := OwnShares(own, amount);
    var opening, beyond := TakeEach(invoices, share.left);
    var toCover := Max(0, Total(opening));
    var covered, uncovered := TakeEach(covering, toCover);
    var stillOpen := UncoveredParts(opening, Max(0, toCover - uncovered));
    w := Withdrawal(amount - share.left, share.credits, share.beyondOpen, covered, stillOpen,
                    Total(share.beyondOpen) + beyond);
  }

  // ---- covers lifted ---------------------------------------------------------------------

  /** What reversal `reversal` took of credit `credit` to cover what it would have opened. */
  datatype Cover = Cover(credit: Id, reversal: Id, amount: int)

  function CoverAmount(): Cover -> int {
    (c: Cover) => c.amount
  }

  function OfCredit(credit: Id): Cover -> int {
    (c: Cover) => if c.credit == credit then c.amount else 0
  }

  function OfPair(credit: Id, reversal: Id): Cover -> int {
    (c: Cover) => if c.credit == credit && c.reversal == reversal then c.amount else 0
  }

  predicate PositiveCovers(covers: seq<Cover>) {
    forall i :: 0 <= i < |covers| ==> covers[i].amount > 0
  }

  /** Whether a cover of `credit` that `reversal` took stands in `covers`. */
  predicate IsCover(covers: seq<Cover>, credit: Id, reversal: Id) {
    exists i :: 0 <= i < |covers| && covers[i].credit == credit && covers[i].reversal == reversal
  }

  /** The covers lifted so far, and how far beyond the open part of a credit is still to reach. */
  datatype Lifting = Lifting(lifted: seq<Cover>, reach: int)

  function LiftOne(l: Lifting, credit: Id, cover: Cover): Lifting {
    var taken := if cover.credit == credit then Max(0, Min(l.reach, cover.amount)) else 0;
    Lifting(if taken > 0 then l.lifted + [cover.(amount := taken)] else l.lifted, l.reach - taken)
  }

  function LiftOn(l: Lifting, credit: Id, covers: seq<Cover>): Lifting {
    if covers == [] then l
    else LiftOne(LiftOn(l, credit, covers[..|covers| - 1]), credit, covers[|covers| - 1])
  }

  /** What a withdrawal lifts of the covers its payment's credits gave: of each credit's covers what
      it reaches beyond the open part of that credit. */
  function Lifted(beyondOpen: seq<Part>, covers: seq<Cover>): seq<Cover> {
    if beyondOpen == [] then []
    else
      var n := |beyondOpen| - 1;
      LiftOn(Lifting(Lifted(beyondOpen[..n], covers), beyondOpen[n].amount), beyondOpen[n].id, covers).lifted
  }

  lemma {:induction false} LiftOnPositive(l: Lifting, credit: Id, covers: seq<Cover>)
    requires PositiveCovers(l.lifted)
    ensures PositiveCovers(LiftOn(l, credit, covers).lifted)
  {
    if covers != [] {
      LiftOnPositive(l, credit, covers[..|covers| - 1]);
    }
  }

  lemma {:induction false} LiftOnTotal(l: Lifting, credit: Id, covers: seq<Cover>)
    requires l.reach >= 0
    ensures var m := LiftOn(l, credit, covers);
      && m.reach >= 0
      && Sum(m.lifted, CoverAmount()) + m.reach == Sum(l.lifted, CoverAmount()) + l.reach
  {
    if covers != [] {
      var n := |covers| - 1;
      LiftOnTotal(l, credit, covers[..n]);
      var b := LiftOn(l, credit, covers[..n]);
      SumAppend(b.lifted, covers[n].(amount := Max(0, Min(b.reach, covers[n].amount))));
    }
  }

  lemma {:induction false} LiftOnNames(l: Lifting, credit: Id, covers: seq<Cover>)
    ensures var m := LiftOn(l, credit, covers).lifted;
      && |l.lifted| <= |m|
      && (forall i :: 0 <= i < |l.lifted| ==> m[i] == l.lifted[i])
      && (forall i :: |l.lifted| <= i < |m| ==> m[i].credit == credit && IsCover(covers, credit, m[i].reversal))
  {
    if covers != [] {
      var n := |covers| - 1;
      LiftOnNames(l, credit, covers[..n]);
      forall q | IsCover(covers[..n], credit, q) ensures IsCover(covers, credit, q) {
        var j :| 0 <= j < n && covers[..n][j].credit == credit && covers[..n][j].reversal == q;
        assert covers[j].credit == credit;
      }
      assert covers[n].credit == credit ==> IsCover(covers, credit, covers[n].reversal);
    }
  }

  lemma {:induction false} LiftOnPair(l: Lifting, credit: Id, covers: seq<Cover>, c: Id, q: Id)
    requires PositiveCovers(covers)
    ensures Sum(LiftOn(l, credit, covers).lifted, OfPair(c, q))
         <= Sum(l.lifted, OfPair(c, q)) + if c == credit then Sum(covers, OfPair(c, q)) else 0
  {
    if covers != [] {
      var n := |covers| - 1;
      LiftOnPair(l, credit, covers[..n], c, q);
      var b := LiftOn(l, credit, covers[..n]);
      var taken := Max(0, Min(b.reach, covers[n].amount));
      SumAppend(b.lifted, covers[n].(amount := taken));
    }
  }

  /** A withdrawal lifts no more than it reaches beyond the open parts of its credits. */
  lemma {:induction false} LiftedTotal(beyondOpen: seq<Part>, covers: seq<Cover>)
    requires Positive(beyondOpen)
    ensures PositiveCovers(Lifted(beyondOpen, covers))
    ensures Sum(Lifted(beyondOpen, covers), CoverAmount()) <= Total(beyondOpen)
  {
    if beyondOpen != [] {
      var n := |beyondOpen| - 1;
      LiftedTotal(beyondOpen[..n], covers);
      var before := Lifting(Lifted(beyondOpen[..n], covers), beyondOpen[n].amount);
      LiftOnPositive(before, beyondOpen[n].id, covers);
      LiftOnTotal(before, beyondOpen[n].id, covers);
    }
  }

  /** Each of `lifted` is a cover that stands, of a credit reached beyond its open part. */
  predicate Reached(lifted: seq<Cover>, beyondOpen: seq<Part>, covers: seq<Cover>) {
    forall i :: 0 <= i < |lifted| ==>
      Names(beyondOpen, lifted[i].credit) && IsCover(covers, lifted[i].credit, lifted[i].reversal)
  }

  lemma {:induction false} LiftedReached(beyondOpen: seq<Part>, covers: seq<Cover>)
    ensures Reached(Lifted(beyondOpen, covers), beyondOpen, covers)
  {
    if beyondOpen != [] {
      var n := |beyondOpen| - 1;
      LiftedReached(beyondOpen[..n], covers);
      var before := Lifted(beyondOpen[..n], covers);
      LiftOnNames(Lifting(before, beyondOpen[n].amount), beyondOpen[n].id, covers);
      forall i | 0 <= i < |before| ensures Names(beyondOpen, before[i].credit) {
        var j :| 0 <= j < n && beyondOpen[..n][j].id == before[i].credit;
        assert beyondOpen[j].id == before[i].credit;
      }
      assert Names(beyondOpen, beyondOpen[n].id);
    }
  }

  lemma {:induction false} LiftedPair(beyondOpen: seq<Part>, covers: seq<Cover>, c: Id, q: Id)
    requires Distinct(beyondOpen) && PositiveCovers(covers)
    ensures Sum(Lifted(beyondOpen, covers), OfPair(c, q))
         <= if Names(beyondOpen, c) then Sum(covers, OfPair(c, q)) else 0
  {
    if beyondOpen != [] {
      var n := |beyondOpen| - 1;
      LiftedPair(beyondOpen[..n], covers, c, q);
      LiftOnPair(Lifting(Lifted(beyondOpen[..n], covers), beyondOpen[n].amount), beyondOpen[n].id, covers, c, q);
      if Names(beyondOpen[..n], c) {
        var i :| 0 <= i < n && beyondOpen[..n][i].id == c;
        assert beyondOpen[i].id == c;
      }
      assert beyondOpen[n].id == c ==> Names(beyondOpen, c);
    }
  }

  method CoversLifted(beyondOpen: seq<Part>, covers: seq<Cover>) returns (lifted: seq<Cover>)
    ensures lifted == Lifted(beyondOpen, covers)
  {
    lifted := [];
    for i := 0 to |beyondOpen|
      invariant lifted == Lifted(beyondOpen[..i], covers)
    {
      var reach := beyondOpen[i].amount;
      ghost var start := Lifting(lifted, reach);
      for k := 0 to |covers|
        invariant Lifting(lifted, reach) == LiftOn(start, beyondOpen[i].id, covers[..k])
      {
        assert covers[..k + 1][..k] == covers[..k];
        if covers[k].credit == beyondOpen[i].id {
          var taken := Min(reach, covers[k].amount);
          if taken > 0 {
            lifted := lifted + [covers[k].(amount := taken)];
            reach := reach - taken;
          }
        }
      }
      assert covers[..|covers|] == covers;
      assert beyondOpen[..i + 1][..i] == beyondOpen[..i];
    }
    assert beyondOpen[..|beyondOpen|] == beyondOpen;
  }

  // ---- what the gateway gives back -------------------------------------------------------

  /** An invoice a give-back may settle: `left` by the reversal, `owed` by the invoice. */
  datatype Reopened = Reopened(id: Id, left: int, owed: int)

  function ReopenedLeft(): Reopened -> int {
    (r: Reopened) => Max(0, r.left)
  }

  function OwedUnder(id: Id): Reopened -> int {
    (r: Reopened) => if r.id == id then Max(0, r.owed) else 0
  }

  /** What settles the invoices again, what of it they no longer owe, and what reached none yet. */
  datatype Resettled = Resettled(invoices: seq<Part>, credited: nat, left: nat)

  function ResettleOne(r: Resettled, invoice: Reopened): Resettled {
    var given := Min(r.left, Max(0, invoice.left));
    var settles := Min(given, Max(0, invoice.owed));
    Resettled(Push(r.invoices, invoice.id, settles), r.credited + given - settles, r.left - given)
  }

  function ResettledOf(invoices: seq<Reopened>, amount: nat): Resettled {
    if invoices == [] then Resettled([], 0, amount)
    else ResettleOne(ResettledOf(invoices[..|invoices| - 1], amount), invoices[|invoices| - 1])
  }

  lemma {:induction false} ResettledPositive(invoices: seq<Reopened>, amount: nat)
    ensures Positive(ResettledOf(invoices, amount).invoices)
  {
    if invoices != [] {
      ResettledPositive(invoices[..|invoices| - 1], amount);
    }
  }

  lemma {:induction false} ResettledTotal(invoices: seq<Reopened>, amount: nat)
    ensures var r := ResettledOf(invoices, amount);
      && Total(r.invoices) + r.credited + r.left == amount
      && 0 <= Sum(invoices, ReopenedLeft())
      && r.left == Max(0, amount - Sum(invoices, ReopenedLeft()))
  {
    if invoices != [] {
      var n := |invoices| - 1;
      ResettledTotal(invoices[..n], amount);
      var r := ResettledOf(invoices[..n], amount);
      PushTotal(r.invoices, invoices[n].id, Min(Min(r.left, Max(0, invoices[n].left)), Max(0, invoices[n].owed)));
    }
  }

  lemma {:induction false} ResettledOn(invoices: seq<Reopened>, amount: nat, id: Id)
    ensures On(ResettledOf(invoices, amount).invoices, id) <= Sum(invoices, OwedUnder(id))
  {
    if invoices != [] {
      var n := |invoices| - 1;
      ResettledOn(invoices[..n], amount, id);
      var r := ResettledOf(invoices[..n], amount);
      PushOn(r.invoices, invoices[n].id, Min(Min(r.left, Max(0, invoices[n].left)), Max(0, invoices[n].owed)), id);
    }
  }

  method Resettle(invoices: seq<Reopened>, amount: nat) returns (r: Resettled)
    ensures r == ResettledOf(invoices, amount)
  {
    var settled, credited, left := [], 0, amount;
    for k := 0 to |invoices|
      invariant 0 <= left && 0 <= credited
      invariant Resettled(settled, credited, left) == ResettledOf(invoices[..k], amount)
    {
      assert invoices[..k + 1][..k] == invoices[..k];
      var given := Min(left, Max(0, invoices[k].left));
      var settles := Min(given, Max(0, invoices[k].owed));
      settled := Push(settled, invoices[k].id, settles);
      credited := credited + given - settles;
      left := left - given;
    }
    assert invoices[..|invoices|] == invoices;
    r := Resettled(settled, credited, left);
  }

  datatype Reinstatement = Reinstatement(
    covered: nat, credits: seq<Part>, invoices: seq<Part>, credited: nat, beyond: nat)

  /** A give-back meets cases first, then credits, then invoices within what they owe, and credits the
      remainder of what the reversal holds. */
  function ReinstatementOf(
    amount: nat, unmatched: int, credits: seq<Part>, invoices: seq<Reopened>): Reinstatement
  {
    var covered := Min(amount, Max(0, unmatched));
    var given := Taken(credits, amount - covered);
    var r := ResettledOf(invoices, given.left);
    Reinstatement(covered, given.parts, r.invoices, r.credited, r.left)
  }

  /** Every cent given back is placed once; `beyond` counts those for which the reversal holds nothing. */
  lemma ReinstatementAddsUp(amount: nat, unmatched: int, credits: seq<Part>, invoices: seq<Reopened>)
    ensures var g := ReinstatementOf(amount, unmatched, credits, invoices);
      && g.covered + Total(g.credits) + Total(g.invoices) + g.credited + g.beyond == amount
      && g.covered <= Max(0, unmatched)
    ensures var took := Max(0, unmatched) + Sum(credits, Offered()) + Sum(invoices, ReopenedLeft());
      ReinstatementOf(amount, unmatched, credits, invoices).beyond == Max(0, amount - took)
  {
    var covered := Min(amount, Max(0, unmatched));
    TakenTotal(credits, amount - covered);
    ResettledTotal(invoices, Taken(credits, amount - covered).left);
  }

  lemma ReinstatementPositive(amount: nat, unmatched: int, credits: seq<Part>, invoices: seq<Reopened>)
    ensures var g := ReinstatementOf(amount, unmatched, credits, invoices);
      Positive(g.credits) && Positive(g.invoices)
  {
    var covered := Min(amount, Max(0, unmatched));
    TakenPositive(credits, amount - covered);
    ResettledPositive(invoices, Taken(credits, amount - covered).left);
  }

  /** A give-back returns to nothing more than was taken of it, or is owed on it. */
  lemma ReinstatementOn(amount: nat, unmatched: int, credits: seq<Part>, invoices: seq<Reopened>, id: Id)
    ensures var g := ReinstatementOf(amount, unmatched, credits, invoices);
      && On(g.credits, id) <= Sum(credits, OfferedUnder(id))
      && On(g.invoices, id) <= Sum(invoices, OwedUnder(id))
  {
    var covered := Min(amount, Max(0, unmatched));
    TakenOn(credits, amount - covered, id);
    ResettledOn(invoices, Taken(credits, amount - covered).left, id);
  }

  /** The order of a give-back: nothing returns to a credit before the unmatched part is covered, and
      nothing settles an invoice or is credited before every credit has back what was taken of it. */
  lemma ReinstatementOrder(amount: nat, unmatched: int, credits: seq<Part>, invoices: seq<Reopened>)
    ensures var g := ReinstatementOf(amount, unmatched, credits, invoices);
      && (Total(g.credits) + Total(g.invoices) + g.credited > 0 ==> g.covered == Max(0, unmatched))
      && (Total(g.invoices) + g.credited > 0 ==> Total(g.credits) == Sum(credits, Offered()))
  {
    var covered := Min(amount, Max(0, unmatched));
    var given := Taken(credits, amount - covered);
    TakenTotal(credits, amount - covered);
    ResettledTotal(invoices, given.left);
    ResettledPositive(invoices, given.left);
    PositiveOn(ResettledOf(invoices, given.left).invoices);
  }

  method ReinstatementParts(amount: nat, unmatched: int, credits: seq<Part>, invoices: seq<Reopened>)
    returns (g: Reinstatement)
    ensures g == ReinstatementOf(amount, unmatched, credits, invoices)
  {
    var covered := Min(amount, Max(0, unmatched));
    var given, left := TakeEach(credits, amount - covered);
    var r := Resettle(invoices, left);
    g := Reinstatement(covered, given, r.invoices, r.credited, r.left);
  }

  // ---- the cases a give-back covers, and how shares move ---------------------------------

  /** The cases covered in full so far, and what the cases so far come to. */
  datatype Covering = Covering(ids: seq<Id>, running: int)

  /** The cases whose running total stays within `covered`. */
  function CasesCovered(cases: seq<Part>, covered: int): Covering {
    if cases == [] then Covering([], 0)
    else
      var before := CasesCovered(cases[..|cases| - 1], covered);
      var last := cases[|cases| - 1];
      var running := before.running + last.amount;
      Covering(if running <= covered then before.ids + [last.id] else before.ids, running)
  }

  lemma {:induction false} CoveredRunning(cases: seq<Part>, covered: int)
    ensures CasesCovered(cases, covered).running == Total(cases)
    ensures forall id :: id in CasesCovered(cases, covered).ids ==> Names(cases, id)
  {
    if cases != [] {
      var n := |cases| - 1;
      CoveredRunning(cases[..n], covered);
      forall id | Names(cases[..n], id) ensures Names(cases, id) {
        var i :| 0 <= i < n && cases[..n][i].id == id;
        assert cases[i].id == id;
      }
      assert Names(cases, cases[n].id);
    }
  }

  /** A case is covered exactly where it and all opened before it come to no more than was covered. */
  lemma {:induction false} CoveredInFull(cases: seq<Part>, covered: int, k: nat)
    requires Distinct(cases) && k < |cases|
    ensures cases[k].id in CasesCovered(cases, covered).ids <==> Total(cases[..k + 1]) <= covered
  {
    var n := |cases| - 1;
    CoveredRunning(cases[..n], covered);
    if k == n {
      assert cases[..k + 1] == cases;
      assert !Names(cases[..n], cases[n].id);
    } else {
      CoveredInFull(cases[..n], covered, k);
      assert cases[..n][..k + 1] == cases[..k + 1];
    }
  }

  method CoveredCases(cases: seq<Part>, covered: int) returns (ids: seq<Id>)
    ensures ids == CasesCovered(cases, covered).ids
  {
    var running := 0;
    ids := [];
    for k := 0 to |cases|
      invariant Covering(ids, running) == CasesCovered(cases[..k], covered)
    {
      assert cases[..k + 1][..k] == cases[..k];
      running := running + cases[k].amount;
      if running <= covered {
        ids := ids + [cases[k].id];
      }
    }
    assert cases[..|cases|] == cases;
  }

  /** One payment's part in a cancellation. */
  datatype Moved = Moved(payment: Id, movedOut: int, movedIn: int, credited: int)

  datatype Moving = Moving(moves: seq<Moved>, owes: nat)

  /** Shares above nothing leave in full, enter the replacement while it has room, and are credited for
      what does not fit. */
  function MovingOf(shares: seq<Part>, owes: nat): Moving {
    if shares == [] then Moving([], owes)
    else
      var before := MovingOf(shares[..|shares| - 1], owes);
      var share := shares[|shares| - 1];
      if share.amount <= 0 then before
      else
        var movedIn := Min(share.amount, before.owes);
        Moving(before.moves + [Moved(share.id, share.amount, movedIn, share.amount - movedIn)],
               before.owes - movedIn)
  }

  method MovedParts(shares: seq<Part>, replacementOwes: int) returns (moves: seq<Moved>)
    ensures moves == MovingOf(shares, Max(0, replacementOwes)).moves
  {
    var owes := Max(0, replacementOwes);
    moves := [];
    for k := 0 to |shares|
      invariant 0 <= owes
      invariant Moving(moves, owes) == MovingOf(shares[..k], Max(0, replacementOwes))
    {
      assert shares[..k + 1][..k] == shares[..k];
      if shares[k].amount > 0 {
        var movedIn := Min(shares[k].amount, owes);
        owes := owes - movedIn;
        moves := moves + [Moved(shares[k].id, shares[k].amount, movedIn, shares[k].amount - movedIn)];
      }
    }
    assert shares[..|shares|] == shares;
  }
}
