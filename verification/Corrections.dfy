/** Issuing an invoice and cancelling one: what was paid on a cancelled invoice moves onto the invoice
    that replaces it as far as that owes, and the rest is credited. */
module Corrections {
  import opened Sums
  import opened PaymentRules
  import opened InvoiceChain
  import opened Books
  import opened Soundness
  import opened QuietWrites

  // ---- issuing ---------------------------------------------------------------------------

  datatype IssueOutcome = IdTaken | IssuedNow

  function IssueInvoice(b: Books, id: Id, subscriber: Id, currency: Id, gross: int): Step<IssueOutcome> {
    if id in b.invoices then Step(b, IdTaken)
    else Step(b.(invoices := Issued(b.invoices, id, subscriber, currency, gross)), IssuedNow)
  }

  lemma IssueInvoiceSound(b: Books, id: Id, subscriber: Id, currency: Id, gross: int)
    requires Sound(b)
    ensures Sound(IssueInvoice(b, id, subscriber, currency, gross).books)
  {
    hide Sound, RowsOk, Midway, NetsOk, Bounded, Conserved;
    if id !in b.invoices {
      var b' := IssueInvoice(b, id, subscriber, currency, gross).books;
      SoundIs(b);
      MidwayIs(b, []);
      IssueKeepsChained(b.invoices, b.cancellations, id, subscriber, currency, gross);
      IssueRows(b, b', id);
      SameNets(b, b');
      IssueBounded(b, b', id);
      SameMissing(b, b');
      hide SettlementsOk, CreditsOk, EntriesOk, CasesOk, PaymentsOk, ReversalsOk, Solvent, Chained;
      QuietSound(b, b');
    }
  }

  lemma IssueRows(b: Books, b': Books, id: Id)
    requires RowsOk(b) && id !in b.invoices && b' == b.(invoices := b'.invoices)
    requires Extends(b.invoices, b'.invoices, {id}) && Chained(b'.invoices, b'.cancellations)
    ensures RowsOk(b')
  {
    hide Chained;
    assert Grows(b, b');
    RowsGrow(b, b');
  }

  lemma SameNets(b: Books, b': Books)
    requires NetsOk(b) && b'.settlements == b.settlements
    ensures NetsOk(b')
  {
    assert forall q: Id, j: Id :: Net(b', q, j) == Net(b, q, j);
  }

  lemma SameMissing(b: Books, b': Books)
    requires Conserved(b) && b'.settlements == b.settlements && b'.credits == b.credits && b'.payments == b.payments
    ensures Conserved(b')
  {
    forall q | 0 <= q < |b'.payments| ensures Missing(b', q) == 0 {
      assert Missing(b, q) == 0;
    }
  }

  lemma IssueBounded(b: Books, b': Books, id: Id)
    requires Bounded(b) && SettlementsOk(b) && id !in b.invoices
    requires b' == b.(invoices := b'.invoices) && Extends(b.invoices, b'.invoices, {id})
    ensures Bounded(b')
  {
    UntouchedInvoice(b, id);
    assert forall q: Id, j: Id :: Net(b', q, j) == Net(b, q, j);
    forall j | j in b'.invoices && j !in b'.cancellations
      ensures SettledOn(b', j) <= Max(0, b'.invoices[j].gross)
    {
      assert SettledOn(b', j) == SettledOn(b, j);
      assert j in b.invoices ==> SettledOn(b, j) <= Max(0, b.invoices[j].gross);
    }
  }

  // ---- the shares of a cancelled invoice -------------------------------------------------

  /** What each settlement on invoice `i` counts for its payment. */
  function ShareParts(rows: seq<Settlement>, i: Id): seq<Part> {
    if rows == [] then []
    else
      var n := |rows| - 1;
      var before := ShareParts(rows[..n], i);
      if rows[n].invoice == i then before + [Part(rows[n].payment, Signed(rows[n]))] else before
  }

  lemma {:induction false} SharePartsOn(rows: seq<Settlement>, i: Id, q: Id)
    ensures On(ShareParts(rows, i), q) == Sum(rows, OfPaymentOn(q, i))
  {
    if rows != [] {
      var n := |rows| - 1;
      SharePartsOn(rows[..n], i, q);
      if rows[n].invoice == i {
        SumAppend(ShareParts(rows[..n], i), Part(rows[n].payment, Signed(rows[n])));
      }
    }
  }

  lemma {:induction false} SharePartsNames(rows: seq<Settlement>, i: Id, q: Id)
    requires Names(ShareParts(rows, i), q)
    ensures exists k :: 0 <= k < |rows| && rows[k].invoice == i && rows[k].payment == q
  {
    var n := |rows| - 1;
    var before := ShareParts(rows[..n], i);
    var k :| 0 <= k < |ShareParts(rows, i)| && ShareParts(rows, i)[k].id == q;
    if k < |before| {
      assert before[k].id == q;
      SharePartsNames(rows[..n], i, q);
      var j :| 0 <= j < n && rows[..n][j].invoice == i && rows[..n][j].payment == q;
      assert rows[j].invoice == i && rows[j].payment == q;
    } else {
      assert rows[n].invoice == i && rows[n].payment == q;
    }
  }

  /** Payments in the order they were recorded. */
  function ShareKey(b: Books): Part -> Key {
    (x: Part) => if x.id < |b.payments| then (b.payments[x.id].at, b.rank(Payments, x.id)) else (0, 0)
  }

  /** What each payment settles of invoice `i`, the oldest payment first. */
  function Shares(b: Books, i: Id): seq<Part> {
    Sort(Gathered(ShareParts(b.settlements, i)), ShareKey(b))
  }

  lemma SharesOn(b: Books, i: Id, q: Id)
    ensures Sum(Shares(b, i), OfferedUnder(q)) == Max(0, Net(b, q, i))
  {
    var parts := ShareParts(b.settlements, i);
    GatheredKeeps(parts);
    SharePartsOn(b.settlements, i, q);
    DistinctOffered(Gathered(parts), q);
    SortSum(Gathered(parts), ShareKey(b), OfferedUnder(q));
  }

  /** Each share is of a payment of the invoice's own chain. */
  lemma SharesInChain(b: Books, i: Id, q: Id)
    requires SettlementsOk(b) && Names(Shares(b, i), q)
    ensures MaySettle(b, q, i)
  {
    var parts := ShareParts(b.settlements, i);
    GatheredKeeps(parts);
    SortOrders(Gathered(parts), ShareKey(b));
    var k :| 0 <= k < |Shares(b, i)| && Shares(b, i)[k].id == q;
    assert Shares(b, i)[k] in Gathered(parts);
    var l :| 0 <= l < |Gathered(parts)| && Gathered(parts)[l] == Shares(b, i)[k];
    assert Names(Gathered(parts), q);
    SharePartsNames(b.settlements, i, q);
    var j :| 0 <= j < |b.settlements| && b.settlements[j].invoice == i && b.settlements[j].payment == q;
    assert SettlementOk(b, b.settlements[j]);
  }

  // ---- how shares move -------------------------------------------------------------------

  function OutOf(q: Id): Moved -> int {
    (m: Moved) => if m.payment == q then m.movedOut else 0
  }

  function InOf(q: Id): Moved -> int {
    (m: Moved) => if m.payment == q then m.movedIn else 0
  }

  function CreditedOf(q: Id): Moved -> int {
    (m: Moved) => if m.payment == q then m.credited else 0
  }

  function AllIn(): Moved -> int {
    (m: Moved) => m.movedIn
  }

  /** A move takes the whole share off, moves in no more of it, and credits the rest. */
  predicate MoveOk(m: Moved, shares: seq<Part>) {
    m.movedOut > 0 && 0 <= m.movedIn && 0 <= m.credited && m.movedOut == m.movedIn + m.credited
    && Names(shares, m.payment)
  }

  predicate MovesOk(moves: seq<Moved>, shares: seq<Part>) {
    forall k :: 0 <= k < |moves| ==> MoveOk(moves[k], shares)
  }

  lemma {:induction false} MovingOk(shares: seq<Part>, owes: nat)
    ensures MovesOk(MovingOf(shares, owes).moves, shares)
  {
    if shares != [] {
      var n := |shares| - 1;
      MovingOk(shares[..n], owes);
      var before := MovingOf(shares[..n], owes).moves;
      forall k | 0 <= k < |before| ensures MoveOk(before[k], shares) {
        assert MoveOk(before[k], shares[..n]);
        var j :| 0 <= j < n && shares[..n][j].id == before[k].payment;
        assert shares[j].id == before[k].payment;
      }
      assert Names(shares, shares[n].id);
    }
  }

  /** Every share that brings anything moves out whole. */
  lemma {:induction false} MovingOut(shares: seq<Part>, owes: nat, q: Id)
    ensures Sum(MovingOf(shares, owes).moves, OutOf(q)) == Sum(shares, OfferedUnder(q))
  {
    if shares != [] {
      var n := |shares| - 1;
      MovingOut(shares[..n], owes, q);
      var before := MovingOf(shares[..n], owes);
      var movedIn := Min(shares[n].amount, before.owes);
      if shares[n].amount > 0 {
        SumAppend(before.moves, Moved(shares[n].id, shares[n].amount, movedIn, shares[n].amount - movedIn));
      }
    }
  }

  /** No more moves in than the replacement owes. */
  lemma {:induction false} MovingIn(shares: seq<Part>, owes: nat)
    ensures Sum(MovingOf(shares, owes).moves, AllIn()) == owes - MovingOf(shares, owes).owes
  {
    if shares != [] {
      var n := |shares| - 1;
      MovingIn(shares[..n], owes);
      var before := MovingOf(shares[..n], owes);
      var movedIn := Min(shares[n].amount, before.owes);
      if shares[n].amount > 0 {
        SumAppend(before.moves, Moved(shares[n].id, shares[n].amount, movedIn, shares[n].amount - movedIn));
      }
    }
  }

  /** The oldest payments settle the replacement: where anything of a share is credited, the replacement
      owes nothing any more. */
  lemma {:induction false} CreditedOnceNothingOwed(shares: seq<Part>, owes: nat, k: nat)
    requires k < |MovingOf(shares, owes).moves| && MovingOf(shares, owes).moves[k].credited > 0
    ensures Sum(MovingOf(shares, owes).moves[..k + 1], AllIn()) == owes
    ensures forall l :: k < l < |MovingOf(shares, owes).moves| ==> MovingOf(shares, owes).moves[l].movedIn == 0
  {
    var n := |shares| - 1;
    var before := MovingOf(shares[..n], owes);
    var moves := MovingOf(shares, owes).moves;
    if k < |before.moves| {
      CreditedOnceNothingOwed(shares[..n], owes, k);
      assert moves[..k + 1] == before.moves[..k + 1];
      NothingLeft(shares[..n], owes, k);
    } else {
      assert moves[..k + 1] == moves;
      MovingIn(shares, owes);
    }
  }

  lemma {:induction false} NothingLeft(shares: seq<Part>, owes: nat, k: nat)
    requires k < |MovingOf(shares, owes).moves| && MovingOf(shares, owes).moves[k].credited > 0
    ensures MovingOf(shares, owes).owes == 0
  {
    var n := |shares| - 1;
    if k < |MovingOf(shares[..n], owes).moves| {
      NothingLeft(shares[..n], owes, k);
    }
  }

  // ---- writing the moves -----------------------------------------------------------------

  function OutRow(m: Moved, i: Id, at: int, rank: int): Settlement {
    Settlement(i, m.payment, MovedOut, m.movedOut, None, at, rank)
  }

  function InRow(m: Moved, i: Id, at: int, rank: int): Settlement {
    Settlement(i, m.payment, MovedIn, m.movedIn, None, at, rank)
  }

  function WriteMoves(b: Books, moves: seq<Moved>, i: Id, replacement: Option<Id>, at: int): Books {
    if moves == [] then b
    else
      var n := |moves| - 1;
      var m := moves[n];
      var out := AddSettlement(WriteMoves(b, moves[..n], i, replacement, at), i, m.payment, MovedOut, m.movedOut, None, at);
      if replacement.Some? && m.movedIn > 0
      then AddSettlement(out, replacement.value, m.payment, MovedIn, m.movedIn, None, at)
      else out
  }

  function WriteMovedCredits(b: Books, moves: seq<Moved>, invoice: Invoice, i: Id, at: int): Books {
    if moves == [] then b
    else
      var n := |moves| - 1;
      var before := WriteMovedCredits(b, moves[..n], invoice, i, at);
      if moves[n].credited <= 0 then before
      else AddCredit(before, invoice.subscriber, invoice.currency, moves[n].credited,
                     FromCancellation(moves[n].payment, i), at)
  }

  /** Whether the rows of a move together count as `g` counts the move. */
  predicate Counts(
    m: Moved, i: Id, replacement: Option<Id>, at: int, x: int, y: int, f: Settlement -> int, g: Moved -> int)
  {
    f(OutRow(m, i, at, x))
      + (if replacement.Some? && m.movedIn > 0 then f(InRow(m, replacement.value, at, y)) else 0) == g(m)
  }

  lemma {:induction false} MovesSum(
    b: Books, moves: seq<Moved>, i: Id, replacement: Option<Id>, at: int, f: Settlement -> int, g: Moved -> int)
    requires forall m: Moved, x: int, y: int :: Counts(m, i, replacement, at, x, y, f, g)
    ensures Sum(WriteMoves(b, moves, i, replacement, at).settlements, f) == Sum(b.settlements, f) + Sum(moves, g)
  {
    if moves != [] {
      var n := |moves| - 1;
      MovesSum(b, moves[..n], i, replacement, at, f, g);
      var before := WriteMoves(b, moves[..n], i, replacement, at);
      var m := moves[n];
      var x := before.rank(Settlements, |before.settlements|);
      var y := before.rank(Settlements, |before.settlements| + 1);
      SumAppend(before.settlements, OutRow(m, i, at, x));
      if replacement.Some? && m.movedIn > 0 {
        SumAppend(before.settlements + [OutRow(m, i, at, x)], InRow(m, replacement.value, at, y));
      }
      assert Counts(m, i, replacement, at, x, y, f, g);
    }
  }

  lemma {:induction false} MovedCreditsSum(
    b: Books, moves: seq<Moved>, invoice: Invoice, i: Id, at: int, q: Id)
    requires forall k :: 0 <= k < |moves| ==> moves[k].credited >= 0
    ensures Sum(WriteMovedCredits(b, moves, invoice, i, at).credits, LeftFrom(q))
         == Sum(b.credits, LeftFrom(q)) + Sum(moves, CreditedOf(q))
  {
    if moves != [] {
      var n := |moves| - 1;
      MovedCreditsSum(b, moves[..n], invoice, i, at, q);
      var before := WriteMovedCredits(b, moves[..n], invoice, i, at);
      SumAppend(before.credits, Credit(invoice.subscriber, invoice.currency, moves[n].credited,
                                       FromCancellation(moves[n].payment, i), at,
                                       before.rank(Credits, |before.credits|)));
    }
  }

  predicate MoveRow(s: Settlement, moves: seq<Moved>, i: Id, replacement: Option<Id>) {
    exists k :: 0 <= k < |moves| && s.payment == moves[k].payment && s.reversal.None?
      && ((s.kind == MovedOut && s.invoice == i && s.amount == moves[k].movedOut)
          || (s.kind == MovedIn && replacement == Some(s.invoice) && s.amount == moves[k].movedIn > 0))
  }

  lemma MoveRowGrows(s: Settlement, moves: seq<Moved>, i: Id, replacement: Option<Id>)
    requires moves != [] && MoveRow(s, moves[..|moves| - 1], i, replacement)
    ensures MoveRow(s, moves, i, replacement)
  {
    var n := |moves| - 1;
    var k :| 0 <= k < n && s.payment == moves[..n][k].payment && s.reversal.None?
      && ((s.kind == MovedOut && s.invoice == i && s.amount == moves[..n][k].movedOut)
          || (s.kind == MovedIn && replacement == Some(s.invoice) && s.amount == moves[..n][k].movedIn > 0));
    assert moves[..n][k] == moves[k];
  }

  lemma {:induction false} MovesFrame(b: Books, moves: seq<Moved>, i: Id, replacement: Option<Id>, at: int)
    ensures var b' := WriteMoves(b, moves, i, replacement, at);
      && b' == b.(settlements := b'.settlements)
      && Prefix(b.settlements, b'.settlements)
      && forall k :: |b.settlements| <= k < |b'.settlements| ==> MoveRow(b'.settlements[k], moves, i, replacement)
  {
    if moves != [] {
      var n := |moves| - 1;
      MovesFrame(b, moves[..n], i, replacement, at);
      var before := WriteMoves(b, moves[..n], i, replacement, at);
      var b' := WriteMoves(b, moves, i, replacement, at);
      assert moves[n] == moves[n];
      forall k | |b.settlements| <= k < |b'.settlements| ensures MoveRow(b'.settlements[k], moves, i, replacement) {
        if k < |before.settlements| {
          assert b'.settlements[k] == before.settlements[k];
          MoveRowGrows(before.settlements[k], moves, i, replacement);
        }
      }
    }
  }

  predicate MoveCredit(c: Credit, moves: seq<Moved>, invoice: Invoice, i: Id) {
    && c.subscriber == invoice.subscriber && c.currency == invoice.currency && c.amount > 0
    && c.origin.FromCancellation? && c.origin.cancelled == i
    && exists k :: 0 <= k < |moves| && moves[k].payment == c.origin.payment
  }

  lemma {:induction false} MovedCreditsFrame(b: Books, moves: seq<Moved>, invoice: Invoice, i: Id, at: int)
    ensures var b' := WriteMovedCredits(b, moves, invoice, i, at);
      && b' == b.(credits := b'.credits)
      && Prefix(b.credits, b'.credits)
      && forall k :: |b.credits| <= k < |b'.credits| ==> MoveCredit(b'.credits[k], moves, invoice, i)
  {
    if moves != [] {
      var n := |moves| - 1;
      MovedCreditsFrame(b, moves[..n], invoice, i, at);
      var before := WriteMovedCredits(b, moves[..n], invoice, i, at);
      var b' := WriteMovedCredits(b, moves, invoice, i, at);
      assert moves[n] == moves[n];
      forall k | |b.credits| <= k < |b'.credits| ensures MoveCredit(b'.credits[k], moves, invoice, i) {
        if k < |before.credits| {
          assert b'.credits[k] == before.credits[k];
          var l :| 0 <= l < n && moves[..n][l].payment == before.credits[k].origin.payment;
          assert moves[l].payment == before.credits[k].origin.payment;
        }
      }
    }
  }

  // ---- cancelling ------------------------------------------------------------------------

  datatype CancelOutcome =
    | NotFound
    | IsACancellation
    | CancelledBefore
    | StatesACredit
    | LeavesACredit
    | IdInUse
    | CancelledNow(moves: seq<Moved>)

  /** What the replacement asks for; without one, nothing. */
  function ReplacementAsks(c: Correction): nat {
    if c.replacement.Some? then Max(0, c.gross) else 0
  }

  function MovesOf(b: Books, i: Id, c: Correction): seq<Moved> {
    MovingOf(Shares(b, i), ReplacementAsks(c)).moves
  }

  /** The cancellation invoice and the replacement are written, then every share moves. */
  function CancelledBooks(b: Books, i: Id, c: Correction, at: int): Books
    requires i in b.invoices
  {
    var issued := b.(invoices := CancelledInvoices(b.invoices, i, c),
                     cancellations := CancelledRows(b.cancellations, i, c));
    WriteMovedCredits(WriteMoves(issued, MovesOf(b, i, c), i, c.replacement, at),
                      MovesOf(b, i, c), b.invoices[i], i, at)
  }

  function Cancel(b: Books, i: Id, c: Correction, at: int): Step<CancelOutcome> {
    if i !in b.invoices then Step(b, NotFound)
    else if IsCancellation(b.cancellations, i) then Step(b, IsACancellation)
    else if i in b.cancellations then Step(b, CancelledBefore)
    else if b.invoices[i].gross < 0 then Step(b, StatesACredit)
    else if c.replacement.Some? && c.gross < 0 then Step(b, LeavesACredit)
    else if !Fresh(b.invoices, c) then Step(b, IdInUse)
    else Step(CancelledBooks(b, i, c, at), CancelledNow(MovesOf(b, i, c)))
  }

  /** What a cancellation of the invoice that stands may rely on. */
  ghost predicate Cancellable(b: Books, i: Id, c: Correction) {
    i in b.invoices && !Corrected(b.cancellations, i) && Fresh(b.invoices, c)
  }

  lemma CancelledFrame(b: Books, i: Id, c: Correction, at: int)
    requires i in b.invoices
    ensures var b' := CancelledBooks(b, i, c, at);
      && b' == b.(invoices := CancelledInvoices(b.invoices, i, c),
                  cancellations := CancelledRows(b.cancellations, i, c),
                  settlements := b'.settlements, credits := b'.credits)
      && Prefix(b.settlements, b'.settlements) && Prefix(b.credits, b'.credits)
      && (forall k :: |b.settlements| <= k < |b'.settlements| ==>
            MoveRow(b'.settlements[k], MovesOf(b, i, c), i, c.replacement))
      && (forall k :: |b.credits| <= k < |b'.credits| ==>
            MoveCredit(b'.credits[k], MovesOf(b, i, c), b.invoices[i], i))
  {
    hide MovesOf, CancelledInvoices, CancelledRows, MoveRow, MoveCredit;
    var issued := b.(invoices := CancelledInvoices(b.invoices, i, c),
                     cancellations := CancelledRows(b.cancellations, i, c));
    MovesFrame(issued, MovesOf(b, i, c), i, c.replacement, at);
    MovedCreditsFrame(WriteMoves(issued, MovesOf(b, i, c), i, c.replacement, at),
                      MovesOf(b, i, c), b.invoices[i], i, at);
  }

  lemma CancelledSum(b: Books, i: Id, c: Correction, at: int, f: Settlement -> int, g: Moved -> int)
    requires i in b.invoices
    requires forall m: Moved, x: int, y: int :: Counts(m, i, c.replacement, at, x, y, f, g)
    ensures Sum(CancelledBooks(b, i, c, at).settlements, f) == Sum(b.settlements, f) + Sum(MovesOf(b, i, c), g)
  {
    hide MovesOf, CancelledInvoices, CancelledRows, Counts;
    var issued := b.(invoices := CancelledInvoices(b.invoices, i, c),
                     cancellations := CancelledRows(b.cancellations, i, c));
    MovesSum(issued, MovesOf(b, i, c), i, c.replacement, at, f, g);
    MovedCreditsFrame(WriteMoves(issued, MovesOf(b, i, c), i, c.replacement, at),
                      MovesOf(b, i, c), b.invoices[i], i, at);
  }

  function Less(g: Moved -> int): Moved -> int {
    (m: Moved) => -g(m)
  }

  lemma {:induction false} LessSum(moves: seq<Moved>, g: Moved -> int)
    ensures Sum(moves, Less(g)) == -Sum(moves, g)
  {
    if moves != [] {
      LessSum(moves[..|moves| - 1], g);
    }
  }

  function OfBoth(g: Moved -> int): Moved -> int {
    (m: Moved) => if m.movedIn > 0 then g(m) else 0
  }

  /** What each payment settles after a cancellation: nothing of the cancelled invoice, and of the
      replacement what moved in. */
  lemma CancelledNets(b: Books, i: Id, c: Correction, at: int, q: Id, j: Id)
    requires Sound(b) && Cancellable(b, i, c)
    ensures var b' := CancelledBooks(b, i, c, at);
      && (j == i ==> Net(b', q, j) == 0)
      && (j != i && c.replacement != Some(j) ==>
            Net(b', q, j) == Net(b, q, j) && SettledOn(b', j) == SettledOn(b, j))
  {
    hide Sound, CancelledBooks, MovesOf, Corrected, CancelledInvoices, CancelledRows;
    NetAtLeast(b, q, i);
    if j == i {
      CancelledSum(b, i, c, at, OfPaymentOn(q, i), Less(OutOf(q)));
      LessSum(MovesOf(b, i, c), OutOf(q));
      MovesOutWhole(b, i, c, q);
    } else if c.replacement != Some(j) {
      CancelledSum(b, i, c, at, OfPaymentOn(q, j), Nothing());
      CancelledSum(b, i, c, at, OfInvoice(j), Nothing());
      SumZero(MovesOf(b, i, c), Nothing());
    }
  }

  function Nothing(): Moved -> int {
    (m: Moved) => 0
  }

  lemma NetAtLeast(b: Books, q: Id, i: Id)
    requires Sound(b)
    ensures 0 <= Net(b, q, i)
  {
  }

  lemma MovesOutWhole(b: Books, i: Id, c: Correction, q: Id)
    requires 0 <= Net(b, q, i)
    ensures Sum(MovesOf(b, i, c), OutOf(q)) == Net(b, q, i)
  {
    MovingOut(Shares(b, i), ReplacementAsks(c), q);
    SharesOn(b, i, q);
  }

  /** What settles the replacement is what moved in: no more than it asks for. */
  lemma ReplacementSettled(b: Books, i: Id, c: Correction, at: int, q: Id)
    requires Sound(b) && Cancellable(b, i, c) && c.replacement.Some?
    ensures var b' := CancelledBooks(b, i, c, at);
      0 <= Net(b', q, c.replacement.value) && SettledOn(b', c.replacement.value) <= Max(0, c.gross)
  {
    hide Sound, CancelledBooks, MovesOf, Corrected, CancelledInvoices, CancelledRows;
    var j := c.replacement.value;
    SoundConserved(b);
    UntouchedInvoice(b, j);
    hide SettlementsOk, CreditsOk, Conserved;
    var moves := MovesOf(b, i, c);
    assert moves == MovingOf(Shares(b, i), ReplacementAsks(c)).moves by {
      MovesAre(b, i, c);
    }
    MovingOk(Shares(b, i), ReplacementAsks(c));
    MovingIn(Shares(b, i), ReplacementAsks(c));
    CancelledSum(b, i, c, at, OfPaymentOn(q, j), OfBoth(InOf(q)));
    CancelledSum(b, i, c, at, OfInvoice(j), OfBoth(AllIn()));
    forall k | 0 <= k < |moves| ensures OfBoth(InOf(q))(moves[k]) >= 0 && OfBoth(AllIn())(moves[k]) == AllIn()(moves[k]) {
      assert MoveOk(moves[k], Shares(b, i));
    }
    SumNonNegative(moves, OfBoth(InOf(q)));
    SumSame(moves, OfBoth(AllIn()), AllIn());
    assert SettledOn(b, j) == 0 && Net(b, q, j) == 0;
    assert Sum(moves, AllIn()) <= ReplacementAsks(c);
    assert SettledOn(CancelledBooks(b, i, c, at), j) == Sum(moves, AllIn());
    assert Net(CancelledBooks(b, i, c, at), q, j) == Sum(moves, OfBoth(InOf(q)));
  }

  lemma MovesAre(b: Books, i: Id, c: Correction)
    ensures MovesOf(b, i, c) == MovingOf(Shares(b, i), ReplacementAsks(c)).moves
  {
  }

  /** Without a replacement nothing moves in. */
  lemma NothingMovesIn(b: Books, i: Id, c: Correction, k: nat)
    requires k < |MovesOf(b, i, c)| && c.replacement.None?
    ensures MovesOf(b, i, c)[k].movedIn == 0
  {
    var moves := MovesOf(b, i, c);
    MovingOk(Shares(b, i), 0);
    MovingIn(Shares(b, i), 0);
    forall l | 0 <= l < |moves| ensures AllIn()(moves[l]) >= 0 {
      assert MoveOk(moves[l], Shares(b, i));
    }
    SumNonNegative(moves, AllIn());
    assert AllIn()(moves[k]) <= Sum(moves, AllIn());
  }

  function Kept(replacement: Option<Id>, q: Id): Moved -> int {
    (m: Moved) => if m.payment != q then 0
      else (if replacement.Some? && m.movedIn > 0 then m.movedIn else 0) - m.movedOut
  }

  /** A cancellation moves what was paid, and neither adds to it nor loses any of it. */
  lemma CancelledMissing(b: Books, i: Id, c: Correction, at: int, q: Id)
    requires Sound(b) && Cancellable(b, i, c) && q < |b.payments|
    ensures q < |CancelledBooks(b, i, c, at).payments|
    ensures Missing(CancelledBooks(b, i, c, at), q) == Missing(b, q)
  {
    hide Sound, CancelledBooks, MovesOf, Corrected, CancelledInvoices, CancelledRows;
    CancelledFrame(b, i, c, at);
    var moves := MovesOf(b, i, c);
    MovesAre(b, i, c);
    MovingOk(Shares(b, i), ReplacementAsks(c));
    forall k | 0 <= k < |moves|
      ensures moves[k].credited >= 0 && Kept(c.replacement, q)(moves[k]) == Less(CreditedOf(q))(moves[k])
    {
      assert MoveOk(moves[k], Shares(b, i));
      if c.replacement.None? {
        NothingMovesIn(b, i, c, k);
      }
    }
    CancelledSum(b, i, c, at, BesideReversals(q), Kept(c.replacement, q));
    SumSame(moves, Kept(c.replacement, q), Less(CreditedOf(q)));
    LessSum(moves, CreditedOf(q));
    CancelledLeft(b, i, c, at, q);
  }

  lemma CancelledLeft(b: Books, i: Id, c: Correction, at: int, q: Id)
    requires i in b.invoices && forall k :: 0 <= k < |MovesOf(b, i, c)| ==> MovesOf(b, i, c)[k].credited >= 0
    ensures Sum(CancelledBooks(b, i, c, at).credits, LeftFrom(q))
         == Sum(b.credits, LeftFrom(q)) + Sum(MovesOf(b, i, c), CreditedOf(q))
  {
    hide MovesOf, CancelledInvoices, CancelledRows;
    var issued := b.(invoices := CancelledInvoices(b.invoices, i, c),
                     cancellations := CancelledRows(b.cancellations, i, c));
    MovesFrame(issued, MovesOf(b, i, c), i, c.replacement, at);
    MovedCreditsSum(WriteMoves(issued, MovesOf(b, i, c), i, c.replacement, at),
                    MovesOf(b, i, c), b.invoices[i], i, at, q);
  }

  // ---- what a cancellation keeps ---------------------------------------------------------

  lemma CancelledGrows(b: Books, i: Id, c: Correction, at: int)
    requires Cancellable(b, i, c)
    ensures Grows(b, CancelledBooks(b, i, c, at))
  {
    hide CancelledBooks, Corrected, CancelledInvoices, CancelledRows, MoveRow, MoveCredit;
    CancelledFrame(b, i, c, at);
    CancelExtends(b.invoices, i, c);
  }

  lemma MoveRowOk(b: Books, i: Id, c: Correction, at: int, s: Settlement)
    requires SettlementsOk(b) && Cancellable(b, i, c) && MoveRow(s, MovesOf(b, i, c), i, c.replacement)
    ensures SettlementOk(CancelledBooks(b, i, c, at), s) && s.reversal.None?
  {
    hide CancelledBooks, MovesOf, Corrected, CancelledInvoices, CancelledRows, MoveCredit, SettlementsOk;
    var moves := MovesOf(b, i, c);
    var l :| 0 <= l < |moves| && s.payment == moves[l].payment && s.reversal.None?
      && ((s.kind == MovedOut && s.invoice == i && s.amount == moves[l].movedOut)
          || (s.kind == MovedIn && c.replacement == Some(s.invoice) && s.amount == moves[l].movedIn > 0));
    MovesAre(b, i, c);
    MovingOk(Shares(b, i), ReplacementAsks(c));
    assert MoveOk(moves[l], Shares(b, i));
    SharesInChain(b, i, moves[l].payment);
    hide Shares, MovesOk;
    CancelledFrame(b, i, c, at);
    CancelExtends(b.invoices, i, c);
  }

  lemma MoveCreditOk(b: Books, i: Id, c: Correction, at: int, k: Credit)
    requires SettlementsOk(b) && PaymentsOk(b) && Chained(b.invoices, b.cancellations) && Cancellable(b, i, c)
    requires MoveCredit(k, MovesOf(b, i, c), b.invoices[i], i)
    ensures CreditOk(CancelledBooks(b, i, c, at), k) && !k.origin.FromReversal?
  {
    hide CancelledBooks, MovesOf, Corrected, CancelledInvoices, CancelledRows, SettlementsOk, PaymentsOk, Chained;
    var moves := MovesOf(b, i, c);
    var l :| 0 <= l < |moves| && moves[l].payment == k.origin.payment;
    MovesAre(b, i, c);
    MovingOk(Shares(b, i), ReplacementAsks(c));
    assert MoveOk(moves[l], Shares(b, i));
    SharesInChain(b, i, moves[l].payment);
    ChainSubscriber(b, moves[l].payment, i);
    hide Shares, MovesOk;
    CancelledFrame(b, i, c, at);
  }

  lemma CancelledRowsOk(b: Books, i: Id, c: Correction, at: int)
    requires Sound(b) && Cancellable(b, i, c)
    ensures RowsOk(CancelledBooks(b, i, c, at)) && Quiet(b, CancelledBooks(b, i, c, at))
  {
    hide Sound, Midway, RowsOk, CancelledBooks, MovesOf, Corrected, CancelledInvoices, CancelledRows, Solvent, NetsOk;
    hide Bounded, MoveRow, MoveCredit, Grows, SettlementOk, CreditOk, Chained;
    SoundMidway(b);
    MidwayIs(b, []);
    var b' := CancelledBooks(b, i, c, at);
    CancelledGrows(b, i, c, at);
    CancelledFrame(b, i, c, at);
    CancelKeepsChained(b.invoices, b.cancellations, i, c);
    forall k | |b.settlements| <= k < |b'.settlements|
      ensures SettlementOk(b', b'.settlements[k]) && b'.settlements[k].reversal.None?
    {
      MoveRowOk(b, i, c, at, b'.settlements[k]);
    }
    forall k | |b.credits| <= k < |b'.credits|
      ensures CreditOk(b', b'.credits[k]) && !b'.credits[k].origin.FromReversal? && b'.credits[k].amount > 0
    {
      MoveCreditOk(b, i, c, at, b'.credits[k]);
      MoveCreditAmount(b, i, c, b'.credits[k]);
    }
    RowsGrow(b, b');
  }

  lemma MoveCreditAmount(b: Books, i: Id, c: Correction, k: Credit)
    requires i in b.invoices && MoveCredit(k, MovesOf(b, i, c), b.invoices[i], i)
    ensures k.amount > 0
  {
  }

  /** All of a chain is for one subscriber, in one currency. */
  lemma ChainSubscriber(b: Books, p: Id, i: Id)
    requires PaymentsOk(b) && Chained(b.invoices, b.cancellations) && InChainOf(b, p, i)
    ensures b.invoices[i].subscriber == b.payments[p].subscriber
    ensures b.invoices[i].currency == b.payments[p].currency
  {
    assert PaymentOk(b, b.payments[p]);
  }

  lemma CancelledBounded(b: Books, i: Id, c: Correction, at: int)
    requires Sound(b) && Cancellable(b, i, c)
    ensures NetsOk(CancelledBooks(b, i, c, at)) && Bounded(CancelledBooks(b, i, c, at))
  {
    hide Sound, Midway, RowsOk, Chained, CancelledBooks, MovesOf, Corrected, Conserved, SettlementsOk, CreditsOk;
    SoundMidway(b);
    MidwaySums(b);
    SoundConserved(b);
    UntouchedInvoice(b, c.cancellationInvoice);
    var b' := CancelledBooks(b, i, c, at);
    CancelledFrame(b, i, c, at);
    CancelExtends(b.invoices, i, c);
    hide CancelledInvoices;
    forall q: Id, j: Id ensures 0 <= Net(b', q, j) && (j in b'.cancellations ==> Net(b', q, j) == 0) {
      CancelledNets(b, i, c, at, q, j);
      if c.replacement == Some(j) {
        ReplacementSettled(b, i, c, at, q);
        SoundReplacement(b, i, c);
      }
    }
    forall j | j in b'.invoices && j !in b'.cancellations
      ensures SettledOn(b', j) <= Max(0, b'.invoices[j].gross)
    {
      CancelledNets(b, i, c, at, 0, j);
      if c.replacement == Some(j) {
        ReplacementSettled(b, i, c, at, 0);
      }
    }
  }

  lemma SoundReplacement(b: Books, i: Id, c: Correction)
    requires Sound(b) && Cancellable(b, i, c) && c.replacement.Some?
    ensures c.replacement.value !in CancelledRows(b.cancellations, i, c)
  {
    SoundMidway(b);
    MidwayIs(b, []);
  }

  /** A cancellation keeps the books sound; a refused one leaves them as they were. */
  lemma CancelSound(b: Books, i: Id, c: Correction, at: int)
    requires Sound(b)
    ensures var s := Cancel(b, i, c, at);
      Sound(s.books) && (!s.outcome.CancelledNow? ==> s.books == b)
  {
    hide Sound, Midway, RowsOk, NetsOk, Bounded, Conserved, RefsUnique, CancelledBooks, MovesOf, Quiet, Fresh;
    if Cancel(b, i, c, at).outcome.CancelledNow? {
      var b' := CancelledBooks(b, i, c, at);
      CancelledRowsOk(b, i, c, at);
      CancelledBounded(b, i, c, at);
      CancelledConserved(b, i, c, at);
      SoundIs(b);
      CancelledFrame(b, i, c, at);
      SameRefs(b, b');
      QuietSound(b, b');
    }
  }

  lemma CancelledConserved(b: Books, i: Id, c: Correction, at: int)
    requires Sound(b) && Cancellable(b, i, c)
    ensures Conserved(CancelledBooks(b, i, c, at))
  {
    hide Sound, CancelledBooks, Cancellable, Missing;
    SoundConserved(b);
    CancellableIn(b, i, c);
    var b' := CancelledBooks(b, i, c, at);
    CancelledFrame(b, i, c, at);
    forall q | 0 <= q < |b'.payments| ensures Missing(b', q) == 0 {
      CancelledMissing(b, i, c, at, q);
    }
  }

  lemma CancellableIn(b: Books, i: Id, c: Correction)
    requires Cancellable(b, i, c)
    ensures i in b.invoices
  {
  }

  lemma SameRefs(b: Books, b': Books)
    requires RefsUnique(b) && b'.payments == b.payments && b'.reversals == b.reversals && b'.refunds == b.refunds
    ensures RefsUnique(b')
  {
  }

  /** After a cancellation the replacement stands in the chain, or nothing does, and nothing paid on the
      cancelled invoice is left there. */
  lemma CancelEffect(b: Books, i: Id, c: Correction, at: int, q: Id)
    requires Sound(b) && Cancel(b, i, c, at).outcome.CancelledNow?
    ensures var b' := Cancel(b, i, c, at).books;
      && i in b.invoices && StandingOf(b', b.invoices[i].chainId) == c.replacement
      && Net(b', q, i) == 0 && OwedAt(b', i) == 0
      && (c.replacement.Some? ==> 0 <= OwedAt(b', c.replacement.value))
  {
    hide Sound, Midway, RowsOk, CancelledBooks, Solvent, NetsOk, Bounded;
    SoundMidway(b);
    MidwayIs(b, []);
    CancelledNets(b, i, c, at, q, i);
    CancelMovesStanding(b.invoices, b.cancellations, i, c);
    CancelledFrame(b, i, c, at);
    if c.replacement.Some? {
      ReplacementSettled(b, i, c, at, q);
    }
  }
}
