/** The chain an invoice is corrected in: the first invoice, each cancellation invoice one step after
    the invoice it cancels, and each replacement two steps after it. */
module InvoiceChain {
  import opened Sums

  /** `gross` is in cents; the invoice at step 0 is the chain's first, and the chain bears its id. */
  datatype Invoice = Invoice(chainId: Id, step: nat, subscriber: Id, currency: Id, gross: int)

  datatype Cancellation = Cancellation(cancellationInvoice: Id, replacement: Option<Id>)

  type Invoices = map<Id, Invoice>

  /** Under the invoice each cancels, which the unique `cancelledInvoiceId` holds to one. */
  type Cancellations = map<Id, Cancellation>

  predicate SameChain(inv: Invoices, i: Id, j: Id) {
    i in inv && j in inv && inv[i].chainId == inv[j].chainId
  }

  predicate IsCancellation(can: Cancellations, i: Id) {
    exists k :: k in can && can[k].cancellationInvoice == i
  }

  predicate IsReplacement(inv: Invoices, can: Cancellations, i: Id) {
    exists k :: k in can && k in inv && can[k].replacement == Some(i)
  }

  /** Whether a row of the cancellations names `i` on either side of the correction. */
  predicate Corrected(can: Cancellations, i: Id) {
    i in can || IsCancellation(can, i)
  }

  /** Every invoice names a first invoice of its chain, for one subscriber and in one currency. */
  ghost predicate Rooted(inv: Invoices) {
    forall i :: i in inv ==>
      var first := inv[i].chainId;
      && first in inv
      && inv[first].chainId == first
      && inv[first].subscriber == inv[i].subscriber
      && inv[first].currency == inv[i].currency
      && (inv[i].step == 0 <==> i == first)
  }

  /** A cancellation's replacement stands two steps further in the same chain. */
  ghost predicate StepsUp(inv: Invoices, can: Cancellations) {
    forall i :: i in can ==>
      && i in inv
      && (can[i].replacement.Some? ==>
            var j := can[i].replacement.value;
            SameChain(inv, i, j) && inv[j].step == inv[i].step + 2)
  }

  /** Cancellation invoices stand one step after what they cancel, and only what stands at an even
      step is cancelled. */
  ghost predicate Placed(inv: Invoices, can: Cancellations) {
    forall i :: i in can ==>
      && i in inv && inv[i].step % 2 == 0
      && var c := can[i].cancellationInvoice;
         SameChain(inv, i, c) && inv[c].step == inv[i].step + 1
  }

  ghost predicate WrittenBy(inv: Invoices, can: Cancellations, i: Id) {
    i in inv ==>
      && (inv[i].step % 2 == 1 ==> IsCancellation(can, i))
      && (inv[i].step % 2 == 0 && inv[i].step > 0 ==> IsReplacement(inv, can, i))
  }

  /** Every invoice after the first was written by a cancellation of its chain. */
  ghost predicate Written(inv: Invoices, can: Cancellations) {
    forall i {:trigger WrittenBy(inv, can, i)} :: WrittenBy(inv, can, i)
  }

  ghost predicate Chained(inv: Invoices, can: Cancellations) {
    Rooted(inv) && StepsUp(inv, can) && Placed(inv, can) && Written(inv, can)
  }

  // ---- the walk --------------------------------------------------------------------------

  /** The invoices further up than `i`: what the walk has left to pass. */
  ghost function Further(inv: Invoices, i: Id): set<Id>
    requires i in inv
  {
    set j | j in inv && inv[j].step > inv[i].step
  }

  lemma WalkShrinks(inv: Invoices, can: Cancellations, i: Id)
    requires StepsUp(inv, can) && i in can && can[i].replacement.Some?
    ensures |Further(inv, can[i].replacement.value)| < |Further(inv, i)|
  {
    var j := can[i].replacement.value;
    assert j in Further(inv, i) && j !in Further(inv, j);
    assert Further(inv, j) <= Further(inv, i) - {j};
    Fewer(Further(inv, j), Further(inv, i) - {j});
  }

  lemma {:induction false} Fewer(a: set<Id>, b: set<Id>)
    requires a <= b
    ensures |a| <= |b|
  {
    if a != {} {
      var x :| x in a;
      Fewer(a - {x}, b - {x});
    }
  }

  /** Where following replacements from `i` ends: on the first invoice with no cancellation, or nowhere once a
      cancellation has none. */
  ghost function Standing(inv: Invoices, can: Cancellations, i: Id): Option<Id>
    requires StepsUp(inv, can) && i in inv
    decreases |Further(inv, i)|
  {
    if i !in can then Some(i)
    else if can[i].replacement.None? then None
    else
      WalkShrinks(inv, can, i);
      Standing(inv, can, can[i].replacement.value)
  }

  /** The open-ended loop: it ends, because each replacement stands further up than what it replaces. */
  method StandingInvoiceIdOf(inv: Invoices, can: Cancellations, invoiceId: Id) returns (standing: Option<Id>)
    requires StepsUp(inv, can) && invoiceId in inv
    ensures standing == Standing(inv, can, invoiceId)
  {
    var at := invoiceId;
    while true
      invariant at in inv && Standing(inv, can, at) == Standing(inv, can, invoiceId)
      decreases |Further(inv, at)|
    {
      if at !in can {
        return Some(at);
      }
      if can[at].replacement.None? {
        return None;
      }
      WalkShrinks(inv, can, at);
      at := can[at].replacement.value;
    }
  }

  /** The walk stays in the chain, and ends on an invoice no cancellation cancels. */
  lemma {:induction false} StandingStaysInChain(inv: Invoices, can: Cancellations, i: Id)
    requires StepsUp(inv, can) && i in inv
    ensures var s := Standing(inv, can, i);
      s.Some? ==> SameChain(inv, i, s.value) && s.value !in can && inv[s.value].step % 2 == inv[i].step % 2
    decreases |Further(inv, i)|
  {
    if i in can && can[i].replacement.Some? {
      WalkShrinks(inv, can, i);
      StandingStaysInChain(inv, can, can[i].replacement.value);
    }
  }

  /** From the first invoice of the chain and from every replacement of it, the walk gives one answer. */
  lemma {:induction false} StandingFromTheFirst(inv: Invoices, can: Cancellations, i: Id)
    requires Chained(inv, can) && i in inv && inv[i].step % 2 == 0
    ensures Standing(inv, can, i) == Standing(inv, can, inv[i].chainId)
    decreases inv[i].step
  {
    if inv[i].step > 0 {
      assert WrittenBy(inv, can, i);
      var k: Id :| k in can && k in inv && can[k].replacement == Some(i);
      StandingFromTheFirst(inv, can, k);
    }
  }

  // ---- what an invoice owes --------------------------------------------------------------

  /** What the invoice owes after `settled`: nothing where it is corrected, and below nothing where it
      owes the subscriber. */
  function Owed(inv: Invoices, can: Cancellations, i: Id, settled: int): int
    requires i in inv
  {
    if Corrected(can, i) then 0 else inv[i].gross - settled
  }

  /** What is collected of the invoice: what it owes, or nothing where it owes nothing or less. */
  function StillOwed(inv: Invoices, can: Cancellations, i: Id, settled: int): nat
    requires i in inv
  {
    if inv[i].gross > settled && !Corrected(can, i) then inv[i].gross - settled else 0
  }

  /** However much is settled where, at most one invoice of a chain owes: the one that stands. */
  lemma OnlyTheStandingOwes(inv: Invoices, can: Cancellations, i: Id, settled: int)
    requires Chained(inv, can) && i in inv && Owed(inv, can, i, settled) > 0
    ensures Standing(inv, can, inv[i].chainId) == Some(i)
  {
    assert WrittenBy(inv, can, i);
    StandingFromTheFirst(inv, can, i);
  }

  // ---- issuing and cancelling ------------------------------------------------------------

  /** A first invoice: step 0 of the chain it names. */
  function Issued(inv: Invoices, id: Id, subscriber: Id, currency: Id, gross: int): Invoices {
    inv[id := Invoice(id, 0, subscriber, currency, gross)]
  }

  /** The ids a cancellation writes under, and what its replacement asks for. */
  datatype Correction = Correction(cancellationInvoice: Id, replacement: Option<Id>, gross: int)

  predicate Fresh(inv: Invoices, c: Correction) {
    && c.cancellationInvoice !in inv
    && (c.replacement.Some? ==> c.replacement.value !in inv && c.replacement.value != c.cancellationInvoice)
  }

  function CancelledInvoices(inv: Invoices, i: Id, c: Correction): Invoices
    requires i in inv
  {
    var of := inv[i];
    var with := inv[c.cancellationInvoice := of.(step := of.step + 1, gross := -of.gross)];
    if c.replacement.None? then with
    else with[c.replacement.value := of.(step := of.step + 2, gross := c.gross)]
  }

  function CancelledRows(can: Cancellations, i: Id, c: Correction): Cancellations {
    can[i := Cancellation(c.cancellationInvoice, c.replacement)]
  }

  /** `inv'` holds every invoice of `inv` unchanged, and beside them only `added`. */
  ghost predicate Extends(inv: Invoices, inv': Invoices, added: set<Id>) {
    && (forall k :: k in inv ==> k in inv' && inv'[k] == inv[k])
    && (forall k :: k in inv' ==> k in inv || k in added)
  }

  lemma ExtendKeepsMarks(inv: Invoices, can: Cancellations, inv': Invoices, can': Cancellations, i: Id)
    requires forall k :: k in can ==> k in can' && can'[k] == can[k]
    requires forall k :: k in inv ==> k in inv'
    ensures IsCancellation(can, i) ==> IsCancellation(can', i)
    ensures IsReplacement(inv, can, i) ==> IsReplacement(inv', can', i)
  {
    if IsCancellation(can, i) {
      var k: Id :| k in can && can[k].cancellationInvoice == i;
      assert can'[k].cancellationInvoice == i;
    }
    if IsReplacement(inv, can, i) {
      var k: Id :| k in can && k in inv && can[k].replacement == Some(i);
      assert can'[k].replacement == Some(i);
    }
  }

  lemma IssueKeepsChained(inv: Invoices, can: Cancellations, id: Id, subscriber: Id, currency: Id, gross: int)
    requires Chained(inv, can) && id !in inv
    ensures Chained(Issued(inv, id, subscriber, currency, gross), can)
  {
    var inv' := Issued(inv, id, subscriber, currency, gross);
    assert Extends(inv, inv', {id});
    forall i ensures WrittenBy(inv', can, i) {
      assert WrittenBy(inv, can, i);
      ExtendKeepsMarks(inv, can, inv', can, i);
    }
  }

  lemma CancelExtends(inv: Invoices, i: Id, c: Correction)
    requires i in inv && Fresh(inv, c)
    ensures var inv' := CancelledInvoices(inv, i, c);
      && Extends(inv, inv', {c.cancellationInvoice} + if c.replacement.Some? then {c.replacement.value} else {})
      && c.cancellationInvoice in inv'
      && inv'[c.cancellationInvoice] == inv[i].(step := inv[i].step + 1, gross := -inv[i].gross)
      && (c.replacement.Some? ==>
            && c.replacement.value in inv'
            && inv'[c.replacement.value] == inv[i].(step := inv[i].step + 2, gross := c.gross))
  {
  }

  lemma CancelKeepsSteps(inv: Invoices, can: Cancellations, i: Id, c: Correction)
    requires Rooted(inv) && StepsUp(inv, can) && i in inv && i !in can && Fresh(inv, c)
    ensures Rooted(CancelledInvoices(inv, i, c))
    ensures StepsUp(CancelledInvoices(inv, i, c), CancelledRows(can, i, c))
  {
    CancelExtends(inv, i, c);
    var inv', can' := CancelledInvoices(inv, i, c), CancelledRows(can, i, c);
    forall k | k in inv'
      ensures var first := inv'[k].chainId;
        && first in inv' && inv'[first].chainId == first && inv'[first].subscriber == inv'[k].subscriber
        && inv'[first].currency == inv'[k].currency && (inv'[k].step == 0 <==> k == first)
    {
      assert k in inv ==> inv'[k] == inv[k];
    }
    forall k | k in can' && can'[k].replacement.Some?
      ensures SameChain(inv', k, can'[k].replacement.value)
      ensures inv'[can'[k].replacement.value].step == inv'[k].step + 2
    {
      assert k != i ==> can'[k] == can[k];
    }
  }

  lemma CancelKeepsPlaced(inv: Invoices, can: Cancellations, i: Id, c: Correction)
    requires Placed(inv, can) && i in inv && inv[i].step % 2 == 0 && i !in can && Fresh(inv, c)
    ensures Placed(CancelledInvoices(inv, i, c), CancelledRows(can, i, c))
  {
    CancelExtends(inv, i, c);
    var inv', can' := CancelledInvoices(inv, i, c), CancelledRows(can, i, c);
    forall k | k in can'
      ensures k in inv' && inv'[k].step % 2 == 0
      ensures SameChain(inv', k, can'[k].cancellationInvoice)
      ensures inv'[can'[k].cancellationInvoice].step == inv'[k].step + 1
    {
      assert k != i ==> can'[k] == can[k];
    }
  }

  lemma CancelKeepsWritten(inv: Invoices, can: Cancellations, i: Id, c: Correction)
    requires Written(inv, can) && i in inv && inv[i].step % 2 == 0 && i !in can && Fresh(inv, c)
    ensures Written(CancelledInvoices(inv, i, c), CancelledRows(can, i, c))
  {
    CancelExtends(inv, i, c);
    var inv', can' := CancelledInvoices(inv, i, c), CancelledRows(can, i, c);
    assert can'[i].cancellationInvoice == c.cancellationInvoice && can'[i].replacement == c.replacement;
    forall k ensures WrittenBy(inv', can', k) {
      assert WrittenBy(inv, can, k);
      ExtendKeepsMarks(inv, can, inv', can', k);
    }
  }

  /** Cancelling the invoice that stands keeps the chain's shape. */
  lemma CancelKeepsChained(inv: Invoices, can: Cancellations, i: Id, c: Correction)
    requires Chained(inv, can) && i in inv && !Corrected(can, i) && Fresh(inv, c)
    ensures Chained(CancelledInvoices(inv, i, c), CancelledRows(can, i, c))
  {
    assert WrittenBy(inv, can, i);
    CancelKeepsSteps(inv, can, i, c);
    CancelKeepsPlaced(inv, can, i, c);
    CancelKeepsWritten(inv, can, i, c);
  }

  /** A cancellation leaves its replacement standing, or nothing. */
  lemma CancelMovesStanding(inv: Invoices, can: Cancellations, i: Id, c: Correction)
    requires Chained(inv, can) && i in inv && !Corrected(can, i) && Fresh(inv, c)
    ensures Chained(CancelledInvoices(inv, i, c), CancelledRows(can, i, c))
    ensures Standing(CancelledInvoices(inv, i, c), CancelledRows(can, i, c), inv[i].chainId) == c.replacement
  {
    CancelKeepsChained(inv, can, i, c);
    var inv', can' := CancelledInvoices(inv, i, c), CancelledRows(can, i, c);
    assert WrittenBy(inv, can, i);
    StandingFromTheFirst(inv', can', i);
    if c.replacement.Some? {
      assert c.replacement.value !in can;
    }
  }
}
