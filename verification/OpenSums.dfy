/** Owed and open amounts, computed twice: by adding up rows fetched in no particular order, and by one
    signed `SUM` in the database. */
module OpenSums {
  import opened Sums
  import opened PaymentRules
  import opened InvoiceChain
  import opened Books

  // ---- row by row ------------------------------------------------------------------------

  /** The amounts added up one after another. */
  function Reduced(amounts: seq<int>): int {
    if amounts == [] then 0 else Reduced(amounts[..|amounts| - 1]) + amounts[|amounts| - 1]
  }

  datatype CorrectedState = CorrectedState(cancelled: bool, isCancellation: bool)

  /** What the rows of a chain's corrections that name the invoice say of it. */
  function CorrectedStateOf(can: Cancellations, i: Id): CorrectedState {
    var named := map k: Id | k in can && (k == i || can[k].cancellationInvoice == i) :: can[k];
    CorrectedState(exists k: Id :: k in named && k == i, exists k: Id :: k in named && named[k].cancellationInvoice == i)
  }

  function OwedByInvoice(gross: int, settled: seq<int>, corrected: CorrectedState): int {
    if corrected.cancelled || corrected.isCancellation then 0 else gross - Reduced(settled)
  }

  function OpenOfCredit(amount: int, paidOut: seq<int>): nat {
    Max(0, amount - Reduced(paidOut))
  }

  // ---- in the database -------------------------------------------------------------------

  const REOPENING: set<SettlementKind> := {Reversed, MovedOut}
  const GIVING_BACK: set<EntryKind> := {TakenBack, RefundFailed}

  function Coalesced(sum: Option<int>): int {
    if sum.Some? then sum.value else 0
  }

  /** `SELECT SUM(CASE WHEN gives then -amount ELSE amount END) … WHERE picks`: `NULL` where no row is picked. */
  function SumWhere<T>(rows: seq<T>, picks: T -> bool, down: T -> bool, amount: T -> int): Option<int> {
    if rows == [] then None
    else
      var last := rows[|rows| - 1];
      var before := SumWhere(rows[..|rows| - 1], picks, down, amount);
      if picks(last) then Some(Coalesced(before) + if down(last) then -amount(last) else amount(last)) else before
  }

  function SettledInSql(b: Books, i: Id): int {
    Coalesced(SumWhere(b.settlements, (s: Settlement) => s.invoice == i, (s: Settlement) => s.kind in REOPENING,
                       (s: Settlement) => s.amount))
  }

  function OwedInSql(b: Books, i: Id): int
    requires i in b.invoices
  {
    b.invoices[i].gross - SettledInSql(b, i)
  }

  predicate StillOwes(b: Books, i: Id)
    requires i in b.invoices
  {
    && b.invoices[i].gross > SettledInSql(b, i)
    && !exists k: Id :: k in b.cancellations && (k == i || b.cancellations[k].cancellationInvoice == i)
  }

  function OpenInSql(b: Books, c: Id): int
    requires c < |b.credits|
  {
    b.credits[c].amount
      - Coalesced(SumWhere(b.entries, (e: Entry) => e.credit == c, (e: Entry) => e.kind in GIVING_BACK,
                           (e: Entry) => e.amount))
  }

  // ---- they agree ------------------------------------------------------------------------

  function Amounts<T>(rows: seq<T>, f: T -> int): seq<int> {
    seq(|rows|, (k: nat) requires k < |rows| => f(rows[k]))
  }

  lemma {:induction false} ReducedIsSum<T>(rows: seq<T>, f: T -> int)
    ensures Reduced(Amounts(rows, f)) == Sum(rows, f)
  {
    if rows != [] {
      var n := |rows| - 1;
      assert Amounts(rows, f)[..n] == Amounts(rows[..n], f);
      ReducedIsSum(rows[..n], f);
    }
  }

  lemma WithoutOne<T>(s: seq<T>, k: nat)
    requires k < |s|
    ensures multiset(s[..k] + s[k + 1..]) == multiset(s) - multiset{s[k]}
  {
    assert s == s[..k] + [s[k]] + s[k + 1..];
  }

  /** A sum does not depend on the order of its rows. */
  lemma {:induction false} SumInAnyOrder<T>(a: seq<T>, b: seq<T>, f: T -> int)
    requires multiset(a) == multiset(b)
    ensures Sum(a, f) == Sum(b, f)
  {
    if a == [] {
      assert |multiset(b)| == 0;
    } else {
      var n := |a| - 1;
      var x := a[n];
      assert a == a[..n] + [x];
      assert x in multiset(b);
      var k :| 0 <= k < |b| && b[k] == x;
      assert b == b[..k] + ([x] + b[k + 1..]);
      WithoutOne(b, k);
      assert multiset(a[..n]) == multiset(a) - multiset{x};
      SumInAnyOrder(a[..n], b[..k] + b[k + 1..], f);
      SumConcat(b[..k], b[k + 1..], f);
      SumConcat(b[..k], [x] + b[k + 1..], f);
      SumCons(x, b[k + 1..], f);
    }
  }

  lemma {:induction false} SqlIsSum<T>(
    rows: seq<T>, picks: T -> bool, down: T -> bool, amount: T -> int, g: T -> int)
    requires forall x :: g(x) == if !picks(x) then 0 else if down(x) then -amount(x) else amount(x)
    ensures Coalesced(SumWhere(rows, picks, down, amount)) == Sum(rows, g)
  {
    if rows != [] {
      SqlIsSum(rows[..|rows| - 1], picks, down, amount, g);
    }
  }

  lemma CorrectedAgrees(can: Cancellations, i: Id)
    ensures var state := CorrectedStateOf(can, i);
      state.cancelled || state.isCancellation <==> Corrected(can, i)
    ensures Corrected(can, i) <==> exists k: Id :: k in can && (k == i || can[k].cancellationInvoice == i)
  {
    var named := map k: Id | k in can && (k == i || can[k].cancellationInvoice == i) :: can[k];
    var state := CorrectedStateOf(can, i);
    assert i in can <==> i in named;
    assert state.cancelled <==> i in named;
    if k: Id :| k in can && can[k].cancellationInvoice == i {
      assert k in named && named[k].cancellationInvoice == i;
      assert state.isCancellation && IsCancellation(can, i);
    } else {
      assert !state.isCancellation && !IsCancellation(can, i);
    }
  }

  /** However its settlements come to be read, what an invoice owes is what the books say it owes; and the database
      finds that it still owes exactly where that is more than nothing, and then finds as much. */
  lemma OwedReadsAgree(b: Books, i: Id, read: seq<Settlement>)
    requires i in b.invoices && multiset(read) == multiset(Picked(b.settlements, (s: Settlement) => s.invoice == i))
    ensures OwedByInvoice(b.invoices[i].gross, Amounts(read, Signed), CorrectedStateOf(b.cancellations, i)) == OwedBy(b, i)
    ensures StillOwes(b, i) <==> OwedBy(b, i) > 0
    ensures StillOwes(b, i) ==> OwedInSql(b, i) == OwedBy(b, i)
    ensures StillOwed(b.invoices, b.cancellations, i, SettledOn(b, i)) == Max(0, OwedBy(b, i))
  {
    var picks := (s: Settlement) => s.invoice == i;
    ReducedIsSum(read, Signed);
    SumInAnyOrder(read, Picked(b.settlements, picks), Signed);
    PickedSumOf(b.settlements, picks, Signed, OfInvoice(i));
    SqlIsSum(b.settlements, picks, (s: Settlement) => s.kind in REOPENING, (s: Settlement) => s.amount, OfInvoice(i));
    CorrectedAgrees(b.cancellations, i);
  }

  /** And so for what a credit still holds. */
  lemma OpenReadsAgree(b: Books, c: Id, read: seq<Entry>)
    requires c < |b.credits| && multiset(read) == multiset(Picked(b.entries, (e: Entry) => e.credit == c))
    ensures OpenOfCredit(b.credits[c].amount, Amounts(read, PaidOutBy)) == Max(0, Open(b, c))
    ensures OpenInSql(b, c) == Open(b, c)
  {
    var picks := (e: Entry) => e.credit == c;
    ReducedIsSum(read, PaidOutBy);
    SumInAnyOrder(read, Picked(b.entries, picks), PaidOutBy);
    PickedSumOf(b.entries, picks, PaidOutBy, OnCredit(c));
    SqlIsSum(b.entries, picks, (e: Entry) => e.kind in GIVING_BACK, (e: Entry) => e.amount, OnCredit(c));
  }
}
