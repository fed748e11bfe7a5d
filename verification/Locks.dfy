/** The row locks the ledger's transactions take, in the order they take them, so that no transactions
    wait on one another in a circle. */
module Locks {
  import opened Sums
  import opened PaymentRules
  import opened InvoiceChain
  import opened Books
  import opened Soundness
  import opened ReversalFrame
  import opened Brought
  import opened Withdrawals
  import opened LiftedCovers
  import opened WholeWithdrawals
  import opened Reinstatements
  import opened ReversalReports
  import opened Refunds
  import opened PaymentRecords
  import LedgerRuns

  datatype Kind = PaymentKind | RefundKind | ReversalKind

  /** A chain's turn is its first invoice's row. A credit's row is known by where its id stands among the
      credits' ids. The row under a gateway's reference is one lock whether it is locked, or inserted and
      not committed yet: either makes whoever asks for the reference wait. */
  datatype Lock =
    | Turn(chain: Id)
    | CreditRow(place: int)
    | ReferenceRow(kind: Kind, ref: Id)
    | CaseRow(id: Id)

  // ---- no waiting in a circle ------------------------------------------------------------

  function Rank(l: Lock): nat {
    match l
    case Turn(_) => 0
    case CreditRow(_) => 1
    case _ => 2
  }

  /** Turns come before credit rows, each of them in the order of its ids, and both before all other rows. */
  predicate Before(a: Lock, b: Lock) {
    || Rank(a) < Rank(b)
    || (a.Turn? && b.Turn? && a.chain < b.chain)
    || (a.CreditRow? && b.CreditRow? && a.place < b.place)
  }

  /** The lock that guards another: whoever works on the other holds it. */
  type Guards = Lock -> Option<Lock>

  predicate AfterAll(held: seq<Lock>, next: Lock) {
    forall l :: l in held ==> Before(l, next)
  }

  /** Whether the next lock may be asked for with `held`: it is held already, or what guards it is, or
      nothing guards it and it comes after everything held. */
  predicate MayAsk(guards: Guards, held: seq<Lock>, next: Lock) {
    || next in held
    || (guards(next).Some? && guards(next).value in held)
    || (guards(next).None? && AfterAll(held, next))
  }

  predicate Orderly(guards: Guards, asks: seq<Lock>) {
    forall k :: 0 <= k < |asks| ==> MayAsk(guards, asks[..k], asks[k])
  }

  /** Whether a transaction asks in order up to its last lock, which comes after everything it holds: that
      one it may ask for without what guards it, for it asks for nothing more. */
  predicate Permitted(guards: Guards, asks: seq<Lock>) {
    || Orderly(guards, asks)
    || (|asks| > 0 && Orderly(guards, asks[..|asks| - 1]) && AfterAll(asks[..|asks| - 1], asks[|asks| - 1]))
  }

  /** A transaction that asks for `asks` in order, and has been given the first `given` of them. */
  datatype Transaction = Transaction(asks: seq<Lock>, given: nat)

  predicate Waits(t: Transaction) {
    t.given < |t.asks|
  }

  function Held(t: Transaction): seq<Lock> {
    if t.given <= |t.asks| then t.asks[..t.given] else t.asks
  }

  function Wanted(t: Transaction): Lock
    requires Waits(t)
  {
    t.asks[t.given]
  }

  /** Whether `t` asks for a lock that `u` holds and `t` does not. */
  predicate WaitsOn(t: Transaction, u: Transaction) {
    Waits(t) && Wanted(t) !in Held(t) && Wanted(t) in Held(u)
  }

  /** No lock is held by two. */
  predicate Exclusive(ts: seq<Transaction>) {
    forall i, j, l :: 0 <= i < j < |ts| && l in Held(ts[i]) ==> l !in Held(ts[j])
  }

  predicate AllPermitted(guards: Guards, ts: seq<Transaction>) {
    forall i :: 0 <= i < |ts| ==> Permitted(guards, ts[i].asks)
  }

  /** What a transaction that waits holds, it holds with what guards it. */
  lemma {:induction false} HeldWithGuard(guards: Guards, t: Transaction, k: nat)
    requires Permitted(guards, t.asks) && Waits(t) && k < t.given && guards(t.asks[k]).Some?
    ensures guards(t.asks[k]).value in Held(t)
    decreases k
  {
    var n := |t.asks| - 1;
    assert MayAsk(guards, t.asks[..k], t.asks[k]) by {
      if !Orderly(guards, t.asks) {
        assert t.asks[..n][..k] == t.asks[..k] && t.asks[..n][k] == t.asks[k];
      }
    }
    if t.asks[k] in t.asks[..k] {
      var j :| 0 <= j < k && t.asks[..k][j] == t.asks[k];
      HeldWithGuard(guards, t, j);
    } else {
      var j :| 0 <= j < k && t.asks[..k][j] == guards(t.asks[k]).value;
      assert t.asks[..t.given][j] == guards(t.asks[k]).value;
    }
  }

  /** What a transaction asks for without holding what guards it comes after all it holds. */
  lemma AsksAfter(guards: Guards, t: Transaction)
    requires Permitted(guards, t.asks) && Waits(t) && Wanted(t) !in Held(t)
    requires guards(Wanted(t)).Some? ==> guards(Wanted(t)).value !in Held(t)
    ensures AfterAll(Held(t), Wanted(t))
  {
    hide AfterAll;
    var n := |t.asks| - 1;
    if Orderly(guards, t.asks) {
      assert MayAsk(guards, t.asks[..t.given], t.asks[t.given]);
    } else if t.given < n {
      assert t.asks[..n][..t.given] == t.asks[..t.given];
      assert MayAsk(guards, t.asks[..n][..t.given], t.asks[..n][t.given]);
    }
  }

  /** What one waits for that another holds who waits as well comes after all the first holds: where it is
      guarded the other holds its guard, and then the first does not. */
  lemma WantedIsAfter(guards: Guards, ts: seq<Transaction>, i: nat, j: nat)
    requires AllPermitted(guards, ts) && Exclusive(ts) && i < |ts| && j < |ts|
    requires WaitsOn(ts[i], ts[j]) && Waits(ts[j])
    ensures AfterAll(Held(ts[i]), Wanted(ts[i]))
  {
    hide Permitted, AfterAll;
    var next := Wanted(ts[i]);
    var k :| 0 <= k < |Held(ts[j])| && Held(ts[j])[k] == next;
    if guards(next).Some? {
      HeldWithGuard(guards, ts[j], k);
      HeldByOne(ts, j, i, guards(next).value);
    }
    AsksAfter(guards, ts[i]);
  }

  lemma HeldByOne(ts: seq<Transaction>, i: nat, j: nat, l: Lock)
    requires Exclusive(ts) && i < |ts| && j < |ts| && i != j && l in Held(ts[i])
    ensures l !in Held(ts[j])
  {
  }

  lemma BeforeTwice(a: Lock, b: Lock, c: Lock)
    requires Before(a, b) && Before(b, c)
    ensures Before(a, c)
  {
  }

  /** Whether each of `path` waits on the next. */
  ghost predicate WaitsAlong(ts: seq<Transaction>, path: seq<nat>) {
    && (forall i :: 0 <= i < |path| ==> path[i] < |ts|)
    && forall i, j :: 0 <= i && j == i + 1 && j < |path| ==> WaitsOn(ts[path[i]], ts[path[j]])
  }

  /** Along a chain of waits, what each waits for comes after what the first waits for. */
  lemma {:induction false} WaitsRise(guards: Guards, ts: seq<Transaction>, path: seq<nat>, k: nat)
    requires AllPermitted(guards, ts) && Exclusive(ts) && WaitsAlong(ts, path)
    requires 1 <= k < |path| - 1 && Waits(ts[path[|path| - 1]])
    ensures Waits(ts[path[0]]) && Waits(ts[path[k]])
    ensures Before(Wanted(ts[path[0]]), Wanted(ts[path[k]]))
  {
    assert WaitsOn(ts[path[k - 1]], ts[path[k]]) && WaitsOn(ts[path[k]], ts[path[k + 1]]);
    if k + 1 < |path| - 1 {
      assert WaitsOn(ts[path[k + 1]], ts[path[k + 2]]);
    }
    WantedIsAfter(guards, ts, path[k], path[k + 1]);
    if k > 1 {
      WaitsRise(guards, ts, path, k - 1);
      BeforeTwice(Wanted(ts[path[0]]), Wanted(ts[path[k - 1]]), Wanted(ts[path[k]]));
    }
  }

  /** Transactions that ask in order, save for a last lock each, never wait on one another in a circle,
      however many there are. */
  lemma NoCircle(guards: Guards, ts: seq<Transaction>, circle: seq<nat>)
    requires AllPermitted(guards, ts) && Exclusive(ts) && circle != []
    ensures !WaitsAlong(ts, circle + [circle[0]])
  {
    hide Permitted, Exclusive, Before, Held;
    var path := circle + [circle[0]];
    var n := |circle|;
    if WaitsAlong(ts, path) {
      assert WaitsOn(ts[path[0]], ts[path[1]]) && WaitsOn(ts[path[n - 1]], ts[path[n]]);
      if n > 1 {
        WaitsRise(guards, ts, path, n - 1);
        assert WaitsOn(ts[path[1]], ts[path[2]]);
        WantedIsAfter(guards, ts, path[0], path[1]);
        assert Wanted(ts[path[n - 1]]) in Held(ts[path[0]]);
        BeforeTwice(Wanted(ts[path[0]]), Wanted(ts[path[n - 1]]), Wanted(ts[path[0]]));
        BeforeNone(Wanted(ts[path[0]]));
      }
    }
  }

  lemma BeforeNone(l: Lock)
    ensures !Before(l, l)
  {
  }

  // ---- the turn of one chain -------------------------------------------------------------

  function AddNew(ids: seq<Id>, id: Id): seq<Id> {
    if id in ids then ids else ids + [id]
  }

  function ChainAt(b: Books, i: Id): seq<Id> {
    if i in b.invoices then [b.invoices[i].chainId] else []
  }

  /** The chains of the invoice the payment was collected for and of every invoice it settles, each once. */
  function ChainsOf(b: Books, rows: seq<Settlement>, p: Id): seq<Id> {
    if rows == [] then (if p < |b.payments| then ChainAt(b, b.payments[p].invoice) else [])
    else
      var n := |rows| - 1;
      var before := ChainsOf(b, rows[..n], p);
      if rows[n].payment == p && rows[n].invoice in b.invoices
      then AddNew(before, b.invoices[rows[n].invoice].chainId) else before
  }

  /** `takeTurns` takes the turn of one chain: that of the invoice the payment was collected for. */
  lemma {:induction false} OneTurn(b: Books, p: Id, n: nat)
    requires PaymentsOk(b) && SettlementsOk(b) && p < |b.payments| && n <= |b.settlements|
    ensures b.payments[p].invoice in b.invoices
    ensures ChainsOf(b, b.settlements[..n], p) == [b.invoices[b.payments[p].invoice].chainId]
  {
    assert PaymentOk(b, b.payments[p]);
    if n > 0 {
      OneTurn(b, p, n - 1);
      assert b.settlements[..n][..n - 1] == b.settlements[..n - 1];
      assert SettlementOk(b, b.settlements[n - 1]);
    }
  }

  // ---- what guards what ------------------------------------------------------------------

  function ChainOfPayment(b: Books, p: Id): Id {
    if p < |b.payments| && b.payments[p].invoice in b.invoices then b.invoices[b.payments[p].invoice].chainId else 0
  }

  /** A committed reversal's row, and the cases about it, are worked on in the turn of the chain of its payment;
      a refund's case by whoever holds the refund's row. */
  function GuardOf(b: Books, l: Lock): Option<Lock> {
    match l
    case ReferenceRow(ReversalKind, ref) =>
      (match Find(b.reversals, ReversalRef(ref))
       case Some(r) => Some(Turn(ChainOfPayment(b, b.reversals[r].payment)))
       case None => None)
    case CaseRow(k) =>
      if k >= |b.cases| then None
      else
        (match b.cases[k].about
         case ByReversal(r) => Some(Turn(ChainOfPayment(b, PaymentOf(b, r))))
         case ByRefund(f) => if f < |b.refunds| then Some(ReferenceRow(RefundKind, b.refunds[f].ref)) else None
         case ByPayout => None)
    case _ => None
  }

  /** What guards what in the books as they are committed. */
  function GuardsOf(b: Books): Guards {
    (l: Lock) => GuardOf(b, l)
  }

  // ---- what each transaction asks for ----------------------------------------------------

  function IsHeldOf(b: Books, subscriber: Id): Id -> bool {
    (c: Id) => c < |b.credits| && b.credits[c].subscriber == subscriber
  }

  function PlaceKey(b: Books): Id -> Key {
    (c: Id) => if c < |b.credits| then (b.credits[c].rank, 0) else (0, 0)
  }

  /** The subscriber's credits in the order of their ids. */
  function HeldCredits(b: Books, subscriber: Id): seq<Id> {
    Sort(Indices(|b.credits|, IsHeldOf(b, subscriber)), PlaceKey(b))
  }

  function CreditLocks(b: Books, ids: seq<Id>): seq<Lock> {
    seq(|ids|, (k: nat) requires k < |ids| => CreditRow(PlaceKey(b)(ids[k]).0))
  }

  function TurnLocks(ids: seq<Id>): seq<Lock> {
    seq(|ids|, (k: nat) requires k < |ids| => Turn(ids[k]))
  }

  function RowLock(b: Books, r: Id): Lock {
    ReferenceRow(ReversalKind, if r < |b.reversals| then b.reversals[r].ref else 0)
  }

  /** The reversals whose covers a report of `withdrawn` lifts. */
  ghost function LiftedFor(b: Books, r: Id, withdrawn: int): seq<Cover>
    requires r < |b.reversals|
  {
    if withdrawn > b.reversals[r].amount
    then LiftedBy(b, b.reversals[r].payment, withdrawn - b.reversals[r].amount) else []
  }

  function CoverLocks(b: Books, lifted: seq<Cover>): seq<Lock> {
    seq(|lifted|, (k: nat) requires k < |lifted| => RowLock(b, lifted[k].reversal))
  }

  /** The chains locked again on the way to what each reopened invoice owes. */
  function AgainLocks(b: Books, reopened: seq<Part>): seq<Lock> {
    seq(|reopened|, (k: nat) requires k < |reopened| =>
      Turn(if reopened[k].id in b.invoices then b.invoices[reopened[k].id].chainId else 0))
  }

  function Closing(b: Books, about: Source, picked: Id -> bool): Id -> bool {
    (k: Id) => k < |b.cases| && b.cases[k].about == about && !b.cases[k].closed && picked(k)
  }

  /** The open cases about `about` that are closed, of the first `known`, in the order they were opened. */
  function ClosedCases(b: Books, about: Source, picked: Id -> bool, known: nat): seq<Id> {
    Sort(Indices(known, Closing(b, about, picked)), CaseKey(b))
  }

  function CaseLocks(ids: seq<Id>): seq<Lock> {
    seq(|ids|, (k: nat) requires k < |ids| => CaseRow(ids[k]))
  }

  /** What is asked for on the way to a give-back of `reinstated` in all, as the books stand: the chain of each
      invoice the reversal opened, then each case closed of those that were there before this transaction. */
  ghost function GivingBackAsks(b: Books, r: Id, reinstated: int, known: nat): seq<Lock>
    requires r < |b.reversals|
  {
    var given := NewlyGiven(b.reversals[r], reinstated);
    if given <= 0 then []
    else AgainLocks(b, ReopenedParts(b, r))
           + CaseLocks(ClosedCases(b, ByReversal(r), CoveredNow(b, r, given), known))
  }

  /** What a report goes on to ask for once it holds its reversal's row: the rows of the reversals whose covers
      it lifts, and what it gives back once all of it is withdrawn. */
  ghost function ApplyingAsks(b: Books, r: Id, report: Report, known: nat): seq<Lock>
    requires r < |b.reversals|
  {
    var after := Withdrawn(b, r, report.withdrawn, report.at);
    CoverLocks(b, LiftedFor(b, r, report.withdrawn))
      + if r < |after.reversals| then GivingBackAsks(after, r, report.reinstated, known) else []
  }

  /** What a report asks for before its row: one turn, that of the payment it names, and its credits. */
  function FirstAsks(b: Books, p: Id): seq<Lock>
    requires p < |b.payments|
  {
    TurnLocks(ChainsOf(b, b.settlements, p)) + CreditLocks(b, HeldCredits(b, b.payments[p].subscriber))
  }

  /** A report takes the turn of the payment it names, its subscriber's credits, then the row under the
      reference it bears, which it may find to be of another payment: then it goes no further. */
  ghost function ReportAsks(b: Books, report: Report): seq<Lock> {
    var payment := Find(b.payments, PaymentRef(report.paymentRef));
    if payment.None? || report.currency != b.payments[payment.value].currency then []
    else
      var p := payment.value;
      var (held, r) := HeldReversal(b, report.ref, p);
      FirstAsks(b, p) + [ReferenceRow(ReversalKind, report.ref)]
        + if held.reversals[r].payment == p then ApplyingAsks(held, r, report, |b.cases|) else []
  }

  /** A refund takes its subscriber's credits, then its own row where it is new or changes, then its case. */
  function RefundAsks(b: Books, report: RefundReport): seq<Lock> {
    var payment := Find(b.payments, PaymentRef(report.paymentRef));
    if payment.None? || report.currency != b.payments[payment.value].currency then []
    else
      var credits := CreditLocks(b, HeldCredits(b, b.payments[payment.value].subscriber));
      match Find(b.refunds, RefundRef(report.ref))
      case None => credits + [ReferenceRow(RefundKind, report.ref)]
      case Some(f) =>
        if Ended(b.refunds[f].status) || report.status == b.refunds[f].status then credits
        else credits + [ReferenceRow(RefundKind, report.ref)]
               + if Ended(report.status) then CaseLocks(ClosedCases(b, ByRefund(f), EveryCase(), |b.cases|)) else []
  }

  function TurnAsks(b: Books, i: Id): seq<Lock> {
    if i in b.invoices then [Turn(b.invoices[i].chainId)] else []
  }

  /** What each step of the ledger asks for, as the books are committed. */
  ghost function Asks(b: Books, op: LedgerRuns.Op): seq<Lock> {
    match op
    case Issue(_, _, _, _) => []
    case Correct(i, _, _) => TurnAsks(b, i)
    case Collect(pay) =>
      TurnAsks(b, pay.invoice)
        + if pay.invoice in b.invoices && pay.currency == b.invoices[pay.invoice].currency
             && Find(b.payments, PaymentRef(pay.ref)).None?
          then [ReferenceRow(PaymentKind, pay.ref)] else []
    case CreditFor(i, _) => TurnAsks(b, i)
    case ReportRefund(report) => RefundAsks(b, report)
    case PayOff(c, _, _) => if c < |b.credits| then [CreditRow(b.credits[c].rank)] else []
    case ReportReversal(report) => ReportAsks(b, report)
    case Resolve(k) => if k < |b.cases| && !b.cases[k].closed then [CaseRow(k)] else []
  }

  // ---- the order they ask in -------------------------------------------------------------

  lemma CreditLocksRise(b: Books, subscriber: Id)
    ensures var asks := CreditLocks(b, HeldCredits(b, subscriber));
      forall i, j :: 0 <= i < j < |asks| ==> asks[i] == asks[j] || Before(asks[i], asks[j])
  {
    SortOrders(Indices(|b.credits|, IsHeldOf(b, subscriber)), PlaceKey(b));
  }

  /** Locks asked for under one lock held: that lock again, or rows it guards. */
  predicate Under(guards: Guards, rest: seq<Lock>, guard: Lock) {
    forall k :: 0 <= k < |rest| ==> rest[k] == guard || guards(rest[k]) == Some(guard)
  }

  predicate CreditsRising(credits: seq<Lock>) {
    && (forall k :: 0 <= k < |credits| ==> credits[k].CreditRow?)
    && forall i, j :: 0 <= i < j < |credits| ==> credits[i] == credits[j] || Before(credits[i], credits[j])
  }

  /** Turns and credits have no guard. */
  ghost predicate Plain(guards: Guards) {
    forall l: Lock :: Rank(l) < 2 ==> guards(l).None?
  }

  /** Where a sequence asks in order, so does one that goes on under a lock it holds. */
  lemma GoesOnUnder(guards: Guards, asks: seq<Lock>, rest: seq<Lock>, guard: Lock)
    requires Orderly(guards, asks) && guard in asks && Under(guards, rest, guard)
    ensures Orderly(guards, asks + rest)
  {
    var all := asks + rest;
    forall k | 0 <= k < |all| ensures MayAsk(guards, all[..k], all[k]) {
      if k < |asks| {
        assert all[..k] == asks[..k];
      } else {
        assert all[..k] == asks + rest[..k - |asks|];
        assert rest[k - |asks|] == all[k];
      }
    }
  }

  /** Where a sequence asks in order, so does one that goes on with an unguarded lock after all of it. */
  lemma GoesOnAfter(guards: Guards, asks: seq<Lock>, next: Lock)
    requires Orderly(guards, asks)
    ensures MayAsk(guards, asks, next) <==> Orderly(guards, asks + [next])
  {
    var all := asks + [next];
    assert all[..|asks|] == asks;
    forall k | 0 <= k < |asks| ensures MayAsk(guards, all[..k], all[k]) {
      assert all[..k] == asks[..k];
    }
    if Orderly(guards, all) {
      assert MayAsk(guards, all[..|asks|], all[|asks|]);
    }
  }

  /** One turn at most, then credit rows in the order of their ids. */
  lemma CreditsAfter(guards: Guards, turn: seq<Lock>, credits: seq<Lock>)
    requires Plain(guards) && CreditsRising(credits)
    requires |turn| <= 1 && forall k :: 0 <= k < |turn| ==> turn[k].Turn?
    ensures Orderly(guards, turn + credits)
  {
    var asks := turn + credits;
    forall k | 0 <= k < |asks| ensures MayAsk(guards, asks[..k], asks[k]) {
      if asks[k] !in asks[..k] {
        forall l | l in asks[..k] ensures Before(l, asks[k]) {
          var i :| 0 <= i < k && asks[..k][i] == l;
          if i >= |turn| {
            assert credits[i - |turn|] == l && credits[k - |turn|] == asks[k];
          }
        }
      }
    }
  }

  lemma PlainGuards(b: Books)
    ensures Plain(GuardsOf(b))
  {
  }

  lemma CreditsRise(b: Books, subscriber: Id)
    ensures CreditsRising(CreditLocks(b, HeldCredits(b, subscriber)))
  {
    CreditLocksRise(b, subscriber);
  }

  lemma RowsAfter(turn: seq<Lock>, credits: seq<Lock>, next: Lock)
    requires CreditsRising(credits) && Rank(next) == 2
    requires |turn| <= 1 && forall k :: 0 <= k < |turn| ==> turn[k].Turn?
    ensures AfterAll(turn + credits, next)
  {
    var asks := turn + credits;
    forall l | l in asks ensures Before(l, next) {
      var i :| 0 <= i < |asks| && asks[i] == l;
    }
  }

  // ---- a report of a reversal ------------------------------------------------------------

  /** Whether the report bears the reference of a reversal of a payment of another chain than that of the
      payment it names. */
  predicate OfOtherChain(b: Books, report: Report) {
    var payment, known := Find(b.payments, PaymentRef(report.paymentRef)), Find(b.reversals, ReversalRef(report.ref));
    && payment.Some? && known.Some? && report.currency == b.payments[payment.value].currency
    && ChainOfPayment(b, b.reversals[known.value].payment) != ChainOfPayment(b, payment.value)
  }

  lemma RowGuard(b: Books, q: Id)
    requires RefsUnique(b) && q < |b.reversals|
    ensures GuardsOf(b)(RowLock(b, q)) == Some(Turn(ChainOfPayment(b, b.reversals[q].payment)))
  {
    assert ReversalRef(b.reversals[q].ref)(b.reversals[q]);
  }

  lemma CaseGuard(b: Books, k: Id, r: Id)
    requires CasesOk(b) && k < |b.cases| && b.cases[k].about == ByReversal(r)
    ensures r < |b.reversals|
    ensures GuardsOf(b)(CaseRow(k)) == Some(Turn(ChainOfPayment(b, b.reversals[r].payment)))
  {
    assert CaseOk(b, b.cases[k]);
  }

  lemma ClosedCasesHold(b: Books, about: Source, picked: Id -> bool, known: nat, i: nat)
    requires i < |ClosedCases(b, about, picked, known)|
    ensures var k := ClosedCases(b, about, picked, known)[i];
      k < known && k < |b.cases| && b.cases[k].about == about
  {
    var ids := Indices(known, Closing(b, about, picked));
    SortOrders(ids, CaseKey(b));
    IndicesHold(known, Closing(b, about, picked));
    assert ClosedCases(b, about, picked, known)[i] in ids;
  }

  /** What holds of the books a report goes on in, once it holds the row of its reversal. */
  ghost predicate HoldsRow(b: Books, held: Books, r: Id, p: Id) {
    && Sound(held) && RefsUnique(b) && CasesOk(b)
    && r < |held.reversals| && held.reversals[r].payment == p && p < |b.payments|
    && held == b.(reversals := held.reversals)
    && (|held.reversals| == |b.reversals| || (r == |b.reversals| && |held.reversals| == r + 1))
    && forall q :: 0 <= q < |b.reversals| ==> held.reversals[q] == b.reversals[q]
  }

  lemma HeldRow(b: Books, report: Report, p: Id)
    requires Sound(b) && p < |b.payments|
    ensures var (held, r) := HeldReversal(b, report.ref, p);
      r < |held.reversals| && (held.reversals[r].payment == p ==> HoldsRow(b, held, r, p))
  {
    hide Sound;
    SoundIs(b);
    HeldSound(b, report.ref, p);
    MidwayCases(b, []);
  }

  /** The reversals whose covers are lifted take back payments of the same chain. */
  lemma CoversUnder(b: Books, held: Books, r: Id, p: Id, withdrawn: int)
    requires HoldsRow(b, held, r, p)
    ensures Under(GuardsOf(b), CoverLocks(held, LiftedFor(held, r, withdrawn)), Turn(ChainOfPayment(b, p)))
  {
    hide RowsOk, LiftedBy, Sound, RowLock, GuardsOf, CasesOk, RefsUnique;
    SoundIs(held);
    var lifted := LiftedFor(held, r, withdrawn);
    var asks := CoverLocks(held, lifted);
    if withdrawn > held.reversals[r].amount {
      LiftedLent(held, p, withdrawn - held.reversals[r].amount);
      forall k | 0 <= k < |asks| ensures GuardsOf(b)(asks[k]) == Some(Turn(ChainOfPayment(b, p))) {
        var q := lifted[k].reversal;
        assert OfChain(held, q, p) && held.reversals[q].payment != p;
        SameRow(b, held, q);
        RowGuard(b, q);
      }
    }
  }

  lemma SameRow(b: Books, held: Books, q: Id)
    requires q < |b.reversals| && q < |held.reversals| && held.reversals[q] == b.reversals[q]
    ensures RowLock(held, q) == RowLock(b, q)
  {
  }

  /** What a reversal opened stands, whichever invoice stands for it now, in the same chain. */
  lemma AgainUnder(b: Books, after: Books, r: Id, guards: Guards)
    requires SettlementsOk(after) && r < |after.reversals|
    requires after.payments == b.payments && after.invoices == b.invoices
    ensures Under(guards, AgainLocks(after, ReopenedParts(after, r)), Turn(ChainOfPayment(b, after.reversals[r].payment)))
  {
    hide ReopenedParts;
    var reopened := ReopenedParts(after, r);
    forall k | 0 <= k < |reopened|
      ensures AgainLocks(after, reopened)[k] == Turn(ChainOfPayment(b, after.reversals[r].payment))
    {
      assert Names(reopened, reopened[k].id);
      ReopenedInChain(after, r, reopened[k].id);
    }
  }

  ghost predicate CasesKept(b: Books, b': Books) {
    |b.cases| <= |b'.cases| && forall i :: 0 <= i < |b.cases| ==> Kept(b.cases[i], b'.cases[i])
  }

  /** Of the cases a give-back closes those that were there are about its own reversal. */
  lemma CasesUnder(b: Books, after: Books, r: Id, p: Id, picked: Id -> bool)
    requires CasesOk(b) && CasesKept(b, after) && (r < |b.reversals| ==> b.reversals[r].payment == p)
    ensures Under(GuardsOf(b), CaseLocks(ClosedCases(after, ByReversal(r), picked, |b.cases|)),
                  Turn(ChainOfPayment(b, p)))
  {
    hide ClosedCases, GuardsOf, CasesOk;
    var ids := ClosedCases(after, ByReversal(r), picked, |b.cases|);
    forall i | 0 <= i < |ids| ensures GuardsOf(b)(CaseRow(ids[i])) == Some(Turn(ChainOfPayment(b, p))) {
      ClosedCasesHold(after, ByReversal(r), picked, |b.cases|, i);
      assert Kept(b.cases[ids[i]], after.cases[ids[i]]);
      CaseGuard(b, ids[i], r);
    }
  }

  lemma UnderBoth(guards: Guards, a: seq<Lock>, rest: seq<Lock>, guard: Lock)
    requires Under(guards, a, guard) && Under(guards, rest, guard)
    ensures Under(guards, a + rest, guard)
  {
  }

  lemma GivingBackUnder(b: Books, after: Books, r: Id, p: Id, reinstated: int)
    requires CasesOk(b) && CasesKept(b, after) && (r < |b.reversals| ==> b.reversals[r].payment == p)
    requires SettlementsOk(after) && r < |after.reversals| && after.reversals[r].payment == p
    requires after.payments == b.payments && after.invoices == b.invoices
    ensures Under(GuardsOf(b), GivingBackAsks(after, r, reinstated, |b.cases|), Turn(ChainOfPayment(b, p)))
  {
    hide Under, CasesOk, SettlementsOk, CasesKept, GuardsOf, ClosedCases, ReopenedParts, ChainOfPayment;
    var guards, turn := GuardsOf(b), Turn(ChainOfPayment(b, p));
    var given := NewlyGiven(after.reversals[r], reinstated);
    if given <= 0 {
      UnderNone(guards, turn);
    } else {
      AgainUnder(b, after, r, guards);
      CasesUnder(b, after, r, p, CoveredNow(after, r, given));
      UnderBoth(guards, AgainLocks(after, ReopenedParts(after, r)),
                CaseLocks(ClosedCases(after, ByReversal(r), CoveredNow(after, r, given), |b.cases|)), turn);
    }
  }

  lemma UnderNone(guards: Guards, guard: Lock)
    ensures Under(guards, [], guard)
  {
  }

  /** Everything a report asks for after its row is guarded by the turn it holds. */
  lemma ApplyingUnder(b: Books, held: Books, r: Id, p: Id, report: Report)
    requires HoldsRow(b, held, r, p)
    ensures Under(GuardsOf(b), ApplyingAsks(held, r, report, |b.cases|), Turn(ChainOfPayment(b, p)))
  {
    hide Under, Sound, CasesOk, GuardsOf, RefsUnique, Withdrawn, RecordsMore, LiftedFor, GivingBackAsks, ChainOfPayment;
    CoversUnder(b, held, r, p, report.withdrawn);
    var after := Withdrawn(held, r, report.withdrawn, report.at);
    WithdrawnSound(held, r, report.withdrawn, report.at);
    WithdrawnCases(held, after, p);
    assert CasesKept(b, after);
    hide CasesKept;
    SoundConserved(after);
    GivingBackUnder(b, after, r, p, report.reinstated);
    UnderBoth(GuardsOf(b), CoverLocks(held, LiftedFor(held, r, report.withdrawn)),
              GivingBackAsks(after, r, report.reinstated, |b.cases|), Turn(ChainOfPayment(b, p)));
  }

  lemma WithdrawnCases(b: Books, b': Books, p: Id)
    requires ReversalWrites(b, b', p)
    ensures CasesKept(b, b') && SameBase(b, b')
  {
  }

  lemma FirstInOrder(b: Books, p: Id, row: Lock)
    requires PaymentsOk(b) && SettlementsOk(b) && p < |b.payments| && Rank(row) == 2
    ensures var asks := FirstAsks(b, p);
      && Orderly(GuardsOf(b), asks) && AfterAll(asks, row) && row !in asks
      && forall chain :: Turn(chain) in asks <==> chain == ChainOfPayment(b, p)
  {
    hide GuardsOf, HeldCredits, Orderly, AfterAll;
    OneTurn(b, p, |b.settlements|);
    assert b.settlements[..|b.settlements|] == b.settlements;
    var turn := TurnLocks(ChainsOf(b, b.settlements, p));
    var credits := CreditLocks(b, HeldCredits(b, b.payments[p].subscriber));
    assert turn == [Turn(ChainOfPayment(b, p))];
    CreditsRise(b, b.payments[p].subscriber);
    PlainGuards(b);
    CreditsAfter(GuardsOf(b), turn, credits);
    RowsAfter(turn, credits, row);
    assert FirstAsks(b, p) == turn + credits;
    assert (turn + credits)[0] == Turn(ChainOfPayment(b, p));
    forall l | l in turn + credits ensures l == Turn(ChainOfPayment(b, p)) || l.CreditRow? {
    }
    forall chain ensures Turn(chain) in turn + credits <==> chain == ChainOfPayment(b, p) {
    }
  }

  lemma ReferenceGuard(b: Books, ref: Id)
    ensures GuardsOf(b)(ReferenceRow(ReversalKind, ref))
         == match Find(b.reversals, ReversalRef(ref))
            case Some(q) => Some(Turn(ChainOfPayment(b, b.reversals[q].payment)))
            case None => None
  {
  }

  lemma ReportAsksAre(b: Books, report: Report, p: Id)
    requires Find(b.payments, PaymentRef(report.paymentRef)) == Some(p) && report.currency == b.payments[p].currency
    ensures var (held, r) := HeldReversal(b, report.ref, p);
      ReportAsks(b, report) == FirstAsks(b, p) + [ReferenceRow(ReversalKind, report.ref)]
        + if held.reversals[r].payment == p then ApplyingAsks(held, r, report, |b.cases|) else []
  {
    hide ApplyingAsks, FirstAsks;
  }

  /** A report asks in order exactly where the reference it bears is new, or of a reversal of a payment of
      the chain whose turn it takes. */
  lemma OrderlyUnlessOther(b: Books, report: Report)
    requires Sound(b)
    ensures Orderly(GuardsOf(b), ReportAsks(b, report)) <==> !OfOtherChain(b, report)
    ensures Permitted(GuardsOf(b), ReportAsks(b, report))
  {
    hide Sound, GuardsOf, FirstAsks, ApplyingAsks, HoldsRow, ChainOfPayment, Under;
    var payment := Find(b.payments, PaymentRef(report.paymentRef));
    var guards := GuardsOf(b);
    if payment.Some? && report.currency == b.payments[payment.value].currency {
      var p := payment.value;
      var row := ReferenceRow(ReversalKind, report.ref);
      SoundMidway(b);
      RowsOf(b);
      FirstInOrder(b, p, row);
      ReferenceGuard(b, report.ref);
      ReportAsksAre(b, report, p);
      var first := FirstAsks(b, p);
      GoesOnAfter(guards, first, row);
      HeldRow(b, report, p);
      var (held, r) := HeldReversal(b, report.ref, p);
      if OfOtherChain(b, report) {
        assert held.reversals[r].payment != p;
        assert first + [row] + [] == first + [row];
        assert ReportAsks(b, report)[..|first|] == first && ReportAsks(b, report)[|first|] == row;
      } else if held.reversals[r].payment == p {
        ApplyingUnder(b, held, r, p, report);
        assert Turn(ChainOfPayment(b, p)) in first + [row];
        GoesOnUnder(guards, first + [row], ApplyingAsks(held, r, report, |b.cases|), Turn(ChainOfPayment(b, p)));
      } else {
        assert first + [row] + [] == first + [row];
      }
    }
  }

  lemma RowsOf(b: Books)
    requires Midway(b, [])
    ensures PaymentsOk(b) && SettlementsOk(b) && CasesOk(b)
  {
  }

  // ---- every transaction of the ledger ---------------------------------------------------

  lemma OneLock(guards: Guards, l: Lock)
    ensures Permitted(guards, []) && Permitted(guards, [l])
    ensures guards(l).None? ==> Orderly(guards, [l])
  {
    assert [l][..0] == [];
  }

  /** A refund asks for its subscriber's credits in the order of their ids, then its row, then its case. */
  lemma RefundAsksInOrder(b: Books, report: RefundReport)
    requires CasesOk(b)
    ensures Orderly(GuardsOf(b), RefundAsks(b, report))
  {
    hide GuardsOf, HeldCredits, CasesOk, Orderly, AfterAll, ClosedCases;
    var payment := Find(b.payments, PaymentRef(report.paymentRef));
    var guards, row := GuardsOf(b), ReferenceRow(RefundKind, report.ref);
    if payment.Some? && report.currency == b.payments[payment.value].currency {
      var credits := CreditLocks(b, HeldCredits(b, b.payments[payment.value].subscriber));
      CreditsRise(b, b.payments[payment.value].subscriber);
      PlainGuards(b);
      CreditsAfter(guards, [], credits);
      RowsAfter([], credits, row);
      assert [] + credits == credits;
      RefundRowFree(b, report.ref);
      GoesOnAfter(guards, credits, row);
      match Find(b.refunds, RefundRef(report.ref))
      case None =>
      case Some(f) =>
        RefundCasesUnder(b, f);
        GoesOnUnder(guards, credits + [row], CaseLocks(ClosedCases(b, ByRefund(f), EveryCase(), |b.cases|)), row);
        assert credits + [row] + [] == credits + [row];
    } else {
      NothingInOrder(guards);
    }
  }

  lemma NothingInOrder(guards: Guards)
    ensures Orderly(guards, [])
  {
  }

  lemma RefundRowFree(b: Books, ref: Id)
    ensures GuardsOf(b)(ReferenceRow(RefundKind, ref)).None?
    ensures GuardsOf(b)(ReferenceRow(PaymentKind, ref)).None?
  {
  }

  lemma RefundCasesUnder(b: Books, f: Id)
    requires f < |b.refunds|
    ensures Under(GuardsOf(b), CaseLocks(ClosedCases(b, ByRefund(f), EveryCase(), |b.cases|)),
                  ReferenceRow(RefundKind, b.refunds[f].ref))
  {
    hide ClosedCases;
    var ids := ClosedCases(b, ByRefund(f), EveryCase(), |b.cases|);
    forall i | 0 <= i < |ids| ensures GuardsOf(b)(CaseRow(ids[i])) == Some(ReferenceRow(RefundKind, b.refunds[f].ref)) {
      ClosedCasesHold(b, ByRefund(f), EveryCase(), |b.cases|, i);
    }
  }

  /** Whatever a step of the ledger is, it asks in order, save for a last lock. */
  lemma AsksPermitted(b: Books, op: LedgerRuns.Op)
    requires Sound(b)
    ensures Permitted(GuardsOf(b), Asks(b, op))
  {
    hide Sound, GuardsOf, ReportAsks, RefundAsks, AfterAll;
    var guards := GuardsOf(b);
    hide Orderly, Permitted;
    match op
    case ReportReversal(report) => OrderlyUnlessOther(b, report);
    case ReportRefund(report) =>
      SoundMidway(b);
      RowsOf(b);
      RefundAsksInOrder(b, report);
      OrderlyIs(guards, RefundAsks(b, report));
    case Collect(pay) => PaymentPermitted(b, pay.invoice, ReferenceRow(PaymentKind, pay.ref));
    case Correct(i, _, _) => PaymentPermitted(b, i, ReferenceRow(PaymentKind, 0));
    case CreditFor(i, _) => PaymentPermitted(b, i, ReferenceRow(PaymentKind, 0));
    case Issue(_, _, _, _) => OneLock(guards, Turn(0));
    case PayOff(c, _, _) => OneLock(guards, if c < |b.credits| then CreditRow(b.credits[c].rank) else Turn(0));
    case Resolve(k) => OneLock(guards, CaseRow(k));
  }

  lemma OrderlyIs(guards: Guards, asks: seq<Lock>)
    requires Orderly(guards, asks)
    ensures Permitted(guards, asks)
  {
  }

  lemma PaymentPermitted(b: Books, i: Id, row: Lock)
    requires row.ReferenceRow? && row.kind == PaymentKind
    ensures Permitted(GuardsOf(b), TurnAsks(b, i)) && Permitted(GuardsOf(b), TurnAsks(b, i) + [row])
    ensures Permitted(GuardsOf(b), TurnAsks(b, i) + [])
  {
    var turn := TurnAsks(b, i);
    assert turn + [] == turn;
    OneLock(GuardsOf(b), row);
    OneLock(GuardsOf(b), if turn == [] then row else turn[0]);
    assert [] + [row] == [row];
    if turn != [] {
      assert turn == [turn[0]];
      RowsAfter(turn, [], row);
      RefundRowFree(b, row.ref);
      GoesOnAfter(GuardsOf(b), turn, row);
    }
  }

  /** Whatever steps of the ledger are under way at once, after whatever run, and however far each has come:
      they do not wait on one another in a circle. */
  lemma LedgerNeverCircles(
    rank: (Table, nat) -> int, ops: seq<LedgerRuns.Op>, steps: seq<LedgerRuns.Op>, ts: seq<Transaction>,
    circle: seq<nat>)
    requires |ts| == |steps| && Exclusive(ts) && circle != []
    requires forall i :: 0 <= i < |ts| ==> ts[i].asks == Asks(LedgerRuns.After(rank, ops), steps[i])
    ensures !WaitsAlong(ts, circle + [circle[0]])
  {
    hide Asks, Exclusive, WaitsAlong, Permitted;
    var b := LedgerRuns.After(rank, ops);
    forall i | 0 <= i < |ts| ensures Permitted(GuardsOf(b), ts[i].asks) {
      AsksPermitted(b, steps[i]);
    }
    NoCircle(GuardsOf(b), ts, circle);
  }

  // ---- a reference of another chain ------------------------------------------------------

  /** Two invoices, each begun a chain of its own and paid, and the first payment taken back. */
  function TwoChains(x: nat): seq<LedgerRuns.Op> {
    [LedgerRuns.Issue(1, 5, 9, x), LedgerRuns.Issue(2, 6, 9, x),
     LedgerRuns.Collect(NewPayment(10, 1, 9, x, 1)), LedgerRuns.Collect(NewPayment(11, 2, 9, x, 2)),
     LedgerRuns.ReportReversal(Report(7, 10, 9, x, 0, 3))]
  }

  /** What such a run leaves of the tables the locks are read from. */
  predicate TwoPaidChains(b: Books, x: nat, taken: bool) {
    && b.invoices == map[1 := Invoice(1, 0, 5, 9, x), 2 := Invoice(2, 0, 6, 9, x)]
    && b.payments == [Payment(10, 5, 1, 9, x, 1), Payment(11, 6, 2, 9, x, 2)]
    && if taken then |b.reversals| == 1 && b.reversals[0].ref == 7 && b.reversals[0].payment == 0
       else b.reversals == []
  }

  lemma PaidStep(b: Books, pay: NewPayment)
    requires pay.invoice in b.invoices && pay.currency == b.invoices[pay.invoice].currency
    requires Find(b.payments, PaymentRef(pay.ref)).None?
    ensures var b' := LedgerRuns.Apply(b, LedgerRuns.Collect(pay));
      var invoice := b.invoices[pay.invoice];
      && b'.invoices == b.invoices && b'.reversals == b.reversals
      && b'.payments == b.payments
           + [Payment(pay.ref, invoice.subscriber, pay.invoice, invoice.currency, pay.amount, pay.at)]
  {
    hide Divided;
    DividedIs(b, pay);
  }

  lemma TwoPaidRun(rank: (Table, nat) -> int, x: nat)
    ensures TwoPaidChains(LedgerRuns.After(rank, TwoChains(x)[..4]), x, false)
  {
    hide LedgerRuns.Apply;
    var o := TwoChains(x);
    assert o[..4] == [] + [o[0]] + [o[1]] + [o[2]] + [o[3]];
    LedgerRuns.AfterMore(rank, [] + [o[0]] + [o[1]] + [o[2]], o[3]);
    LedgerRuns.AfterMore(rank, [] + [o[0]] + [o[1]], o[2]);
    LedgerRuns.AfterMore(rank, [] + [o[0]], o[1]);
    LedgerRuns.AfterMore(rank, [], o[0]);
    IssuedTwice(rank, x);
    BothPaid(LedgerRuns.After(rank, [] + [o[0]] + [o[1]]), x);
  }

  lemma BothPaid(b: Books, x: nat)
    requires b.invoices == map[1 := Invoice(1, 0, 5, 9, x), 2 := Invoice(2, 0, 6, 9, x)]
    requires b.payments == [] && b.reversals == []
    ensures TwoPaidChains(LedgerRuns.Apply(LedgerRuns.Apply(b, TwoChains(x)[2]), TwoChains(x)[3]), x, false)
  {
    hide LedgerRuns.Apply;
    PaidStep(b, NewPayment(10, 1, 9, x, 1));
    var b1 := LedgerRuns.Apply(b, TwoChains(x)[2]);
    assert b1.payments == [Payment(10, 5, 1, 9, x, 1)] && b1.payments[..0] == [];
    PaidStep(b1, NewPayment(11, 2, 9, x, 2));
  }

  lemma IssuedTwice(rank: (Table, nat) -> int, x: nat)
    ensures var b := LedgerRuns.Apply(LedgerRuns.Apply(Empty(rank), TwoChains(x)[0]), TwoChains(x)[1]);
      && b.invoices == map[1 := Invoice(1, 0, 5, 9, x), 2 := Invoice(2, 0, 6, 9, x)]
      && b.payments == [] && b.reversals == []
  {
  }

  lemma TakenBackOnce(b: Books, x: nat)
    requires Sound(b) && TwoPaidChains(b, x, false) && x > 0
    ensures TwoPaidChains(LedgerRuns.Apply(b, TwoChains(x)[4]), x, true)
  {
    hide Sound, Applies, RecordsReport;
    var report := Report(7, 10, 9, x, 0, 3);
    assert b.payments[..1] == [b.payments[0]] && b.payments[..1][..0] == [];
    RecordReversalEffect(b, report);
  }

  /** A run after which a report bears the reference of a reversal of another chain: it takes the turn of one
      chain, asks for the row of the other, and is refused. It does not ask in order, and yet may be let
      ask, for it asks for nothing more. */
  lemma ReferenceOfAnotherChain(rank: (Table, nat) -> int, x: nat)
    requires x > 0
    ensures var b := LedgerRuns.After(rank, TwoChains(x));
      var report := Report(7, 11, 9, x, 0, 4);
      && OfOtherChain(b, report) && RecordReversal(b, report) == Step(b, OfAnother)
      && !Orderly(GuardsOf(b), ReportAsks(b, report)) && Permitted(GuardsOf(b), ReportAsks(b, report))
  {
    hide LedgerRuns.Apply, Orderly, Permitted, Sound;
    var o := TwoChains(x);
    assert o == o[..4] + [o[4]];
    LedgerRuns.AfterMore(rank, o[..4], o[4]);
    TwoPaidRun(rank, x);
    TakenBackOnce(LedgerRuns.After(rank, o[..4]), x);
    var b := LedgerRuns.After(rank, o);
    SecondReport(b, x);
    OrderlyUnlessOther(b, Report(7, 11, 9, x, 0, 4));
  }

  lemma SecondReport(b: Books, x: nat)
    requires TwoPaidChains(b, x, true)
    ensures var report := Report(7, 11, 9, x, 0, 4);
      OfOtherChain(b, report) && RecordReversal(b, report) == Step(b, OfAnother)
  {
    assert b.reversals[..0] == [];
  }
}