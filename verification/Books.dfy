/** The tables of the subscriber ledger, what is read of them, and what one write changes of what is
    read. A row's id is its place in its table; `rank` is where a row's own random id falls among the
    ids of its table, which decides between rows recorded at one moment. */
module Books {
  import opened Sums
  import opened PaymentRules
  import opened InvoiceChain

  datatype Payment = Payment(ref: Id, subscriber: Id, invoice: Id, currency: Id, amount: nat, at: int)

  datatype SettlementKind = Paid | Reversed | Reinstated | MovedOut | MovedIn

  datatype Settlement = Settlement(
    invoice: Id, payment: Id, kind: SettlementKind, amount: int, reversal: Option<Id>, at: int, rank: int)

  datatype Origin =
    | FromPayment(payment: Id)
    | FromCancellation(payment: Id, cancelled: Id)
    | FromInvoice(invoice: Id)
    | FromReversal(reversal: Id)

  datatype Credit = Credit(subscriber: Id, currency: Id, amount: int, origin: Origin, at: int, rank: int)

  datatype EntryKind = Taken | TakenBack | Refunded | RefundFailed | PaidOff

  datatype Source = ByReversal(reversal: Id) | ByRefund(refund: Id) | ByPayout

  datatype Entry = Entry(credit: Id, kind: EntryKind, amount: int, source: Source, at: int, rank: int)

  datatype Reversal = Reversal(
    ref: Id, payment: Id, amount: int, fromCredit: int, reinstated: int, reinstatedToCases: int)

  datatype Case = Case(about: Source, amount: int, closed: bool, at: int, rank: int)

  datatype RefundStatus = Pending | Succeeded | Failed | Canceled

  datatype Refund = Refund(ref: Id, payment: Id, currency: Id, amount: nat, status: RefundStatus)

  datatype Table = Payments | Settlements | Credits | Entries | Cases

  datatype Books = Books(
    invoices: Invoices,
    cancellations: Cancellations,
    payments: seq<Payment>,
    settlements: seq<Settlement>,
    credits: seq<Credit>,
    entries: seq<Entry>,
    reversals: seq<Reversal>,
    cases: seq<Case>,
    refunds: seq<Refund>,
    rank: (Table, nat) -> int)

  function Empty(rank: (Table, nat) -> int): Books {
    Books(map[], map[], [], [], [], [], [], [], [], rank)
  }

  // ---- signs -----------------------------------------------------------------------------

  predicate Reopens(kind: SettlementKind) {
    kind == Reversed || kind == MovedOut
  }

  predicate GivesBack(kind: EntryKind) {
    kind == TakenBack || kind == RefundFailed
  }

  function Signed(s: Settlement): int {
    if Reopens(s.kind) then -s.amount else s.amount
  }

  function PaidOutBy(e: Entry): int {
    if GivesBack(e.kind) then -e.amount else e.amount
  }

  predicate LeftByPayment(origin: Origin, p: Id) {
    (origin.FromPayment? || origin.FromCancellation?) && origin.payment == p
  }

  // ---- what a row counts for -------------------------------------------------------------

  function OfInvoice(i: Id): Settlement -> int {
    (s: Settlement) => if s.invoice == i then Signed(s) else 0
  }

  function OfPaymentOn(p: Id, i: Id): Settlement -> int {
    (s: Settlement) => if s.payment == p && s.invoice == i then Signed(s) else 0
  }

  function OfPayment(p: Id): Settlement -> int {
    (s: Settlement) => if s.payment == p then Signed(s) else 0
  }

  /** What the payment settles beside its reversals. */
  function BesideReversals(p: Id): Settlement -> int {
    (s: Settlement) => if s.payment == p && s.reversal.None? then Signed(s) else 0
  }

  function ReopenedBy(r: Id): Settlement -> int {
    (s: Settlement) => if s.reversal == Some(r) then -Signed(s) else 0
  }

  function OnCredit(c: Id): Entry -> int {
    (e: Entry) => if e.credit == c then PaidOutBy(e) else 0
  }

  function OnCreditBy(c: Id, source: Source): Entry -> int {
    (e: Entry) => if e.credit == c && e.source == source then PaidOutBy(e) else 0
  }

  function EntryBy(source: Source): Entry -> int {
    (e: Entry) => if e.source == source then PaidOutBy(e) else 0
  }

  function CaseAbout(source: Source): Case -> int {
    (k: Case) => if k.about == source then k.amount else 0
  }

  function CreditedFrom(r: Id): Credit -> int {
    (c: Credit) => if c.origin == FromReversal(r) then c.amount else 0
  }

  function LeftFrom(p: Id): Credit -> int {
    (c: Credit) => if LeftByPayment(c.origin, p) then c.amount else 0
  }

  function FromCreditOf(p: Id): Reversal -> int {
    (r: Reversal) => if r.payment == p then r.fromCredit else 0
  }

  // ---- what is read ----------------------------------------------------------------------

  function SettledOn(b: Books, i: Id): int {
    Sum(b.settlements, OfInvoice(i))
  }

  /** What payment `p` still settles on invoice `i`. */
  function Net(b: Books, p: Id, i: Id): int {
    Sum(b.settlements, OfPaymentOn(p, i))
  }

  function PaidOut(b: Books, c: Id): int {
    Sum(b.entries, OnCredit(c))
  }

  /** What `source` took of credit `c` and has not given back. */
  function Took(b: Books, c: Id, source: Source): int {
    Sum(b.entries, OnCreditBy(c, source))
  }

  /** What credit `c` still owes, below nothing where more was paid out than it holds. */
  function Open(b: Books, c: Id): int
    requires c < |b.credits|
  {
    b.credits[c].amount - PaidOut(b, c)
  }

  /** What a reversal holds: taken of credits, reopened on invoices, and left to cases, less what of it
      a give-back already covered or credited. */
  function Holds(b: Books, r: Id): int
    requires r < |b.reversals|
  {
    Sum(b.entries, EntryBy(ByReversal(r)))
    + Sum(b.settlements, ReopenedBy(r))
    + Sum(b.cases, CaseAbout(ByReversal(r))) - b.reversals[r].reinstatedToCases
    - Sum(b.credits, CreditedFrom(r))
  }

  /** By how much what the reversal holds exceeds what it recorded as withdrawn and not given back. */
  function Excess(b: Books, r: Id): int
    requires r < |b.reversals|
  {
    Holds(b, r) - (b.reversals[r].amount - b.reversals[r].reinstated)
  }

  function OwedBy(b: Books, i: Id): int
    requires i in b.invoices
  {
    Owed(b.invoices, b.cancellations, i, SettledOn(b, i))
  }

  function OwedAt(b: Books, i: Id): int {
    if i in b.invoices then OwedBy(b, i) else 0
  }

  /** Where the walk from `i` through its chain ends, if on an invoice. */
  ghost function StandingOf(b: Books, i: Id): Option<Id> {
    if StepsUp(b.invoices, b.cancellations) && i in b.invoices
    then Standing(b.invoices, b.cancellations, i)
    else None
  }

  function PaymentRef(ref: Id): Payment -> bool {
    (p: Payment) => p.ref == ref
  }

  /** One step against the books: what they hold afterwards, and how it was answered. */
  datatype Step<+T> = Step(books: Books, outcome: T)

  // ---- writing ---------------------------------------------------------------------------

  function AddEntry(b: Books, c: Id, kind: EntryKind, amount: int, source: Source, at: int): Books {
    b.(entries := b.entries + [Entry(c, kind, amount, source, at, b.rank(Entries, |b.entries|))])
  }

  function WriteEntries(b: Books, parts: seq<Part>, kind: EntryKind, source: Source, at: int): Books {
    if parts == [] then b
    else
      var n := |parts| - 1;
      AddEntry(WriteEntries(b, parts[..n], kind, source, at), parts[n].id, kind, parts[n].amount, source, at)
  }

  function AddSettlement(
    b: Books, i: Id, p: Id, kind: SettlementKind, amount: int, reversal: Option<Id>, at: int): Books
  {
    b.(settlements := b.settlements
         + [Settlement(i, p, kind, amount, reversal, at, b.rank(Settlements, |b.settlements|))])
  }

  /** One settlement per part of payment `p`, on the invoice the part names. */
  function WriteSettlements(
    b: Books, parts: seq<Part>, p: Id, kind: SettlementKind, reversal: Option<Id>, at: int): Books
  {
    if parts == [] then b
    else
      var n := |parts| - 1;
      AddSettlement(WriteSettlements(b, parts[..n], p, kind, reversal, at),
                    parts[n].id, p, kind, parts[n].amount, reversal, at)
  }

  function AddCredit(b: Books, subscriber: Id, currency: Id, amount: int, origin: Origin, at: int): Books {
    b.(credits := b.credits + [Credit(subscriber, currency, amount, origin, at, b.rank(Credits, |b.credits|))])
  }

  /** A case is opened where anything at all went unmatched. */
  function OpenCase(b: Books, about: Source, amount: int, at: int): Books {
    if amount <= 0 then b
    else b.(cases := b.cases + [Case(about, amount, false, at, b.rank(Cases, |b.cases|))])
  }

  // ---- what a write changes of what is read ----------------------------------------------

  /** The sign an amount counts with, or not at all. */
  datatype Count = Up | Down | Not

  function Counted(k: Count, x: int): int {
    if k.Up? then x else if k.Down? then -x else 0
  }

  /** Where each entry written counts as its part does, the sum grows by the parts'. */
  lemma {:induction false} EntriesSum(
    b: Books, parts: seq<Part>, kind: EntryKind, source: Source, at: int,
    f: Entry -> int, g: Part -> int, k: Count)
    requires forall part: Part, rank: int ::
      f(Entry(part.id, kind, part.amount, source, at, rank)) == Counted(k, g(part))
    ensures Sum(WriteEntries(b, parts, kind, source, at).entries, f)
         == Sum(b.entries, f) + Counted(k, Sum(parts, g))
  {
    if parts != [] {
      var n := |parts| - 1;
      EntriesSum(b, parts[..n], kind, source, at, f, g, k);
      var before := WriteEntries(b, parts[..n], kind, source, at);
      SumAppend(before.entries,
                Entry(parts[n].id, kind, parts[n].amount, source, at, before.rank(Entries, |before.entries|)));
    }
  }

  lemma {:induction false} SettlementsSum(
    b: Books, parts: seq<Part>, p: Id, kind: SettlementKind, reversal: Option<Id>, at: int,
    f: Settlement -> int, g: Part -> int, k: Count)
    requires forall part: Part, rank: int ::
      f(Settlement(part.id, p, kind, part.amount, reversal, at, rank)) == Counted(k, g(part))
    ensures Sum(WriteSettlements(b, parts, p, kind, reversal, at).settlements, f)
         == Sum(b.settlements, f) + Counted(k, Sum(parts, g))
  {
    if parts != [] {
      var n := |parts| - 1;
      SettlementsSum(b, parts[..n], p, kind, reversal, at, f, g, k);
      var before := WriteSettlements(b, parts[..n], p, kind, reversal, at);
      SumAppend(before.settlements,
                Settlement(parts[n].id, p, kind, parts[n].amount, reversal, at,
                           before.rank(Settlements, |before.settlements|)));
    }
  }

  /** Writing entries changes no other table. */
  lemma {:induction false} EntriesFrame(b: Books, parts: seq<Part>, kind: EntryKind, source: Source, at: int)
    ensures var b' := WriteEntries(b, parts, kind, source, at);
      b' == b.(entries := b'.entries) && |b'.entries| == |b.entries| + |parts|
  {
    if parts != [] {
      EntriesFrame(b, parts[..|parts| - 1], kind, source, at);
    }
  }

  predicate EntryFor(e: Entry, part: Part, kind: EntryKind, source: Source) {
    e.credit == part.id && e.kind == kind && e.amount == part.amount && e.source == source
  }

  /** The entries written follow those there were, one per part. */
  lemma {:induction false} EntriesFollow(
    b: Books, parts: seq<Part>, kind: EntryKind, source: Source, at: int, i: nat)
    requires i < |b.entries| + |parts|
    ensures var b' := WriteEntries(b, parts, kind, source, at);
      && i < |b'.entries|
      && (if i < |b.entries| then b'.entries[i] == b.entries[i]
          else EntryFor(b'.entries[i], parts[i - |b.entries|], kind, source))
  {
    if parts != [] {
      var n := |parts| - 1;
      EntriesFrame(b, parts[..n], kind, source, at);
      if i < |b.entries| + n {
        EntriesFollow(b, parts[..n], kind, source, at, i);
      }
    }
  }

  lemma {:induction false} SettlementsFrame(
    b: Books, parts: seq<Part>, p: Id, kind: SettlementKind, reversal: Option<Id>, at: int)
    ensures var b' := WriteSettlements(b, parts, p, kind, reversal, at);
      b' == b.(settlements := b'.settlements) && |b'.settlements| == |b.settlements| + |parts|
  {
    if parts != [] {
      SettlementsFrame(b, parts[..|parts| - 1], p, kind, reversal, at);
    }
  }

  predicate SettlementFor(s: Settlement, part: Part, p: Id, kind: SettlementKind, reversal: Option<Id>) {
    s.invoice == part.id && s.payment == p && s.kind == kind && s.amount == part.amount && s.reversal == reversal
  }

  lemma {:induction false} SettlementsFollow(
    b: Books, parts: seq<Part>, p: Id, kind: SettlementKind, reversal: Option<Id>, at: int, i: nat)
    requires i < |b.settlements| + |parts|
    ensures var b' := WriteSettlements(b, parts, p, kind, reversal, at);
      && i < |b'.settlements|
      && (if i < |b.settlements| then b'.settlements[i] == b.settlements[i]
          else SettlementFor(b'.settlements[i], parts[i - |b.settlements|], p, kind, reversal))
  {
    if parts != [] {
      var n := |parts| - 1;
      SettlementsFrame(b, parts[..n], p, kind, reversal, at);
      if i < |b.settlements| + n {
        SettlementsFollow(b, parts[..n], p, kind, reversal, at, i);
      }
    }
  }

  function KindCount(kind: EntryKind): Count {
    if GivesBack(kind) then Down else Up
  }

  lemma EntriesPaidOut(b: Books, parts: seq<Part>, kind: EntryKind, source: Source, at: int, c: Id)
    ensures PaidOut(WriteEntries(b, parts, kind, source, at), c)
         == PaidOut(b, c) + Counted(KindCount(kind), On(parts, c))
  {
    EntriesSum(b, parts, kind, source, at, OnCredit(c), Under(c), KindCount(kind));
  }

  lemma EntriesTook(b: Books, parts: seq<Part>, kind: EntryKind, source: Source, at: int, c: Id, whose: Source)
    ensures Took(WriteEntries(b, parts, kind, source, at), c, whose)
         == Took(b, c, whose) + Counted(if whose == source then KindCount(kind) else Not, On(parts, c))
  {
    EntriesSum(b, parts, kind, source, at, OnCreditBy(c, whose), Under(c), if whose == source then KindCount(kind) else Not);
  }

  lemma EntriesInAll(b: Books, parts: seq<Part>, kind: EntryKind, source: Source, at: int, whose: Source)
    ensures Sum(WriteEntries(b, parts, kind, source, at).entries, EntryBy(whose))
         == Sum(b.entries, EntryBy(whose)) + Counted(if whose == source then KindCount(kind) else Not, Total(parts))
  {
    EntriesSum(b, parts, kind, source, at, EntryBy(whose), Amount(), if whose == source then KindCount(kind) else Not);
  }

  function SettleCount(kind: SettlementKind): Count {
    if Reopens(kind) then Down else Up
  }

  lemma SettlementsNet(
    b: Books, parts: seq<Part>, p: Id, kind: SettlementKind, reversal: Option<Id>, at: int, q: Id, i: Id)
    ensures Net(WriteSettlements(b, parts, p, kind, reversal, at), q, i)
         == Net(b, q, i) + Counted(if q == p then SettleCount(kind) else Not, On(parts, i))
  {
    SettlementsSum(b, parts, p, kind, reversal, at, OfPaymentOn(q, i), Under(i),
                   if q == p then SettleCount(kind) else Not);
  }

  lemma SettlementsOn(
    b: Books, parts: seq<Part>, p: Id, kind: SettlementKind, reversal: Option<Id>, at: int, i: Id)
    ensures SettledOn(WriteSettlements(b, parts, p, kind, reversal, at), i)
         == SettledOn(b, i) + Counted(SettleCount(kind), On(parts, i))
  {
    SettlementsSum(b, parts, p, kind, reversal, at, OfInvoice(i), Under(i), SettleCount(kind));
  }

  /** What settlements of a reversal reopen; they leave what a payment brought beside its reversals. */
  lemma ReversalSettlements(b: Books, parts: seq<Part>, p: Id, kind: SettlementKind, r: Id, at: int, q: Id)
    ensures var b' := WriteSettlements(b, parts, p, kind, Some(r), at);
      && Sum(b'.settlements, BesideReversals(q)) == Sum(b.settlements, BesideReversals(q))
      && Sum(b'.settlements, ReopenedBy(q))
         == Sum(b.settlements, ReopenedBy(q))
            - Counted(if q == r then SettleCount(kind) else Not, Total(parts))
  {
    SettlementsSum(b, parts, p, kind, Some(r), at, BesideReversals(q), Amount(), Not);
    var count := if q != r then Not else if Reopens(kind) then Up else Down;
    SettlementsSum(b, parts, p, kind, Some(r), at, ReopenedBy(q), Amount(), count);
  }
}
