/** Collection attempts as a state machine: a chain never has two of them under way, although some of the
    writes to them are made outside the chain's turn. */
module Collection {
  import opened Sums
  import opened InvoiceChain

  datatype Status = Scheduled | Submitted | Pending | Succeeded | Failed | Withdrawn | Reversed

  datatype Attempt = Attempt(
    invoice: Id, number: nat, paymentMethod: Id, amount: int, status: Status, heldAt: int, followedUp: bool)

  /** Sent, and not settled. */
  predicate Unsettled(s: Status) {
    s == Submitted || s == Pending
  }

  /** Scheduled, or unsettled. */
  predicate Open(s: Status) {
    s == Scheduled || Unsettled(s)
  }

  /** What keeps an invoice from another attempt. */
  predicate Blocking(s: Status) {
    Open(s) || s == Succeeded
  }

  predicate Reversible(s: Status) {
    s == Succeeded || s == Failed
  }

  predicate FollowedUp(s: Status) {
    s == Failed || s == Reversed
  }

  /** The attempts, beside the chains they collect and what is settled on each invoice. */
  datatype Collecting = Collecting(
    invoices: Invoices, cancellations: Cancellations, settled: Id -> int, attempts: seq<Attempt>)

  // ---- what is read ----------------------------------------------------------------------

  function Owes(c: Collecting, i: Id): nat {
    if i in c.invoices then StillOwed(c.invoices, c.cancellations, i, c.settled(i)) else 0
  }

  predicate AnyOf(attempts: seq<Attempt>, i: Id) {
    exists k :: 0 <= k < |attempts| && attempts[k].invoice == i
  }

  predicate AnyBlocking(attempts: seq<Attempt>, i: Id) {
    exists k :: 0 <= k < |attempts| && attempts[k].invoice == i && Blocking(attempts[k].status)
  }

  /** The number of the last attempt of invoice `i`, `0` for none. */
  function LastOf(attempts: seq<Attempt>, i: Id): nat {
    if attempts == [] then 0
    else
      var n := |attempts| - 1;
      if attempts[n].invoice == i then Max(LastOf(attempts[..n], i), attempts[n].number)
      else LastOf(attempts[..n], i)
  }

  predicate HoldsBack(c: Collecting, a: Attempt, i: Id, paymentMethod: Id) {
    && SameChain(c.invoices, a.invoice, i) && a.invoice != i
    && (Unsettled(a.status) || (a.status == Reversed && a.paymentMethod == paymentMethod))
  }

  /** Whether another invoice of the chain holds an attempt of `i` back. */
  predicate HeldBackByItsChain(c: Collecting, i: Id, paymentMethod: Id) {
    exists k :: 0 <= k < |c.attempts| && HoldsBack(c, c.attempts[k], i, paymentMethod)
  }

  // ---- the steps -------------------------------------------------------------------------

  /** What becomes of an attempt, as the gateway reports it. */
  datatype Outcome = GotPending | GotFailed | GotSucceeded

  function StatusOf(o: Outcome): Status {
    match o
    case GotPending => Pending
    case GotFailed => Failed
    case GotSucceeded => Succeeded
  }

  function SetStatus(c: Collecting, k: nat, s: Status): Collecting
    requires k < |c.attempts|
  {
    c.(attempts := c.attempts[k := c.attempts[k].(status := s)])
  }

  predicate RefusesFirst(attempts: seq<Attempt>, i: Id) {
    AnyOf(attempts, i)
  }

  predicate RefusesPlanned(attempts: seq<Attempt>, i: Id, after: nat) {
    AnyBlocking(attempts, i) || LastOf(attempts, i) != after
  }

  /** The next attempt of invoice `i` in its turn: sent at once where it is the first, planned where it
      follows attempt `after`. */
  function WriteNext(c: Collecting, i: Id, paymentMethod: Id, after: Option<nat>, at: int): (Collecting, bool) {
    var refused := if after.None? then RefusesFirst(c.attempts, i) else RefusesPlanned(c.attempts, i, after.value);
    if i !in c.invoices || Owes(c, i) <= 0 || refused || HeldBackByItsChain(c, i, paymentMethod) then (c, false)
    else
      (c.(attempts := c.attempts + [Attempt(i, LastOf(c.attempts, i) + 1, paymentMethod, Owes(c, i),
                                            if after.None? then Submitted else Scheduled, at, false)]), true)
  }

  function SubmitPlanned(c: Collecting, k: nat, at: int): (Collecting, bool) {
    if k >= |c.attempts| || Owes(c, c.attempts[k].invoice) <= 0 || c.attempts[k].status != Scheduled then (c, false)
    else (c.(attempts := c.attempts[k := c.attempts[k].(status := Submitted, heldAt := at)]), true)
  }

  function WithdrawPlanned(c: Collecting, k: nat): (Collecting, bool) {
    if k >= |c.attempts| || c.attempts[k].status != Scheduled then (c, false)
    else (SetStatus(c, k, Withdrawn), true)
  }

  /** Everything planned for invoice `i` is withdrawn. */
  function WithdrawnFor(attempts: seq<Attempt>, i: Id): (s: seq<Attempt>)
    ensures |s| == |attempts|
    ensures forall k :: 0 <= k < |attempts| ==>
      s[k] == if attempts[k].invoice == i && attempts[k].status == Scheduled
              then attempts[k].(status := Withdrawn) else attempts[k]
  {
    if attempts == [] then []
    else
      var n := |attempts| - 1;
      WithdrawnFor(attempts[..n], i)
        + [if attempts[n].invoice == i && attempts[n].status == Scheduled
           then attempts[n].(status := Withdrawn) else attempts[n]]
  }

  predicate StandsBeside(attempts: seq<Attempt>, k: nat, j: nat)
    requires k < |attempts| && j < |attempts|
  {
    && j != k && attempts[j].invoice == attempts[k].invoice
    && (Unsettled(attempts[j].status) || attempts[j].status == Succeeded)
  }

  /** Whether some attempt beside `k`, of the same invoice, is unsettled or succeeded. */
  predicate Beside(attempts: seq<Attempt>, k: nat)
    requires k < |attempts|
  {
    exists j :: 0 <= j < |attempts| && StandsBeside(attempts, k, j)
  }

  /** A failed attempt is reported as succeeded: all that is scheduled for its invoice is withdrawn first,
      and then the report is taken unless another attempt stands beside it. */
  function LateSuccess(c: Collecting, k: nat): (Collecting, bool)
    requires k < |c.attempts|
  {
    var withdrawn := c.(attempts := WithdrawnFor(c.attempts, c.attempts[k].invoice));
    if Beside(withdrawn.attempts, k) then (withdrawn, false) else (SetStatus(withdrawn, k, Succeeded), true)
  }

  function RecordOutcome(c: Collecting, k: nat, o: Outcome): (Collecting, bool) {
    if k >= |c.attempts| then (c, false)
    else if Unsettled(c.attempts[k].status) then (SetStatus(c, k, StatusOf(o)), true)
    else if o != GotSucceeded || c.attempts[k].status != Failed then (c, false)
    else LateSuccess(c, k)
  }

  datatype Abandoned = Settled | Resend | AbandonedNow

  /** An attempt about to be sent again is held where its invoice still owes, and fails where it does not. */
  function AbandonPaid(c: Collecting, k: nat, at: int): (Collecting, Abandoned) {
    if k >= |c.attempts| || c.attempts[k].status != Submitted then (c, Settled)
    else if Owes(c, c.attempts[k].invoice) > 0
    then (c.(attempts := c.attempts[k := c.attempts[k].(heldAt := at)]), Resend)
    else (SetStatus(c, k, Failed), AbandonedNow)
  }

  function MarkReversed(c: Collecting, k: nat): (Collecting, bool) {
    if k >= |c.attempts| || !Reversible(c.attempts[k].status) then (c, false)
    else (c.(attempts := c.attempts[k := c.attempts[k].(status := Reversed, followedUp := false)]), true)
  }

  function MarkFollowedUp(c: Collecting, k: nat): (Collecting, bool) {
    if k >= |c.attempts| || !FollowedUp(c.attempts[k].status) || c.attempts[k].followedUp then (c, false)
    else (c.(attempts := c.attempts[k := c.attempts[k].(followedUp := true)]), true)
  }

  function Hold(c: Collecting, k: nat, heldBefore: int, at: int): (Collecting, bool) {
    if k >= |c.attempts| || !Unsettled(c.attempts[k].status) || c.attempts[k].heldAt >= heldBefore then (c, false)
    else (c.(attempts := c.attempts[k := c.attempts[k].(heldAt := at)]), true)
  }

  /** A cancellation of the invoice that stands, which withdraws what was planned for it. */
  function CancelStep(c: Collecting, i: Id, correction: Correction): (Collecting, bool) {
    if i !in c.invoices || Corrected(c.cancellations, i) || !Fresh(c.invoices, correction)
       || AnyOf(c.attempts, correction.cancellationInvoice)
       || (correction.replacement.Some? && AnyOf(c.attempts, correction.replacement.value))
    then (c, false)
    else (Collecting(CancelledInvoices(c.invoices, i, correction), CancelledRows(c.cancellations, i, correction),
                     c.settled, WithdrawnFor(c.attempts, i)), true)
  }

  function IssueStep(c: Collecting, id: Id, subscriber: Id, currency: Id, gross: int): (Collecting, bool) {
    if id in c.invoices then (c, false)
    else (c.(invoices := Issued(c.invoices, id, subscriber, currency, gross)), true)
  }

  // ---- what every step keeps -------------------------------------------------------------

  function OfInvoice(i: Id): Attempt -> int {
    (a: Attempt) => if a.invoice == i then 1 else 0
  }

  /** Each attempt bears the number of attempts of its invoice before it, plus one. */
  ghost predicate Numbered(attempts: seq<Attempt>) {
    forall k :: 0 <= k < |attempts| ==>
      attempts[k].number == Sum(attempts[..k], OfInvoice(attempts[k].invoice)) + 1
  }

  ghost predicate Collects(c: Collecting) {
    forall k :: 0 <= k < |c.attempts| ==> c.attempts[k].invoice in c.invoices
  }

  /** At most one attempt of an invoice is open or succeeded. */
  ghost predicate OneBlocking(c: Collecting) {
    forall j, k :: 0 <= j < k < |c.attempts| && c.attempts[j].invoice == c.attempts[k].invoice ==>
      !Blocking(c.attempts[j].status) || !Blocking(c.attempts[k].status)
  }

  /** An open attempt is the last of its invoice. */
  ghost predicate OpenIsLast(c: Collecting) {
    forall j, k :: 0 <= j < k < |c.attempts| && c.attempts[j].invoice == c.attempts[k].invoice ==>
      !Open(c.attempts[j].status)
  }

  /** At most one attempt of a whole chain is on its way. */
  ghost predicate OneOnItsWay(c: Collecting) {
    forall j, k :: 0 <= j < k < |c.attempts| && SameChain(c.invoices, c.attempts[j].invoice, c.attempts[k].invoice) ==>
      !Unsettled(c.attempts[j].status) || !Unsettled(c.attempts[k].status)
  }

  /** Where one is on its way, what is planned for another invoice of its chain is planned for a corrected
      one, which owes nothing any more. */
  ghost predicate PlannedElsewhereOver(c: Collecting) {
    forall j, k :: 0 <= j < |c.attempts| && 0 <= k < |c.attempts|
      && SameChain(c.invoices, c.attempts[j].invoice, c.attempts[k].invoice)
      && c.attempts[j].invoice != c.attempts[k].invoice
      && Unsettled(c.attempts[j].status) && c.attempts[k].status == Scheduled
      ==> Corrected(c.cancellations, c.attempts[k].invoice)
  }

  ghost predicate Sound(c: Collecting) {
    && Chained(c.invoices, c.cancellations)
    && Collects(c) && Numbered(c.attempts) && OneBlocking(c) && OpenIsLast(c) && OneOnItsWay(c) && PlannedElsewhereOver(c)
  }

  /** Of a chain only one invoice is not corrected. */
  lemma OneUncorrected(inv: Invoices, can: Cancellations, i: Id, j: Id)
    requires Chained(inv, can) && SameChain(inv, i, j) && !Corrected(can, i) && !Corrected(can, j)
    ensures i == j
  {
    hide Chained, Corrected;
    OwedBelow(inv, can, i);
    OwedBelow(inv, can, j);
    OnlyTheStandingOwes(inv, can, i, inv[i].gross - 1);
    OnlyTheStandingOwes(inv, can, j, inv[j].gross - 1);
  }

  lemma OwedBelow(inv: Invoices, can: Cancellations, i: Id)
    requires i in inv && !Corrected(can, i)
    ensures Owed(inv, can, i, inv[i].gross - 1) == 1
  {
  }

  /** The last number of an invoice is how many attempts it has. */
  lemma {:induction false} LastIsCount(attempts: seq<Attempt>, i: Id)
    requires Numbered(attempts)
    ensures LastOf(attempts, i) == Sum(attempts, OfInvoice(i))
  {
    if attempts != [] {
      var n := |attempts| - 1;
      forall k | 0 <= k < n
        ensures attempts[..n][k].number == Sum(attempts[..n][..k], OfInvoice(attempts[..n][k].invoice)) + 1
      {
        assert attempts[..n][..k] == attempts[..k];
      }
      LastIsCount(attempts[..n], i);
    }
  }

  /** `b` holds the attempts of `a` under the numbers they had. */
  ghost predicate SameAttempts(a: seq<Attempt>, b: seq<Attempt>) {
    |b| == |a| && forall k :: 0 <= k < |a| ==> b[k].invoice == a[k].invoice && b[k].number == a[k].number
  }

  lemma {:induction false} SameCount(a: seq<Attempt>, b: seq<Attempt>, i: Id)
    requires SameAttempts(a, b)
    ensures Sum(b, OfInvoice(i)) == Sum(a, OfInvoice(i))
  {
    if a != [] {
      SameCount(a[..|a| - 1], b[..|a| - 1], i);
    }
  }

  lemma StaysNumbered(a: seq<Attempt>, b: seq<Attempt>)
    requires Numbered(a) && SameAttempts(a, b)
    ensures Numbered(b)
  {
    forall k | 0 <= k < |b| ensures b[k].number == Sum(b[..k], OfInvoice(b[k].invoice)) + 1 {
      SameCount(a[..k], b[..k], a[k].invoice);
    }
  }

  lemma NextNumbered(a: seq<Attempt>, next: Attempt)
    requires Numbered(a) && next.number == LastOf(a, next.invoice) + 1
    ensures Numbered(a + [next])
  {
    var b := a + [next];
    LastIsCount(a, next.invoice);
    forall k | 0 <= k < |b| ensures b[k].number == Sum(b[..k], OfInvoice(b[k].invoice)) + 1 {
      assert b[..k] == if k < |a| then a[..k] else a;
    }
  }

  /** How a step that writes no attempt may move a status: never onto its way, and not to where it blocks
      unless it did, or nothing else of its invoice does. */
  predicate Moves(was: Status, now: Status) {
    now == was || (!Open(now) && (now == Succeeded ==> Blocking(was))) || (Unsettled(was) && Unsettled(now))
  }

  ghost predicate Quiet(c: Collecting, c': Collecting) {
    && c'.invoices == c.invoices && c'.cancellations == c.cancellations
    && SameAttempts(c.attempts, c'.attempts)
    && forall k :: 0 <= k < |c.attempts| ==> Moves(c.attempts[k].status, c'.attempts[k].status)
  }

  /** A step that only settles, withdraws or takes attempts back keeps everything. */
  lemma QuietSound(c: Collecting, c': Collecting)
    requires Sound(c) && Quiet(c, c')
    ensures Sound(c')
  {
    hide Chained, Corrected;
    StaysNumbered(c.attempts, c'.attempts);
    hide Numbered;
  }

  /** Whether attempt `k` is of another invoice of the chain of `i`. */
  predicate Elsewhere(c: Collecting, k: nat, i: Id)
    requires k < |c.attempts|
  {
    SameChain(c.invoices, c.attempts[k].invoice, i) && c.attempts[k].invoice != i
  }

  /** Nothing stands against an attempt of invoice `i`: none of its own blocks, none of its chain is on its
      way, and every other invoice of the chain is corrected. */
  ghost predicate Clear(c: Collecting, i: Id) {
    && (forall k :: 0 <= k < |c.attempts| && c.attempts[k].invoice == i ==> !Blocking(c.attempts[k].status))
    && (forall k :: 0 <= k < |c.attempts| && Elsewhere(c, k, i) ==>
          !Unsettled(c.attempts[k].status) && Corrected(c.cancellations, c.attempts[k].invoice))
  }

  lemma OthersCorrected(c: Collecting, i: Id, j: Id)
    requires Chained(c.invoices, c.cancellations) && Owes(c, i) > 0 && SameChain(c.invoices, j, i) && j != i
    ensures Corrected(c.cancellations, j)
  {
    hide Chained, Corrected;
    OwesStands(c, i);
    if !Corrected(c.cancellations, j) {
      OneUncorrected(c.invoices, c.cancellations, j, i);
    }
  }

  lemma CountsAgainst(attempts: seq<Attempt>, i: Id, k: nat)
    requires k < |attempts| && attempts[k].invoice == i
    ensures AnyOf(attempts, i) && (Blocking(attempts[k].status) ==> AnyBlocking(attempts, i))
  {
  }

  lemma WriteNextClear(c: Collecting, i: Id, paymentMethod: Id, after: Option<nat>, at: int)
    requires Chained(c.invoices, c.cancellations) && WriteNext(c, i, paymentMethod, after, at).1
    ensures Clear(c, i) && i in c.invoices
  {
    hide Chained, Corrected, AnyOf, AnyBlocking, Owes;
    OwesStands(c, i);
    forall k | 0 <= k < |c.attempts| && c.attempts[k].invoice == i ensures !Blocking(c.attempts[k].status) {
      CountsAgainst(c.attempts, i, k);
    }
    forall k | 0 <= k < |c.attempts| && SameChain(c.invoices, c.attempts[k].invoice, i) && c.attempts[k].invoice != i
      ensures !Unsettled(c.attempts[k].status) && Corrected(c.cancellations, c.attempts[k].invoice)
    {
      OthersCorrected(c, i, c.attempts[k].invoice);
      assert !HoldsBack(c, c.attempts[k], i, paymentMethod);
    }
  }

  lemma NextInChain(c: Collecting, next: Attempt)
    requires OneOnItsWay(c) && PlannedElsewhereOver(c) && Clear(c, next.invoice)
    requires next.status == Submitted || next.status == Scheduled
    ensures OneOnItsWay(c.(attempts := c.attempts + [next]))
    ensures PlannedElsewhereOver(c.(attempts := c.attempts + [next]))
  {
    hide Corrected;
  }

  lemma NextSound(c: Collecting, next: Attempt)
    requires Sound(c) && next.invoice in c.invoices && Clear(c, next.invoice)
    requires next.status == Submitted || next.status == Scheduled
    requires next.number == LastOf(c.attempts, next.invoice) + 1
    ensures Sound(c.(attempts := c.attempts + [next]))
  {
    hide Chained, Corrected, OneOnItsWay, PlannedElsewhereOver;
    NextNumbered(c.attempts, next);
    hide Numbered;
    NextInChain(c, next);
  }

  lemma WriteNextSound(c: Collecting, i: Id, paymentMethod: Id, after: Option<nat>, at: int)
    requires Sound(c)
    ensures Sound(WriteNext(c, i, paymentMethod, after, at).0)
  {
    hide Sound, Chained, Clear, HeldBackByItsChain, RefusesFirst, RefusesPlanned, Owes;
    if WriteNext(c, i, paymentMethod, after, at).1 {
      SoundChain(c);
      WriteNextClear(c, i, paymentMethod, after, at);
      NextSound(c, Attempt(i, LastOf(c.attempts, i) + 1, paymentMethod, Owes(c, i),
                           if after.None? then Submitted else Scheduled, at, false));
    }
  }

  /** An attempt is written for the invoice that stands in its chain alone, under the number after its last,
      for all that it owes. */
  lemma NextAttempt(c: Collecting, i: Id, paymentMethod: Id, after: Option<nat>, at: int)
    requires Sound(c) && WriteNext(c, i, paymentMethod, after, at).1
    ensures var next := WriteNext(c, i, paymentMethod, after, at).0.attempts[|c.attempts|];
      && i in c.invoices && Standing(c.invoices, c.cancellations, c.invoices[i].chainId) == Some(i)
      && next.invoice == i && next.amount == Owes(c, i) > 0
      && next.number == Sum(c.attempts, OfInvoice(i)) + 1
      && (next.number > 1 ==> next.status == Scheduled && after == Some(next.number - 1))
  {
    hide Corrected, RefusesFirst, HeldBackByItsChain;
    LastIsCount(c.attempts, i);
    OwedIsPositive(c, i);
    OnlyTheStandingOwes(c.invoices, c.cancellations, i, c.settled(i));
    if after.None? {
      NoneCounted(c.attempts, i);
    }
  }

  lemma OwedIsPositive(c: Collecting, i: Id)
    requires Owes(c, i) > 0
    ensures i in c.invoices && Owed(c.invoices, c.cancellations, i, c.settled(i)) > 0
  {
  }

  lemma NoneCounted(attempts: seq<Attempt>, i: Id)
    ensures !RefusesFirst(attempts, i) ==> Sum(attempts, OfInvoice(i)) == 0
  {
    if !RefusesFirst(attempts, i) {
      forall k | 0 <= k < |attempts| ensures OfInvoice(i)(attempts[k]) == 0 {
      }
      SumZero(attempts, OfInvoice(i));
    }
  }

  lemma SoundChain(c: Collecting)
    requires Sound(c)
    ensures Chained(c.invoices, c.cancellations)
  {
  }

  lemma OwesStands(c: Collecting, i: Id)
    requires Owes(c, i) > 0
    ensures i in c.invoices && !Corrected(c.cancellations, i)
  {
  }

  /** A planned attempt is sent without a look at the chain's other invoices: none of theirs is on its way,
      because its own invoice still owes. */
  lemma SubmitPlannedSound(c: Collecting, k: nat, at: int)
    requires Sound(c)
    ensures Sound(SubmitPlanned(c, k, at).0)
  {
    hide Chained, Corrected, Owes;
    var (c', sent) := SubmitPlanned(c, k, at);
    if sent {
      var i := c.attempts[k].invoice;
      OwesStands(c, i);
      StaysNumbered(c.attempts, c'.attempts);
      hide Numbered;
      forall j | 0 <= j < |c.attempts| && Elsewhere(c, j, i)
        ensures !Unsettled(c.attempts[j].status) && Corrected(c.cancellations, c.attempts[j].invoice)
      {
        OthersCorrected(c, i, c.attempts[j].invoice);
        assert SameChain(c.invoices, c.attempts[j].invoice, c.attempts[k].invoice);
      }
      forall j | 0 <= j < |c.attempts| && j != k && c.attempts[j].invoice == i
        ensures !Blocking(c.attempts[j].status)
      {
        assert Blocking(c.attempts[k].status);
      }
      SentSound(c, k, at);
    }
  }

  function Sent(c: Collecting, k: nat, at: int): Collecting
    requires k < |c.attempts|
  {
    c.(attempts := c.attempts[k := c.attempts[k].(status := Submitted, heldAt := at)])
  }

  lemma SentSound(c: Collecting, k: nat, at: int)
    requires Sound(c) && k < |c.attempts| && c.attempts[k].status == Scheduled
    requires forall j :: 0 <= j < |c.attempts| && j != k && c.attempts[j].invoice == c.attempts[k].invoice ==>
      !Blocking(c.attempts[j].status)
    requires forall j :: 0 <= j < |c.attempts| && Elsewhere(c, j, c.attempts[k].invoice) ==>
      !Unsettled(c.attempts[j].status) && Corrected(c.cancellations, c.attempts[j].invoice)
    ensures Sound(Sent(c, k, at))
  {
    hide Chained, Corrected, OneOnItsWay, PlannedElsewhereOver;
    var c' := Sent(c, k, at);
    StaysNumbered(c.attempts, c'.attempts);
    hide Numbered;
    SentInChain(c, k, at);
  }

  lemma SentInChain(c: Collecting, k: nat, at: int)
    requires k < |c.attempts| && OneOnItsWay(c) && PlannedElsewhereOver(c)
    requires forall j :: 0 <= j < |c.attempts| && j != k && c.attempts[j].invoice == c.attempts[k].invoice ==>
      !Blocking(c.attempts[j].status)
    requires forall j :: 0 <= j < |c.attempts| && Elsewhere(c, j, c.attempts[k].invoice) ==>
      !Unsettled(c.attempts[j].status) && Corrected(c.cancellations, c.attempts[j].invoice)
    ensures OneOnItsWay(Sent(c, k, at)) && PlannedElsewhereOver(Sent(c, k, at))
  {
    hide Corrected;
  }

  lemma WithdrawnForQuiet(c: Collecting, i: Id)
    ensures Quiet(c, c.(attempts := WithdrawnFor(c.attempts, i)))
  {
  }

  lemma RecordOutcomeSound(c: Collecting, k: nat, o: Outcome)
    requires Sound(c)
    ensures Sound(RecordOutcome(c, k, o).0)
  {
    hide Sound, LateSuccess;
    if k < |c.attempts| {
      if Unsettled(c.attempts[k].status) {
        QuietSound(c, RecordOutcome(c, k, o).0);
      } else if o == GotSucceeded && c.attempts[k].status == Failed {
        LateSuccessSound(c, k);
      }
    }
  }

  /** An attempt that failed may succeed where no other of its invoice blocks. */
  lemma SucceedSound(c: Collecting, k: nat)
    requires Sound(c) && k < |c.attempts| && c.attempts[k].status == Failed
    requires forall j :: 0 <= j < |c.attempts| && j != k && c.attempts[j].invoice == c.attempts[k].invoice ==>
      !Blocking(c.attempts[j].status)
    ensures Sound(SetStatus(c, k, Succeeded))
  {
    hide Chained, Corrected, OneOnItsWay, PlannedElsewhereOver;
    StaysNumbered(c.attempts, SetStatus(c, k, Succeeded).attempts);
    hide Numbered;
    SucceedInChain(c, k);
  }

  lemma SucceedInChain(c: Collecting, k: nat)
    requires k < |c.attempts| && OneOnItsWay(c) && PlannedElsewhereOver(c)
    ensures OneOnItsWay(SetStatus(c, k, Succeeded)) && PlannedElsewhereOver(SetStatus(c, k, Succeeded))
  {
    hide Corrected;
  }

  lemma LateSuccessSound(c: Collecting, k: nat)
    requires Sound(c) && k < |c.attempts| && c.attempts[k].status == Failed
    ensures Sound(LateSuccess(c, k).0)
  {
    hide Sound;
    var i := c.attempts[k].invoice;
    var withdrawn := c.(attempts := WithdrawnFor(c.attempts, i));
    WithdrawnForQuiet(c, i);
    QuietSound(c, withdrawn);
    hide Quiet;
    if LateSuccess(c, k).1 {
      forall j | 0 <= j < |c.attempts| && j != k && withdrawn.attempts[j].invoice == i
        ensures !Blocking(withdrawn.attempts[j].status)
      {
        assert !StandsBeside(withdrawn.attempts, k, j);
      }
      SucceedSound(withdrawn, k);
    }
  }

  lemma CancelStepSound(c: Collecting, i: Id, correction: Correction)
    requires Sound(c)
    ensures Sound(CancelStep(c, i, correction).0)
  {
    hide Chained;
    var (c', cancelled) := CancelStep(c, i, correction);
    if cancelled {
      CancelKeepsChained(c.invoices, c.cancellations, i, correction);
      CancelExtends(c.invoices, i, correction);
      hide CancelledInvoices;
      var withdrawn := c.(attempts := WithdrawnFor(c.attempts, i));
      WithdrawnForQuiet(c, i);
      QuietSound(c, withdrawn);
      forall k: Id | Corrected(c.cancellations, k) ensures Corrected(c'.cancellations, k) {
        ExtendKeepsMarks(c.invoices, c.cancellations, c'.invoices, c'.cancellations, k);
      }
      SameAttemptsSound(withdrawn, c');
    }
  }

  /** What is on its way, or planned, stays so between the invoices there were. */
  lemma SameAttemptsSound(c: Collecting, c': Collecting)
    requires Sound(c) && Chained(c'.invoices, c'.cancellations) && c'.attempts == c.attempts
    requires forall k :: k in c.invoices ==> k in c'.invoices && c'.invoices[k] == c.invoices[k]
    requires forall k :: Corrected(c.cancellations, k) ==> Corrected(c'.cancellations, k)
    ensures Sound(c')
  {
    hide Chained, Corrected, Numbered;
    assert Collects(c');
    assert OneOnItsWay(c');
    assert PlannedElsewhereOver(c');
  }

  lemma IssueStepSound(c: Collecting, id: Id, subscriber: Id, currency: Id, gross: int)
    requires Sound(c)
    ensures Sound(IssueStep(c, id, subscriber, currency, gross).0)
  {
    hide Chained, Corrected, Numbered;
    if id !in c.invoices {
      IssueKeepsChained(c.invoices, c.cancellations, id, subscriber, currency, gross);
    }
  }

  // ---- whole runs ------------------------------------------------------------------------

  datatype Op =
    | Start(invoice: Id, paymentMethod: Id, at: int)
    | Plan(invoice: Id, paymentMethod: Id, after: nat, at: int)
    | Submit(attempt: nat, at: int)
    | Withdraw(attempt: nat)
    | Report(attempt: nat, outcome: Outcome)
    | Abandon(attempt: nat, at: int)
    | TakeBack(attempt: nat)
    | FollowUp(attempt: nat)
    | HoldOn(attempt: nat, heldBefore: int, at: int)
    | Cancel(invoice: Id, correction: Correction)
    | Issue(invoice: Id, subscriber: Id, currency: Id, gross: int)
    | Settle(settled: Id -> int)

  /** One step. What is settled may change in any way between them: payments and reversals settle. */
  function Apply(c: Collecting, op: Op): Collecting {
    match op
    case Start(i, paymentMethod, at) => WriteNext(c, i, paymentMethod, None, at).0
    case Plan(i, paymentMethod, after, at) => WriteNext(c, i, paymentMethod, Some(after), at).0
    case Submit(k, at) => SubmitPlanned(c, k, at).0
    case Withdraw(k) => WithdrawPlanned(c, k).0
    case Report(k, o) => RecordOutcome(c, k, o).0
    case Abandon(k, at) => AbandonPaid(c, k, at).0
    case TakeBack(k) => MarkReversed(c, k).0
    case FollowUp(k) => MarkFollowedUp(c, k).0
    case HoldOn(k, heldBefore, at) => Hold(c, k, heldBefore, at).0
    case Cancel(i, correction) => CancelStep(c, i, correction).0
    case Issue(i, subscriber, currency, gross) => IssueStep(c, i, subscriber, currency, gross).0
    case Settle(settled) => c.(settled := settled)
  }

  function Run(c: Collecting, ops: seq<Op>): Collecting {
    if ops == [] then c else Apply(Run(c, ops[..|ops| - 1]), ops[|ops| - 1])
  }

  const NOTHING := Collecting(map[], map[], (i: Id) => 0, [])

  lemma ApplySound(c: Collecting, op: Op)
    requires Sound(c)
    ensures Sound(Apply(c, op))
  {
    hide Sound, WriteNext, SubmitPlanned, RecordOutcome, CancelStep, IssueStep;
    match op
    case Start(i, paymentMethod, at) => WriteNextSound(c, i, paymentMethod, None, at);
    case Plan(i, paymentMethod, after, at) => WriteNextSound(c, i, paymentMethod, Some(after), at);
    case Submit(k, at) => SubmitPlannedSound(c, k, at);
    case Report(k, o) => RecordOutcomeSound(c, k, o);
    case Cancel(i, correction) => CancelStepSound(c, i, correction);
    case Issue(i, subscriber, currency, gross) => IssueStepSound(c, i, subscriber, currency, gross);
    case _ => QuietSound(c, Apply(c, op));
  }

  lemma {:induction false} RunSound(c: Collecting, ops: seq<Op>)
    requires Sound(c)
    ensures Sound(Run(c, ops))
  {
    hide Sound, Apply;
    if ops != [] {
      RunSound(c, ops[..|ops| - 1]);
      ApplySound(Run(c, ops[..|ops| - 1]), ops[|ops| - 1]);
    }
  }

  lemma NothingSound()
    ensures Sound(NOTHING)
  {
  }

  /** In every state a run reaches at most one attempt of a whole chain is submitted or pending. */
  lemma AtMostOneOnItsWay(ops: seq<Op>, j: nat, k: nat)
    requires var c := Run(NOTHING, ops);
      && j < |c.attempts| && k < |c.attempts|
      && SameChain(c.invoices, c.attempts[j].invoice, c.attempts[k].invoice)
      && Unsettled(c.attempts[j].status) && Unsettled(c.attempts[k].status)
    ensures j == k
  {
    hide Run;
    NothingSound();
    RunSound(NOTHING, ops);
  }

  /** In every state a run reaches, the attempts of an invoice are numbered from 1 without a gap, the first of them
      1; at most one of them is open or succeeded, and an open one is the last. */
  lemma AttemptsOfAnInvoice(ops: seq<Op>, k: nat)
    requires k < |Run(NOTHING, ops).attempts|
    ensures var c := Run(NOTHING, ops);
      && c.attempts[k].number == Sum(c.attempts[..k], OfInvoice(c.attempts[k].invoice)) + 1
      && (forall j :: 0 <= j < k && c.attempts[j].invoice == c.attempts[k].invoice ==>
            && (!Blocking(c.attempts[j].status) || !Blocking(c.attempts[k].status))
            && !Open(c.attempts[j].status) && c.attempts[j].number < c.attempts[k].number)
      && ((forall j :: 0 <= j < k ==> c.attempts[j].invoice != c.attempts[k].invoice) ==> c.attempts[k].number == 1)
  {
    hide Run;
    NothingSound();
    RunSound(NOTHING, ops);
    var attempts := Run(NOTHING, ops).attempts;
    var i := attempts[k].invoice;
    forall j | 0 <= j < k && attempts[j].invoice == i ensures attempts[j].number < attempts[k].number {
      CountRises(attempts, j, k, i);
    }
    if forall j :: 0 <= j < k ==> attempts[j].invoice != i {
      SumZero(attempts[..k], OfInvoice(i));
    }
  }

  /** Attempts of an invoice count one more after each of them. */
  lemma {:induction false} CountRises(attempts: seq<Attempt>, j: nat, k: nat, i: Id)
    requires j < k <= |attempts| && attempts[j].invoice == i
    ensures Sum(attempts[..j], OfInvoice(i)) < Sum(attempts[..k], OfInvoice(i))
  {
    assert attempts[..k] == attempts[..k - 1] + [attempts[k - 1]];
    SumAppend(attempts[..k - 1], attempts[k - 1]);
    if j < k - 1 {
      CountRises(attempts, j, k - 1, i);
    }
  }

  // ---- what the list of invoices to collect again takes for granted ----------------------

  /** Whether the last attempt of each invoice says that none of it is open or succeeded, where it itself
      is neither. */
  ghost predicate LastTells(c: Collecting) {
    forall j, k :: 0 <= j < k < |c.attempts| && c.attempts[j].invoice == c.attempts[k].invoice ==>
      !Blocking(c.attempts[j].status)
  }

  predicate IsLast(c: Collecting, k: nat)
    requires k < |c.attempts|
  {
    forall j :: k < j < |c.attempts| ==> c.attempts[j].invoice != c.attempts[k].invoice
  }

  /** A success is reported for a failed attempt that has a later one, none of them standing beside it. */
  predicate SucceedsBehind(c: Collecting, op: Op) {
    && op.Report? && op.outcome == GotSucceeded && op.attempt < |c.attempts|
    && c.attempts[op.attempt].status == Failed && !IsLast(c, op.attempt) && !Beside(c.attempts, op.attempt)
  }

  lemma BesideStays(c: Collecting, k: nat)
    requires k < |c.attempts| && c.attempts[k].status == Failed
    ensures Beside(WithdrawnFor(c.attempts, c.attempts[k].invoice), k) <==> Beside(c.attempts, k)
  {
    var w := WithdrawnFor(c.attempts, c.attempts[k].invoice);
    if Beside(c.attempts, k) {
      var j :| 0 <= j < |c.attempts| && StandsBeside(c.attempts, k, j);
      assert StandsBeside(w, k, j);
    }
    if Beside(w, k) {
      var j :| 0 <= j < |w| && StandsBeside(w, k, j);
      assert StandsBeside(c.attempts, k, j);
    }
  }

  /** The last attempt tells, until a success arrives behind it: exactly that step ends it. */
  lemma LastTellsUnless(c: Collecting, op: Op)
    requires Sound(c) && LastTells(c)
    ensures LastTells(Apply(c, op)) <==> !SucceedsBehind(c, op)
  {
    hide Chained, Corrected, Numbered;
    match op
    case Start(i, paymentMethod, at) => NextTells(c, i, paymentMethod, None, at);
    case Plan(i, paymentMethod, after, at) => NextTells(c, i, paymentMethod, Some(after), at);
    case Report(k, o) => ReportTells(c, k, o);
    case _ =>
  }

  lemma NextTells(c: Collecting, i: Id, paymentMethod: Id, after: Option<nat>, at: int)
    requires LastTells(c)
    ensures LastTells(WriteNext(c, i, paymentMethod, after, at).0)
  {
    var (c', written) := WriteNext(c, i, paymentMethod, after, at);
    if written {
      forall k | 0 <= k < |c.attempts| && c.attempts[k].invoice == i ensures !Blocking(c.attempts[k].status) {
        if after.None? {
          assert AnyOf(c.attempts, i);
        } else {
          assert Blocking(c.attempts[k].status) ==> AnyBlocking(c.attempts, i);
        }
      }
    }
  }

  lemma ReportTells(c: Collecting, k: nat, o: Outcome)
    requires OpenIsLast(c) && LastTells(c)
    ensures LastTells(RecordOutcome(c, k, o).0) <==> !SucceedsBehind(c, Report(k, o))
  {
    if k < |c.attempts| && !Unsettled(c.attempts[k].status) && o == GotSucceeded && c.attempts[k].status == Failed {
      BesideStays(c, k);
      var (c', settled) := LateSuccess(c, k);
      if settled && !IsLast(c, k) {
        var j :| k < j < |c.attempts| && c.attempts[j].invoice == c.attempts[k].invoice;
        assert Blocking(c'.attempts[k].status) && c'.attempts[j].invoice == c'.attempts[k].invoice;
      }
    }
  }

  /** What the list asks of attempt `k`: to bear its invoice's last number, to be withdrawn, or over and
      followed up, and not to have used the payment method `inUse`. */
  predicate LastGivenUp(c: Collecting, k: nat, i: Id, inUse: Id) {
    && k < |c.attempts| && c.attempts[k].invoice == i && c.attempts[k].number == LastOf(c.attempts, i)
    && (c.attempts[k].status == Withdrawn || (FollowedUp(c.attempts[k].status) && c.attempts[k].followedUp))
    && c.attempts[k].paymentMethod != inUse
  }

  predicate ReversedBefore(c: Collecting, k: nat, i: Id, inUse: Id) {
    && k < |c.attempts| && SameChain(c.invoices, c.attempts[k].invoice, i) && c.attempts[k].status == Reversed
    && (!c.attempts[k].followedUp || c.attempts[k].paymentMethod == inUse)
  }

  /** Whether the list of invoices to collect again, with the payment method `inUse`, names invoice `i`. */
  ghost predicate CollectableAgain(c: Collecting, i: Id, inUse: Id) {
    && i in c.invoices && Owes(c, i) > 0
    && (exists k: nat :: LastGivenUp(c, k, i, inUse))
    && !exists k: nat :: ReversedBefore(c, k, i, inUse)
  }

  lemma {:induction false} LastAtLeast(attempts: seq<Attempt>, i: Id, k: nat)
    requires k < |attempts| && attempts[k].invoice == i
    ensures attempts[k].number <= LastOf(attempts, i)
  {
    if k < |attempts| - 1 {
      LastAtLeast(attempts[..|attempts| - 1], i, k);
    }
  }

  lemma NoneAfterLast(attempts: seq<Attempt>, i: Id, k: nat, j: nat)
    requires Numbered(attempts) && j < |attempts| && attempts[j].invoice == i
    requires k < |attempts| && attempts[k].invoice == i && attempts[k].number == LastOf(attempts, i)
    ensures j <= k
  {
    LastAtLeast(attempts, i, j);
    if k < j {
      CountRises(attempts, k, j, i);
    }
  }

  /** While the last attempt tells, the list names no invoice of which an attempt is open or succeeded. */
  lemma ListedAreFree(c: Collecting, i: Id, inUse: Id)
    requires Numbered(c.attempts) && LastTells(c) && CollectableAgain(c, i, inUse)
    ensures !AnyBlocking(c.attempts, i)
  {
    hide Numbered, ReversedBefore, Owes, LastOf;
    var k: nat :| LastGivenUp(c, k, i, inUse);
    forall j | 0 <= j < |c.attempts| && c.attempts[j].invoice == i ensures !Blocking(c.attempts[j].status) {
      NoneAfterLast(c.attempts, i, k, j);
    }
  }

  /** Such a run: the first attempt fails, a second is planned, and then the first succeeds after all. The
      second is withdrawn, and stands last before it. With another payment method in use the list names
      the invoice, of which an attempt succeeded, unless what succeeded is settled. */
  lemma SuccessBehindTheLast(gross: nat)
    requires gross > 0
    ensures var ops := [Issue(1, 0, 0, gross), Start(1, 7, 0), Report(0, GotFailed), Plan(1, 8, 1, 1),
                        Report(0, GotSucceeded)];
      var c := Run(NOTHING, ops);
      && |c.attempts| == 2 && c.attempts[0].status == Succeeded && c.attempts[1].status == Withdrawn
      && !LastTells(c) && AnyBlocking(c.attempts, 1)
      && CollectableAgain(c, 1, 9) && !CollectableAgain(Apply(c, Settle((i: Id) => gross)), 1, 9)
  {
    var o0, o1, o2, o3, o4 := Issue(1, 0, 0, gross), Start(1, 7, 0), Report(0, GotFailed), Plan(1, 8, 1, 1),
                              Report(0, GotSucceeded);
    RunFive(o0, o1, o2, o3, o4);
    FirstStarted(gross);
    var c2 := Apply(Apply(NOTHING, o0), o1);
    var c3 := Apply(c2, o2);
    assert c3 == c2.(attempts := [Attempt(1, 1, 7, gross, Failed, 0, false)]);
    var c4 := Apply(c3, o3);
    SecondPlanned(c3, gross);
    FirstSucceeds(c4, gross);
  }

  lemma FirstStarted(gross: nat)
    requires gross > 0
    ensures Apply(Apply(NOTHING, Issue(1, 0, 0, gross)), Start(1, 7, 0))
         == Collecting(map[1 := Invoice(1, 0, 0, 0, gross)], map[], NOTHING.settled,
                       [Attempt(1, 1, 7, gross, Submitted, 0, false)])
  {
  }

  lemma SecondPlanned(c: Collecting, gross: nat)
    requires gross > 0 && c == Collecting(map[1 := Invoice(1, 0, 0, 0, gross)], map[], NOTHING.settled,
                                          [Attempt(1, 1, 7, gross, Failed, 0, false)])
    ensures Apply(c, Plan(1, 8, 1, 1)) == c.(attempts := [Attempt(1, 1, 7, gross, Failed, 0, false),
                                                          Attempt(1, 2, 8, gross, Scheduled, 1, false)])
  {
    assert c.attempts[..0] == [];
    assert LastOf(c.attempts, 1) == 1;
  }

  lemma FirstSucceeds(c: Collecting, gross: nat)
    requires c.invoices == map[1 := Invoice(1, 0, 0, 0, gross)] && c.cancellations == map[] && gross > 0
    requires c.settled == NOTHING.settled
    requires c.attempts == [Attempt(1, 1, 7, gross, Failed, 0, false), Attempt(1, 2, 8, gross, Scheduled, 1, false)]
    ensures var c' := Apply(c, Report(0, GotSucceeded));
      && |c'.attempts| == 2 && c'.attempts[0].status == Succeeded && c'.attempts[1].status == Withdrawn
      && !LastTells(c') && AnyBlocking(c'.attempts, 1)
      && CollectableAgain(c', 1, 9) && !CollectableAgain(Apply(c', Settle((i: Id) => gross)), 1, 9)
  {
    var c' := Apply(c, Report(0, GotSucceeded));
    SucceededLate(c);
    hide Apply;
    assert c'.attempts[0].invoice == c'.attempts[1].invoice && Blocking(c'.attempts[0].status);
    ListedAfterwards(c', gross);
  }

  lemma SucceededLate(c: Collecting)
    requires |c.attempts| == 2 && c.attempts[0].status == Failed && c.attempts[1].status == Scheduled
    requires c.attempts[0].invoice == 1 && c.attempts[1].invoice == 1
    ensures Apply(c, Report(0, GotSucceeded)) == c.(attempts := [
      c.attempts[0].(status := Succeeded), c.attempts[1].(status := Withdrawn)])
  {
    var w := WithdrawnFor(c.attempts, 1);
    assert w[0] == c.attempts[0] && w[1] == c.attempts[1].(status := Withdrawn);
    assert !Beside(w, 0);
  }

  lemma ListedAfterwards(c: Collecting, gross: nat)
    requires gross > 0 && c.invoices == map[1 := Invoice(1, 0, 0, 0, gross)] && c.cancellations == map[]
    requires c.settled == NOTHING.settled
    requires c.attempts == [Attempt(1, 1, 7, gross, Succeeded, 0, false), Attempt(1, 2, 8, gross, Withdrawn, 1, false)]
    ensures CollectableAgain(c, 1, 9) && !CollectableAgain(Apply(c, Settle((i: Id) => gross)), 1, 9)
  {
    SecondIsLast(c.attempts);
    assert LastGivenUp(c, 1, 1, 9);
    assert Owes(c, 1) == gross;
  }

  lemma SecondIsLast(attempts: seq<Attempt>)
    requires |attempts| == 2 && attempts[0].invoice == 1 && attempts[1].invoice == 1
    requires attempts[0].number == 1 && attempts[1].number == 2
    ensures LastOf(attempts, 1) == 2
  {
    assert attempts[..1] == [attempts[0]] && attempts[..1][..0] == [];
    assert LastOf([], 1) == 0;
  }

  lemma RunFive(o0: Op, o1: Op, o2: Op, o3: Op, o4: Op)
    ensures Run(NOTHING, [o0, o1, o2, o3, o4])
         == Apply(Apply(Apply(Apply(Apply(NOTHING, o0), o1), o2), o3), o4)
  {
    hide Apply;
    assert [o0, o1, o2, o3, o4] == [o0, o1, o2, o3] + [o4] && [o0, o1, o2, o3] == [o0, o1, o2] + [o3];
    assert [o0, o1, o2] == [o0, o1] + [o2] && [o0, o1] == [o0] + [o1] && [o0] == [] + [o0];
    RunOneMore([o0, o1, o2, o3], o4);
    RunOneMore([o0, o1, o2], o3);
    RunOneMore([o0, o1], o2);
    RunOneMore([o0], o1);
    RunOneMore([], o0);
  }

  lemma RunOneMore(ops: seq<Op>, op: Op)
    ensures Run(NOTHING, ops + [op]) == Apply(Run(NOTHING, ops), op)
  {
    hide Apply;
    assert (ops + [op])[..|ops|] == ops;
  }

  // ---- what a turn reads stays read ------------------------------------------------------

  /** Steps recorded outside the turn of the chain. */
  predicate OutsideTheTurn(op: Op) {
    (op.Report? && op.outcome != GotSucceeded) || op.TakeBack? || op.FollowUp? || op.HoldOn?
  }

  /** What a turn read before it writes an attempt stays true while others record failures, pending answers
      and reversals: what the invoice owes, that nothing of it blocks, which number is next, and that
      nothing of its chain is on its way. */
  lemma ReadStays(c: Collecting, op: Op, i: Id)
    requires OutsideTheTurn(op)
    ensures var c' := Apply(c, op);
      && Owes(c', i) == Owes(c, i) && LastOf(c'.attempts, i) == LastOf(c.attempts, i)
      && (AnyOf(c'.attempts, i) <==> AnyOf(c.attempts, i))
      && (!AnyBlocking(c.attempts, i) ==> !AnyBlocking(c'.attempts, i))
      && (forall k :: 0 <= k < |c'.attempts| && Unsettled(c'.attempts[k].status) ==>
            k < |c.attempts| && Unsettled(c.attempts[k].status) && c'.attempts[k].invoice == c.attempts[k].invoice)
  {
    var c' := Apply(c, op);
    OutsideIsQuiet(c, op);
    hide Apply;
    SameLast(c.attempts, c'.attempts, i);
    if AnyOf(c'.attempts, i) {
      var k :| 0 <= k < |c'.attempts| && c'.attempts[k].invoice == i;
      assert c.attempts[k].invoice == i;
    }
    if AnyOf(c.attempts, i) {
      var k :| 0 <= k < |c.attempts| && c.attempts[k].invoice == i;
      assert c'.attempts[k].invoice == i;
    }
    if AnyBlocking(c'.attempts, i) {
      var k :| 0 <= k < |c'.attempts| && c'.attempts[k].invoice == i && Blocking(c'.attempts[k].status);
      assert c.attempts[k].invoice == i && Blocking(c.attempts[k].status);
    }
  }

  lemma OutsideIsQuiet(c: Collecting, op: Op)
    requires OutsideTheTurn(op)
    ensures Quiet(c, Apply(c, op)) && Apply(c, op).settled == c.settled
  {
  }

  lemma {:induction false} SameLast(a: seq<Attempt>, b: seq<Attempt>, i: Id)
    requires SameAttempts(a, b)
    ensures LastOf(b, i) == LastOf(a, i)
  {
    if a != [] {
      SameLast(a[..|a| - 1], b[..|a| - 1], i);
    }
  }
}
