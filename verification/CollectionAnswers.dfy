/** What each write to an attempt answers and leaves, with the statuses and amounts written out. */
module CollectionAnswers {
  import opened Sums
  import opened InvoiceChain
  import opened Collection

  /** The invoice is there, no cancellation names it, and its gross exceeds what is settled. */
  predicate StillAsks(c: Collecting, i: Id) {
    && i in c.invoices && c.invoices[i].gross > c.settled(i)
    && i !in c.cancellations
    && forall k :: k in c.cancellations ==> c.cancellations[k].cancellationInvoice != i
  }

  predicate OnItsWay(s: Status) {
    s == Submitted || s == Pending
  }

  lemma AsksIsOwes(c: Collecting, i: Id)
    ensures StillAsks(c, i) <==> Owes(c, i) > 0
    ensures StillAsks(c, i) ==> Owes(c, i) == c.invoices[i].gross - c.settled(i)
  {
  }

  /** All but attempt `k` stand as they did. */
  ghost predicate OthersStay(c: Collecting, c': Collecting, k: nat) {
    && c' == c.(attempts := c'.attempts) && |c'.attempts| == |c.attempts|
    && forall j :: 0 <= j < |c.attempts| && j != k ==> c'.attempts[j] == c.attempts[j]
  }

  // ---- an outcome ------------------------------------------------------------------------

  function Reported(o: Outcome): Status {
    if o == GotSucceeded then Succeeded else if o == GotPending then Pending else Failed
  }

  /** A report on an attempt that is on its way is taken, and leaves it as reported. Of any other only the success of a
      failed one can be, and is unless another attempt of the invoice is on its way or succeeded; either way what is
      scheduled for the invoice is withdrawn. A report that is not taken leaves its attempt as it was. */
  lemma OutcomeTells(c: Collecting, k: nat, o: Outcome)
    requires k < |c.attempts|
    ensures var (c', took) := RecordOutcome(c, k, o);
      var was := c.attempts[k];
      && c' == c.(attempts := c'.attempts) && |c'.attempts| == |c.attempts|
      && (took ==> c'.attempts[k] == was.(status := Reported(o)))
      && (!took ==> c'.attempts[k] == was)
      && (OnItsWay(was.status) ==> took && OthersStay(c, c', k))
      && (!OnItsWay(was.status) && (was.status != Failed || o != GotSucceeded) ==> !took && c' == c)
      && (was.status == Failed && o == GotSucceeded ==>
            && (took <==> !exists j :: 0 <= j < |c.attempts| && AlsoCounts(c, k, j))
            && forall j :: 0 <= j < |c.attempts| && j != k ==>
                 c'.attempts[j] == if c.attempts[j].invoice == was.invoice && c.attempts[j].status == Scheduled
                                   then c.attempts[j].(status := Withdrawn) else c.attempts[j])
  {
    if c.attempts[k].status == Failed {
      BesideStays(c, k);
      BesideIs(c, k);
    }
  }

  /** Another attempt of the invoice of attempt `k`, on its way or succeeded. */
  predicate AlsoCounts(c: Collecting, k: nat, j: nat)
    requires k < |c.attempts| && j < |c.attempts|
  {
    && j != k && c.attempts[j].invoice == c.attempts[k].invoice
    && (OnItsWay(c.attempts[j].status) || c.attempts[j].status == Succeeded)
  }

  lemma BesideIs(c: Collecting, k: nat)
    requires k < |c.attempts|
    ensures Beside(c.attempts, k) <==> exists j :: 0 <= j < |c.attempts| && AlsoCounts(c, k, j)
  {
    forall j | 0 <= j < |c.attempts| ensures AlsoCounts(c, k, j) <==> StandsBeside(c.attempts, k, j) {
    }
  }

  // ---- an attempt about to be sent again -------------------------------------------------

  /** An attempt is to be sent again only where it was sent, is not settled, and its invoice still asks for something:
      it is then held from now on. Where the invoice asks for nothing the attempt is over; where it is not waiting
      to be sent nothing changes. */
  lemma AbandonTells(c: Collecting, k: nat, at: int)
    requires k < |c.attempts|
    ensures var (c', answer) := AbandonPaid(c, k, at);
      var was := c.attempts[k];
      && OthersStay(c, c', k)
      && (answer == Resend <==> was.status == Submitted && StillAsks(c, was.invoice))
      && (answer == AbandonedNow <==> was.status == Submitted && !StillAsks(c, was.invoice))
      && c'.attempts[k] == (if answer == Resend then was.(heldAt := at)
                            else if answer == AbandonedNow then was.(status := Failed) else was)
  {
    AsksIsOwes(c, c.attempts[k].invoice);
  }

  // ---- the next attempt ------------------------------------------------------------------

  /** Nothing of an invoice is scheduled, on its way or succeeded. */
  predicate Unblocked(c: Collecting, i: Id) {
    forall k :: 0 <= k < |c.attempts| && c.attempts[k].invoice == i ==>
      && c.attempts[k].status != Scheduled && !OnItsWay(c.attempts[k].status) && c.attempts[k].status != Succeeded
  }

  /** No attempt of another invoice of the chain is on its way, or was taken back from the same payment method. */
  predicate FreeOfItsChain(c: Collecting, i: Id, paymentMethod: Id) {
    forall k :: 0 <= k < |c.attempts| && c.attempts[k].invoice != i ==>
      var a := c.attempts[k];
      a.invoice in c.invoices && i in c.invoices && c.invoices[a.invoice].chainId == c.invoices[i].chainId ==>
        !OnItsWay(a.status) && !(a.status == Reversed && a.paymentMethod == paymentMethod)
  }

  /** An attempt is written exactly where its invoice still asks for something, the chain leaves it free, and either
      it is the first, or it follows the last, as many as there were, and none of those is scheduled, on its way or
      succeeded. It is for all the invoice asks for; a first one is sent at once, another is planned. */
  lemma NextTakes(c: Collecting, i: Id, paymentMethod: Id, after: Option<nat>, at: int)
    requires Sound(c)
    ensures var (c', written) := WriteNext(c, i, paymentMethod, after, at);
      && (written <==>
            && StillAsks(c, i) && FreeOfItsChain(c, i, paymentMethod)
            && if after.None? then Sum(c.attempts, OfInvoice(i)) == 0
               else Unblocked(c, i) && Sum(c.attempts, OfInvoice(i)) == after.value)
      && c' == (if !written then c
                else c.(attempts := c.attempts + [Attempt(
                  i, Sum(c.attempts, OfInvoice(i)) + 1, paymentMethod, c.invoices[i].gross - c.settled(i),
                  if after.None? then Submitted else Scheduled, at, false)]))
  {
    hide Chained, Corrected, Owes, Sound;
    SoundIsNumbered(c);
    LastIsCount(c.attempts, i);
    AsksIsOwes(c, i);
    AnyIsCounted(c.attempts, i);
    BlockedIs(c, i);
    if i in c.invoices {
      FreeIs(c, i, paymentMethod);
    }
    hide AnyOf, AnyBlocking, HeldBackByItsChain, Unblocked, FreeOfItsChain, StillAsks, LastOf;
  }

  lemma SoundIsNumbered(c: Collecting)
    requires Sound(c)
    ensures Numbered(c.attempts)
  {
  }

  lemma AnyIsCounted(attempts: seq<Attempt>, i: Id)
    ensures AnyOf(attempts, i) <==> Sum(attempts, OfInvoice(i)) > 0
    ensures 0 <= Sum(attempts, OfInvoice(i))
  {
    SumNonNegative(attempts, OfInvoice(i));
    if AnyOf(attempts, i) {
      var k :| 0 <= k < |attempts| && attempts[k].invoice == i;
      assert OfInvoice(i)(attempts[k]) == 1;
    } else {
      SumZero(attempts, OfInvoice(i));
    }
  }

  lemma BlockedIs(c: Collecting, i: Id)
    ensures AnyBlocking(c.attempts, i) <==> !Unblocked(c, i)
  {
  }

  lemma FreeIs(c: Collecting, i: Id, paymentMethod: Id)
    requires i in c.invoices
    ensures HeldBackByItsChain(c, i, paymentMethod) <==> !FreeOfItsChain(c, i, paymentMethod)
  {
    if !FreeOfItsChain(c, i, paymentMethod) {
      var k :| 0 <= k < |c.attempts| && c.attempts[k].invoice != i
        && c.attempts[k].invoice in c.invoices
        && c.invoices[c.attempts[k].invoice].chainId == c.invoices[i].chainId
        && (OnItsWay(c.attempts[k].status)
            || (c.attempts[k].status == Reversed && c.attempts[k].paymentMethod == paymentMethod));
      assert HoldsBack(c, c.attempts[k], i, paymentMethod);
    }
  }

  // ---- the other writes ------------------------------------------------------------------

  /** Each conditional update changes the one attempt it names, from the statuses it names, and answers whether it did:
      a planned attempt is sent where its invoice still asks for something, or withdrawn; one that succeeded or failed
      is taken back and to be followed up anew; one that failed or was taken back is followed up once; and one on
      its way is held by whoever finds it last held before a moment. */
  lemma UpdatesTell(c: Collecting, k: nat, heldBefore: int, at: int)
    requires k < |c.attempts|
    ensures var was := c.attempts[k];
      && (var (c', sent) := SubmitPlanned(c, k, at);
          && OthersStay(c, c', k) && (sent <==> was.status == Scheduled && StillAsks(c, was.invoice))
          && c'.attempts[k] == if sent then was.(status := Submitted, heldAt := at) else was)
      && (var (c', withdrawn) := WithdrawPlanned(c, k);
          && OthersStay(c, c', k) && (withdrawn <==> was.status == Scheduled)
          && c'.attempts[k] == if withdrawn then was.(status := Withdrawn) else was)
      && (var (c', taken) := MarkReversed(c, k);
          && OthersStay(c, c', k) && (taken <==> was.status == Succeeded || was.status == Failed)
          && c'.attempts[k] == if taken then was.(status := Reversed, followedUp := false) else was)
      && (var (c', followed) := MarkFollowedUp(c, k);
          && OthersStay(c, c', k)
          && (followed <==> (was.status == Failed || was.status == Reversed) && !was.followedUp)
          && c'.attempts[k] == if followed then was.(followedUp := true) else was)
      && (var (c', held) := Hold(c, k, heldBefore, at);
          && OthersStay(c, c', k) && (held <==> OnItsWay(was.status) && was.heldAt < heldBefore)
          && c'.attempts[k] == if held then was.(heldAt := at) else was)
  {
    AsksIsOwes(c, c.attempts[k].invoice);
  }

  /** Of two who try to hold an attempt, each as of the moment it is held at, only the first gets it. */
  lemma HeldOnce(c: Collecting, k: nat, heldBefore: int, at: int, later: int)
    requires k < |c.attempts| && heldBefore <= at && Hold(c, k, heldBefore, at).1
    ensures !Hold(Hold(c, k, heldBefore, at).0, k, heldBefore, later).1
  {
  }

  /** An invoice the list names can be planned for again, with the payment method in use, as far as nothing of another
      invoice of its chain is on its way. */
  lemma ListedCanBePlanned(c: Collecting, i: Id, inUse: Id, at: int)
    requires Sound(c) && LastTells(c) && CollectableAgain(c, i, inUse)
    requires forall k :: 0 <= k < |c.attempts| && SameChain(c.invoices, c.attempts[k].invoice, i) ==>
      !OnItsWay(c.attempts[k].status)
    ensures WriteNext(c, i, inUse, Some(LastOf(c.attempts, i)), at).1
  {
    hide Chained, Corrected, Sound, LastOf;
    SoundIsNumbered(c);
    ListedAreFree(c, i, inUse);
    BlockedIs(c, i);
    AsksIsOwes(c, i);
    AnyIsCounted(c.attempts, i);
    LastIsCount(c.attempts, i);
    NextTakes(c, i, inUse, Some(LastOf(c.attempts, i)), at);
    hide WriteNext, LastTells;
    forall k | 0 <= k < |c.attempts| && SameChain(c.invoices, c.attempts[k].invoice, i)
      ensures !(c.attempts[k].status == Reversed && c.attempts[k].paymentMethod == inUse)
    {
      assert !ReversedBefore(c, k, i, inUse);
    }
  }
}
