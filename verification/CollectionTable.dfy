/** The attempts as a table: each write names the state it expects, as an `UPDATE … WHERE status IN …`
    does, and answers whether it took. What holds of them over every run is proved of the same steps on
    values; here each read is a loop over the rows, and each write changes the rows its condition names. */
module CollectionTable {
  import opened Sums
  import opened InvoiceChain
  import opened Collection

  class Collections {
    var invoices: Invoices
    var cancellations: Cancellations
    var settled: Id -> int
    var attempts: seq<Attempt>

    constructor ()
      ensures Snap() == Collection.NOTHING
    {
      invoices, cancellations, settled, attempts := map[], map[], Collection.NOTHING.settled, [];
    }

    function Snap(): Collecting
      reads this
    {
      Collecting(invoices, cancellations, settled, attempts)
    }

    /** Changes the row `id` where its status is one of `from`, and answers whether it was. */
    method UpdateWhere(id: nat, from: set<Status>, changed: Attempt -> Attempt) returns (took: bool)
      modifies this`attempts
      ensures took <==> id < |old(attempts)| && old(attempts)[id].status in from
      ensures attempts == if took then old(attempts)[id := changed(old(attempts)[id])] else old(attempts)
    {
      took := id < |attempts| && attempts[id].status in from;
      if took {
        attempts := attempts[id := changed(attempts[id])];
      }
    }

    /** Withdraws whatever is planned for the invoice. */
    method WithdrawAllOf(invoice: Id)
      modifies this`attempts
      ensures attempts == WithdrawnFor(old(attempts), invoice)
    {
      ghost var was := attempts;
      for k := 0 to |attempts|
        invariant |attempts| == |was|
        invariant forall j :: 0 <= j < |was| ==> attempts[j] == if j < k then WithdrawnFor(was, invoice)[j] else was[j]
      {
        if attempts[k].invoice == invoice && attempts[k].status == Scheduled {
          attempts := attempts[k := attempts[k].(status := Withdrawn)];
        }
      }
    }

    /** Reads of an invoice's attempts whether there are any, whether one blocks, and the greatest number. */
    method ReadEarlier(invoice: Id) returns (any: bool, blocking: bool, last: nat)
      ensures any == AnyOf(attempts, invoice) && blocking == AnyBlocking(attempts, invoice)
      ensures last == LastOf(attempts, invoice)
    {
      any, blocking, last := false, false, 0;
      for k := 0 to |attempts|
        invariant any <==> exists j :: 0 <= j < k && attempts[j].invoice == invoice
        invariant blocking <==> exists j :: 0 <= j < k && attempts[j].invoice == invoice && Blocking(attempts[j].status)
        invariant last == LastOf(attempts[..k], invoice)
      {
        assert attempts[..k + 1][..k] == attempts[..k];
        if attempts[k].invoice == invoice {
          any := true;
          blocking := blocking || Blocking(attempts[k].status);
          last := Max(last, attempts[k].number);
        }
      }
      assert attempts[..|attempts|] == attempts;
    }

    method ReadHeldBack(invoice: Id, paymentMethod: Id) returns (held: bool)
      ensures held == HeldBackByItsChain(Snap(), invoice, paymentMethod)
    {
      held := false;
      for k := 0 to |attempts|
        invariant held <==> exists j :: 0 <= j < k && HoldsBack(Snap(), attempts[j], invoice, paymentMethod)
      {
        held := held || HoldsBack(Snap(), attempts[k], invoice, paymentMethod);
      }
    }

    /** Reads, decides and inserts, as one step of the table. */
    method WriteNextOf(invoice: Id, paymentMethod: Id, after: Option<nat>, at: int) returns (written: bool)
      requires Sound(Snap())
      modifies this`attempts
      ensures (Snap(), written) == WriteNext(old(Snap()), invoice, paymentMethod, after, at)
      ensures Sound(Snap())
    {
      hide Sound, HeldBackByItsChain, AnyOf, AnyBlocking, LastOf;
      WriteNextSound(Snap(), invoice, paymentMethod, after, at);
      if invoice !in invoices {
        return false;
      }
      var owed := Owes(Snap(), invoice);
      if owed <= 0 {
        return false;
      }
      var any, blocking, last := ReadEarlier(invoice);
      if (if after.None? then any else blocking || last != after.value) {
        return false;
      }
      var held := ReadHeldBack(invoice, paymentMethod);
      if held {
        return false;
      }
      attempts := attempts + [Attempt(invoice, last + 1, paymentMethod, owed,
                                      if after.None? then Submitted else Scheduled, at, false)];
      written := true;
    }

    method SubmitPlannedOf(id: nat, at: int) returns (sent: bool)
      requires Sound(Snap())
      modifies this`attempts
      ensures (Snap(), sent) == SubmitPlanned(old(Snap()), id, at)
      ensures Sound(Snap())
    {
      hide Sound, Owes;
      SubmitPlannedSound(Snap(), id, at);
      if id >= |attempts| || Owes(Snap(), attempts[id].invoice) <= 0 {
        return false;
      }
      sent := UpdateWhere(id, {Scheduled}, (a: Attempt) => a.(status := Submitted, heldAt := at));
    }

    method WithdrawOne(id: nat) returns (withdrawn: bool)
      requires Sound(Snap())
      modifies this`attempts
      ensures (Snap(), withdrawn) == WithdrawPlanned(old(Snap()), id)
      ensures Sound(Snap())
    {
      hide Sound;
      ApplySound(Snap(), Withdraw(id));
      withdrawn := UpdateWhere(id, {Scheduled}, (a: Attempt) => a.(status := Withdrawn));
    }

    /** Two conditional updates: from an unsettled state to the reported one, and where that matches no row, for
        a success, from failed, after the invoice's scheduled attempts are withdrawn. */
    method RecordOutcomeOf(id: nat, outcome: Outcome) returns (took: bool)
      requires Sound(Snap())
      modifies this`attempts
      ensures (Snap(), took) == RecordOutcome(old(Snap()), id, outcome)
      ensures Sound(Snap())
    {
      hide Sound, Beside, WithdrawnFor;
      RecordOutcomeSound(Snap(), id, outcome);
      took := UpdateWhere(id, {Submitted, Pending}, (a: Attempt) => a.(status := StatusOf(outcome)));
      if took || outcome != GotSucceeded || id >= |attempts| || attempts[id].status != Failed {
        return;
      }
      KeepsFailed(attempts, id);
      WithdrawAllOf(attempts[id].invoice);
      var beside := ReadBeside(id);
      if beside {
        return;
      }
      took := UpdateWhere(id, {Failed}, (a: Attempt) => a.(status := Succeeded));
    }

    method ReadBeside(id: nat) returns (beside: bool)
      requires id < |attempts|
      ensures beside == Beside(attempts, id)
    {
      beside := false;
      for k := 0 to |attempts|
        invariant beside <==> exists j :: 0 <= j < k && StandsBeside(attempts, id, j)
      {
        beside := beside || StandsBeside(attempts, id, k);
      }
    }

    method AbandonPaidOf(id: nat, at: int) returns (answer: Abandoned)
      requires Sound(Snap())
      modifies this`attempts
      ensures (Snap(), answer) == AbandonPaid(old(Snap()), id, at)
      ensures Sound(Snap())
    {
      hide Sound, Owes;
      ApplySound(Snap(), Abandon(id, at));
      if id >= |attempts| || attempts[id].status != Submitted {
        return Settled;
      }
      var resend := Owes(Snap(), attempts[id].invoice) > 0;
      var claimed := UpdateWhere(id, {Submitted}, if resend then (a: Attempt) => a.(heldAt := at)
                                                  else (a: Attempt) => a.(status := Failed));
      answer := if resend then Resend else AbandonedNow;
    }

    method MarkReversedOf(id: nat) returns (took: bool)
      requires Sound(Snap())
      modifies this`attempts
      ensures (Snap(), took) == MarkReversed(old(Snap()), id)
      ensures Sound(Snap())
    {
      hide Sound;
      ApplySound(Snap(), TakeBack(id));
      took := UpdateWhere(id, {Succeeded, Failed}, (a: Attempt) => a.(status := Reversed, followedUp := false));
    }
  }

  /** Withdrawing what is planned leaves a failed attempt failed. */
  lemma KeepsFailed(attempts: seq<Attempt>, k: nat)
    requires k < |attempts| && attempts[k].status == Failed
    ensures WithdrawnFor(attempts, attempts[k].invoice)[k] == attempts[k]
  {
  }
}
