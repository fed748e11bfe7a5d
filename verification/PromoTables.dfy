/** The slots as two tables, kept by two adapters: one deletes holds and lowers each code in a loop, the
    other does both in one grouped statement. Each is proved to leave what the step on the slots as a
    whole leaves, and so the two leave the same. */
module PromoTables {
  import opened Sums
  import opened PromoSlots

  class Tables {
    var codes: map<Id, Code>
    var holds: seq<Hold>

    constructor ()
      ensures Snap() == EMPTY
    {
      codes, holds := map[], [];
    }

    function Snap(): Slots
      reads this
    {
      Slots(codes, holds)
    }

    /** `UPDATE promo_codes … WHERE id`: changes nothing where there is no such code. */
    method LowerCode(code: Id, count: int, redeemed: bool)
      modifies this`codes
      ensures codes == if code in old(codes)
                       then old(codes)[code := Lowered(old(codes)[code], count, redeemed)] else old(codes)
    {
      if code in codes {
        codes := codes[code := Lowered(codes[code], count, redeemed)];
      }
    }

    /** Gathers one amount per code, and lowers each code by its own. */
    method GiveBack(ended: seq<Hold>, redeemed: bool)
      modifies this`codes
      ensures codes == GivenBack(old(codes), ended, redeemed)
    {
      ghost var was := codes;
      var each := [];
      for k := 0 to |ended|
        invariant each == OneEach(ended[..k])
      {
        assert ended[..k + 1][..k] == ended[..k];
        each := each + [Part(ended[k].code, 1)];
      }
      assert ended[..|ended|] == ended;
      var perCode := GatherAll(each);
      var sorted := Sort(perCode, ByCode());
      for k := 0 to |sorted|
        invariant codes == LoweredEach(was, sorted[..k], redeemed)
      {
        assert sorted[..k + 1][..k] == sorted[..k];
        LowerCode(sorted[k].id, sorted[k].amount, redeemed);
      }
      assert sorted[..|sorted|] == sorted;
      LoopIsGrouped(was, ended, redeemed);
    }

    /** `DELETE … WHERE … RETURNING`. */
    method DeleteWhere(picks: Hold -> bool) returns (gone: seq<Hold>)
      modifies this`holds
      ensures gone == Picked(old(holds), picks) && holds == Unpicked(old(holds), picks)
    {
      gone := [];
      var left := [];
      for k := 0 to |holds|
        invariant gone == Picked(holds[..k], picks) && left == Unpicked(holds[..k], picks)
      {
        assert holds[..k + 1][..k] == holds[..k];
        if picks(holds[k]) {
          gone := gone + [holds[k]];
        } else {
          left := left + [holds[k]];
        }
      }
      assert holds[..|holds|] == holds;
      holds := left;
    }

    method TakeHold(code: Id, offer: Id, expiresAt: int) returns (outcome: TakeOutcome)
      requires Sound(Snap())
      modifies this
      ensures (Snap(), outcome) == Take(old(Snap()), code, offer, expiresAt)
      ensures Sound(Snap())
    {
      hide Sound;
      TakeSound(Snap(), code, offer, expiresAt);
      if code !in codes {
        return NoSlot;
      }
      if Find(holds, OfOffer(offer)).Some? {
        return OfferHoldsOne;
      }
      if !HasFreeSlot(Snap(), code) {
        return NoSlot;
      }
      codes := codes[code := codes[code].(held := codes[code].held + 1)];
      holds := holds + [Hold(code, offer, expiresAt, None)];
      outcome := SlotTaken;
    }

    /** Deletes the holds the condition picks and gives their slots back. */
    method ReleaseWhere(picks: Hold -> bool) returns (released: bool)
      requires Sound(Snap())
      modifies this
      ensures Snap() == End(old(Snap()), picks) && Sound(Snap())
      ensures released <==> |Picked(old(holds), picks)| == 1
    {
      hide Sound, GivenBack;
      EndSound(Snap(), picks);
      var gone := DeleteWhere(picks);
      GiveBack(gone, false);
      released := |gone| == 1;
    }

    /** The sweep as a deletion and a loop. */
    method ExpireDueInLoop(now: int, code: Option<Id>, tx: Id) returns (ended: nat)
      requires Sound(Snap())
      modifies this
      ensures (Snap(), ended) == ExpireDue(old(Snap()), now, code, tx)
      ensures Sound(Snap())
    {
      hide Sound, GivenBack;
      EndSound(Snap(), Due(now, code, tx));
      var gone := DeleteWhere(Due(now, code, tx));
      GiveBack(gone, false);
      ended := |gone|;
    }

    /** The sweep as one statement: the deleted holds counted per code, and every code lowered at once. */
    method ExpireDueGrouped(now: int, code: Option<Id>, tx: Id) returns (ended: nat)
      requires Sound(Snap())
      modifies this
      ensures (Snap(), ended) == ExpireDue(old(Snap()), now, code, tx)
      ensures Sound(Snap())
    {
      hide Sound;
      EndSound(Snap(), Due(now, code, tx));
      var gone := Picked(holds, Due(now, code, tx));
      codes, holds := map c | c in codes :: Lowered(codes[c], Count(gone, c), false), Unpicked(holds, Due(now, code, tx));
      ended := |gone|;
    }

    /** One hold the transaction was handed becomes a redemption. */
    method Convert(code: Id, tx: Id) returns (converted: bool, pick: nat)
      requires Sound(Snap())
      modifies this
      ensures (Snap(), converted) == ConvertHandedOver(old(Snap()), code, tx, pick)
      ensures !converted ==> forall k :: 0 <= k < |old(holds)| ==> !HandedOverOn(code, tx)(old(holds)[k])
      ensures Sound(Snap())
    {
      hide Sound, GivenBack;
      var found := Find(holds, HandedOverOn(code, tx));
      if found.None? {
        pick := |holds|;
        return false, pick;
      }
      pick := found.value;
      ConvertSound(Snap(), code, tx, pick);
      var gone := holds[pick];
      holds := holds[..pick] + holds[pick + 1..];
      GiveBack([gone], true);
      converted := true;
    }

    method Claim(code: Id) returns (claimed: bool)
      requires Sound(Snap())
      modifies this`codes
      ensures (Snap(), claimed) == ClaimSlot(old(Snap()), code)
      ensures Sound(Snap())
    {
      ApplySound(Snap(), Claiming(code));
      claimed := HasFreeSlot(Snap(), code);
      if claimed {
        codes := codes[code := codes[code].(redemptions := codes[code].redemptions + 1)];
      }
    }
  }
}
