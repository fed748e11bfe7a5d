/** Which holds each step on a promotion code's slots takes, ends, keeps and converts, said of the rows. */
module PromoAnswers {
  import opened Sums
  import opened PromoSlots

  /** Nothing of a code but its count of holds is changed, and that counts the holds there are. */
  ghost predicate OnlyCounts(s: Slots, s': Slots) {
    && s'.codes.Keys == s.codes.Keys
    && forall c :: c in s.codes ==> s'.codes[c] == s.codes[c].(held := Count(s'.holds, c))
  }

  lemma {:induction false} PickedBoth(holds: seq<Hold>, picks: Hold -> bool)
    ensures |Picked(holds, picks)| + |Unpicked(holds, picks)| == |holds|
    ensures forall h :: h in Unpicked(holds, picks) <==> h in holds && !picks(h)
  {
    if holds != [] {
      var n := |holds| - 1;
      PickedBoth(holds[..n], picks);
      assert holds == holds[..n] + [holds[n]];
    }
  }

  lemma EndCounts(s: Slots, picks: Hold -> bool)
    requires Sound(s)
    ensures OnlyCounts(s, End(s, picks))
  {
    SameCodes(s.codes, Picked(s.holds, picks), false);
    forall c | c in s.codes ensures End(s, picks).codes[c] == s.codes[c].(held := Count(End(s, picks).holds, c)) {
      EndLowers(s, picks, c);
    }
  }

  /** A sweep ends the holds that have expired by then, of the code it is for where it is for one, but for those its
      own transaction was handed; it ends no other, and answers how many it ended. */
  lemma SweepEnds(s: Slots, now: int, only: Option<Id>, tx: Id)
    requires Sound(s)
    ensures var (s', ended) := ExpireDue(s, now, only, tx);
      && OnlyCounts(s, s') && ended == |s.holds| - |s'.holds|
      && forall h :: h in s'.holds <==>
           h in s.holds && (h.expiresAt > now || h.handedOver == Some(tx) || (only.Some? && h.code != only.value))
  {
    PickedBoth(s.holds, Due(now, only, tx));
    EndCounts(s, Due(now, only, tx));
  }

  /** A release ends the offer's hold and no other; one that asks for it unmoved only where it still expires then. */
  lemma ReleaseEnds(s: Slots, offer: Id, at: int)
    requires Sound(s)
    ensures OnlyCounts(s, Release(s, offer)) && OnlyCounts(s, ReleaseIfUnmoved(s, offer, at))
    ensures forall h :: h in Release(s, offer).holds <==> h in s.holds && h.offer != offer
    ensures forall h :: h in ReleaseIfUnmoved(s, offer, at).holds <==>
      h in s.holds && (h.offer != offer || h.expiresAt != at)
  {
    PickedBoth(s.holds, OfOffer(offer));
    PickedBoth(s.holds, OfOfferAt(offer, at));
    EndCounts(s, OfOffer(offer));
    EndCounts(s, OfOfferAt(offer, at));
  }

  /** A slot may be taken of an active code that is not deleted and has fewer redemptions and holds than its limit. */
  predicate Free(s: Slots, c: Id) {
    && c in s.codes && s.codes[c].status == Active && !s.codes[c].deleted
    && (s.codes[c].limit.Some? ==> s.codes[c].redemptions + s.codes[c].held < s.codes[c].limit.value)
  }

  /** A hold is taken exactly where the code has a slot free and the offer holds none; it is told which of the two was
      missing. */
  lemma TakeTakes(s: Slots, c: Id, offer: Id, expiresAt: int)
    ensures var (s', outcome) := Take(s, c, offer, expiresAt);
      var holds := exists h :: h in s.holds && h.offer == offer;
      && (outcome == SlotTaken <==> Free(s, c) && !holds)
      && (outcome == OfferHoldsOne <==> c in s.codes && holds)
      && s' == if outcome == SlotTaken
           then Slots(s.codes[c := s.codes[c].(held := s.codes[c].held + 1)], s.holds + [Hold(c, offer, expiresAt, None)])
           else s
  {
    var found := Find(s.holds, OfOffer(offer));
    if found.Some? {
      assert s.holds[found.value] in s.holds;
    }
  }

  /** A hold is extended only for its own offer and code, and never ends sooner for it. */
  lemma ExtendKeeps(s: Slots, offer: Id, c: Id, expiresAt: int, k: nat)
    requires k < |s.holds|
    ensures var s' := Extend(s, offer, c, expiresAt);
      && s'.codes == s.codes && |s'.holds| == |s.holds|
      && s'.holds[k] == if s.holds[k].offer == offer && s.holds[k].code == c
                        then s.holds[k].(expiresAt := Max(s.holds[k].expiresAt, expiresAt)) else s.holds[k]
  {
  }

  /** A hold handed to a transaction while it runs outlives every sweep that transaction makes, of whatever moment and
      code, and can then be converted there. */
  lemma HandedOverSurvives(s: Slots, k: nat, now: int, tx: Id, later: int, only: Option<Id>) returns (pick: nat)
    requires k < |s.holds| && s.holds[k].expiresAt > now
    ensures var c := s.holds[k].code;
      var swept := ExpireDue(HandOver(s, s.holds[k].offer, now, tx), later, only, tx).0;
      ConvertHandedOver(swept, c, tx, pick).1
  {
    var handed := HandOver(s, s.holds[k].offer, now, tx);
    var h := s.holds[k].(handedOver := Some(tx));
    assert handed.holds[k] == h;
    PickedBoth(handed.holds, Due(later, only, tx));
    var swept := ExpireDue(handed, later, only, tx).0;
    assert h in handed.holds && h in swept.holds;
    pick :| 0 <= pick < |swept.holds| && swept.holds[pick] == h;
  }

  /** An expired hold is handed to no one. */
  lemma ExpiredIsNotHanded(s: Slots, offer: Id, now: int, tx: Id, k: nat)
    requires k < |s.holds|
    ensures var s' := HandOver(s, offer, now, tx);
      && s'.codes == s.codes && |s'.holds| == |s.holds|
      && s'.holds[k] == if s.holds[k].offer == offer && s.holds[k].expiresAt > now
                        then s.holds[k].(handedOver := Some(tx)) else s.holds[k]
  {
  }

  /** What is converted is a hold of the code the transaction was handed, and every other hold stays. */
  lemma ConvertEnds(s: Slots, c: Id, tx: Id, pick: nat)
    ensures var (s', converted) := ConvertHandedOver(s, c, tx, pick);
      && (converted <==> pick < |s.holds| && s.holds[pick].code == c && s.holds[pick].handedOver == Some(tx))
      && (converted ==> multiset(s'.holds) == multiset(s.holds) - multiset{s.holds[pick]})
      && (!converted ==> s' == s)
  {
    if pick < |s.holds| {
      assert s.holds == s.holds[..pick] + [s.holds[pick]] + s.holds[pick + 1..];
    }
  }

  /** A redemption counted and given up again leaves the code as it was; and one counted takes a free slot. */
  lemma ClaimReleased(s: Slots, c: Id)
    requires Sound(s)
    ensures var (s', claimed) := ClaimSlot(s, c);
      && (claimed <==> Free(s, c)) && s'.holds == s.holds
      && (claimed ==> c in s.codes && s'.codes == s.codes[c := s.codes[c].(redemptions := s.codes[c].redemptions + 1)])
      && (claimed ==> ReleaseSlot(s', c) == s)
      && (!claimed ==> s' == s)
  {
    var (s', claimed) := ClaimSlot(s, c);
    if claimed {
      assert s.codes[c := s.codes[c]] == s.codes;
    }
  }

  /** A code is exhausted exactly once its redemptions reach its limit while it is active; then it has no slot free, and
      giving a redemption up makes it active again. */
  lemma ExhaustedUntilReleased(s: Slots, c: Id)
    requires c in s.codes
    ensures var s' := MarkExhaustedIfFull(s, c);
      var code := s.codes[c];
      && (s' != s <==> code.status == Active && code.limit.Some? && code.redemptions >= code.limit.value)
      && (s' != s ==> s' == s.(codes := s.codes[c := code.(status := Exhausted)]) && !Free(s', c))
      && (s' != s ==> ReleaseSlot(s', c).codes[c] == code.(redemptions := Max(code.redemptions - 1, 0)))
  {
  }

  /** Giving up a redemption reactivates an exhausted code and leaves every other status. */
  lemma ReleaseReactivates(s: Slots, c: Id)
    requires c in s.codes
    ensures var code, code' := s.codes[c], ReleaseSlot(s, c).codes[c];
      && (code'.status != code.status <==> code.status == Exhausted)
      && (code.status == Exhausted ==> code'.status == Active)
      && code' == code.(redemptions := if code.redemptions > 0 then code.redemptions - 1 else 0, status := code'.status)
    ensures ReleaseSlot(s, c) == s.(codes := s.codes[c := ReleaseSlot(s, c).codes[c]])
  {
  }

  /** A deleted code has no slot free, whatever an operator changes of it afterwards; its holds run on. */
  lemma DeletedIsOver(s: Slots, c: Id, ops: seq<Op>)
    requires c in s.codes
    ensures SoftDelete(s, c).holds == s.holds
    ensures c in Run(SoftDelete(s, c), ops).codes && Run(SoftDelete(s, c), ops).codes[c].deleted
    ensures !Free(Run(SoftDelete(s, c), ops), c)
  {
    StaysDeleted(SoftDelete(s, c), c, ops);
  }

  lemma {:induction false} StaysDeleted(s: Slots, c: Id, ops: seq<Op>)
    requires c in s.codes && s.codes[c].deleted
    ensures c in Run(s, ops).codes && Run(s, ops).codes[c].deleted
  {
    if ops != [] {
      StaysDeleted(s, c, ops[..|ops| - 1]);
    }
  }

  /** A code paused by an operator gives out no slot until it is made active, and pausing takes none away. */
  lemma PausedUntilActive(s: Slots, c: Id, status: CodeStatus, limit: Option<Option<int>>)
    requires c in s.codes && !s.codes[c].deleted
    ensures var s' := Edit(s, c, status, limit);
      && s'.holds == s.holds && c in s'.codes && s' == s.(codes := s.codes[c := s'.codes[c]])
      && s'.codes[c] == s.codes[c].(status := status, limit := s'.codes[c].limit)
      && (limit.Some? ==> s'.codes[c].limit == limit.value) && (limit.None? ==> s'.codes[c].limit == s.codes[c].limit)
      && (status != Active ==> !Free(s', c))
      && (Free(s, c) && limit.None? ==> Free(Edit(s', c, Active, None), c))
  {
  }

  /** A new code gives out a slot at once where it has no limit or one above nothing; one there already stays as it is. */
  lemma CreatedGivesOut(s: Slots, c: Id, limit: Option<int>)
    ensures var s' := Create(s, c, limit);
      && s'.holds == s.holds
      && (c in s.codes ==> s' == s)
      && (c !in s.codes ==> s'.codes == s.codes[c := Code(Active, false, limit, 0, 0)])
      && (c !in s.codes ==> (Free(s', c) <==> (limit.Some? ==> limit.value > 0)))
  {
  }
}
