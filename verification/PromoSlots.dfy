/** The slots of a promotion code: redemptions it counted, and holds that keep a slot for a checkout offer.
    The count of holds stands on the code, beside the holds themselves. */
module PromoSlots {
  import opened Sums

  datatype CodeStatus = Active | Paused | Exhausted | Expired

  datatype Code = Code(status: CodeStatus, deleted: bool, limit: Option<int>, redemptions: int, held: int)

  datatype Hold = Hold(code: Id, offer: Id, expiresAt: int, handedOver: Option<Id>)

  datatype Slots = Slots(codes: map<Id, Code>, holds: seq<Hold>)

  // ---- what is read ----------------------------------------------------------------------

  /** Holds and redemptions draw on one limit. */
  predicate HasFreeSlot(s: Slots, c: Id) {
    && c in s.codes && s.codes[c].status == Active && !s.codes[c].deleted
    && (s.codes[c].limit.None? || s.codes[c].redemptions + s.codes[c].held < s.codes[c].limit.value)
  }

  function OnCode(c: Id): Hold -> int {
    (h: Hold) => if h.code == c then 1 else 0
  }

  function Count(holds: seq<Hold>, c: Id): int {
    Sum(holds, OnCode(c))
  }

  function OfOffer(offer: Id): Hold -> bool {
    (h: Hold) => h.offer == offer
  }

  function OfOfferAt(offer: Id, at: int): Hold -> bool {
    (h: Hold) => h.offer == offer && h.expiresAt == at
  }

  /** What a sweep at `now` ends: due, not handed over by its own transaction, and of the code it names. */
  function Due(now: int, code: Option<Id>, tx: Id): Hold -> bool {
    (h: Hold) => h.expiresAt <= now && h.handedOver != Some(tx) && (code.None? || h.code == code.value)
  }

  // ---- giving slots back -----------------------------------------------------------------

  /** The one grouped statement: every code's count is lowered by the holds of it that ended, never below
      nothing; ended as redemptions, they are counted as those. */
  function GivenBack(codes: map<Id, Code>, gone: seq<Hold>, redeemed: bool): map<Id, Code> {
    map c | c in codes :: Lowered(codes[c], Count(gone, c), redeemed)
  }

  function Lowered(code: Code, ended: int, redeemed: bool): Code {
    if ended == 0 then code
    else code.(held := Max(code.held - ended, 0),
               redemptions := code.redemptions + if redeemed then ended else 0)
  }

  function OneEach(gone: seq<Hold>): seq<Part> {
    if gone == [] then [] else OneEach(gone[..|gone| - 1]) + [Part(gone[|gone| - 1].code, 1)]
  }

  lemma {:induction false} OneEachCount(gone: seq<Hold>, c: Id)
    ensures On(OneEach(gone), c) == Count(gone, c)
  {
    if gone != [] {
      var n := |gone| - 1;
      OneEachCount(gone[..n], c);
      SumAppend(OneEach(gone[..n]), Part(gone[n].code, 1));
    }
  }

  function ByCode(): Part -> Key {
    (x: Part) => (x.id, 0)
  }

  /** The codes of `parts` one after another, each lowered by its part. */
  function LoweredEach(codes: map<Id, Code>, parts: seq<Part>, redeemed: bool): map<Id, Code> {
    if parts == [] then codes
    else
      var n := |parts| - 1;
      var before := LoweredEach(codes, parts[..n], redeemed);
      if parts[n].id in before
      then before[parts[n].id := Lowered(before[parts[n].id], parts[n].amount, redeemed)]
      else before
  }

  /** Each code is lowered once, by what stands under it. */
  lemma {:induction false} LoweredOnce(codes: map<Id, Code>, parts: seq<Part>, redeemed: bool)
    requires Distinct(parts)
    ensures LoweredEach(codes, parts, redeemed).Keys == codes.Keys
    ensures forall c :: c in codes ==> LoweredEach(codes, parts, redeemed)[c] == Lowered(codes[c], On(parts, c), redeemed)
  {
    if parts != [] {
      var n := |parts| - 1;
      LoweredOnce(codes, parts[..n], redeemed);
      assert !Names(parts[..n], parts[n].id);
      UnnamedIsZero(parts[..n], parts[n].id);
    }
  }

  lemma {:induction false} SortKeepsDistinct(parts: seq<Part>, key: Part -> Key)
    requires Distinct(parts)
    ensures Distinct(Sort(parts, key))
  {
    var sorted := Sort(parts, key);
    forall i, j | 0 <= i < j < |sorted| ensures sorted[i].id != sorted[j].id {
      if sorted[i].id == sorted[j].id {
        SortSum(parts, key, Once(sorted[i].id));
        OnceAtMost(parts, sorted[i].id);
        OnceTwice(sorted, sorted[i].id, i, j);
      }
    }
  }

  function Once(id: Id): Part -> int {
    (x: Part) => if x.id == id then 1 else 0
  }

  lemma {:induction false} OnceAtMost(parts: seq<Part>, id: Id)
    requires Distinct(parts)
    ensures Sum(parts, Once(id)) <= 1
    ensures !Names(parts, id) ==> Sum(parts, Once(id)) == 0
  {
    if parts != [] {
      var n := |parts| - 1;
      OnceAtMost(parts[..n], id);
      if parts[n].id == id {
        assert !Names(parts[..n], id);
      } else if Names(parts[..n], id) {
        var i :| 0 <= i < n && parts[..n][i].id == id;
        assert parts[i].id == id;
      }
    }
  }

  lemma {:induction false} OnceTwice(parts: seq<Part>, id: Id, i: nat, j: nat)
    requires i < j < |parts| && parts[i].id == id && parts[j].id == id
    ensures Sum(parts, Once(id)) >= 2
  {
    var n := |parts| - 1;
    SumNonNegative(parts[..n], Once(id));
    if j == n {
      assert Once(id)(parts[..n][i]) == 1;
    } else {
      OnceTwice(parts[..n], id, i, j);
    }
  }

  /** The loop over a `Map` of counts, in the order of the codes, does what the grouped statement does. */
  lemma LoopIsGrouped(codes: map<Id, Code>, gone: seq<Hold>, redeemed: bool)
    ensures LoweredEach(codes, Sort(Gathered(OneEach(gone)), ByCode()), redeemed) == GivenBack(codes, gone, redeemed)
  {
    var parts := Sort(Gathered(OneEach(gone)), ByCode());
    GatheredKeeps(OneEach(gone));
    SortKeepsDistinct(Gathered(OneEach(gone)), ByCode());
    LoweredOnce(codes, parts, redeemed);
    forall c | c in codes ensures On(parts, c) == Count(gone, c) {
      SortSum(Gathered(OneEach(gone)), ByCode(), Under(c));
      OneEachCount(gone, c);
    }
  }

  // ---- the steps -------------------------------------------------------------------------

  datatype TakeOutcome = NoSlot | OfferHoldsOne | SlotTaken

  function Take(s: Slots, c: Id, offer: Id, expiresAt: int): (Slots, TakeOutcome) {
    if c !in s.codes then (s, NoSlot)
    else if Find(s.holds, OfOffer(offer)).Some? then (s, OfferHoldsOne)
    else if !HasFreeSlot(s, c) then (s, NoSlot)
    else (Slots(s.codes[c := s.codes[c].(held := s.codes[c].held + 1)],
                s.holds + [Hold(c, offer, expiresAt, None)]), SlotTaken)
  }

  /** Ends the holds the condition picks. */
  function End(s: Slots, picks: Hold -> bool): Slots {
    Slots(GivenBack(s.codes, Picked(s.holds, picks), false), Unpicked(s.holds, picks))
  }

  function Release(s: Slots, offer: Id): Slots {
    End(s, OfOffer(offer))
  }

  function ReleaseIfUnmoved(s: Slots, offer: Id, at: int): Slots {
    End(s, OfOfferAt(offer, at))
  }

  function ExpireDue(s: Slots, now: int, code: Option<Id>, tx: Id): (Slots, nat) {
    (End(s, Due(now, code, tx)), |Picked(s.holds, Due(now, code, tx))|)
  }

  /** Every hold the condition picks becomes what `changed` makes of it. */
  function Changed(holds: seq<Hold>, picks: Hold -> bool, changed: Hold -> Hold): seq<Hold> {
    seq(|holds|, (k: nat) requires k < |holds| => if picks(holds[k]) then changed(holds[k]) else holds[k])
  }

  function LaterOf(expiresAt: int): Hold -> Hold {
    (h: Hold) => h.(expiresAt := Max(h.expiresAt, expiresAt))
  }

  function HandedTo(tx: Id): Hold -> Hold {
    (h: Hold) => h.(handedOver := Some(tx))
  }

  function OfOfferOn(offer: Id, c: Id): Hold -> bool {
    (h: Hold) => h.offer == offer && h.code == c
  }

  function RunningFor(offer: Id, now: int): Hold -> bool {
    (h: Hold) => h.offer == offer && h.expiresAt > now
  }

  function Extend(s: Slots, offer: Id, c: Id, expiresAt: int): Slots {
    s.(holds := Changed(s.holds, OfOfferOn(offer, c), LaterOf(expiresAt)))
  }

  function HandOver(s: Slots, offer: Id, now: int, tx: Id): Slots {
    s.(holds := Changed(s.holds, RunningFor(offer, now), HandedTo(tx)))
  }

  function HandedOverOn(c: Id, tx: Id): Hold -> bool {
    (h: Hold) => h.code == c && h.handedOver == Some(tx)
  }

  /** One hold of the code the transaction was handed becomes a redemption: whichever the database lists
      first, here the one at `pick`. */
  function ConvertHandedOver(s: Slots, c: Id, tx: Id, pick: nat): (Slots, bool) {
    if pick >= |s.holds| || !HandedOverOn(c, tx)(s.holds[pick]) then (s, false)
    else (Slots(GivenBack(s.codes, [s.holds[pick]], true), s.holds[..pick] + s.holds[pick + 1..]), true)
  }

  function ClaimSlot(s: Slots, c: Id): (Slots, bool) {
    if !HasFreeSlot(s, c) then (s, false)
    else (s.(codes := s.codes[c := s.codes[c].(redemptions := s.codes[c].redemptions + 1)]), true)
  }

  function ReleaseSlot(s: Slots, c: Id): Slots {
    if c !in s.codes then s
    else s.(codes := s.codes[c := s.codes[c].(
           redemptions := Max(s.codes[c].redemptions - 1, 0),
           status := if s.codes[c].status == Exhausted then Active else s.codes[c].status)])
  }

  function MarkExhaustedIfFull(s: Slots, c: Id): Slots {
    if c in s.codes && s.codes[c].status == Active && s.codes[c].limit.Some?
       && s.codes[c].redemptions >= s.codes[c].limit.value
    then s.(codes := s.codes[c := s.codes[c].(status := Exhausted)])
    else s
  }

  /** A new code, with a limit no redemption passed yet. */
  function Create(s: Slots, c: Id, limit: Option<int>): Slots {
    if c in s.codes then s else s.(codes := s.codes[c := Code(Active, false, limit, 0, 0)])
  }

  /** An operator's edit: the status, and the limit where one is given. */
  function Edit(s: Slots, c: Id, status: CodeStatus, limit: Option<Option<int>>): Slots {
    if c !in s.codes || s.codes[c].deleted then s
    else s.(codes := s.codes[c := s.codes[c].(
           status := status, limit := if limit.Some? then limit.value else s.codes[c].limit)])
  }

  function SoftDelete(s: Slots, c: Id): Slots {
    if c !in s.codes then s else s.(codes := s.codes[c := s.codes[c].(deleted := true)])
  }

  datatype Op =
    | Taking(code: Id, offer: Id, expiresAt: int)
    | Extending(offer: Id, code: Id, expiresAt: int)
    | Releasing(offer: Id)
    | ReleasingUnmoved(offer: Id, expiresAt: int)
    | HandingOver(offer: Id, now: int, tx: Id)
    | Converting(code: Id, tx: Id, pick: nat)
    | Sweeping(now: int, only: Option<Id>, tx: Id)
    | Claiming(code: Id)
    | Unclaiming(code: Id)
    | Exhausting(code: Id)
    | Creating(code: Id, limit: Option<int>)
    | Editing(code: Id, status: CodeStatus, newLimit: Option<Option<int>>)
    | Deleting(code: Id)

  function Apply(s: Slots, op: Op): Slots {
    match op
    case Taking(c, offer, at) => Take(s, c, offer, at).0
    case Extending(offer, c, at) => Extend(s, offer, c, at)
    case Releasing(offer) => Release(s, offer)
    case ReleasingUnmoved(offer, at) => ReleaseIfUnmoved(s, offer, at)
    case HandingOver(offer, now, tx) => HandOver(s, offer, now, tx)
    case Converting(c, tx, pick) => ConvertHandedOver(s, c, tx, pick).0
    case Sweeping(now, only, tx) => ExpireDue(s, now, only, tx).0
    case Claiming(c) => ClaimSlot(s, c).0
    case Unclaiming(c) => ReleaseSlot(s, c)
    case Exhausting(c) => MarkExhaustedIfFull(s, c)
    case Creating(c, limit) => Create(s, c, limit)
    case Editing(c, status, limit) => Edit(s, c, status, limit)
    case Deleting(c) => SoftDelete(s, c)
  }

  function Run(s: Slots, ops: seq<Op>): Slots {
    if ops == [] then s else Apply(Run(s, ops[..|ops| - 1]), ops[|ops| - 1])
  }

  const EMPTY := Slots(map[], [])

  // ---- what every step keeps -------------------------------------------------------------

  /** Every hold is of a code there is, and a code's count is the number of its holds. */
  ghost predicate Counted(s: Slots) {
    && (forall k :: 0 <= k < |s.holds| ==> s.holds[k].code in s.codes)
    && (forall c :: c in s.codes ==> s.codes[c].held == Count(s.holds, c) && s.codes[c].redemptions >= 0)
  }

  /** An offer has at most one hold. */
  ghost predicate OnePerOffer(holds: seq<Hold>) {
    forall j, k :: 0 <= j < k < |holds| ==> holds[j].offer != holds[k].offer
  }

  ghost predicate Sound(s: Slots) {
    Counted(s) && OnePerOffer(s.holds)
  }

  /** Lowering a count by holds that ended never reaches below nothing, so the floor never bites. */
  lemma FloorNeverBites(s: Slots, picks: Hold -> bool, c: Id)
    requires Counted(s) && c in s.codes
    ensures 0 <= Count(Picked(s.holds, picks), c) <= s.codes[c].held
  {
    PickedSum(s.holds, picks, OnCode(c));
    SumNonNegative(Picked(s.holds, picks), OnCode(c));
    SumNonNegative(Unpicked(s.holds, picks), OnCode(c));
  }

  lemma EndLowers(s: Slots, picks: Hold -> bool, c: Id)
    requires Counted(s) && c in s.codes
    ensures c in End(s, picks).codes
    ensures var s' := End(s, picks);
      && s'.codes[c] == s.codes[c].(held := s.codes[c].held - Count(Picked(s.holds, picks), c))
      && s'.codes[c].held == Count(s'.holds, c)
  {
    hide Counted, Picked, Unpicked;
    FloorNeverBites(s, picks, c);
    PickedSum(s.holds, picks, OnCode(c));
    HeldIs(s, c);
  }

  lemma HeldIs(s: Slots, c: Id)
    requires Counted(s) && c in s.codes
    ensures s.codes[c].held == Count(s.holds, c)
  {
  }

  lemma EndSound(s: Slots, picks: Hold -> bool)
    requires Sound(s)
    ensures Sound(End(s, picks))
  {
    hide GivenBack;
    var s' := End(s, picks);
    PickedHolds(s.holds, picks);
    UnpickedOffers(s.holds, picks);
    assert s'.codes.Keys == s.codes.Keys by {
      SameCodes(s.codes, Picked(s.holds, picks), false);
    }
    forall c | c in s'.codes ensures s'.codes[c].held == Count(s'.holds, c) && s'.codes[c].redemptions >= 0 {
      EndLowers(s, picks, c);
    }
    forall k | 0 <= k < |s'.holds| ensures s'.holds[k].code in s'.codes {
      assert s'.holds[k] in s'.holds;
      assert s'.holds[k] in s.holds;
    }
  }

  lemma SameCodes(codes: map<Id, Code>, gone: seq<Hold>, redeemed: bool)
    ensures GivenBack(codes, gone, redeemed).Keys == codes.Keys
  {
  }

  lemma {:induction false} UnpickedOffers(holds: seq<Hold>, picks: Hold -> bool)
    requires OnePerOffer(holds)
    ensures OnePerOffer(Unpicked(holds, picks))
  {
    if holds != [] {
      var n := |holds| - 1;
      UnpickedOffers(holds[..n], picks);
      PickedHolds(holds[..n], picks);
      var before := Unpicked(holds[..n], picks);
      forall j | 0 <= j < |before| ensures before[j].offer != holds[n].offer {
        assert before[j] in before;
        assert before[j] in holds[..n];
      }
    }
  }

  lemma ChangedSound(s: Slots, picks: Hold -> bool, changed: Hold -> Hold)
    requires Sound(s) && forall h :: changed(h).code == h.code && changed(h).offer == h.offer
    ensures Sound(s.(holds := Changed(s.holds, picks, changed)))
  {
    var holds := Changed(s.holds, picks, changed);
    forall c ensures Count(holds, c) == Count(s.holds, c) {
      SameCount(s.holds, holds, c);
    }
  }

  lemma {:induction false} SameCount(a: seq<Hold>, b: seq<Hold>, c: Id)
    requires |a| == |b| && forall k :: 0 <= k < |a| ==> b[k].code == a[k].code
    ensures Count(b, c) == Count(a, c)
  {
    if a != [] {
      SameCount(a[..|a| - 1], b[..|a| - 1], c);
    }
  }

  lemma TakeSound(s: Slots, c: Id, offer: Id, expiresAt: int)
    requires Sound(s)
    ensures Sound(Take(s, c, offer, expiresAt).0)
  {
    var (s', outcome) := Take(s, c, offer, expiresAt);
    if outcome.SlotTaken? {
      SumAppend(s.holds, Hold(c, offer, expiresAt, None));
      forall k | 0 <= k < |s.holds| ensures s.holds[k].offer != offer {
        assert !OfOffer(offer)(s.holds[k]);
      }
    }
  }

  lemma RemovedCount(holds: seq<Hold>, k: nat, c: Id)
    requires k < |holds|
    ensures Count(holds[..k] + holds[k + 1..], c) == Count(holds, c) - OnCode(c)(holds[k])
    ensures Count([holds[k]], c) == OnCode(c)(holds[k])
  {
    assert holds == holds[..k] + ([holds[k]] + holds[k + 1..]);
    SumConcat(holds[..k], [holds[k]] + holds[k + 1..], OnCode(c));
    SumCons(holds[k], holds[k + 1..], OnCode(c));
    SumConcat(holds[..k], holds[k + 1..], OnCode(c));
    SumCons(holds[k], [], OnCode(c));
    assert [holds[k]] + [] == [holds[k]];
  }

  /** What giving one hold up as a redemption makes of the codes. */
  lemma RedeemedOne(s: Slots, pick: nat, d: Id)
    requires Counted(s) && pick < |s.holds| && d in s.codes
    ensures var left := s.holds[..pick] + s.holds[pick + 1..];
      var codes := GivenBack(s.codes, [s.holds[pick]], true);
      && d in codes && Count(left, d) == s.codes[d].held - OnCode(d)(s.holds[pick]) >= 0
      && codes[d] == s.codes[d].(held := s.codes[d].held - OnCode(d)(s.holds[pick]),
                                 redemptions := s.codes[d].redemptions + OnCode(d)(s.holds[pick]))
  {
    RemovedCount(s.holds, pick, d);
    SumNonNegative(s.holds[..pick] + s.holds[pick + 1..], OnCode(d));
  }

  lemma ConvertSound(s: Slots, c: Id, tx: Id, pick: nat)
    requires Sound(s)
    ensures Sound(ConvertHandedOver(s, c, tx, pick).0)
    ensures var (s', converted) := ConvertHandedOver(s, c, tx, pick);
      converted ==>
        && c in s.codes && c in s'.codes
        && s'.codes[c] == s.codes[c].(held := s.codes[c].held - 1, redemptions := s.codes[c].redemptions + 1)
        && forall d :: d in s.codes && d != c ==> d in s'.codes && s'.codes[d] == s.codes[d]
  {
    var (s', converted) := ConvertHandedOver(s, c, tx, pick);
    if converted {
      forall d | d in s.codes
        ensures d in s'.codes && s'.codes[d].held == Count(s'.holds, d)
        ensures s'.codes[d] == s.codes[d].(held := s.codes[d].held - OnCode(d)(s.holds[pick]),
                                           redemptions := s.codes[d].redemptions + OnCode(d)(s.holds[pick]))
      {
        RedeemedOne(s, pick, d);
      }
      hide GivenBack;
      SameCodes(s.codes, [s.holds[pick]], true);
    }
  }

  lemma ApplySound(s: Slots, op: Op)
    requires Sound(s)
    ensures Sound(Apply(s, op))
  {
    match op
    case Taking(c, offer, at) => TakeSound(s, c, offer, at);
    case Extending(offer, c, at) => ChangedSound(s, OfOfferOn(offer, c), LaterOf(at));
    case Releasing(offer) => EndSound(s, OfOffer(offer));
    case ReleasingUnmoved(offer, at) => EndSound(s, OfOfferAt(offer, at));
    case HandingOver(offer, now, tx) => ChangedSound(s, RunningFor(offer, now), HandedTo(tx));
    case Converting(c, tx, pick) => ConvertSound(s, c, tx, pick);
    case Sweeping(now, only, tx) => EndSound(s, Due(now, only, tx));
    case Creating(c, limit) =>
      if c !in s.codes {
        forall k | 0 <= k < |s.holds| ensures OnCode(c)(s.holds[k]) == 0 {
        }
        SumZero(s.holds, OnCode(c));
      }
    case _ =>
  }

  lemma {:induction false} RunSound(s: Slots, ops: seq<Op>)
    requires Sound(s)
    ensures Sound(Run(s, ops))
  {
    hide Sound, Apply;
    if ops != [] {
      RunSound(s, ops[..|ops| - 1]);
      ApplySound(Run(s, ops[..|ops| - 1]), ops[|ops| - 1]);
    }
  }

  /** After every run each code's count is the number of its holds, and no offer has two. */
  lemma CountIsHolds(ops: seq<Op>, c: Id)
    requires c in Run(EMPTY, ops).codes
    ensures var s := Run(EMPTY, ops);
      s.codes[c].held == Count(s.holds, c) && OnePerOffer(s.holds)
  {
    hide Run;
    RunSound(EMPTY, ops);
  }

  // ---- the limit -------------------------------------------------------------------------

  /** By how much redemptions and holds together pass the code's limit. */
  function Overrun(s: Slots, c: Id): nat {
    if c in s.codes && s.codes[c].limit.Some?
    then Max(0, s.codes[c].redemptions + s.codes[c].held - Max(0, s.codes[c].limit.value)) else 0
  }

  /** Whether the step edits the limit of `c` to below what is taken of it, and below what it was. */
  predicate LowersBelow(s: Slots, op: Op, c: Id) {
    op.Editing? && op.code == c && c in s.codes && !s.codes[c].deleted
    && op.newLimit.Some? && op.newLimit.value.Some?
    && var limit := Max(0, op.newLimit.value.value);
       && s.codes[c].redemptions + s.codes[c].held > limit
       && (s.codes[c].limit.Some? ==> limit < Max(0, s.codes[c].limit.value))
  }

  /** What is taken of a code comes to pass its limit, or to pass it further, exactly with an edit that lowers the
      limit to below what is taken. */
  lemma OverrunOnlyByEdit(s: Slots, op: Op, c: Id)
    requires Sound(s)
    ensures Overrun(Apply(s, op), c) > Overrun(s, c) <==> LowersBelow(s, op, c)
  {
    match op
    case Releasing(offer) => EndOverrun(s, OfOffer(offer), c);
    case ReleasingUnmoved(offer, at) => EndOverrun(s, OfOfferAt(offer, at), c);
    case Sweeping(now, only, tx) => EndOverrun(s, Due(now, only, tx), c);
    case Converting(d, tx, pick) => ConvertOverrun(s, d, tx, pick, c);
    case Editing(d, status, limit) => EditOverrun(s, d, status, limit, c);
    case _ =>
  }

  lemma ConvertOverrun(s: Slots, d: Id, tx: Id, pick: nat, c: Id)
    requires Sound(s)
    ensures Overrun(ConvertHandedOver(s, d, tx, pick).0, c) <= Overrun(s, c)
  {
    hide ConvertHandedOver, Sound;
    ConvertSound(s, d, tx, pick);
    if !ConvertHandedOver(s, d, tx, pick).1 {
      NotConverted(s, d, tx, pick);
    } else if c !in s.codes {
      NoNewCode(s, d, tx, pick, c);
    }
  }

  lemma NotConverted(s: Slots, d: Id, tx: Id, pick: nat)
    requires !ConvertHandedOver(s, d, tx, pick).1
    ensures ConvertHandedOver(s, d, tx, pick).0 == s
  {
  }

  lemma NoNewCode(s: Slots, d: Id, tx: Id, pick: nat, c: Id)
    requires c !in s.codes
    ensures c !in ConvertHandedOver(s, d, tx, pick).0.codes
  {
  }

  lemma EditOverrun(s: Slots, d: Id, status: CodeStatus, limit: Option<Option<int>>, c: Id)
    ensures Overrun(Edit(s, d, status, limit), c) > Overrun(s, c) <==> LowersBelow(s, Editing(d, status, limit), c)
  {
  }

  lemma EndOverrun(s: Slots, picks: Hold -> bool, c: Id)
    requires Sound(s)
    ensures Overrun(End(s, picks), c) <= Overrun(s, c)
  {
    if c in s.codes {
      EndLowers(s, picks, c);
      FloorNeverBites(s, picks, c);
    }
  }

  ghost predicate NeverLowered(s: Slots, ops: seq<Op>, c: Id) {
    forall k :: 0 <= k < |ops| ==> !LowersBelow(Run(s, ops[..k]), ops[k], c)
  }

  /** Redemptions and holds of a code never pass its limit in a run that never lowers it below what is
      taken. */
  lemma {:induction false} NeverPastTheLimit(ops: seq<Op>, c: Id)
    requires NeverLowered(EMPTY, ops, c)
    ensures Overrun(Run(EMPTY, ops), c) == 0
  {
    if ops != [] {
      var n := |ops| - 1;
      forall k | 0 <= k < n ensures !LowersBelow(Run(EMPTY, ops[..n][..k]), ops[..n][k], c) {
        assert ops[..n][..k] == ops[..k];
      }
      NeverPastTheLimit(ops[..n], c);
      RunSound(EMPTY, ops[..n]);
      OverrunOnlyByEdit(Run(EMPTY, ops[..n]), ops[n], c);
    }
  }

  // ---- every slot taken ends once --------------------------------------------------------

  /** What becomes of slots of one code. */
  datatype Tally = Tally(taken: int, released: int, expired: int, converted: int)

  function Told(s: Slots, op: Op, c: Id): Tally {
    match op
    case Taking(d, offer, at) => Tally(if d == c && Take(s, d, offer, at).1.SlotTaken? then 1 else 0, 0, 0, 0)
    case Releasing(offer) => Tally(0, Count(Picked(s.holds, OfOffer(offer)), c), 0, 0)
    case ReleasingUnmoved(offer, at) => Tally(0, Count(Picked(s.holds, OfOfferAt(offer, at)), c), 0, 0)
    case Sweeping(now, only, tx) => Tally(0, 0, Count(Picked(s.holds, Due(now, only, tx)), c), 0)
    case Converting(d, tx, pick) => Tally(0, 0, 0, if d == c && ConvertHandedOver(s, d, tx, pick).1 then 1 else 0)
    case _ => Tally(0, 0, 0, 0)
  }

  function Plus(a: Tally, b: Tally): Tally {
    Tally(a.taken + b.taken, a.released + b.released, a.expired + b.expired, a.converted + b.converted)
  }

  function ToldOver(s: Slots, ops: seq<Op>, c: Id): Tally {
    if ops == [] then Tally(0, 0, 0, 0)
    else
      var n := |ops| - 1;
      Plus(ToldOver(s, ops[..n], c), Told(Run(s, ops[..n]), ops[n], c))
  }

  lemma TakingTold(s: Slots, d: Id, offer: Id, expiresAt: int, c: Id)
    ensures var (s', outcome) := Take(s, d, offer, expiresAt);
      Count(s'.holds, c) == Count(s.holds, c) + if outcome.SlotTaken? && d == c then 1 else 0
  {
    SumAppend(s.holds, Hold(d, offer, expiresAt, None));
  }

  lemma ConvertingTold(s: Slots, d: Id, tx: Id, pick: nat, c: Id)
    ensures var (s', converted) := ConvertHandedOver(s, d, tx, pick);
      Count(s'.holds, c) == Count(s.holds, c) - if converted && d == c then 1 else 0
  {
    if pick < |s.holds| {
      RemovedCount(s.holds, pick, c);
    }
  }

  lemma StepTold(s: Slots, op: Op, c: Id)
    requires Sound(s)
    ensures var t := Told(s, op, c);
      Count(Apply(s, op).holds, c) == Count(s.holds, c) + t.taken - t.released - t.expired - t.converted
  {
    hide Take, ConvertHandedOver, Sound;
    match op
    case Taking(d, offer, at) => TakingTold(s, d, offer, at, c);
    case Releasing(offer) => PickedSum(s.holds, OfOffer(offer), OnCode(c));
    case ReleasingUnmoved(offer, at) => PickedSum(s.holds, OfOfferAt(offer, at), OnCode(c));
    case Sweeping(now, only, tx) => PickedSum(s.holds, Due(now, only, tx), OnCode(c));
    case Extending(offer, d, at) => SameCount(s.holds, Apply(s, op).holds, c);
    case HandingOver(offer, now, tx) => SameCount(s.holds, Apply(s, op).holds, c);
    case Converting(d, tx, pick) => ConvertingTold(s, d, tx, pick, c);
    case _ =>
  }

  /** Over every run, the slots taken of a code are those released, expired and converted, and those its
      holds still keep: each ends exactly once. */
  lemma {:induction false} EverySlotEndsOnce(ops: seq<Op>, c: Id)
    ensures var t := ToldOver(EMPTY, ops, c);
      t.taken == t.released + t.expired + t.converted + Count(Run(EMPTY, ops).holds, c)
  {
    if ops != [] {
      var n := |ops| - 1;
      EverySlotEndsOnce(ops[..n], c);
      RunSound(EMPTY, ops[..n]);
      StepTold(Run(EMPTY, ops[..n]), ops[n], c);
    }
  }
}
