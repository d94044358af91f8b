/** The largest-remainder apportionment of a campaign's 15% platform fee over its slots. */
module FeeAllocation {
  import opened Wrappers
  import opened Sorting

  datatype SlotRow = SlotRow(id: string, ordinal: int, reward: int)

  datatype SlotFee = SlotFee(slot: SlotRow, platformFee: int)

  // Both are reported as LEDGER_ALLOCATION_INVALID; they are the two guards of the allocation.
  datatype AllocationError = FeeNotDisclosed | NotReconcilable

  function Reward(slot: SlotRow): int { slot.reward }

  // Division by a positive constant rounds down, as Math.floor does.
  function FloorFee(slot: SlotRow): int { slot.reward * 15 / 100 }

  // JavaScript's % takes the sign of its left operand.
  function TruncatedRemainder(a: int, b: int): int
    requires b > 0
  {
    if a >= 0 then a % b else -((-a) % b)
  }

  function Remainder(slot: SlotRow): int { TruncatedRemainder(slot.reward * 15, 100) }

  function DisclosedFee(slots: seq<SlotRow>): int { (Sum(slots, Reward) * 15 + 50) / 100 }

  predicate RanksBefore(left: SlotRow, right: SlotRow) {
    Remainder(left) > Remainder(right) || (Remainder(left) == Remainder(right) && left.ordinal <= right.ordinal)
  }

  function Ranked(slots: seq<SlotRow>): seq<SlotRow> { Sort(slots, RanksBefore) }

  function CentsToAssign(slots: seq<SlotRow>): int { DisclosedFee(slots) - Sum(slots, FloorFee) }

  function Ids(slots: seq<SlotRow>): set<string> { set slot <- slots :: slot.id }

  function FeeGiven(roundedUp: set<string>, slot: SlotRow): int {
    FloorFee(slot) + if slot.id in roundedUp then 1 else 0
  }

  function AllocateFifteenPercentFee(slots: seq<SlotRow>, expectedPlatformFee: int)
    : (r: Result<seq<SlotFee>, AllocationError>)
  {
    if expectedPlatformFee != DisclosedFee(slots) then Failure(FeeNotDisclosed)
    else
      var ranked := Ranked(slots);
      var cents := expectedPlatformFee - Sum(ranked, FloorFee);
      if cents < 0 || cents > |ranked| then Failure(NotReconcilable)
      else
        var roundedUp := Ids(ranked[..cents]);
        Success(seq(|slots|, i requires 0 <= i < |slots| => SlotFee(slots[i], FeeGiven(roundedUp, slots[i]))))
  }

  predicate NonNegativeRewards(slots: seq<SlotRow>) {
    forall slot <- slots :: slot.reward >= 0
  }

  function IdOf(slot: SlotRow): string { slot.id }

  predicate DistinctIds(slots: seq<SlotRow>) { DistinctBy(slots, IdOf) }

  predicate DistinctOrdinals(slots: seq<SlotRow>) {
    forall i, j :: 0 <= i < j < |slots| ==> slots[i].ordinal != slots[j].ordinal
  }

  function Fee(allocation: SlotFee): int { allocation.platformFee }

  // ----- the cents left over after rounding down

  lemma {:induction false} RewardSplits(slots: seq<SlotRow>)
    requires NonNegativeRewards(slots)
    ensures Sum(slots, Reward) * 15 == Sum(slots, FloorFee) * 100 + Sum(slots, Remainder)
    ensures 0 <= Sum(slots, Remainder) <= 99 * |slots|
  {
    if slots != [] {
      assert slots[0].reward >= 0;
      RewardSplits(slots[1..]);
    }
  }

  /** The cents to hand out are the rounded sum of the remainders, never more than one a slot. */
  lemma CentsFitTheSlots(slots: seq<SlotRow>)
    requires NonNegativeRewards(slots)
    ensures CentsToAssign(slots) == (Sum(slots, Remainder) + 50) / 100
    ensures 0 <= CentsToAssign(slots) <= |slots|
  {
    RewardSplits(slots);
  }

  lemma RankedRearranges(slots: seq<SlotRow>)
    ensures |Ranked(slots)| == |slots|
    ensures forall slot :: slot in Ranked(slots) <==> slot in slots
    ensures Sum(Ranked(slots), FloorFee) == Sum(slots, FloorFee)
    ensures forall i, j :: 0 <= i < j < |slots| ==> Remainder(Ranked(slots)[i]) >= Remainder(Ranked(slots)[j])
  {
    SortKeepsElements(slots, RanksBefore);
    SortKeepsSum(slots, RanksBefore, FloorFee);
    SortSorts(slots, RanksBefore);
    forall i, j | 0 <= i < j < |slots| ensures Remainder(Ranked(slots)[i]) >= Remainder(Ranked(slots)[j]) {
      assert RanksBefore(Ranked(slots)[i], Ranked(slots)[j]);
    }
  }

  /** With nonnegative rewards the allocation fails exactly when the fee is not the disclosed one:
      the guard on the cents is never the one that fires. */
  lemma AllocationFailsOnlyOnUndisclosedFee(slots: seq<SlotRow>, expectedPlatformFee: int)
    requires NonNegativeRewards(slots)
    ensures AllocateFifteenPercentFee(slots, expectedPlatformFee).Success? <==> expectedPlatformFee == DisclosedFee(slots)
    ensures AllocateFifteenPercentFee(slots, expectedPlatformFee) != Failure(NotReconcilable)
  {
    RankedRearranges(slots);
    CentsFitTheSlots(slots);
  }

  function RoundedUpIds(slots: seq<SlotRow>): set<string>
    requires NonNegativeRewards(slots)
  {
    RankedRearranges(slots);
    CentsFitTheSlots(slots);
    Ids(Ranked(slots)[..CentsToAssign(slots)])
  }

  /** What a successful allocation is: every slot in its place, with its floor fee and perhaps one cent. */
  lemma AllocationShape(slots: seq<SlotRow>, expectedPlatformFee: int, fees: seq<SlotFee>)
    requires NonNegativeRewards(slots)
    requires AllocateFifteenPercentFee(slots, expectedPlatformFee) == Success(fees)
    ensures expectedPlatformFee == DisclosedFee(slots) && |fees| == |slots|
    ensures forall i :: 0 <= i < |slots| ==> fees[i] == SlotFee(slots[i], FeeGiven(RoundedUpIds(slots), slots[i]))
  {
    RankedRearranges(slots);
    CentsFitTheSlots(slots);
  }

  // ----- the remainder that separates the slots rounded up from the others

  function Threshold(slots: seq<SlotRow>): int
    requires NonNegativeRewards(slots)
  {
    RankedRearranges(slots);
    CentsFitTheSlots(slots);
    var cents := CentsToAssign(slots);
    if cents == 0 then 100 else Remainder(Ranked(slots)[cents - 1])
  }

  lemma {:induction false} SumAtMost(slots: seq<SlotRow>, k: nat)
    requires NonNegativeRewards(slots) && k <= |slots|
    requires forall i :: k <= i < |slots| ==> Remainder(slots[i]) == 0
    ensures Sum(slots, Remainder) <= 99 * k
  {
    if k == 0 {
      if slots != [] {
        SumAtMost(slots[1..], 0);
      }
    } else {
      assert slots[0].reward >= 0;
      SumAtMost(slots[1..], k - 1);
    }
  }

  lemma ThresholdIsPositive(slots: seq<SlotRow>)
    requires NonNegativeRewards(slots)
    ensures 0 < Threshold(slots) <= 100
  {
    RankedRearranges(slots);
    CentsFitTheSlots(slots);
    var ranked, cents := Ranked(slots), CentsToAssign(slots);
    if cents > 0 {
      assert ranked[cents - 1] in slots;
      if Remainder(ranked[cents - 1]) == 0 {
        forall i | cents - 1 <= i < |ranked| ensures Remainder(ranked[i]) == 0 {
          assert ranked[i] in slots;
        }
        SumAtMost(ranked, cents - 1);
        SortKeepsSum(slots, RanksBefore, Remainder);
      }
    }
  }

  lemma SameIdSameSlot(slots: seq<SlotRow>, x: SlotRow, y: SlotRow)
    requires DistinctIds(slots) && x in slots && y in slots && x.id == y.id
    ensures x == y
  {
    var i :| 0 <= i < |slots| && slots[i] == x;
    var j :| 0 <= j < |slots| && slots[j] == y;
    assert i < j ==> IdOf(slots[i]) != IdOf(slots[j]);
    assert j < i ==> IdOf(slots[j]) != IdOf(slots[i]);
  }

  lemma RankOfRoundedUp(slots: seq<SlotRow>, id: string) returns (i: nat)
    requires NonNegativeRewards(slots) && id in RoundedUpIds(slots)
    ensures i < |Ranked(slots)| == |slots| && i < CentsToAssign(slots) && Ranked(slots)[i] in slots && Ranked(slots)[i].id == id
  {
    RankedRearranges(slots);
    CentsFitTheSlots(slots);
    var rounded :| rounded in Ranked(slots)[..CentsToAssign(slots)] && rounded.id == id;
    i :| 0 <= i < CentsToAssign(slots) && Ranked(slots)[i] == rounded;
  }

  lemma RoundedUpReachThreshold(slots: seq<SlotRow>, slot: SlotRow)
    requires NonNegativeRewards(slots) && DistinctIds(slots) && slot in slots && slot.id in RoundedUpIds(slots)
    ensures Remainder(slot) >= Threshold(slots)
  {
    var i := RankOfRoundedUp(slots, slot.id);
    SameIdSameSlot(slots, slot, Ranked(slots)[i]);
    RankedRearranges(slots);
    assert i < CentsToAssign(slots) - 1 ==> Remainder(Ranked(slots)[i]) >= Remainder(Ranked(slots)[CentsToAssign(slots) - 1]) by {
      CentsFitTheSlots(slots);
    }
    hide DistinctIds, NonNegativeRewards, Remainder;
  }

  lemma PositionAfter(ranked: seq<SlotRow>, k: nat, slot: SlotRow) returns (i: nat)
    requires k <= |ranked| && slot in ranked && slot.id !in Ids(ranked[..k])
    ensures k <= i < |ranked| && ranked[i] == slot
  {
    assert slot !in ranked[..k];
    i :| 0 <= i < |ranked| && ranked[i] == slot;
  }

  lemma OthersStayBelowThreshold(slots: seq<SlotRow>, slot: SlotRow)
    requires NonNegativeRewards(slots) && slot in slots && slot.id !in RoundedUpIds(slots)
    ensures Remainder(slot) <= Threshold(slots)
  {
    RankedRearranges(slots);
    CentsFitTheSlots(slots);
    var ranked, cents := Ranked(slots), CentsToAssign(slots);
    assert slot.reward >= 0;
    if cents > 0 {
      var i := PositionAfter(ranked, cents, slot);
    }
  }

  lemma ThresholdSeparates(slots: seq<SlotRow>, slot: SlotRow)
    requires NonNegativeRewards(slots) && DistinctIds(slots) && slot in slots
    ensures slot.id in RoundedUpIds(slots) ==> Remainder(slot) >= Threshold(slots)
    ensures slot.id !in RoundedUpIds(slots) ==> Remainder(slot) <= Threshold(slots)
  {
    if slot.id in RoundedUpIds(slots) {
      RoundedUpReachThreshold(slots, slot);
    } else {
      OthersStayBelowThreshold(slots, slot);
    }
  }

  /** Each fee is 15% of the reward rounded down or up, and exact when 15% is a whole number of cents. */
  lemma EachFeeIsFloorOrCeiling(slots: seq<SlotRow>, expectedPlatformFee: int, fees: seq<SlotFee>, i: nat)
    requires NonNegativeRewards(slots) && DistinctIds(slots) && i < |slots|
    requires AllocateFifteenPercentFee(slots, expectedPlatformFee) == Success(fees)
    ensures |fees| == |slots| && fees[i].slot == slots[i]
    ensures -100 < 100 * fees[i].platformFee - 15 * slots[i].reward < 100
  {
    AllocationShape(slots, expectedPlatformFee, fees);
    ThresholdIsPositive(slots);
    ThresholdSeparates(slots, slots[i]);
    assert slots[i] in slots;
  }

  /** A larger reward never pays a smaller fee. */
  lemma LargerRewardPaysNoLess(slots: seq<SlotRow>, expectedPlatformFee: int, fees: seq<SlotFee>, i: nat, j: nat)
    requires NonNegativeRewards(slots) && DistinctIds(slots) && i < |slots| && j < |slots|
    requires AllocateFifteenPercentFee(slots, expectedPlatformFee) == Success(fees)
    requires slots[i].reward > slots[j].reward
    ensures |fees| == |slots| && fees[i].platformFee >= fees[j].platformFee
  {
    AllocationShape(slots, expectedPlatformFee, fees);
    ThresholdSeparates(slots, slots[i]);
    ThresholdSeparates(slots, slots[j]);
    assert slots[j] in slots;
  }

  // ----- the fees add up

  function OneIfIn(ids: set<string>): SlotRow -> int {
    (slot: SlotRow) => if slot.id in ids then 1 else 0
  }

  lemma {:induction false} SumOfConstant(slots: seq<SlotRow>, weight: SlotRow -> int, c: int)
    requires forall slot <- slots :: weight(slot) == c
    ensures Sum(slots, weight) == c * |slots|
  {
    if slots != [] {
      SumOfConstant(slots[1..], weight, c);
    }
  }

  lemma IdsOfPrefix(ranked: seq<SlotRow>, cents: nat, j: nat)
    requires DistinctIds(ranked) && cents <= |ranked| && j < |ranked|
    ensures ranked[j].id in Ids(ranked[..cents]) <==> j < cents
  {
    if j < cents {
      assert ranked[j] in ranked[..cents];
    } else {
      forall slot <- ranked[..cents] ensures slot.id != ranked[j].id {
        var i :| 0 <= i < cents && ranked[i] == slot;
        assert IdOf(ranked[i]) != IdOf(ranked[j]);
      }
    }
  }

  lemma PrefixIsCounted(ranked: seq<SlotRow>, cents: nat)
    requires DistinctIds(ranked) && cents <= |ranked|
    ensures Sum(ranked, OneIfIn(Ids(ranked[..cents]))) == cents
  {
    var weight := OneIfIn(Ids(ranked[..cents]));
    forall j | 0 <= j < |ranked| ensures weight(ranked[j]) == if j < cents then 1 else 0 {
      IdsOfPrefix(ranked, cents, j);
    }
    assert ranked == ranked[..cents] + ranked[cents..];
    SumSplits(ranked[..cents], ranked[cents..], weight);
    SumOfConstant(ranked[..cents], weight, 1);
    SumOfConstant(ranked[cents..], weight, 0);
  }

  lemma RoundedUpSlotsAreCounted(slots: seq<SlotRow>)
    requires NonNegativeRewards(slots) && DistinctIds(slots)
    ensures Sum(slots, OneIfIn(RoundedUpIds(slots))) == CentsToAssign(slots)
  {
    RankedRearranges(slots);
    CentsFitTheSlots(slots);
    SortKeepsDistinct(slots, RanksBefore, IdOf);
    SortKeepsSum(slots, RanksBefore, OneIfIn(RoundedUpIds(slots)));
    PrefixIsCounted(Ranked(slots), CentsToAssign(slots));
  }

  lemma {:induction false} SumOfFees(slots: seq<SlotRow>, roundedUp: set<string>, fees: seq<SlotFee>)
    requires |fees| == |slots|
    requires forall i :: 0 <= i < |slots| ==> fees[i].platformFee == FeeGiven(roundedUp, slots[i])
    ensures Sum(fees, Fee) == Sum(slots, FloorFee) + Sum(slots, OneIfIn(roundedUp))
  {
    if slots != [] {
      SumOfFees(slots[1..], roundedUp, fees[1..]);
    }
  }

  /** Not a cent is lost or invented: the slots' fees add up to the campaign's platform fee. */
  lemma FeesSumToThePlatformFee(slots: seq<SlotRow>, expectedPlatformFee: int, fees: seq<SlotFee>)
    requires NonNegativeRewards(slots) && DistinctIds(slots)
    requires AllocateFifteenPercentFee(slots, expectedPlatformFee) == Success(fees)
    ensures Sum(fees, Fee) == expectedPlatformFee
  {
    AllocationShape(slots, expectedPlatformFee, fees);
    RoundedUpSlotsAreCounted(slots);
    SumOfFees(slots, RoundedUpIds(slots), fees);
  }

  // ----- the result depends on the slots, not on the order they are listed in

  lemma OrdinalDecides(slots: seq<SlotRow>, x: SlotRow, y: SlotRow)
    requires DistinctOrdinals(slots) && x in slots && y in slots && x.ordinal == y.ordinal
    ensures x == y
  {
    var i :| 0 <= i < |slots| && slots[i] == x;
    var j :| 0 <= j < |slots| && slots[j] == y;
    assert i == j;
  }

  lemma OrderOfSlotsDoesNotMatterToRanking(slots: seq<SlotRow>, shuffled: seq<SlotRow>)
    requires DistinctOrdinals(slots) && multiset(slots) == multiset(shuffled)
    ensures Ranked(slots) == Ranked(shuffled)
  {
    var ranked, reranked := Ranked(slots), Ranked(shuffled);
    SortKeepsElements(slots, RanksBefore);
    SortPermutes(slots, RanksBefore);
    SortPermutes(shuffled, RanksBefore);
    SortSorts(slots, RanksBefore);
    SortSorts(shuffled, RanksBefore);
    forall i, j | 0 <= i < |ranked| && 0 <= j < |ranked| && RanksBefore(ranked[i], ranked[j]) && RanksBefore(ranked[j], ranked[i])
      ensures ranked[i] == ranked[j]
    {
      OrdinalDecides(slots, ranked[i], ranked[j]);
    }
    SortedArrangementIsUnique(ranked, reranked, RanksBefore);
  }

  lemma SameElements(slots: seq<SlotRow>, shuffled: seq<SlotRow>)
    requires NonNegativeRewards(slots) && multiset(slots) == multiset(shuffled)
    ensures NonNegativeRewards(shuffled)
  {
    forall slot <- shuffled ensures slot.reward >= 0 {
      assert slot in multiset(slots);
    }
  }

  /** Listing the same slots in another order gives each slot the same fee. */
  lemma OrderOfSlotsDoesNotMatter(slots: seq<SlotRow>, shuffled: seq<SlotRow>, expectedPlatformFee: int,
                                  fees: seq<SlotFee>, i: nat, j: nat)
    requires NonNegativeRewards(slots) && DistinctOrdinals(slots) && multiset(slots) == multiset(shuffled)
    requires AllocateFifteenPercentFee(slots, expectedPlatformFee) == Success(fees)
    requires i < |slots| && j < |shuffled| && slots[i] == shuffled[j]
    ensures AllocateFifteenPercentFee(shuffled, expectedPlatformFee).Success?
    ensures |fees| == |slots| && |AllocateFifteenPercentFee(shuffled, expectedPlatformFee).value| == |shuffled|
    ensures fees[i] == AllocateFifteenPercentFee(shuffled, expectedPlatformFee).value[j]
  {
    SumIgnoresOrder(slots, shuffled, Reward);
    OrderOfSlotsDoesNotMatterToRanking(slots, shuffled);
    SameElements(slots, shuffled);
    AllocationFailsOnlyOnUndisclosedFee(shuffled, expectedPlatformFee);
  }

  // ----- no other way to split the same fee comes closer to 15% of every reward

  function Abs(x: int): int { if x >= 0 then x else -x }

  /** How far a fee vector is, in hundredths of a cent, from 15% of each reward. */
  function Deviation(slots: seq<SlotRow>, fees: seq<int>): int
    requires |fees| == |slots|
  {
    if slots == [] then 0
    else Abs(100 * fees[0] - 15 * slots[0].reward) + Deviation(slots[1..], fees[1..])
  }

  function Identity(x: int): int { x }

  function FeeVector(slots: seq<SlotRow>, roundedUp: set<string>): (v: seq<int>)
    ensures |v| == |slots|
  {
    seq(|slots|, i requires 0 <= i < |slots| => FeeGiven(roundedUp, slots[i]))
  }

  lemma ProductBounds(t: int, e: int)
    requires 0 <= t <= 100
    ensures e >= 0 ==> t * e >= 0
    ensures e >= 1 ==> t * e >= t
    ensures e <= 0 ==> t * e >= 100 * e
    ensures e <= -1 ==> t * e >= 100 * e + 100 - t
  {
    if e >= 1 {
      assert t * (e - 1) >= 0;
    } else if e <= -1 {
      assert (100 - t) * (-e - 1) >= 0;
      assert (100 - t) * (-e - 1) == t * e - 100 * e - 100 + t;
    }
  }

  /** The deviation of one slot is convex in its fee, and 100 - 2t is a slope of it at the fee it is given. */
  lemma SlopeAtAllocatedFee(slot: SlotRow, roundedUp: bool, t: int, fee: int)
    requires slot.reward >= 0 && 0 <= t <= 100
    requires if roundedUp then Remainder(slot) >= t else Remainder(slot) <= t
    ensures var chosen := FloorFee(slot) + if roundedUp then 1 else 0;
            Abs(100 * fee - 15 * slot.reward)
              >= Abs(100 * chosen - 15 * slot.reward) + 100 * (fee - chosen) - 2 * (t * (fee - chosen))
  {
    assert 15 * slot.reward == 100 * FloorFee(slot) + Remainder(slot);
    ProductBounds(t, fee - FloorFee(slot) - if roundedUp then 1 else 0);
  }

  lemma TimesSum(t: int, d: int, rest: int)
    ensures t * (d + rest) == t * d + t * rest
  {
  }

  lemma {:induction false} SlopesAddUp(slots: seq<SlotRow>, roundedUp: set<string>, t: int, other: seq<int>)
    requires NonNegativeRewards(slots) && 0 <= t <= 100 && |other| == |slots|
    requires forall slot <- slots :: if slot.id in roundedUp then Remainder(slot) >= t else Remainder(slot) <= t
    ensures var ours := FeeVector(slots, roundedUp);
            var gap := Sum(other, Identity) - Sum(ours, Identity);
            Deviation(slots, other) >= Deviation(slots, ours) + 100 * gap - 2 * (t * gap)
  {
    if slots != [] {
      var ours := FeeVector(slots, roundedUp);
      SlopeAtAllocatedFee(slots[0], slots[0].id in roundedUp, t, other[0]);
      SlopesAddUp(slots[1..], roundedUp, t, other[1..]);
      assert ours[1..] == FeeVector(slots[1..], roundedUp);
      hide Abs, Remainder, FloorFee;
      TimesSum(t, other[0] - ours[0], Sum(other[1..], Identity) - Sum(ours[1..], Identity));
    }
  }

  lemma NoCheaperSplit(slots: seq<SlotRow>, roundedUp: set<string>, t: int, other: seq<int>)
    requires NonNegativeRewards(slots) && 0 <= t <= 100 && |other| == |slots|
    requires forall slot <- slots :: if slot.id in roundedUp then Remainder(slot) >= t else Remainder(slot) <= t
    requires Sum(other, Identity) == Sum(FeeVector(slots, roundedUp), Identity)
    ensures Deviation(slots, FeeVector(slots, roundedUp)) <= Deviation(slots, other)
  {
    SlopesAddUp(slots, roundedUp, t, other);
    assert t * 0 == 0;
  }

  lemma {:induction false} FeeVectorSum(slots: seq<SlotRow>, roundedUp: set<string>)
    ensures Sum(FeeVector(slots, roundedUp), Identity) == Sum(slots, FloorFee) + Sum(slots, OneIfIn(roundedUp))
  {
    if slots != [] {
      FeeVectorSum(slots[1..], roundedUp);
      assert FeeVector(slots, roundedUp)[1..] == FeeVector(slots[1..], roundedUp);
    }
  }

  function Fees(fees: seq<SlotFee>): (v: seq<int>)
    ensures |v| == |fees|
  {
    seq(|fees|, i requires 0 <= i < |fees| => fees[i].platformFee)
  }

  /** Among all integer fee vectors with the same total, the allocation minimises the deviation. */
  lemma AllocationIsOptimal(slots: seq<SlotRow>, expectedPlatformFee: int, fees: seq<SlotFee>, other: seq<int>)
    requires NonNegativeRewards(slots) && DistinctIds(slots)
    requires AllocateFifteenPercentFee(slots, expectedPlatformFee) == Success(fees)
    requires |other| == |slots| && Sum(other, Identity) == expectedPlatformFee
    ensures |fees| == |slots| && Deviation(slots, Fees(fees)) <= Deviation(slots, other)
  {
    AllocationShape(slots, expectedPlatformFee, fees);
    assert Fees(fees) == FeeVector(slots, RoundedUpIds(slots));
    RoundedUpSlotsAreCounted(slots);
    FeeVectorSum(slots, RoundedUpIds(slots));
    ThresholdIsPositive(slots);
    forall slot <- slots
      ensures if slot.id in RoundedUpIds(slots) then Remainder(slot) >= Threshold(slots) else Remainder(slot) <= Threshold(slots)
    {
      ThresholdSeparates(slots, slot);
    }
    NoCheaperSplit(slots, RoundedUpIds(slots), Threshold(slots), other);
  }

  // ----- slots whose fee rounds to nothing

  function OneIfAhead(slot: SlotRow): SlotRow -> int {
    (other: SlotRow) =>
      if Remainder(other) > Remainder(slot) || (Remainder(other) == Remainder(slot) && other.ordinal < slot.ordinal) then 1 else 0
  }

  /** The cents that rounding every fee down leaves over. */
  function LeftOverCents(slots: seq<SlotRow>): int { (Sum(slots, Remainder) + 50) / 100 }

  /** Fifteen percent of less than seven cents rounds down to nothing, so such a slot pays only if fewer slots are ahead
      of it, by remainder and then by ordinal, than there are cents left over. */
  predicate EverySlotPays(slots: seq<SlotRow>) {
    forall slot <- slots :: slot.reward < 7 ==> Sum(slots, OneIfAhead(slot)) < LeftOverCents(slots)
  }

  lemma RankedOrdinals(slots: seq<SlotRow>, j: nat, k: nat)
    requires DistinctIds(slots) && DistinctOrdinals(slots) && j < |Ranked(slots)| && k < |Ranked(slots)| && j != k
    ensures Ranked(slots)[j].ordinal != Ranked(slots)[k].ordinal
  {
    var ranked := Ranked(slots);
    SortKeepsElements(slots, RanksBefore);
    SortKeepsDistinct(slots, RanksBefore, IdOf);
    assert ranked[j] in slots && ranked[k] in slots;
    assert j < k ==> IdOf(ranked[j]) != IdOf(ranked[k]);
    assert k < j ==> IdOf(ranked[k]) != IdOf(ranked[j]);
    if ranked[j].ordinal == ranked[k].ordinal {
      OrdinalDecides(slots, ranked[j], ranked[k]);
    }
  }

  lemma AheadInRanking(slots: seq<SlotRow>, j: nat, k: nat)
    requires DistinctIds(slots) && DistinctOrdinals(slots) && j < |Ranked(slots)| && k < |Ranked(slots)|
    ensures OneIfAhead(Ranked(slots)[k])(Ranked(slots)[j]) == if j < k then 1 else 0
  {
    var ranked := Ranked(slots);
    SortSorts(slots, RanksBefore);
    if j != k {
      RankedOrdinals(slots, j, k);
      assert j < k ==> RanksBefore(ranked[j], ranked[k]);
      assert k < j ==> RanksBefore(ranked[k], ranked[j]);
    }
  }

  lemma PositionCountsThoseAhead(slots: seq<SlotRow>, k: nat)
    requires DistinctIds(slots) && DistinctOrdinals(slots) && k < |Ranked(slots)|
    ensures Sum(slots, OneIfAhead(Ranked(slots)[k])) == k
  {
    var ranked, weight := Ranked(slots), OneIfAhead(Ranked(slots)[k]);
    forall j | 0 <= j < |ranked| ensures weight(ranked[j]) == if j < k then 1 else 0 {
      AheadInRanking(slots, j, k);
    }
    assert ranked == ranked[..k] + ranked[k..];
    SumSplits(ranked[..k], ranked[k..], weight);
    SumOfConstant(ranked[..k], weight, 1);
    SumOfConstant(ranked[k..], weight, 0);
    SortKeepsSum(slots, RanksBefore, weight);
  }

  /** A slot is rounded up exactly when fewer slots are ahead of it than cents are left over. */
  lemma RoundedUpExactlyWhen(slots: seq<SlotRow>, slot: SlotRow)
    requires NonNegativeRewards(slots) && DistinctIds(slots) && DistinctOrdinals(slots) && slot in slots
    ensures slot.id in RoundedUpIds(slots) <==> Sum(slots, OneIfAhead(slot)) < LeftOverCents(slots)
  {
    RankedRearranges(slots);
    CentsFitTheSlots(slots);
    SortKeepsDistinct(slots, RanksBefore, IdOf);
    var k :| 0 <= k < |Ranked(slots)| && Ranked(slots)[k] == slot;
    PositionCountsThoseAhead(slots, k);
    IdsOfPrefix(Ranked(slots), CentsToAssign(slots), k);
  }

  lemma FeePositions(slots: seq<SlotRow>, expectedPlatformFee: int, fees: seq<SlotFee>)
    requires NonNegativeRewards(slots)
    requires AllocateFifteenPercentFee(slots, expectedPlatformFee) == Success(fees)
    ensures (forall allocation <- fees :: allocation.platformFee > 0) <==>
            (forall slot <- slots :: slot.reward < 7 ==> slot.id in RoundedUpIds(slots))
  {
    AllocationShape(slots, expectedPlatformFee, fees);
    forall i | 0 <= i < |slots|
      ensures fees[i].platformFee > 0 <==> (slots[i].reward < 7 ==> slots[i].id in RoundedUpIds(slots))
    {
      assert slots[i] in slots;
    }
    if forall allocation <- fees :: allocation.platformFee > 0 {
      forall slot <- slots ensures slot.reward < 7 ==> slot.id in RoundedUpIds(slots) {
        var i :| 0 <= i < |slots| && slots[i] == slot;
        assert fees[i] in fees;
      }
    }
  }

  /** All fees are positive exactly when every slot too small for a cent of its own gets one of those left over. */
  lemma FeesArePositiveExactlyWhen(slots: seq<SlotRow>, expectedPlatformFee: int, fees: seq<SlotFee>)
    requires NonNegativeRewards(slots) && DistinctIds(slots) && DistinctOrdinals(slots)
    requires AllocateFifteenPercentFee(slots, expectedPlatformFee) == Success(fees)
    ensures (forall allocation <- fees :: allocation.platformFee > 0) <==> EverySlotPays(slots)
  {
    FeePositions(slots, expectedPlatformFee, fees);
    forall slot <- slots ensures slot.id in RoundedUpIds(slots) <==> Sum(slots, OneIfAhead(slot)) < LeftOverCents(slots) {
      RoundedUpExactlyWhen(slots, slot);
    }
    hide RoundedUpIds, AllocateFifteenPercentFee;
  }

  /** A slot of one cent beside one of ten dollars receives no fee at all. */
  lemma SmallSlotPaysNothing()
    ensures var slots := [SlotRow("small", 1, 1), SlotRow("large", 2, 1000)];
            AllocateFifteenPercentFee(slots, 150) == Success([SlotFee(slots[0], 0), SlotFee(slots[1], 150)])
  {
    var slots := [SlotRow("small", 1, 1), SlotRow("large", 2, 1000)];
    assert slots[1..] == [slots[1]] && [slots[1]][1..] == [];
    assert Sum([slots[1]], Reward) == 1000 + Sum([slots[1]][1..], Reward);
    assert Sum([slots[1]], FloorFee) == 150 + Sum([slots[1]][1..], FloorFee);
    assert NonNegativeRewards(slots);
    AllocationFailsOnlyOnUndisclosedFee(slots, 150);
    var fees := AllocateFifteenPercentFee(slots, 150).value;
    AllocationShape(slots, 150, fees);
    assert CentsToAssign(slots) == 0 && Ranked(slots)[..0] == [];
    assert RoundedUpIds(slots) == {};
    assert fees == [SlotFee(slots[0], 0), SlotFee(slots[1], 150)];
  }
}
