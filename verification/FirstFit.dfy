// First-fit bin packing (nemo/utils/sequence_packing_utils.py) and its quality
// against every other packing of the same lengths.

module FirstFit {
  import opened Division
  import opened Lists

  type Bins = seq<seq<nat>>

  function Itself(x: nat): nat { x }

  function Sum(s: seq<nat>): nat { Weight(s, Itself) }

  lemma {:induction false} SumSnoc(s: seq<nat>, x: nat)
    ensures Sum(s + [x]) == Sum(s) + x
  {
    WeightConcat(s, [x], Itself);
  }

  lemma {:induction false} SumOfMember(s: seq<nat>, x: nat)
    requires x in s
    ensures x <= Sum(s)
  {
    var i :| 0 <= i < |s| && s[i] == x;
    WeightRemove(s, i, Itself);
  }

  // ----- The algorithm -----

  /** i is the first bin with room for s, or -1 when none has room. */
  ghost predicate IsFirstRoom(bins: Bins, s: nat, cap: nat, i: int) {
    && -1 <= i < |bins|
    && (i >= 0 ==> Sum(bins[i]) + s <= cap)
    && forall j :: 0 <= j < (if i == -1 then |bins| else i) ==> Sum(bins[j]) + s > cap
  }

  method FindFirstBinThatFits(bins: Bins, s: nat, binSize: nat) returns (i: int)
    ensures IsFirstRoom(bins, s, binSize, i)
  {
    for k := 0 to |bins|
      invariant forall j :: 0 <= j < k ==> Sum(bins[j]) + s > binSize
    {
      if Sum(bins[k]) + s <= binSize {
        return k;
      }
    }
    return -1;
  }

  function FirstRoom(bins: Bins, s: nat, cap: nat): (i: int)
    ensures IsFirstRoom(bins, s, cap, i)
  {
    if bins == [] then -1
    else if Sum(bins[0]) + s <= cap then 0
    else
      var i := FirstRoom(bins[1..], s, cap);
      if i == -1 then -1 else i + 1
  }

  function Place(bins: Bins, s: nat, cap: nat): Bins {
    var i := FirstRoom(bins, s, cap);
    if i == -1 then bins + [[s]] else bins[i := bins[i] + [s]]
  }

  function Pack(lens: seq<nat>, cap: nat): Bins {
    if lens == [] then []
    else Place(Pack(lens[..|lens| - 1], cap), lens[|lens| - 1], cap)
  }

  method FirstFit(seqlens: seq<nat>, packSize: nat) returns (res: Bins)
    ensures res == Pack(seqlens, packSize)
  {
    res := [];
    for k := 0 to |seqlens|
      invariant res == Pack(seqlens[..k], packSize)
    {
      var s := seqlens[k];
      var firstBin := FindFirstBinThatFits(res, s, packSize);
      assert seqlens[..k + 1][..k] == seqlens[..k];
      if firstBin == -1 {
        res := res + [[s]];
      } else {
        res := res[firstBin := res[firstBin] + [s]];
      }
    }
    assert seqlens[..|seqlens|] == seqlens;
  }

  /** One more length goes to the first bin with room, and to a new last bin when none has room. */
  lemma {:induction false} PackAddsToFirstRoom(lens: seq<nat>, s: nat, cap: nat) returns (i: int)
    ensures IsFirstRoom(Pack(lens, cap), s, cap, i)
    ensures var before := Pack(lens, cap);
      Pack(lens + [s], cap) == if i == -1 then before + [[s]] else before[i := before[i] + [s]]
  {
    assert (lens + [s])[..|lens|] == lens;
    i := FirstRoom(Pack(lens, cap), s, cap);
  }

  // ----- What every step keeps -----

  /** The first-fit rule: nothing in a later bin fits in an earlier one. */
  ghost predicate Tight(bins: Bins, cap: nat) {
    forall i, j, x :: 0 <= i < j < |bins| && x in bins[j] ==> Sum(bins[i]) + x > cap
  }

  ghost predicate NoEmptyBin(bins: Bins) {
    forall j :: 0 <= j < |bins| ==> bins[j] != []
  }

  /** Every bin is within capacity, save bins that hold one single item. */
  ghost predicate Fits(bins: Bins, cap: nat) {
    forall j :: 0 <= j < |bins| ==> Sum(bins[j]) <= cap || |bins[j]| == 1
  }

  lemma {:induction false} PlaceKeepsTight(bins: Bins, s: nat, cap: nat)
    requires Tight(bins, cap)
    ensures Tight(Place(bins, s, cap), cap)
  {
    var r, b := FirstRoom(bins, s, cap), Place(bins, s, cap);
    if r >= 0 { SumSnoc(bins[r], s); }
    forall i, j, x | 0 <= i < j < |b| && x in b[j]
      ensures Sum(b[i]) + x > cap
    {
      if j < |bins| && x in bins[j] {
        assert Sum(bins[i]) + x > cap;
      } else {
        assert x == s;
      }
    }
  }

  lemma {:induction false} PlaceKeepsFits(bins: Bins, s: nat, cap: nat)
    requires NoEmptyBin(bins) && Fits(bins, cap)
    ensures NoEmptyBin(Place(bins, s, cap)) && Fits(Place(bins, s, cap), cap)
  {
    var r := FirstRoom(bins, s, cap);
    if r >= 0 { SumSnoc(bins[r], s); }
  }

  lemma {:induction false} PlaceAddsOne(bins: Bins, s: nat, cap: nat)
    ensures multiset(Flatten(Place(bins, s, cap))) == multiset(Flatten(bins)) + multiset{s}
  {
    var r := FirstRoom(bins, s, cap);
    if r == -1 {
      FlattenSnoc(bins, [s]);
    } else {
      FlattenAppend(bins, r, s);
    }
  }

  /** First fit in any order of the lengths: the rule holds and no length is lost or invented. */
  lemma {:induction false} PackIsFirstFit(lens: seq<nat>, cap: nat)
    ensures var b := Pack(lens, cap); Tight(b, cap) && NoEmptyBin(b) && Fits(b, cap)
    ensures multiset(Flatten(Pack(lens, cap))) == multiset(lens)
  {
    if lens != [] {
      var n := |lens| - 1;
      PackIsFirstFit(lens[..n], cap);
      PlaceKeepsTight(Pack(lens[..n], cap), lens[n], cap);
      PlaceKeepsFits(Pack(lens[..n], cap), lens[n], cap);
      PlaceAddsOne(Pack(lens[..n], cap), lens[n], cap);
      assert lens == lens[..n] + [lens[n]];
    }
  }

  /** A capacity claim is possible exactly when no single length exceeds the pack size. */
  lemma {:induction false} PackWithinCapacityIff(lens: seq<nat>, cap: nat)
    ensures (forall j :: 0 <= j < |Pack(lens, cap)| ==> Sum(Pack(lens, cap)[j]) <= cap)
       <==> (forall x :: x in lens ==> x <= cap)
  {
    var b := Pack(lens, cap);
    PackIsFirstFit(lens, cap);
    forall x | x in lens
      ensures exists j :: 0 <= j < |b| && x <= Sum(b[j])
    {
      assert x in multiset(Flatten(b));
      var j := BinOf(b, x);
      SumOfMember(b[j], x);
    }
    forall j | 0 <= j < |b| && Sum(b[j]) > cap
      ensures b[j][0] in lens && b[j][0] > cap
    {
      MemberOfFlatten(b, j, b[j][0]);
      assert b[j][0] in multiset(Flatten(b));
      SumOfOne(b[j]);
    }
  }

  lemma {:induction false} SumOfOne(s: seq<nat>)
    requires |s| == 1
    ensures Sum(s) == s[0]
  {
    SumSnoc([], s[0]);
    assert s == [] + [s[0]];
  }

  lemma {:induction false} MemberOfFlatten(b: Bins, j: nat, x: nat)
    requires j < |b| && x in b[j]
    ensures x in Flatten(b)
  {
    if j > 0 { MemberOfFlatten(b[1..], j - 1, x); }
  }

  lemma {:induction false} BinOf(b: Bins, x: nat) returns (j: nat)
    requires x in Flatten(b)
    ensures j < |b| && x in b[j]
  {
    if x in b[0] {
      j := 0;
    } else {
      j := BinOf(b[1..], x);
      j := j + 1;
    }
  }

  lemma {:induction false} AnyTwoBinsExceed(lens: seq<nat>, cap: nat, i: nat, j: nat)
    requires i < |Pack(lens, cap)| && j < |Pack(lens, cap)| && i != j
    ensures Sum(Pack(lens, cap)[i]) + Sum(Pack(lens, cap)[j]) > cap
  {
    var b := Pack(lens, cap);
    PackIsFirstFit(lens, cap);
    var lo, hi := if i < j then i else j, if i < j then j else i;
    SumOfMember(b[hi], b[hi][0]);
  }

  // ----- Lower bounds that hold for every packing -----

  /** bins is some way to put the lengths into |bins| bins of the given capacity. */
  ghost predicate IsPacking(bins: Bins, lens: seq<nat>, cap: nat) {
    && multiset(Flatten(bins)) == multiset(lens)
    && forall j :: 0 <= j < |bins| ==> Sum(bins[j]) <= cap
  }

  function IsBig(cap: nat): nat -> nat {
    (x: nat) => if 2 * x > cap then 1 else 0
  }

  /** How many lengths exceed half the capacity. */
  function Big(s: seq<nat>, cap: nat): nat { Weight(s, IsBig(cap)) }

  lemma {:induction false} TimesTwice(n: nat, cap: nat)
    ensures Times(2 * n, cap) == 2 * Times(n, cap)
  {
    if n > 0 { TimesTwice(n - 1, cap); }
  }

  lemma {:induction false} OneBigPerBin(s: seq<nat>, cap: nat)
    ensures 2 * Sum(s) > cap || Big(s, cap) == 0
    ensures Sum(s) <= cap ==> Big(s, cap) <= 1
  {
    if s != [] { OneBigPerBin(s[1..], cap); }
  }

  lemma {:induction false} LoadBounds(bins: Bins, cap: nat)
    requires forall j :: 0 <= j < |bins| ==> Sum(bins[j]) <= cap
    ensures Load(bins, Itself) <= Times(|bins|, cap)
    ensures Load(bins, IsBig(cap)) <= |bins|
  {
    if bins != [] {
      LoadBounds(bins[1..], cap);
      OneBigPerBin(bins[0], cap);
    }
  }

  /** No packing beats the total volume, nor puts two big lengths in one bin. */
  lemma {:induction false} PackingBounds(bins: Bins, lens: seq<nat>, cap: nat)
    requires IsPacking(bins, lens, cap)
    ensures Sum(lens) <= Times(|bins|, cap)
    ensures Big(lens, cap) <= |bins|
  {
    LoadBounds(bins, cap);
    LoadIsWeight(bins, Itself);
    LoadIsWeight(bins, IsBig(cap));
    WeightPermutation(Flatten(bins), lens, Itself);
    WeightPermutation(Flatten(bins), lens, IsBig(cap));
  }

  // ----- First fit, any order: at most twice the optimum, less one -----

  /** Bins that exceed the capacity in pairs hold more than half of it on average. */
  lemma {:induction false} PairsFill(bins: Bins, cap: nat)
    requires |bins| >= 2
    requires forall i, j :: 0 <= i < j < |bins| ==> Sum(bins[i]) + Sum(bins[j]) > cap
    ensures 2 * Load(bins, Itself) > Times(|bins|, cap)
  {
    LoadStep2(bins, cap);
    if |bins| == 3 {
      LoadStep2(bins[1..], cap);
      assert Sum(bins[0]) + Sum(bins[1]) > cap;
      assert Sum(bins[1]) + Sum(bins[2]) > cap;
      assert Sum(bins[0]) + Sum(bins[2]) > cap;
    } else if |bins| >= 4 {
      PairsFill(bins[2..], cap);
    }
  }

  lemma {:induction false} LoadStep2(bins: Bins, cap: nat)
    requires |bins| >= 2
    ensures Load(bins, Itself) == Sum(bins[0]) + Sum(bins[1]) + Load(bins[2..], Itself)
    ensures Times(|bins|, cap) == 2 * cap + Times(|bins| - 2, cap)
  {
    assert bins[1..][1..] == bins[2..];
    assert Load(bins, Itself) == Weight(bins[0], Itself) + Load(bins[1..], Itself);
  }

  lemma {:induction false} FirstFitWithinTwiceOptimal(lens: seq<nat>, cap: nat, other: Bins)
    requires IsPacking(other, lens, cap) && |other| >= 1
    ensures |Pack(lens, cap)| <= 2 * |other| - 1
  {
    var b := Pack(lens, cap);
    if |b| >= 2 {
      forall i, j | 0 <= i < j < |b|
        ensures Sum(b[i]) + Sum(b[j]) > cap
      {
        AnyTwoBinsExceed(lens, cap, i, j);
      }
      PairsFill(b, cap);
      PackTotals(lens, cap);
      PackingBounds(other, lens, cap);
      TimesTwice(|other|, cap);
      if |b| >= 2 * |other| { TimesGrows(2 * |other|, |b|, cap); }
    }
  }

  lemma {:induction false} PackTotals(lens: seq<nat>, cap: nat)
    ensures Load(Pack(lens, cap), Itself) == Sum(lens)
    ensures Load(Pack(lens, cap), IsBig(cap)) == Big(lens, cap)
  {
    var b := Pack(lens, cap);
    PackIsFirstFit(lens, cap);
    LoadIsWeight(b, Itself);
    LoadIsWeight(b, IsBig(cap));
    WeightPermutation(Flatten(b), lens, Itself);
    WeightPermutation(Flatten(b), lens, IsBig(cap));
  }

  // ----- First fit decreasing: within 3/2 of optimal -----

  ghost predicate Descending(s: seq<nat>) {
    forall i, j :: 0 <= i < j < |s| ==> s[i] >= s[j]
  }

  function Insert(s: seq<nat>, x: nat): seq<nat> {
    if s == [] || x >= s[0] then [x] + s else [s[0]] + Insert(s[1..], x)
  }

  /** The lengths in decreasing order. */
  function SortedDown(s: seq<nat>): seq<nat> {
    if s == [] then [] else Insert(SortedDown(s[1..]), s[0])
  }

  lemma {:induction false} InsertAdds(s: seq<nat>, x: nat)
    ensures multiset(Insert(s, x)) == multiset(s) + multiset{x}
  {
    if s != [] && x < s[0] {
      InsertAdds(s[1..], x);
      assert s == [s[0]] + s[1..];
    }
  }

  lemma {:induction false} InsertDescends(s: seq<nat>, x: nat)
    requires Descending(s)
    ensures Descending(Insert(s, x))
  {
    if s != [] && x < s[0] {
      InsertDescends(s[1..], x);
      InsertAdds(s[1..], x);
      var t := Insert(s[1..], x);
      forall k | 0 <= k < |t| ensures t[k] <= s[0] {
        assert t[k] in multiset(t);
      }
    }
  }

  lemma {:induction false} SortedDownSorts(s: seq<nat>)
    ensures Descending(SortedDown(s))
    ensures multiset(SortedDown(s)) == multiset(s)
  {
    if s != [] {
      SortedDownSorts(s[1..]);
      InsertDescends(SortedDown(s[1..]), s[0]);
      InsertAdds(SortedDown(s[1..]), s[0]);
      assert s == [s[0]] + s[1..];
    }
  }

  ghost predicate Ascending(s: seq<nat>) {
    forall i, j :: 0 <= i < j < |s| ==> s[i] <= s[j]
  }

  /** There is only one way to sort lengths downwards. */
  lemma {:induction false} DescendingIsUnique(a: seq<nat>, b: seq<nat>)
    requires Descending(a) && Descending(b) && multiset(a) == multiset(b)
    ensures a == b
  {
    if a == [] {
      assert |multiset(b)| == 0;
    } else {
      SameFirst(a, b);
      assert a == [a[0]] + a[1..] && b == [b[0]] + b[1..];
      CancelOne(multiset(a[1..]), multiset(b[1..]), a[0]);
      DescendingIsUnique(a[1..], b[1..]);
    }
  }

  /** There is only one way to sort lengths upwards. */
  lemma {:induction false} AscendingIsUnique(a: seq<nat>, b: seq<nat>)
    requires Ascending(a) && Ascending(b) && multiset(a) == multiset(b)
    ensures a == b
  {
    if a == [] {
      assert |multiset(b)| == 0;
    } else {
      SameFirst(a, b);
      assert a == [a[0]] + a[1..] && b == [b[0]] + b[1..];
      CancelOne(multiset(a[1..]), multiset(b[1..]), a[0]);
      AscendingIsUnique(a[1..], b[1..]);
    }
  }

  lemma {:induction false} SameFirst(a: seq<nat>, b: seq<nat>)
    requires multiset(a) == multiset(b) && a != []
    requires (Descending(a) && Descending(b)) || (Ascending(a) && Ascending(b))
    ensures b != [] && a[0] == b[0]
  {
    assert a[0] in multiset(b);
    assert b[0] in multiset(a);
  }

  method FirstFitDecreasing(seqlens: seq<nat>, packSize: nat) returns (res: Bins)
    ensures res == Pack(SortedDown(seqlens), packSize)
  {
    res := FirstFit(SortedDown(seqlens), packSize);
  }

  /** The random shuffle is any rearrangement of the lengths. */
  method FirstFitShuffle(seqlens: seq<nat>, packSize: nat, shuffled: seq<nat>) returns (res: Bins)
    requires multiset(shuffled) == multiset(seqlens)
    ensures res == Pack(shuffled, packSize)
    ensures multiset(Flatten(res)) == multiset(seqlens)
  {
    res := FirstFit(shuffled, packSize);
    PackIsFirstFit(shuffled, packSize);
  }

  /** Each bin opens with its largest item, and bins open in decreasing order of that item. */
  ghost predicate HeadsDescend(bins: Bins) {
    && NoEmptyBin(bins)
    && (forall i, j :: 0 <= i < j < |bins| ==> bins[i][0] >= bins[j][0])
  }

  ghost predicate AllAtLeast(bins: Bins, s: nat) {
    forall j, x :: 0 <= j < |bins| && x in bins[j] ==> x >= s
  }

  lemma {:induction false} DescendingHeads(lens: seq<nat>, cap: nat)
    requires Descending(lens)
    ensures HeadsDescend(Pack(lens, cap))
    ensures lens != [] ==> AllAtLeast(Pack(lens, cap), lens[|lens| - 1])
  {
    if lens != [] {
      var n := |lens| - 1;
      DescendingHeads(lens[..n], cap);
      var b := Pack(lens[..n], cap);
      assert AllAtLeast(b, lens[n]) by {
        if n > 0 { assert AllAtLeast(b, lens[n - 1]) && lens[n - 1] >= lens[n]; }
      }
      PlaceKeepsHeads(b, lens[n], cap);
    }
  }

  lemma {:induction false} PlaceKeepsHeads(bins: Bins, s: nat, cap: nat)
    requires HeadsDescend(bins) && AllAtLeast(bins, s)
    ensures HeadsDescend(Place(bins, s, cap)) && AllAtLeast(Place(bins, s, cap), s)
  {
    forall i | 0 <= i < |bins| ensures bins[i][0] >= s {
      assert bins[i][0] in bins[i];
    }
    var b := Place(bins, s, cap);
    assert forall i :: 0 <= i < |bins| ==> b[i] != [] && b[i][0] == bins[i][0];
  }

  /** Items that fit in none of the bins push the total above the bins' joint capacity. */
  lemma {:induction false} UnplacedItemsFill(bins: Bins, rest: seq<nat>, cap: nat)
    requires |bins| <= |rest|
    requires forall i :: 0 <= i < |bins| ==> Sum(bins[i]) + rest[i] > cap
    ensures Load(bins, Itself) + Sum(rest) >= |bins| + Times(|bins|, cap)
  {
    if bins != [] {
      UnplacedItemsFill(bins[1..], rest[1..], cap);
      assert Sum(bins[0]) + rest[0] > cap;
    }
  }

  lemma {:induction false} FlattenLength(bins: Bins)
    requires forall j :: 0 <= j < |bins| - 1 ==> |bins[j]| >= 2
    requires NoEmptyBin(bins)
    ensures |Flatten(bins)| >= 2 * |bins| - 1
  {
    if |bins| > 1 {
      FlattenLength(bins[1..]);
    }
  }

  lemma {:induction false} BigHeads(bins: Bins, cap: nat)
    requires NoEmptyBin(bins)
    requires forall j :: 0 <= j < |bins| ==> 2 * bins[j][0] > cap
    ensures Load(bins, IsBig(cap)) >= |bins|
  {
    if bins != [] {
      BigHeads(bins[1..], cap);
    }
  }

  /** Bins up to one that opens with a big item all open with a big item. */
  lemma {:induction false} ManyBigItems(bins: Bins, cap: nat, b: nat)
    requires 1 <= b <= |bins| && HeadsDescend(bins)
    requires 2 * bins[b - 1][0] > cap
    ensures Load(bins, IsBig(cap)) >= b
  {
    BigHeads(bins[..b], cap);
    LoadConcat(bins[..b], bins[b..], IsBig(cap));
    assert bins == bins[..b] + bins[b..];
  }

  /** After a bin that opens with a small item, every bin but the last holds two items. */
  lemma {:induction false} SmallItemsPair(bins: Bins, cap: nat, j: nat)
    requires Tight(bins, cap) && HeadsDescend(bins)
    requires j < |bins| - 1 && 2 * bins[j][0] <= cap
    ensures |bins[j]| >= 2
  {
    var x := bins[|bins| - 1][0];
    assert bins[j][0] >= x && x in bins[|bins| - 1];
    assert Sum(bins[j]) + x > cap;
    if |bins[j]| == 1 { SumOfOne(bins[j]); }
  }

  lemma {:induction false} LateItemsDoNotFit(bins: Bins, cap: nat, a: nat)
    requires Tight(bins, cap) && a <= |bins|
    ensures forall i, k :: 0 <= i < a && 0 <= k < |Flatten(bins[a..])| ==> Sum(bins[i]) + Flatten(bins[a..])[k] > cap
  {
    var rest := Flatten(bins[a..]);
    forall i, k | 0 <= i < a && 0 <= k < |rest|
      ensures Sum(bins[i]) + rest[k] > cap
    {
      var j := BinOf(bins[a..], rest[k]);
      assert rest[k] in bins[a + j];
    }
  }

  lemma {:induction false} LateItemsAreMany(bins: Bins, cap: nat, a: nat)
    requires Tight(bins, cap) && HeadsDescend(bins)
    requires a < |bins| && 2 * bins[a][0] <= cap
    ensures |Flatten(bins[a..])| >= 2 * (|bins| - a) - 1
  {
    forall j | 0 <= j < |bins[a..]| - 1
      ensures |bins[a..][j]| >= 2
    {
      SmallItemsPair(bins, cap, a + j);
    }
    FlattenLength(bins[a..]);
  }

  /** From a bin that opens with a small item on, the items overfill the bins before it. */
  lemma {:induction false} ManySmallItems(bins: Bins, cap: nat, a: nat)
    requires Tight(bins, cap) && HeadsDescend(bins)
    requires a < |bins| && 2 * bins[a][0] <= cap
    requires a <= 2 * (|bins| - a) - 1
    ensures Load(bins, Itself) >= a + Times(a, cap)
  {
    var early, late := bins[..a], bins[a..];
    LateItemsAreMany(bins, cap, a);
    LateItemsDoNotFit(bins, cap, a);
    UnplacedItemsFill(early, Flatten(late), cap);
    LoadIsWeight(late, Itself);
    LoadConcat(early, late, Itself);
    assert bins == early + late;
  }

  lemma {:induction false} TightBinsAreFew(bins: Bins, cap: nat, k: nat)
    requires bins != [] && k >= 1
    requires Tight(bins, cap) && HeadsDescend(bins)
    requires Load(bins, Itself) <= Times(k, cap) && Load(bins, IsBig(cap)) <= k
    ensures 2 * |bins| <= 3 * k
  {
    var b := (2 * |bins| + 2) / 3;
    if 2 * bins[b - 1][0] > cap {
      ManyBigItems(bins, cap, b);
    } else {
      ManySmallItems(bins, cap, b - 1);
      if k < b { TimesGrows(k, b - 1, cap); }
    }
  }

  /** If the lengths fit in k bins by any means, first fit decreasing uses at most 3k/2. */
  lemma {:induction false} FirstFitDecreasingWithinThreeHalves(seqlens: seq<nat>, cap: nat, other: Bins)
    requires IsPacking(other, seqlens, cap)
    ensures 2 * |Pack(SortedDown(seqlens), cap)| <= 3 * |other|
  {
    var lens := SortedDown(seqlens);
    if lens != [] {
      SortedDownSorts(seqlens);
      DescendingHeads(lens, cap);
      PackIsFirstFit(lens, cap);
      PackTotals(lens, cap);
      PackingBounds(other, lens, cap);
      TightBinsAreFew(Pack(lens, cap), cap, |other|);
    }
  }

}
