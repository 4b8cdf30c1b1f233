// From a tokenized dataset to filled packs (nemo/utils/sequence_packing_utils.py):
// the length histogram, the assignment of lengths to packs, and the filling of
// the packs by popping the sequences of each length.

module SequencePacking {
  import opened Lists
  import FirstFit

  /** One tokenized example; the two optional fields are dictionary keys that may be absent. */
  datatype Item = Item(inputIds: seq<int>, lossMask: Option<seq<bool>>, answerStart: Option<int>)

  datatype Pack = Pack(inputIds: seq<int>, lossMask: seq<bool>, seqStartId: seq<nat>)

  datatype Error =
    | IndexError        // a length beyond the histogram, or a pop from an empty list
    | KeyError          // a length that has no list of sequences
    | ZeroDivision      // no sequence at all, or a pack size of zero
    | MissingMask       // neither key is present in every example of one length
    | LeftOver          // the final check: some sequence was not used

  /** Inputs and labels have one token less than the sequence. */
  function SeqLen(it: Item): int { |it.inputIds| - 1 }

  type Sequences = map<int, seq<Item>>

  /** A read of the defaultdict. */
  function Of(sequences: Sequences, len: int): seq<Item> {
    if len in sequences then sequences[len] else []
  }

  /** The examples of one length, in dataset order. */
  function Group(dataset: seq<Item>, len: int): seq<Item> {
    if dataset == [] then []
    else
      var n := |dataset| - 1;
      if SeqLen(dataset[n]) == len then Group(dataset[..n], len) + [dataset[n]] else Group(dataset[..n], len)
  }

  /** The examples of a dataset, listed under their lengths. */
  ghost predicate Grouped(sequences: Sequences, dataset: seq<Item>) {
    forall len :: Of(sequences, len) == Group(dataset, len)
  }

  lemma {:induction false} GroupedNext(sequences: Sequences, dataset: seq<Item>, k: nat)
    requires k < |dataset| && Grouped(sequences, dataset[..k])
    ensures var len := SeqLen(dataset[k]);
      Grouped(sequences[len := Of(sequences, len) + [dataset[k]]], dataset[..k + 1])
  {
    assert dataset[..k + 1][..k] == dataset[..k];
    var len := SeqLen(dataset[k]);
    var next := sequences[len := Of(sequences, len) + [dataset[k]]];
    forall l ensures Of(next, l) == Group(dataset[..k + 1], l) {
      assert Of(sequences, l) == Group(dataset[..k], l);
    }
  }

  method CreateHist(dataset: seq<Item>, truncateSeqLen: nat)
    returns (r: Result<(Sequences, seq<nat>), Error>)
    ensures r.Ok? <==> forall i :: 0 <= i < |dataset| ==> SeqLen(dataset[i]) <= truncateSeqLen
    ensures r.Err? ==> r.error == IndexError
    ensures r.Ok? ==> Grouped(r.value.0, dataset)
    ensures r.Ok? ==> r.value.1 == Histogram(dataset, truncateSeqLen)
    ensures r.Ok? ==> |r.value.1| == truncateSeqLen + 1
    ensures r.Ok? ==> forall len: nat :: len <= truncateSeqLen ==> r.value.1[len] == |Of(r.value.0, len)|
  {
    var sequences: Sequences := map[];
    var counts := seq(truncateSeqLen + 1, _ => 0);
    for k := 0 to |dataset|
      invariant Grouped(sequences, dataset[..k])
      invariant forall i :: 0 <= i < k ==> SeqLen(dataset[i]) <= truncateSeqLen
      invariant |counts| == truncateSeqLen + 1
    {
      var len := SeqLen(dataset[k]);
      GroupedNext(sequences, dataset, k);
      sequences := sequences[len := Of(sequences, len) + [dataset[k]]];
      // A length of -1 addresses the last counter.
      var at := if len < 0 then len + |counts| else len;
      if at >= |counts| {
        return Err(IndexError);
      }
      counts := counts[at := counts[at] + 1];
    }
    assert dataset[..|dataset|] == dataset;
    var histogram := [];
    for len := 0 to truncateSeqLen + 1
      invariant histogram == seq(len, i => |Group(dataset, i)|)
    {
      histogram := histogram + [|Of(sequences, len)|];
    }
    return Ok((sequences, histogram));
  }

  function Histogram(dataset: seq<Item>, truncateSeqLen: nat): seq<nat> {
    seq(truncateSeqLen + 1, i => |Group(dataset, i)|)
  }

  // ----- The assignment of lengths to packs -----

  datatype Algorithm = Plain | Decreasing | Shuffled

  function Repeat(x: nat, n: nat): seq<nat> { seq(n, _ => x) }

  /** Every length as often as the histogram counts it. */
  function Expand(histogram: seq<nat>): seq<nat> {
    if histogram == [] then []
    else
      var n := |histogram| - 1;
      Expand(histogram[..n]) + Repeat(n, histogram[n])
  }

  function Ordered(lens: seq<nat>, algorithm: Algorithm, shuffled: seq<nat>): seq<nat> {
    match algorithm
    case Plain => lens
    case Decreasing => FirstFit.SortedDown(lens)
    case Shuffled => shuffled
  }

  /** The assignments, or the division by zero that the efficiency figures run into. */
  function Strategy(histogram: seq<nat>, packSize: nat, algorithm: Algorithm, shuffled: seq<nat>)
    : Result<seq<seq<nat>>, Error>
  {
    var lens := Expand(histogram);
    if lens == [] || packSize == 0 then Err(ZeroDivision)
    else Ok(FirstFit.Pack(Ordered(lens, algorithm, shuffled), packSize))
  }

  /**
   * What each algorithm promises: the first-fit packing of the lengths in its own order, and with it at most
   * 2k - 1 bins where k bins can do, and for the decreasing order at most 3k / 2.
   */
  ghost predicate AsPromised(histogram: seq<nat>, packSize: nat, algorithm: Algorithm, shuffled: seq<nat>,
                             assignments: seq<seq<nat>>)
  {
    var lens := Expand(histogram);
    && (algorithm == Plain ==>
          forall s: seq<nat> :: FirstFit.Ascending(s) && multiset(s) == multiset(lens) ==>
            assignments == FirstFit.Pack(s, packSize))
    && (algorithm == Decreasing ==>
          forall s: seq<nat> :: FirstFit.Descending(s) && multiset(s) == multiset(lens) ==>
            assignments == FirstFit.Pack(s, packSize))
    && (algorithm == Shuffled ==> assignments == FirstFit.Pack(shuffled, packSize))
    && (forall other :: FirstFit.IsPacking(other, lens, packSize) && |other| >= 1 ==> |assignments| <= 2 * |other| - 1)
    && (algorithm == Decreasing ==>
          forall other :: FirstFit.IsPacking(other, lens, packSize) ==> 2 * |assignments| <= 3 * |other|)
  }

  lemma {:induction false} StrategyIsAsPromised(histogram: seq<nat>, packSize: nat, algorithm: Algorithm,
                                                shuffled: seq<nat>)
    requires multiset(shuffled) == multiset(Expand(histogram))
    requires Strategy(histogram, packSize, algorithm, shuffled).Ok?
    ensures AsPromised(histogram, packSize, algorithm, shuffled,
                       Strategy(histogram, packSize, algorithm, shuffled).value)
  {
    var lens := Expand(histogram);
    var order := Ordered(lens, algorithm, shuffled);
    FirstFit.SortedDownSorts(lens);
    ExpandAscends(histogram);
    forall s: seq<nat> | FirstFit.Ascending(s) && multiset(s) == multiset(lens) ensures s == lens {
      FirstFit.AscendingIsUnique(s, lens);
    }
    forall s: seq<nat> | FirstFit.Descending(s) && multiset(s) == multiset(lens)
      ensures s == FirstFit.SortedDown(lens)
    {
      FirstFit.DescendingIsUnique(s, FirstFit.SortedDown(lens));
    }
    forall other | FirstFit.IsPacking(other, lens, packSize) && |other| >= 1
      ensures |FirstFit.Pack(order, packSize)| <= 2 * |other| - 1
    {
      FirstFit.FirstFitWithinTwiceOptimal(order, packSize, other);
    }
    forall other | FirstFit.IsPacking(other, lens, packSize)
      ensures 2 * |FirstFit.Pack(FirstFit.SortedDown(lens), packSize)| <= 3 * |other|
    {
      FirstFit.FirstFitDecreasingWithinThreeHalves(lens, packSize, other);
    }
  }

  lemma {:induction false} ExpandAscends(histogram: seq<nat>)
    ensures FirstFit.Ascending(Expand(histogram))
    ensures forall i :: 0 <= i < |Expand(histogram)| ==> Expand(histogram)[i] < |histogram|
  {
    if histogram != [] { ExpandAscends(histogram[..|histogram| - 1]); }
  }

  lemma {:induction false} ExpandEmptyIff(histogram: seq<nat>)
    ensures Expand(histogram) == [] <==> forall i :: 0 <= i < |histogram| ==> histogram[i] == 0
  {
    if histogram != [] { ExpandEmptyIff(histogram[..|histogram| - 1]); }
  }

  method CreatePackingStrategy(histogram: seq<nat>, packSize: nat, algorithm: Algorithm, shuffled: seq<nat>)
    returns (r: Result<seq<seq<nat>>, Error>)
    requires multiset(shuffled) == multiset(Expand(histogram))
    ensures r == Strategy(histogram, packSize, algorithm, shuffled)
    ensures r.Err? <==> packSize == 0 || forall i :: 0 <= i < |histogram| ==> histogram[i] == 0
    ensures r.Ok? ==> AsPromised(histogram, packSize, algorithm, shuffled, r.value)
  {
    var allSeqLens := [];
    for i := 0 to |histogram|
      invariant allSeqLens == Expand(histogram[..i])
    {
      assert histogram[..i + 1][..i] == histogram[..i];
      allSeqLens := allSeqLens + Repeat(i, histogram[i]);
    }
    assert histogram[..|histogram|] == histogram;
    var assignments;
    match algorithm {
      case Plain => assignments := FirstFit.FirstFit(allSeqLens, packSize);
      case Decreasing => assignments := FirstFit.FirstFitDecreasing(allSeqLens, packSize);
      case Shuffled => assignments := FirstFit.FirstFitShuffle(allSeqLens, packSize, shuffled);
    }
    ExpandEmptyIff(histogram);
    if |allSeqLens| == 0 || packSize == 0 {
      return Err(ZeroDivision);
    }
    StrategyIsAsPromised(histogram, packSize, algorithm, shuffled);
    return Ok(assignments);
  }

  lemma {:induction false} ExpandCounts(histogram: seq<nat>)
    ensures forall len: nat :: multiset(Expand(histogram))[len] == if len < |histogram| then histogram[len] else 0
  {
    if histogram != [] {
      var n := |histogram| - 1;
      ExpandCounts(histogram[..n]);
      forall len: nat ensures multiset(Repeat(n, histogram[n]))[len] == if len == n then histogram[n] else 0 {
        RepeatCounts(n, histogram[n], len);
      }
    }
  }

  lemma {:induction false} RepeatCounts(x: nat, n: nat, len: nat)
    ensures multiset(Repeat(x, n))[len] == if len == x then n else 0
  {
    if n > 0 {
      RepeatCounts(x, n - 1, len);
      assert Repeat(x, n) == Repeat(x, n - 1) + [x];
    }
  }

  /** Whatever the algorithm and the shuffle, the assignment uses exactly the lengths counted. */
  lemma {:induction false} StrategyCounts(histogram: seq<nat>, packSize: nat, algorithm: Algorithm, shuffled: seq<nat>)
    requires multiset(shuffled) == multiset(Expand(histogram))
    requires Strategy(histogram, packSize, algorithm, shuffled).Ok?
    ensures multiset(Flatten(Strategy(histogram, packSize, algorithm, shuffled).value)) == multiset(Expand(histogram))
  {
    var lens := Expand(histogram);
    FirstFit.SortedDownSorts(lens);
    FirstFit.PackIsFirstFit(Ordered(lens, algorithm, shuffled), packSize);
  }

  // ----- Filling the packs -----

  ghost predicate HaveMask(group: seq<Item>) {
    forall i :: 0 <= i < |group| ==> group[i].lossMask.Some?
  }

  ghost predicate HaveStart(group: seq<Item>) {
    forall i :: 0 <= i < |group| ==> group[i].answerStart.Some?
  }

  /** The loss masks of one length can be built. */
  ghost predicate Maskable(group: seq<Item>) { HaveMask(group) || HaveStart(group) }

  /** A mask moved one place to the left, to align with the labels. */
  function Roll(mask: seq<bool>): seq<bool> {
    (if mask == [] then [] else mask[1..]) + [false]
  }

  /** True from the token before the answer on. */
  function AnswerMask(n: nat, start: int): seq<bool> { seq(n, i => i >= start - 1) }

  /** The loss mask of an example: its own, or one from the answer's start when its group lacks masks. */
  ghost function MaskIn(group: seq<Item>, it: Item): seq<bool> {
    if HaveMask(group) && it.lossMask.Some? then Roll(it.lossMask.value)
    else if it.answerStart.Some? then AnswerMask(|it.inputIds|, it.answerStart.value)
    else []
  }

  ghost function Masks(group: seq<Item>, items: seq<Item>): seq<seq<bool>> {
    seq(|items|, i requires 0 <= i < |items| => MaskIn(group, items[i]))
  }

  /**
   * Entry k of each mask is about token k + 1, the label at place k: what the example's own loss mask says
   * of it when all examples have one, and otherwise whether the answer has begun.
   */
  ghost predicate AlignedWithLabels(items: seq<Item>, masks: seq<seq<bool>>) {
    && |masks| == |items|
    && forall i :: 0 <= i < |items| ==>
         if forall j :: 0 <= j < |items| ==> items[j].lossMask.Some? then
           var mask := items[i].lossMask.value;
           && |masks[i]| == (if mask == [] then 1 else |mask|)
           && forall k :: 0 <= k < |masks[i]| ==> (masks[i][k] <==> k + 1 < |mask| && mask[k + 1])
         else
           && items[i].answerStart.Some? && |masks[i]| == |items[i].inputIds|
           && forall k :: 0 <= k < |masks[i]| ==> (masks[i][k] <==> k + 1 >= items[i].answerStart.value)
  }

  lemma {:induction false} RollAt(mask: seq<bool>)
    ensures |Roll(mask)| == if mask == [] then 1 else |mask|
    ensures forall k :: 0 <= k < |Roll(mask)| ==> (Roll(mask)[k] <==> k + 1 < |mask| && mask[k + 1])
  {
  }

  lemma {:induction false} MasksAreAligned(group: seq<Item>, order: seq<Item>)
    requires multiset(order) == multiset(group) && Maskable(group)
    ensures AlignedWithLabels(order, Masks(group, order))
  {
    SameFields(group, order);
    forall i | 0 <= i < |order| && order[i].lossMask.Some?
      ensures var mask := order[i].lossMask.value;
        && |Roll(mask)| == (if mask == [] then 1 else |mask|)
        && forall k :: 0 <= k < |Roll(mask)| ==> (Roll(mask)[k] <==> k + 1 < |mask| && mask[k + 1])
    {
      RollAt(order[i].lossMask.value);
    }
  }

  method GroupMasks(group: seq<Item>, order: seq<Item>) returns (r: Option<seq<seq<bool>>>)
    requires multiset(order) == multiset(group)
    ensures r.Some? <==> Maskable(group)
    ensures r.Some? ==> r.value == Masks(group, order)
    ensures r.Some? ==> AlignedWithLabels(order, r.value)
  {
    var masks, starts, all, some := [], [], true, true;
    for k := 0 to |order|
      invariant all <==> forall i :: 0 <= i < k ==> order[i].lossMask.Some?
      invariant all ==> |masks| == k && forall i :: 0 <= i < k ==> masks[i] == Roll(order[i].lossMask.value)
      invariant some <==> forall i :: 0 <= i < k ==> order[i].answerStart.Some?
      invariant some ==> |starts| == k
      invariant some ==> forall i :: 0 <= i < k ==>
        starts[i] == AnswerMask(|order[i].inputIds|, order[i].answerStart.value)
    {
      var it := order[k];
      all, some := all && it.lossMask.Some?, some && it.answerStart.Some?;
      if all { masks := masks + [Roll(it.lossMask.value)]; }
      if some { starts := starts + [AnswerMask(|it.inputIds|, it.answerStart.value)]; }
    }
    SameFields(group, order);
    if Maskable(group) { MasksAreAligned(group, order); }
    return if all then Some(masks) else if some then Some(starts) else None;
  }

  lemma {:induction false} SameFields(group: seq<Item>, order: seq<Item>)
    requires multiset(order) == multiset(group)
    ensures HaveMask(group) <==> HaveMask(order)
    ensures HaveStart(group) <==> HaveStart(order)
  {
    forall i | 0 <= i < |group| ensures group[i] in order { assert group[i] in multiset(order); }
    forall i | 0 <= i < |order| ensures order[i] in group { assert order[i] in multiset(group); }
  }

  // The specification: packs of whole examples, drawn from the lists per length.

  type Stock = map<int, seq<Item>>

  /** Pop one example per length; the examples come from the ends of the lists. */
  function Draw(lens: seq<nat>, stock: Stock): Result<(seq<Item>, Stock), Error> {
    if lens == [] then Ok(([], stock))
    else
      var n := |lens| - 1;
      match Draw(lens[..n], stock)
      case Err(e) => Err(e)
      case Ok((items, rest)) => DrawOne(lens[n], items, rest)
  }

  function DrawOne(len: nat, items: seq<Item>, stock: Stock): Result<(seq<Item>, Stock), Error> {
    if len !in stock then Err(KeyError)
    else if stock[len] == [] then Err(IndexError)
    else
      var last := |stock[len]| - 1;
      Ok((items + [stock[len][last]], stock[len := stock[len][..last]]))
  }

  function DrawAll(assignments: seq<seq<nat>>, stock: Stock): Result<(seq<seq<Item>>, Stock), Error> {
    if assignments == [] then Ok(([], stock))
    else
      var n := |assignments| - 1;
      match DrawAll(assignments[..n], stock)
      case Err(e) => Err(e)
      case Ok((contents, rest)) =>
        match Draw(assignments[n], rest)
        case Err(e) => Err(e)
        case Ok((items, rest')) => Ok((contents + [items], rest'))
  }

  /** The lists of lengths below limit, as the packs are drawn from them; shuffled gives their random order. */
  function Stocked(sequences: Sequences, limit: nat, shuffled: int -> seq<Item>): Stock {
    map len | 0 <= len < limit && Of(sequences, len) != [] :: shuffled(len)
  }

  /** shuffled lists the examples of each length in some order. */
  ghost predicate Shuffles(sequences: Sequences, shuffled: int -> seq<Item>) {
    forall len :: multiset(shuffled(len)) == multiset(Of(sequences, len))
  }

  /** The loss masks of every length below limit can be built. */
  ghost predicate AllMaskable(sequences: Sequences, limit: nat) {
    forall len :: 0 <= len < limit ==> Maskable(Of(sequences, len))
  }

  /** Which examples end up in which pack. */
  ghost function Contents(assignments: seq<seq<nat>>, sequences: Sequences, packSize: nat, shuffled: int -> seq<Item>)
    : Result<seq<seq<Item>>, Error>
  {
    if !AllMaskable(sequences, packSize + 1) then Err(MissingMask)
    else
      match DrawAll(assignments, Stocked(sequences, packSize + 1, shuffled))
      case Err(e) => Err(e)
      case Ok((contents, rest)) =>
        if forall len :: len in rest ==> rest[len] == [] then Ok(contents) else Err(LeftOver)
  }

  function Ids(items: seq<Item>): seq<seq<int>> {
    seq(|items|, i requires 0 <= i < |items| => items[i].inputIds)
  }

  ghost function OwnMasks(sequences: Sequences, items: seq<Item>): seq<seq<bool>> {
    seq(|items|, i requires 0 <= i < |items| => MaskIn(Of(sequences, SeqLen(items[i])), items[i]))
  }

  /** The first token of each example of a pack. */
  function Starts(items: seq<Item>): seq<nat> {
    seq(|items|, i requires 0 <= i < |items| => |Flatten(Ids(items[..i]))|)
  }

  ghost function PackOf(sequences: Sequences, items: seq<Item>): Pack {
    Pack(Flatten(Ids(items)), Flatten(OwnMasks(sequences, items)), Starts(items))
  }

  // The program: parallel lists of tokens and masks, emptied from the end.

  type Handles = map<int, (seq<seq<int>>, seq<seq<bool>>)>

  /** Every list holds examples of its own length. */
  ghost predicate Keyed(lists: map<int, seq<Item>>) {
    forall len, it :: len in lists && it in lists[len] ==> SeqLen(it) == len
  }

  ghost predicate Holds(handles: Handles, sequences: Sequences, stock: Stock) {
    && Keyed(stock)
    && handles.Keys == stock.Keys
    && forall len :: len in stock ==> handles[len] == (Ids(stock[len]), OwnMasks(sequences, stock[len]))
  }

  /** Popping a token list and its mask pops one example. */
  lemma {:induction false} PopHolds(handles: Handles, sequences: Sequences, stock: Stock, len: int)
    requires Holds(handles, sequences, stock) && len in stock && stock[len] != []
    ensures |handles[len].0| == |handles[len].1| == |stock[len]|
    ensures var last := |stock[len]| - 1;
      && handles[len].0[last] == stock[len][last].inputIds
      && handles[len].1[last] == MaskIn(Of(sequences, SeqLen(stock[len][last])), stock[len][last])
      && Holds(handles[len := (handles[len].0[..last], handles[len].1[..last])], sequences,
               stock[len := stock[len][..last]])
  {
    var last := |stock[len]| - 1;
    assert Ids(stock[len])[..last] == Ids(stock[len][..last]);
    assert OwnMasks(sequences, stock[len])[..last] == OwnMasks(sequences, stock[len][..last]);
  }

  lemma {:induction false} DrawNext(lens: seq<nat>, k: nat, stock: Stock)
    requires k < |lens|
    ensures Draw(lens[..k], stock).Ok?
        ==> Draw(lens[..k + 1], stock)
            == DrawOne(lens[k], Draw(lens[..k], stock).value.0, Draw(lens[..k], stock).value.1)
  {
    assert lens[..k + 1][..k] == lens[..k];
  }

  lemma {:induction false} DrawFails(lens: seq<nat>, k: nat, stock: Stock)
    requires k <= |lens| && Draw(lens[..k], stock).Err?
    ensures Draw(lens, stock) == Err(Draw(lens[..k], stock).error)
  {
    if k == |lens| {
      assert lens[..k] == lens;
    } else {
      var n := |lens| - 1;
      assert lens[..n][..k] == lens[..k];
      DrawFails(lens[..n], k, stock);
    }
  }

  lemma {:induction false} AppendItem(sequences: Sequences, items: seq<Item>, it: Item)
    ensures Flatten(Ids(items + [it])) == Flatten(Ids(items)) + it.inputIds
    ensures Flatten(OwnMasks(sequences, items + [it]))
         == Flatten(OwnMasks(sequences, items)) + MaskIn(Of(sequences, SeqLen(it)), it)
    ensures Starts(items + [it]) == Starts(items) + [|Flatten(Ids(items))|]
  {
    assert Ids(items + [it]) == Ids(items) + [it.inputIds];
    FlattenSnoc(Ids(items), it.inputIds);
    assert OwnMasks(sequences, items + [it]) == OwnMasks(sequences, items) + [MaskIn(Of(sequences, SeqLen(it)), it)];
    FlattenSnoc(OwnMasks(sequences, items), MaskIn(Of(sequences, SeqLen(it)), it));
    assert forall i :: 0 <= i <= |items| ==> (items + [it])[..i] == items[..i];
    assert items[..|items|] == items;
  }

  method FillOne(handles0: Handles, assignment: seq<nat>, ghost sequences: Sequences, ghost stock0: Stock)
    returns (r: Result<Pack, Error>, handles: Handles)
    requires Holds(handles0, sequences, stock0)
    ensures r.Err? <==> Draw(assignment, stock0).Err?
    ensures r.Err? ==> Err(r.error) == Draw(assignment, stock0)
    ensures r.Ok? ==> r.value == PackOf(sequences, Draw(assignment, stock0).value.0)
    ensures r.Ok? ==> Holds(handles, sequences, Draw(assignment, stock0).value.1)
  {
    handles := handles0;
    var inputIds, lossMask, seqStartId := [], [], [0];
    ghost var items, stock := [], stock0;
    for k := 0 to |assignment|
      invariant Draw(assignment[..k], stock0) == Ok((items, stock))
      invariant Holds(handles, sequences, stock)
      invariant inputIds == Flatten(Ids(items))
      invariant lossMask == Flatten(OwnMasks(sequences, items))
      invariant seqStartId == Starts(items) + [|inputIds|]
    {
      var len := assignment[k];
      DrawNext(assignment, k, stock0);
      if len !in handles {
        DrawFails(assignment, k + 1, stock0);
        return Err(KeyError), handles;
      }
      var (ids, masks) := handles[len];
      assert |ids| == |stock[len]|;
      if ids == [] {
        DrawFails(assignment, k + 1, stock0);
        return Err(IndexError), handles;
      }
      var last := |ids| - 1;
      ghost var it := stock[len][last];
      PopHolds(handles, sequences, stock, len);
      AppendItem(sequences, items, it);
      inputIds := inputIds + ids[last];
      lossMask := lossMask + masks[last];
      seqStartId := seqStartId + [|inputIds|];
      handles := handles[len := (ids[..last], masks[..last])];
      items, stock := items + [it], stock[len := stock[len][..last]];
    }
    assert assignment[..|assignment|] == assignment;
    r := Ok(Pack(inputIds, lossMask, seqStartId[..|seqStartId| - 1]));
  }

  method MakeHandles(sequences: Sequences, packSize: nat, shuffled: int -> seq<Item>)
    returns (r: Result<Handles, Error>)
    requires Keyed(sequences)
    requires Shuffles(sequences, shuffled)
    ensures r.Ok? <==> AllMaskable(sequences, packSize + 1)
    ensures r.Err? ==> r.error == MissingMask
    ensures r.Ok? ==> Holds(r.value, sequences, Stocked(sequences, packSize + 1, shuffled))
  {
    var handles: Handles := map[];
    for len := 0 to packSize + 1
      invariant AllMaskable(sequences, len)
      invariant Holds(handles, sequences, Stocked(sequences, len, shuffled))
    {
      var added := AddHandle(handles, sequences, len, shuffled(len), shuffled);
      if added == None {
        return Err(MissingMask);
      }
      handles := added.value;
    }
    return Ok(handles);
  }

  method AddHandle(handles: Handles, sequences: Sequences, len: nat, order: seq<Item>, ghost shuffled: int -> seq<Item>)
    returns (r: Option<Handles>)
    requires Keyed(sequences) && Holds(handles, sequences, Stocked(sequences, len, shuffled))
    requires order == shuffled(len) && multiset(order) == multiset(Of(sequences, len))
    ensures r.Some? <==> Maskable(Of(sequences, len))
    ensures r.Some? ==> Holds(r.value, sequences, Stocked(sequences, len + 1, shuffled))
  {
    var perSeqData := Of(sequences, len);
    if |perSeqData| == 0 {
      assert Stocked(sequences, len + 1, shuffled) == Stocked(sequences, len, shuffled);
      return Some(handles);
    }
    var masks := GroupMasks(perSeqData, order);
    if masks == None {
      return None;
    }
    StockNext(handles, sequences, len, shuffled);
    return Some(handles[len := (Ids(order), masks.value)]);
  }

  lemma {:induction false} StockNext(handles: Handles, sequences: Sequences, len: nat, shuffled: int -> seq<Item>)
    requires Keyed(sequences) && Holds(handles, sequences, Stocked(sequences, len, shuffled))
    requires multiset(shuffled(len)) == multiset(Of(sequences, len))
    requires Of(sequences, len) != []
    ensures Holds(handles[len := (Ids(shuffled(len)), Masks(Of(sequences, len), shuffled(len)))],
                  sequences, Stocked(sequences, len + 1, shuffled))
  {
    ShuffledGroup(sequences, len, shuffled(len));
    assert Stocked(sequences, len + 1, shuffled) == Stocked(sequences, len, shuffled)[len := shuffled(len)];
  }

  lemma {:induction false} ShuffledGroup(sequences: Sequences, len: int, order: seq<Item>)
    requires Keyed(sequences) && multiset(order) == multiset(Of(sequences, len))
    ensures forall it :: it in order ==> SeqLen(it) == len
    ensures Masks(Of(sequences, len), order) == OwnMasks(sequences, order)
  {
    forall it | it in order ensures SeqLen(it) == len {
      assert it in multiset(Of(sequences, len));
    }
  }

  method FillPackingStrategy(assignments: seq<seq<nat>>, sequences: Sequences, packSize: nat,
                             shuffled: int -> seq<Item>)
    returns (r: Result<seq<Pack>, Error>)
    requires Keyed(sequences)
    requires Shuffles(sequences, shuffled)
    ensures r.Err? <==> Contents(assignments, sequences, packSize, shuffled).Err?
    ensures r.Err? ==> Contents(assignments, sequences, packSize, shuffled) == Err(r.error)
    ensures r.Ok? ==> r.value == PacksOf(sequences, Contents(assignments, sequences, packSize, shuffled).value)
  {
    var made := MakeHandles(sequences, packSize, shuffled);
    if made.Err? {
      return Err(made.error);
    }
    var handles := made.value;
    ghost var stock0 := Stocked(sequences, packSize + 1, shuffled);
    ghost var contents, stock := [], stock0;
    var outputData := [];
    for k := 0 to |assignments|
      invariant DrawAll(assignments[..k], stock0) == Ok((contents, stock))
      invariant Holds(handles, sequences, stock)
      invariant outputData == PacksOf(sequences, contents)
    {
      DrawAllNext(assignments, k, stock0);
      var pack;
      pack, handles := FillOne(handles, assignments[k], sequences, stock);
      if pack.Err? {
        DrawAllFails(assignments, k + 1, stock0);
        return Err(pack.error);
      }
      PacksOfNext(sequences, contents, Draw(assignments[k], stock).value.0);
      outputData := outputData + [pack.value];
      contents, stock := contents + [Draw(assignments[k], stock).value.0], Draw(assignments[k], stock).value.1;
    }
    assert assignments[..|assignments|] == assignments;
    if exists len :: len in handles && handles[len].0 != [] {
      return Err(LeftOver);
    }
    return Ok(outputData);
  }

  lemma {:induction false} PacksOfNext(sequences: Sequences, contents: seq<seq<Item>>, items: seq<Item>)
    ensures PacksOf(sequences, contents + [items]) == PacksOf(sequences, contents) + [PackOf(sequences, items)]
  {
  }

  ghost function PacksOf(sequences: Sequences, contents: seq<seq<Item>>): seq<Pack> {
    seq(|contents|, i requires 0 <= i < |contents| => PackOf(sequences, contents[i]))
  }

  lemma {:induction false} DrawAllNext(assignments: seq<seq<nat>>, k: nat, stock: Stock)
    requires k < |assignments|
    ensures DrawAll(assignments[..k], stock).Ok? ==>
      var (contents, rest) := DrawAll(assignments[..k], stock).value;
      DrawAll(assignments[..k + 1], stock)
      == match Draw(assignments[k], rest)
         case Err(e) => Err(e)
         case Ok((items, rest')) => Ok((contents + [items], rest'))
  {
    assert assignments[..k + 1][..k] == assignments[..k];
  }

  lemma {:induction false} DrawAllFails(assignments: seq<seq<nat>>, k: nat, stock: Stock)
    requires k <= |assignments| && DrawAll(assignments[..k], stock).Err?
    ensures DrawAll(assignments, stock) == Err(DrawAll(assignments[..k], stock).error)
  {
    if k == |assignments| {
      assert assignments[..k] == assignments;
    } else {
      var n := |assignments| - 1;
      assert assignments[..n][..k] == assignments[..k];
      DrawAllFails(assignments[..n], k, stock);
    }
  }

  // ----- Cutting a pack gives back its examples -----

  /** The part of a pack that belongs to its i-th example. */
  function Piece<T>(s: seq<T>, starts: seq<nat>, i: nat): seq<T>
    requires i < |starts|
    requires starts[i] <= (if i + 1 < |starts| then starts[i + 1] else |s|) <= |s|
  {
    s[starts[i]..if i + 1 < |starts| then starts[i + 1] else |s|]
  }

  /** A loss mask as long as its tokens, where there is one, is used as long as its tokens. */
  lemma {:induction false} OwnMaskIsAligned(group: seq<Item>, it: Item)
    requires Maskable(group) && it in group && it.inputIds != []
    requires it.lossMask.Some? ==> |it.lossMask.value| == |it.inputIds|
    ensures |MaskIn(group, it)| == |it.inputIds|
  {
    var i :| 0 <= i < |group| && group[i] == it;
  }

  lemma {:induction false} FlattenSlice<T>(ss: seq<seq<T>>, i: nat)
    requires i < |ss|
    ensures |Flatten(ss[..i])| + |ss[i]| == |Flatten(ss[..i + 1])| <= |Flatten(ss)|
    ensures Flatten(ss)[|Flatten(ss[..i])|..|Flatten(ss[..i + 1])|] == ss[i]
  {
    FlattenConcat(ss[..i + 1], ss[i + 1..]);
    assert ss == ss[..i + 1] + ss[i + 1..];
    FlattenSnoc(ss[..i], ss[i]);
    assert ss[..i + 1] == ss[..i] + [ss[i]];
  }

  lemma {:induction false} EqualLengths<A, B>(aa: seq<seq<A>>, bb: seq<seq<B>>)
    requires |aa| == |bb| && forall i :: 0 <= i < |aa| ==> |aa[i]| == |bb[i]|
    ensures |Flatten(aa)| == |Flatten(bb)|
  {
    if aa != [] { EqualLengths(aa[1..], bb[1..]); }
  }

  /** Every example of a pack comes back, tokens and aligned mask, by cutting at seq_start_id. */
  lemma {:induction false} CutGivesBack(sequences: Sequences, items: seq<Item>, i: nat)
    requires i < |items|
    requires forall j :: 0 <= j < |items| ==> |OwnMasks(sequences, items)[j]| == |items[j].inputIds|
    ensures var p := PackOf(sequences, items);
      && |p.seqStartId| == |items| && |p.lossMask| == |p.inputIds|
      && p.seqStartId[i] <= (if i + 1 < |items| then p.seqStartId[i + 1] else |p.inputIds|) <= |p.inputIds|
      && Piece(p.inputIds, p.seqStartId, i) == items[i].inputIds
      && Piece(p.lossMask, p.seqStartId, i) == OwnMasks(sequences, items)[i]
  {
    var ids, masks := Ids(items), OwnMasks(sequences, items);
    forall k | 0 <= k <= |items|
      ensures ids[..k] == Ids(items[..k])
      ensures |Flatten(masks[..k])| == |Flatten(ids[..k])|
    {
      EqualLengths(masks[..k], ids[..k]);
    }
    assert ids[..|items|] == ids && masks[..|items|] == masks;
    FlattenSlice(ids, i);
    FlattenSlice(masks, i);
  }

  // ----- Nothing runs out and nothing is left over -----

  lemma {:induction false} DrawConcat(a: seq<nat>, b: seq<nat>, stock: Stock)
    ensures Draw(a + b, stock)
         == match Draw(a, stock)
            case Err(e) => Err(e)
            case Ok((x, rest)) =>
              match Draw(b, rest)
              case Err(e) => Err(e)
              case Ok((y, rest')) => Ok((x + y, rest'))
  {
    if b == [] {
      assert a + b == a;
      if Draw(a, stock).Ok? { assert Draw(a, stock).value.0 + [] == Draw(a, stock).value.0; }
    } else {
      var n := |b| - 1;
      assert (a + b)[..|a + b| - 1] == a + b[..n];
      DrawConcat(a, b[..n], stock);
      if Draw(a, stock).Ok? {
        var (x, rest) := Draw(a, stock).value;
        if Draw(b, rest).Ok? {
          var (y, rest') := Draw(b[..n], rest).value;
          var last := [rest'[b[n]][|rest'[b[n]]| - 1]];
          assert (x + y) + last == x + (y + last);
        }
      }
    }
  }

  /** Drawing pack by pack is drawing the lengths of all packs in one go. */
  lemma {:induction false} DrawAllIsDraw(assignments: seq<seq<nat>>, stock: Stock)
    ensures Draw(Flatten(assignments), stock)
         == match DrawAll(assignments, stock)
            case Err(e) => Err(e)
            case Ok((contents, rest)) => Ok((Flatten(contents), rest))
  {
    if assignments != [] {
      var n := |assignments| - 1;
      assert assignments == assignments[..n] + [assignments[n]];
      FlattenSnoc(assignments[..n], assignments[n]);
      DrawAllIsDraw(assignments[..n], stock);
      DrawConcat(Flatten(assignments[..n]), assignments[n], stock);
      if DrawAll(assignments[..n], stock).Ok? {
        var (contents, rest) := DrawAll(assignments[..n], stock).value;
        if Draw(assignments[n], rest).Ok? { FlattenSnoc(contents, Draw(assignments[n], rest).value.0); }
      }
    }
  }

  /** How often a length is asked for. */
  function Demand(lens: seq<nat>, len: int): nat {
    if len >= 0 then multiset(lens)[len] else 0
  }

  ghost predicate Enough(lens: seq<nat>, stock: Stock) {
    forall len :: len in lens ==> len in stock && Demand(lens, len) <= |stock[len]|
  }

  /** Draws succeed exactly when each list is long enough, and shorten each list by its demand. */
  lemma {:induction false} DrawEffect(lens: seq<nat>, stock: Stock)
    ensures Draw(lens, stock).Ok? <==> Enough(lens, stock)
    ensures Draw(lens, stock).Ok? ==>
      && Draw(lens, stock).value.1.Keys == stock.Keys
      && forall len :: len in stock ==>
           && Demand(lens, len) <= |stock[len]|
           && Draw(lens, stock).value.1[len] == stock[len][..|stock[len]| - Demand(lens, len)]
  {
    if lens != [] {
      var n := |lens| - 1;
      assert lens == lens[..n] + [lens[n]];
      DrawEffect(lens[..n], stock);
    }
  }

  function Lens(items: seq<Item>): seq<int> {
    seq(|items|, i requires 0 <= i < |items| => SeqLen(items[i]))
  }

  function Count(stock: Stock, it: Item): nat {
    if SeqLen(it) in stock then multiset(stock[SeqLen(it)])[it] else 0
  }

  lemma {:induction false} DrawOneMoves(len: nat, items: seq<Item>, stock: Stock)
    requires Keyed(stock) && DrawOne(len, items, stock).Ok?
    ensures var (items', rest) := DrawOne(len, items, stock).value;
      && Keyed(rest) && Lens(items') == Lens(items) + [len]
      && forall it :: multiset(items')[it] + Count(rest, it) == multiset(items)[it] + Count(stock, it)
  {
    var last := |stock[len]| - 1;
    assert stock[len] == stock[len][..last] + [stock[len][last]];
    assert SeqLen(stock[len][last]) == len;
  }

  lemma {:induction false} DrawKeepsKeyed(lens: seq<nat>, stock: Stock)
    requires Keyed(stock) && Draw(lens, stock).Ok?
    ensures Keyed(Draw(lens, stock).value.1) && Lens(Draw(lens, stock).value.0) == lens
  {
    if lens != [] {
      var n := |lens| - 1;
      DrawKeepsKeyed(lens[..n], stock);
      var (items, rest) := Draw(lens[..n], stock).value;
      DrawOneMoves(lens[n], items, rest);
      assert lens == lens[..n] + [lens[n]];
    }
  }

  /** Each example drawn leaves its list, and has the length asked for. */
  lemma {:induction false} DrawMovesItems(lens: seq<nat>, stock: Stock)
    requires Keyed(stock) && Draw(lens, stock).Ok?
    ensures var (items, rest) := Draw(lens, stock).value;
      && Keyed(rest) && Lens(items) == lens
      && forall it :: multiset(items)[it] + Count(rest, it) == Count(stock, it)
  {
    DrawKeepsKeyed(lens, stock);
    if lens != [] {
      var n := |lens| - 1;
      DrawMovesItems(lens[..n], stock);
      var (items, rest) := Draw(lens[..n], stock).value;
      assert Draw(lens, stock) == DrawOne(lens[n], items, rest);
      DrawOneMoves(lens[n], items, rest);
    }
  }

  lemma {:induction false} DrawAllLens(assignments: seq<seq<nat>>, stock: Stock)
    requires Keyed(stock) && DrawAll(assignments, stock).Ok?
    ensures var (contents, rest) := DrawAll(assignments, stock).value;
      && Keyed(rest) && |contents| == |assignments|
      && forall i :: 0 <= i < |contents| ==> Lens(contents[i]) == assignments[i]
  {
    if assignments != [] {
      var n := |assignments| - 1;
      DrawAllLens(assignments[..n], stock);
      DrawMovesItems(assignments[n], DrawAll(assignments[..n], stock).value.1);
    }
  }

  lemma {:induction false} StockSizes(sequences: Sequences, shuffled: int -> seq<Item>, len: nat)
    requires multiset(shuffled(len)) == multiset(Of(sequences, len))
    ensures |shuffled(len)| == |Of(sequences, len)|
  {
    assert |multiset(shuffled(len))| == |multiset(Of(sequences, len))|;
  }

  /** All is drawn and nothing remains exactly when demand equals supply. */
  lemma {:induction false} DrawEmptiesIff(lens: seq<nat>, stock: Stock)
    requires forall len :: len in stock ==> len >= 0
    ensures (&& Draw(lens, stock).Ok?
             && forall len :: len in Draw(lens, stock).value.1 ==> Draw(lens, stock).value.1[len] == [])
       <==> (forall len: nat :: Demand(lens, len) == if len in stock then |stock[len]| else 0)
  {
    DrawEffect(lens, stock);
    assert forall len: nat :: len !in lens ==> Demand(lens, len) == 0;
    if Draw(lens, stock).Ok? {
      var rest := Draw(lens, stock).value.1;
      assert forall len :: len in rest ==> |rest[len]| == |stock[len]| - Demand(lens, len);
    }
  }

  /** Filling succeeds exactly when the masks can be built and supply meets demand, length by length. */
  lemma {:induction false} FillingSucceedsIff(assignments: seq<seq<nat>>, sequences: Sequences, packSize: nat,
                                              shuffled: int -> seq<Item>)
    requires Shuffles(sequences, shuffled)
    ensures Contents(assignments, sequences, packSize, shuffled).Ok? <==>
      (AllMaskable(sequences, packSize + 1)
       && forall len: nat :: Demand(Flatten(assignments), len) == if len <= packSize then |Of(sequences, len)| else 0)
  {
    var stock := Stocked(sequences, packSize + 1, shuffled);
    DrawAllIsDraw(assignments, stock);
    DrawEmptiesIff(Flatten(assignments), stock);
    forall len: nat
      ensures (if len in stock then |stock[len]| else 0) == if len <= packSize then |Of(sequences, len)| else 0
    {
      StockSizes(sequences, shuffled, len);
    }
  }

  /** How many examples of a length the packs can be filled with. */
  function Supply(sequences: Sequences, packSize: nat, len: nat): nat {
    if len <= packSize then |Of(sequences, len)| else 0
  }

  /** The i-th length asked for is asked for once too often. */
  ghost predicate RunsShort(lens: seq<nat>, i: nat, sequences: Sequences, packSize: nat)
    requires i < |lens|
  {
    Demand(lens[..i + 1], lens[i]) > Supply(sequences, packSize, lens[i])
  }

  lemma {:induction false} NotShortYet(lens: seq<nat>, i: nat, sequences: Sequences, packSize: nat)
    requires i <= |lens| && forall j :: 0 <= j < i ==> !RunsShort(lens, j, sequences, packSize)
    ensures forall len: nat :: Demand(lens[..i], len) <= Supply(sequences, packSize, len)
  {
    if i > 0 {
      NotShortYet(lens, i - 1, sequences, packSize);
      assert !RunsShort(lens, i - 1, sequences, packSize);
      assert lens[..i] == lens[..i - 1] + [lens[i - 1]];
    }
  }

  lemma {:induction false} StockSupplies(sequences: Sequences, packSize: nat, shuffled: int -> seq<Item>, len: nat)
    requires multiset(shuffled(len)) == multiset(Of(sequences, len))
    ensures var stock := Stocked(sequences, packSize + 1, shuffled);
      && (len in stock <==> Supply(sequences, packSize, len) > 0)
      && (len in stock ==> |stock[len]| == Supply(sequences, packSize, len))
  {
    StockSizes(sequences, shuffled, len);
  }

  lemma {:induction false} EnoughSoFar(lens: seq<nat>, i: nat, sequences: Sequences, packSize: nat,
                                       shuffled: int -> seq<Item>)
    requires Shuffles(sequences, shuffled)
    requires i <= |lens| && forall j :: 0 <= j < i ==> !RunsShort(lens, j, sequences, packSize)
    ensures Draw(lens[..i], Stocked(sequences, packSize + 1, shuffled)).Ok?
  {
    var stock := Stocked(sequences, packSize + 1, shuffled);
    NotShortYet(lens, i, sequences, packSize);
    forall len: nat | len in lens[..i] ensures len in stock && Demand(lens[..i], len) <= |stock[len]| {
      StockSupplies(sequences, packSize, shuffled, len);
      assert Demand(lens[..i], len) > 0;
    }
    DrawEffect(lens[..i], stock);
  }

  lemma {:induction false} DrawRunsShort(lens: seq<nat>, i: nat, sequences: Sequences, packSize: nat,
                                         shuffled: int -> seq<Item>)
    requires Shuffles(sequences, shuffled)
    requires i < |lens| && RunsShort(lens, i, sequences, packSize)
    requires forall j :: 0 <= j < i ==> !RunsShort(lens, j, sequences, packSize)
    ensures Draw(lens, Stocked(sequences, packSize + 1, shuffled))
         == Err(if Supply(sequences, packSize, lens[i]) == 0 then KeyError else IndexError)
  {
    var stock := Stocked(sequences, packSize + 1, shuffled);
    EnoughSoFar(lens, i, sequences, packSize, shuffled);
    StockSupplies(sequences, packSize, shuffled, lens[i]);
    NotShortYet(lens, i, sequences, packSize);
    assert lens[..i + 1] == lens[..i] + [lens[i]];
    DrawUsedUp(lens, i, stock);
  }

  lemma {:induction false} DrawUsedUp(lens: seq<nat>, i: nat, stock: Stock)
    requires i < |lens| && Draw(lens[..i], stock).Ok?
    requires lens[i] in stock ==> Demand(lens[..i], lens[i]) == |stock[lens[i]]|
    ensures Draw(lens, stock) == Err(if lens[i] in stock then IndexError else KeyError)
  {
    DrawEffect(lens[..i], stock);
    DrawNext(lens, i, stock);
    DrawFails(lens, i + 1, stock);
  }

  /**
   * Which error filling ends with: masks missing in some group; or, at the first length asked for once too often,
   * KeyError when there is no example of that length and IndexError when they are used up; or examples left over.
   */
  lemma {:induction false} FillingErrors(assignments: seq<seq<nat>>, sequences: Sequences, packSize: nat,
                                         shuffled: int -> seq<Item>)
    requires Shuffles(sequences, shuffled)
    ensures var lens, r := Flatten(assignments), Contents(assignments, sequences, packSize, shuffled);
      && (!AllMaskable(sequences, packSize + 1) ==> r == Err(MissingMask))
      && (AllMaskable(sequences, packSize + 1) ==>
            && (forall i :: (&& 0 <= i < |lens| && RunsShort(lens, i, sequences, packSize)
                             && forall j :: 0 <= j < i ==> !RunsShort(lens, j, sequences, packSize)) ==>
                  r == Err(if Supply(sequences, packSize, lens[i]) == 0 then KeyError else IndexError))
            && ((forall i :: 0 <= i < |lens| ==> !RunsShort(lens, i, sequences, packSize)) ==>
                  r.Ok? || r == Err(LeftOver)))
  {
    var lens := Flatten(assignments);
    DrawAllIsDraw(assignments, Stocked(sequences, packSize + 1, shuffled));
    forall i | && 0 <= i < |lens| && RunsShort(lens, i, sequences, packSize)
               && forall j :: 0 <= j < i ==> !RunsShort(lens, j, sequences, packSize)
      ensures Draw(lens, Stocked(sequences, packSize + 1, shuffled))
           == Err(if Supply(sequences, packSize, lens[i]) == 0 then KeyError else IndexError)
    {
      DrawRunsShort(lens, i, sequences, packSize, shuffled);
    }
    if forall i :: 0 <= i < |lens| ==> !RunsShort(lens, i, sequences, packSize) {
      EnoughSoFar(lens, |lens|, sequences, packSize, shuffled);
      assert lens[..|lens|] == lens;
    }
  }

  // ----- End to end -----

  lemma {:induction false} GroupCounts(dataset: seq<Item>, len: int)
    ensures forall it :: multiset(Group(dataset, len))[it] == if SeqLen(it) == len then multiset(dataset)[it] else 0
  {
    if dataset != [] {
      var n := |dataset| - 1;
      GroupCounts(dataset[..n], len);
      assert dataset == dataset[..n] + [dataset[n]];
    }
  }

  /** The group holds the examples of its length in dataset order: at increasing places, and at all of them. */
  ghost predicate ListedAt(dataset: seq<Item>, len: int, group: seq<Item>, places: seq<nat>) {
    && |places| == |group|
    && (forall t, u :: 0 <= t < u < |places| ==> places[t] < places[u])
    && (forall t :: 0 <= t < |places| ==> places[t] < |dataset| && group[t] == dataset[places[t]])
    && (forall t :: 0 <= t < |group| ==> SeqLen(group[t]) == len)
    && (forall i: nat :: i < |dataset| && SeqLen(dataset[i]) == len ==> i in places)
  }

  lemma {:induction false} GroupKeepsOrder(dataset: seq<Item>, len: int) returns (places: seq<nat>)
    ensures ListedAt(dataset, len, Group(dataset, len), places)
  {
    if dataset == [] {
      places := [];
    } else {
      var n := |dataset| - 1;
      assert dataset == dataset[..n] + [dataset[n]];
      places := GroupKeepsOrder(dataset[..n], len);
      if SeqLen(dataset[n]) == len {
        places := places + [n];
      }
    }
  }

  lemma {:induction false} GroupEmptyIff(dataset: seq<Item>, len: int)
    ensures Group(dataset, len) == [] <==> forall it :: it in dataset ==> SeqLen(it) != len
  {
    GroupCounts(dataset, len);
    var g := Group(dataset, len);
    if g != [] { assert g[0] in multiset(g) && g[0] in multiset(dataset); }
    forall it | it in dataset && SeqLen(it) == len ensures it in g {
      assert it in multiset(dataset) && it in multiset(g);
    }
  }

  lemma {:induction false} HistogramDemand(dataset: seq<Item>, truncateSeqLen: nat, packSize: nat,
                                           algorithm: Algorithm, shuffledLens: seq<nat>, len: nat)
    requires multiset(shuffledLens) == multiset(Expand(Histogram(dataset, truncateSeqLen)))
    requires Strategy(Histogram(dataset, truncateSeqLen), packSize, algorithm, shuffledLens).Ok?
    requires forall it :: it in dataset ==> SeqLen(it) <= truncateSeqLen
    ensures Demand(Flatten(Strategy(Histogram(dataset, truncateSeqLen), packSize, algorithm, shuffledLens).value), len)
         == |Group(dataset, len)|
  {
    StrategyCounts(Histogram(dataset, truncateSeqLen), packSize, algorithm, shuffledLens);
    ExpandCounts(Histogram(dataset, truncateSeqLen));
    GroupEmptyIff(dataset, len);
  }

  /**
   * The whole pipeline, for any shuffles: filling succeeds exactly when no sequence is longer
   * than a pack, and then each pack holds examples of exactly the assigned lengths.
   */
  lemma {:induction false} PipelineSucceedsIff(dataset: seq<Item>, truncateSeqLen: nat, packSize: nat,
                                               algorithm: Algorithm, shuffledLens: seq<nat>,
                                               sequences: Sequences, shuffled: int -> seq<Item>)
    requires forall it :: it in dataset ==> SeqLen(it) <= truncateSeqLen
    requires Grouped(sequences, dataset) && AllMaskable(sequences, packSize + 1)
    requires multiset(shuffledLens) == multiset(Expand(Histogram(dataset, truncateSeqLen)))
    requires Shuffles(sequences, shuffled)
    requires Expand(Histogram(dataset, truncateSeqLen)) != [] && packSize > 0
    ensures Strategy(Histogram(dataset, truncateSeqLen), packSize, algorithm, shuffledLens).Ok?
    ensures var assignments := Strategy(Histogram(dataset, truncateSeqLen), packSize, algorithm, shuffledLens).value;
      Contents(assignments, sequences, packSize, shuffled).Ok?
      <==> forall it :: it in dataset ==> SeqLen(it) <= packSize
  {
    var assignments := Strategy(Histogram(dataset, truncateSeqLen), packSize, algorithm, shuffledLens).value;
    FillingSucceedsIff(assignments, sequences, packSize, shuffled);
    forall len: nat
      ensures Demand(Flatten(assignments), len) == |Group(dataset, len)|
      ensures Group(dataset, len) == [] <==> forall it :: it in dataset ==> SeqLen(it) != len
    {
      HistogramDemand(dataset, truncateSeqLen, packSize, algorithm, shuffledLens, len);
      GroupEmptyIff(dataset, len);
    }
    if it :| it in dataset && SeqLen(it) > packSize {
      assert Group(dataset, SeqLen(it)) != [];
      assert Demand(Flatten(assignments), SeqLen(it)) != 0;
    }
  }

  /** The packs hold every example with at least one token, as often as the dataset does, and nothing else. */
  lemma {:induction false} PipelineKeepsExamples(dataset: seq<Item>, packSize: nat, assignments: seq<seq<nat>>,
                                                 sequences: Sequences, shuffled: int -> seq<Item>)
    requires Grouped(sequences, dataset)
    requires forall it :: it in dataset ==> SeqLen(it) <= packSize
    requires Shuffles(sequences, shuffled)
    requires Contents(assignments, sequences, packSize, shuffled).Ok?
    ensures var contents := Contents(assignments, sequences, packSize, shuffled).value;
      && |contents| == |assignments|
      && (forall i :: 0 <= i < |contents| ==> Lens(contents[i]) == assignments[i])
      && (forall it :: multiset(Flatten(contents))[it] == if it.inputIds == [] then 0 else multiset(dataset)[it])
  {
    var stock := Stocked(sequences, packSize + 1, shuffled);
    var (contents, rest) := DrawAll(assignments, stock).value;
    StockIsKeyed(dataset, packSize, sequences, shuffled);
    DrawAllLens(assignments, stock);
    DrawAllIsDraw(assignments, stock);
    DrawMovesItems(Flatten(assignments), stock);
    forall it
      ensures multiset(Flatten(contents))[it] == if it.inputIds == [] then 0 else multiset(dataset)[it]
    {
      StockHolds(dataset, packSize, sequences, shuffled, it);
      assert Count(rest, it) == 0;
    }
  }

  lemma {:induction false} StockIsKeyed(dataset: seq<Item>, packSize: nat, sequences: Sequences,
                                        shuffled: int -> seq<Item>)
    requires Grouped(sequences, dataset)
    requires Shuffles(sequences, shuffled)
    ensures Keyed(Stocked(sequences, packSize + 1, shuffled))
  {
    var stock := Stocked(sequences, packSize + 1, shuffled);
    forall len, it | len in stock && it in stock[len]
      ensures SeqLen(it) == len
    {
      GroupCounts(dataset, len);
      assert it in multiset(shuffled(len));
      assert multiset(Of(sequences, len))[it] > 0;
    }
  }

  lemma {:induction false} StockHolds(dataset: seq<Item>, packSize: nat, sequences: Sequences,
                                      shuffled: int -> seq<Item>, it: Item)
    requires Grouped(sequences, dataset)
    requires forall it :: it in dataset ==> SeqLen(it) <= packSize
    requires Shuffles(sequences, shuffled)
    ensures Count(Stocked(sequences, packSize + 1, shuffled), it)
         == if it.inputIds == [] then 0 else multiset(dataset)[it]
  {
    var len := SeqLen(it);
    GroupCounts(dataset, len);
    GroupEmptyIff(dataset, len);
    assert multiset(shuffled(len))[it] == multiset(Group(dataset, len))[it];
    if it !in dataset { assert multiset(dataset)[it] == 0; }
  }

  /** The dataset survives packing exactly when it holds no example without tokens. */
  lemma {:induction false} PipelineKeepsDatasetIff(dataset: seq<Item>, packSize: nat, assignments: seq<seq<nat>>,
                                                   sequences: Sequences, shuffled: int -> seq<Item>)
    requires Grouped(sequences, dataset)
    requires forall it :: it in dataset ==> SeqLen(it) <= packSize
    requires Shuffles(sequences, shuffled)
    requires Contents(assignments, sequences, packSize, shuffled).Ok?
    ensures multiset(Flatten(Contents(assignments, sequences, packSize, shuffled).value)) == multiset(dataset)
       <==> forall it :: it in dataset ==> it.inputIds != []
  {
    PipelineKeepsExamples(dataset, packSize, assignments, sequences, shuffled);
    if it :| it in dataset && it.inputIds == [] {
      assert it in multiset(dataset);
    }
  }

  /** A pack has one token more per example than its bin counts. */
  lemma {:induction false} PackTokens(sequences: Sequences, items: seq<Item>, assignment: seq<nat>)
    requires Lens(items) == assignment
    ensures |PackOf(sequences, items).inputIds| == FirstFit.Sum(assignment) + |assignment|
  {
    if items != [] {
      var n := |items| - 1;
      assert items == items[..n] + [items[n]] && assignment == assignment[..n] + [assignment[n]];
      assert forall i :: 0 <= i < n ==> Lens(items[..n])[i] == Lens(items)[i];
      PackTokens(sequences, items[..n], assignment[..n]);
      AppendItem(sequences, items[..n], items[n]);
      FirstFit.SumSnoc(assignment[..n], assignment[n]);
      assert Lens(items)[n] == assignment[n];
    }
  }

  // ----- The round trip -----

  /** What a reader gets from a pack by cutting it at seq_start_id: tokens with their loss mask. */
  function Pieces(p: Pack): seq<(seq<int>, seq<bool>)> {
    seq(|p.seqStartId|, i requires 0 <= i < |p.seqStartId| => PieceAt(p, i))
  }

  function PieceAt(p: Pack, i: nat): (seq<int>, seq<bool>)
    requires i < |p.seqStartId|
  {
    var end := if i + 1 < |p.seqStartId| then p.seqStartId[i + 1] else |p.inputIds|;
    if p.seqStartId[i] <= end
    then (Slice(p.inputIds, p.seqStartId[i], end), Slice(p.lossMask, p.seqStartId[i], end)) else ([], [])
  }

  function AllPieces(packs: seq<Pack>): seq<(seq<int>, seq<bool>)> {
    if packs == [] then []
    else AllPieces(packs[..|packs| - 1]) + Pieces(packs[|packs| - 1])
  }

  /** An example as it should come back. */
  ghost function Example(sequences: Sequences, it: Item): (seq<int>, seq<bool>) {
    (it.inputIds, MaskIn(Of(sequences, SeqLen(it)), it))
  }

  ghost function Examples(sequences: Sequences, items: seq<Item>): seq<(seq<int>, seq<bool>)> {
    seq(|items|, i requires 0 <= i < |items| => Example(sequences, items[i]))
  }

  /** Every example has tokens, and a loss mask of their number unless it has none. */
  ghost predicate WellFormed(items: seq<Item>) {
    forall it :: it in items ==> it.inputIds != [] && (it.lossMask.Some? ==> |it.lossMask.value| == |it.inputIds|)
  }

  /** Every example of the dataset with n tokens has a loss mask. */
  ghost predicate AllHaveMask(dataset: seq<Item>, n: nat) {
    forall it :: it in dataset && |it.inputIds| == n ==> it.lossMask.Some?
  }

  /** Whether the dataset has the model trained on token k + 1 of the example, which is the label at place k. */
  ghost predicate TrainsOn(dataset: seq<Item>, it: Item, k: nat) {
    if AllHaveMask(dataset, |it.inputIds|)
    then it.lossMask.Some? && k + 1 < |it.lossMask.value| && it.lossMask.value[k + 1]
    else it.answerStart.Some? && k + 1 >= it.answerStart.value
  }

  /** An example as the dataset has it: its tokens, and for each place whether its label is trained on. */
  ghost function Labelled(dataset: seq<Item>, it: Item): (seq<int>, seq<bool>) {
    (it.inputIds, seq(|it.inputIds|, k requires k >= 0 => TrainsOn(dataset, it, k)))
  }

  ghost function LabelledAll(dataset: seq<Item>): seq<(seq<int>, seq<bool>)> {
    seq(|dataset|, i requires 0 <= i < |dataset| => Labelled(dataset, dataset[i]))
  }

  lemma {:induction false} GroupHasMaskIff(dataset: seq<Item>, n: nat)
    ensures HaveMask(Group(dataset, n - 1)) <==> AllHaveMask(dataset, n)
  {
    var group := Group(dataset, n - 1);
    GroupCounts(dataset, n - 1);
    forall it ensures it in group <==> it in dataset && |it.inputIds| == n {
      assert it in multiset(group) <==> it in multiset(dataset) && SeqLen(it) == n - 1;
    }
  }

  /** The mask that the packs carry says what the dataset says. */
  lemma {:induction false} ExampleIsLabelled(dataset: seq<Item>, sequences: Sequences, it: Item)
    requires Grouped(sequences, dataset) && WellFormed(dataset) && it in dataset
    requires Maskable(Of(sequences, SeqLen(it)))
    ensures Example(sequences, it) == Labelled(dataset, it)
  {
    var group := Of(sequences, SeqLen(it));
    assert group == Group(dataset, SeqLen(it));
    GroupHasMaskIff(dataset, |it.inputIds|);
    MemberOfGroup(dataset, it);
    OwnMaskIsAligned(group, it);
    if it.lossMask.Some? { RollAt(it.lossMask.value); }
    assert MaskIn(group, it) == Labelled(dataset, it).1;
  }

  lemma {:induction false} ExamplesAreLabelled(dataset: seq<Item>, packSize: nat, sequences: Sequences)
    requires Grouped(sequences, dataset) && WellFormed(dataset) && AllMaskable(sequences, packSize + 1)
    requires forall it :: it in dataset ==> SeqLen(it) <= packSize
    ensures Examples(sequences, dataset) == LabelledAll(dataset)
  {
    forall i | 0 <= i < |dataset| ensures Example(sequences, dataset[i]) == Labelled(dataset, dataset[i]) {
      assert dataset[i] in dataset;
      ExampleIsLabelled(dataset, sequences, dataset[i]);
    }
  }

  lemma {:induction false} PiecesOfPack(sequences: Sequences, items: seq<Item>)
    requires forall j :: 0 <= j < |items| ==> |OwnMasks(sequences, items)[j]| == |items[j].inputIds|
    ensures Pieces(PackOf(sequences, items)) == Examples(sequences, items)
  {
    forall i | 0 <= i < |items| ensures PieceAt(PackOf(sequences, items), i) == Example(sequences, items[i]) {
      CutGivesBack(sequences, items, i);
    }
  }

  lemma {:induction false} PiecesOfAll(sequences: Sequences, contents: seq<seq<Item>>)
    requires forall it :: it in Flatten(contents) ==> |MaskIn(Of(sequences, SeqLen(it)), it)| == |it.inputIds|
    ensures AllPieces(PacksOf(sequences, contents)) == Examples(sequences, Flatten(contents))
  {
    if contents != [] {
      var n := |contents| - 1;
      var before, items := contents[..n], contents[n];
      assert contents == before + [items];
      FlattenSnoc(before, items);
      assert forall it :: it in Flatten(before) || it in items ==> it in Flatten(contents);
      PacksOfNext(sequences, before, items);
      PiecesOfAll(sequences, before);
      PiecesOfPack(sequences, items);
      ExamplesConcat(sequences, Flatten(before), items);
    }
  }

  lemma {:induction false} ExamplesConcat(sequences: Sequences, a: seq<Item>, b: seq<Item>)
    ensures Examples(sequences, a + b) == Examples(sequences, a) + Examples(sequences, b)
  {
  }

  ghost function Is(sequences: Sequences, e: (seq<int>, seq<bool>)): Item -> nat {
    it => if Example(sequences, it) == e then 1 else 0
  }

  lemma {:induction false} ExampleCounts(sequences: Sequences, items: seq<Item>, e: (seq<int>, seq<bool>))
    ensures multiset(Examples(sequences, items))[e] == Weight(items, Is(sequences, e))
  {
    if items != [] {
      var n := |items| - 1;
      assert items == items[..n] + [items[n]];
      ExampleCounts(sequences, items[..n], e);
      WeightSnoc(items[..n], items[n], Is(sequences, e));
      ExamplesSnoc(sequences, items[..n], items[n], e);
    }
  }

  lemma {:induction false} ExamplesSnoc(sequences: Sequences, items: seq<Item>, it: Item, e: (seq<int>, seq<bool>))
    ensures multiset(Examples(sequences, items + [it]))[e]
         == multiset(Examples(sequences, items))[e] + Is(sequences, e)(it)
  {
    assert Examples(sequences, items + [it]) == Examples(sequences, items) + [Example(sequences, it)];
  }

  /**
   * The whole round trip, for any shuffles: cutting the packs that FillPackingStrategy returns gives
   * back every example of the dataset, its tokens and which of its labels are trained on, as often as the
   * dataset holds it.
   */
  lemma {:induction false} PackingRoundTrip(dataset: seq<Item>, packSize: nat, assignments: seq<seq<nat>>,
                                            sequences: Sequences, shuffled: int -> seq<Item>)
    requires Grouped(sequences, dataset) && WellFormed(dataset)
    requires forall it :: it in dataset ==> SeqLen(it) <= packSize
    requires Shuffles(sequences, shuffled)
    requires Contents(assignments, sequences, packSize, shuffled).Ok?
    ensures var packs := PacksOf(sequences, Contents(assignments, sequences, packSize, shuffled).value);
      multiset(AllPieces(packs)) == multiset(LabelledAll(dataset))
  {
    var contents := Contents(assignments, sequences, packSize, shuffled).value;
    var items := Flatten(contents);
    PipelineKeepsDatasetIff(dataset, packSize, assignments, sequences, shuffled);
    assert multiset(items) == multiset(dataset);
    forall it | it in items
      ensures |MaskIn(Of(sequences, SeqLen(it)), it)| == |it.inputIds|
    {
      assert it in multiset(dataset);
      MemberOfGroup(dataset, it);
      OwnMaskIsAligned(Of(sequences, SeqLen(it)), it);
    }
    PiecesOfAll(sequences, contents);
    forall e ensures multiset(Examples(sequences, items))[e] == multiset(Examples(sequences, dataset))[e] {
      ExampleCounts(sequences, items, e);
      ExampleCounts(sequences, dataset, e);
      WeightPermutation(items, dataset, Is(sequences, e));
    }
    ExamplesAreLabelled(dataset, packSize, sequences);
  }

  /**
   * The whole pipeline, for any algorithm and shuffles: from a dataset of examples with tokens, none longer
   * than the truncation length and so none longer than a pack, histogram, assignment and filling succeed, and
   * cutting the packs gives back every example, its tokens and which of its labels are trained on, exactly once.
   */
  lemma {:induction false} PipelineRoundTrip(dataset: seq<Item>, truncateSeqLen: nat, packSize: nat,
                                             algorithm: Algorithm, shuffledLens: seq<nat>,
                                             sequences: Sequences, shuffled: int -> seq<Item>)
    requires dataset != [] && WellFormed(dataset) && truncateSeqLen <= packSize && packSize > 0
    requires forall it :: it in dataset ==> SeqLen(it) <= truncateSeqLen
    requires Grouped(sequences, dataset) && AllMaskable(sequences, packSize + 1)
    requires multiset(shuffledLens) == multiset(Expand(Histogram(dataset, truncateSeqLen)))
    requires Shuffles(sequences, shuffled)
    ensures var strategy := Strategy(Histogram(dataset, truncateSeqLen), packSize, algorithm, shuffledLens);
      && strategy.Ok?
      && var contents := Contents(strategy.value, sequences, packSize, shuffled);
         && contents.Ok?
         && multiset(AllPieces(PacksOf(sequences, contents.value))) == multiset(LabelledAll(dataset))
  {
    SomeLength(dataset, truncateSeqLen);
    PipelineSucceedsIff(dataset, truncateSeqLen, packSize, algorithm, shuffledLens, sequences, shuffled);
    var assignments := Strategy(Histogram(dataset, truncateSeqLen), packSize, algorithm, shuffledLens).value;
    PackingRoundTrip(dataset, packSize, assignments, sequences, shuffled);
  }

  lemma {:induction false} SomeLength(dataset: seq<Item>, truncateSeqLen: nat)
    requires dataset != [] && dataset[0].inputIds != [] && SeqLen(dataset[0]) <= truncateSeqLen
    ensures Expand(Histogram(dataset, truncateSeqLen)) != []
  {
    var len: nat := SeqLen(dataset[0]);
    MemberOfGroup(dataset, dataset[0]);
    ExpandCounts(Histogram(dataset, truncateSeqLen));
    assert multiset(Expand(Histogram(dataset, truncateSeqLen)))[len] > 0;
  }

  lemma {:induction false} MemberOfGroup(dataset: seq<Item>, it: Item)
    requires it in dataset
    ensures it in Group(dataset, SeqLen(it))
  {
    GroupCounts(dataset, SeqLen(it));
    assert it in multiset(dataset);
    assert it in multiset(Group(dataset, SeqLen(it)));
  }
}
