// Splitting a dictionary batch into microbatches (nemo/utils/megatron_utils.py).

module Microbatches {
  import opened Division
  import opened Lists

  /** A value of the batch: only tensors and lists are kept. */
  datatype Item<T> = Tensor(rows: seq<T>) | ListItem(rows: seq<T>) | Other

  type Batch<T> = seq<(string, Item<T>)>

  datatype Error = IndexError | ZeroDivision | ValueError | AssertionError | RuntimeError

  // ----- Chunks of one value -----

  function Min(a: nat, b: nat): nat { if a < b then a else b }

  /** Where chunk j of n // k rows starts. */
  function ListStart(n: nat, k: nat, j: nat): nat
    requires k > 0
  {
    Times(j, Quot(n, k))
  }

  /** torch.tensor_split: the first n % k chunks have one row more. */
  function Start(n: nat, k: nat, j: nat): nat
    requires k > 0
  {
    ListStart(n, k, j) + Min(j, Rest(n, k))
  }

  function Size(n: nat, k: nat, j: nat): nat
    requires k > 0
  {
    Quot(n, k) + if j < Rest(n, k) then 1 else 0
  }

  function TensorSplit<T>(rows: seq<T>, k: nat): seq<seq<T>>
    requires k > 0
  {
    seq(k, j requires j >= 0 => Slice(rows, Start(|rows|, k, j), Start(|rows|, k, j) + Size(|rows|, k, j)))
  }

  /** Chunks of the given size, the last one possibly shorter. */
  function Chunks<T>(rows: seq<T>, size: nat): seq<seq<T>>
    requires size > 0
    decreases |rows|
  {
    if rows == [] then []
    else if |rows| <= size then [rows]
    else [rows[..size]] + Chunks(rows[size..], size)
  }

  /** split_list: chunks of len // k rows, as many as it takes. */
  function SplitList<T>(rows: seq<T>, k: nat, enforce: bool): Result<seq<seq<T>>, Error>
    requires k > 0
  {
    var size := Quot(|rows|, k);
    if size == 0 then Err(if enforce then ZeroDivision else ValueError)
    else if enforce && Rest(|rows|, size) != 0 then Err(AssertionError)
    else Ok(Chunks(rows, size))
  }

  // ----- The batch -----

  function Tensors<T>(batch: Batch<T>): seq<(string, seq<T>)> {
    if batch == [] then []
    else (if batch[0].1.Tensor? then [(batch[0].0, batch[0].1.rows)] else []) + Tensors(batch[1..])
  }

  function ListItems<T>(batch: Batch<T>): seq<(string, seq<T>)> {
    if batch == [] then []
    else (if batch[0].1.ListItem? then [(batch[0].0, batch[0].1.rows)] else []) + ListItems(batch[1..])
  }

  type Chunked<T> = seq<(string, seq<seq<T>>)>

  /** Tensor chunks, cut to n // k rows when the first tensor does not divide evenly. */
  function SplitTensors<T>(items: seq<(string, seq<T>)>, k: nat, cut: Option<nat>): Chunked<T>
    requires k > 0
  {
    seq(|items|, i requires 0 <= i < |items| => (items[i].0, CutAll(TensorSplit(items[i].1, k), cut)))
  }

  function CutAll<T>(chunks: seq<seq<T>>, cut: Option<nat>): seq<seq<T>> {
    if cut == None then chunks
    else seq(|chunks|, j requires 0 <= j < |chunks| => Slice(chunks[j], 0, cut.value))
  }

  function SplitLists<T>(items: seq<(string, seq<T>)>, k: nat, enforce: bool): Result<Chunked<T>, Error>
    requires k > 0
  {
    if items == [] then Ok([])
    else
      match SplitList(items[0].1, k, enforce)
      case Err(e) => Err(e)
      case Ok(chunks) =>
        match SplitLists(items[1..], k, enforce)
        case Err(e) => Err(e)
        case Ok(rest) => Ok([(items[0].0, chunks)] + rest)
  }

  /** The dictionary of the j-th chunks; a later entry replaces an earlier one of the same key. */
  function Gather<T>(chunked: Chunked<T>, j: nat): map<string, seq<T>>
    requires forall i :: 0 <= i < |chunked| ==> j < |chunked[i].1|
  {
    if chunked == [] then map[]
    else
      var n := |chunked| - 1;
      Gather(chunked[..n], j)[chunked[n].0 := chunked[n].1[j]]
  }

  /** The k dictionaries; the error is an item with fewer chunks. */
  function Assemble<T>(chunked: Chunked<T>, k: nat): Result<seq<map<string, seq<T>>>, Error> {
    if exists i :: 0 <= i < |chunked| && |chunked[i].1| < k then Err(IndexError)
    else Ok(seq(k, j requires 0 <= j < k => Gather(chunked, j)))
  }

  function KSplit<T>(batch: Batch<T>, k: nat, enforce: bool): Result<seq<map<string, seq<T>>>, Error> {
    var tensors := Tensors(batch);
    if tensors == [] then Err(IndexError)
    else if k == 0 then Err(if enforce then ZeroDivision else RuntimeError)
    else
      var n := |tensors[0].1|;
      if enforce && Rest(n, k) != 0 then Err(ValueError)
      else
        var cut := if Rest(n, k) != 0 then Some(Quot(n, k)) else None;
        match SplitLists(ListItems(batch), k, enforce)
        case Err(e) => Err(e)
        case Ok(lists) => Assemble(SplitTensors(tensors, k, cut) + lists, k)
  }

  // ----- Where the chunks lie -----

  lemma {:induction false} StartGrows(n: nat, k: nat, j: nat)
    requires k > 0 && j <= k
    ensures Start(n, k, 0) == 0
    ensures Start(n, k, j) <= Start(n, k, k) == n
  {
    QuotTimesRest(n, k);
    TimesCommutes(k, Quot(n, k));
    TimesGrows(j, k, Quot(n, k));
  }

  /** Each tensor chunk reaches from its start to the next one. */
  lemma {:induction false} TensorChunk<T>(rows: seq<T>, k: nat, j: nat)
    requires j < k
    ensures Start(|rows|, k, j) + Size(|rows|, k, j) == Start(|rows|, k, j + 1)
    ensures Occurs(rows, Start(|rows|, k, j), TensorSplit(rows, k)[j])
    ensures |TensorSplit(rows, k)[j]| == Size(|rows|, k, j)
  {
    StartGrows(|rows|, k, j + 1);
  }

  /** tensor_split loses nothing, whatever the sizes. */
  lemma {:induction false} TensorSplitCovers<T>(rows: seq<T>, k: nat)
    requires k > 0
    ensures Flatten(TensorSplit(rows, k)) == rows
    ensures forall j :: 0 <= j < k ==> |TensorSplit(rows, k)[j]| == Size(|rows|, k, j)
  {
    var cuts := seq(k + 1, j requires j >= 0 => Start(|rows|, k, j));
    forall j | 0 <= j < k
      ensures Occurs(rows, cuts[j], TensorSplit(rows, k)[j])
      ensures |TensorSplit(rows, k)[j]| == Size(|rows|, k, j) == cuts[j + 1] - cuts[j]
    {
      TensorChunk(rows, k, j);
    }
    StartGrows(|rows|, k, k);
    FlattenCuts(rows, TensorSplit(rows, k), cuts);
  }

  lemma {:induction false} EvenSize(n: nat, k: nat)
    requires k > 0 && n > 0 && Rest(n, k) == 0
    ensures Quot(n, k) > 0 && Rest(n, Quot(n, k)) == 0
  {
    QuotTimesRest(n, k);
    TimesCommutes(k, Quot(n, k));
    MultipleHasNoRest(k, Quot(n, k));
  }

  lemma {:induction false} ChunkAt<T>(rows: seq<T>, size: nat, j: nat)
    requires size > 0 && Times(j, size) + size <= |rows|
    ensures j < |Chunks(rows, size)| && |Chunks(rows, size)[j]| == size
    ensures Occurs(rows, Times(j, size), Chunks(rows, size)[j])
    decreases j
  {
    if j > 0 {
      ChunkAt(rows[size..], size, j - 1);
    }
  }

  /** The first k list chunks of n // k rows are complete. */
  lemma {:induction false} ListChunk<T>(rows: seq<T>, k: nat, j: nat)
    requires j < k && Quot(|rows|, k) > 0
    ensures var size := Quot(|rows|, k);
      && k <= |Chunks(rows, size)| && |Chunks(rows, size)[j]| == size
      && Occurs(rows, ListStart(|rows|, k, j), Chunks(rows, size)[j])
  {
    var size := Quot(|rows|, k);
    StartGrows(|rows|, k, k);
    TimesGrows(j + 1, k, size);
    ChunkAt(rows, size, k - 1);
    ChunkAt(rows, size, j);
  }

  /** With k dividing the rows, tensors and lists are cut at the same places. */
  lemma {:induction false} EvenChunks<T>(rows: seq<T>, k: nat, j: nat)
    requires j < k && |rows| > 0 && Rest(|rows|, k) == 0
    ensures var n, size := |rows|, Quot(|rows|, k);
      && size > 0 && j < |Chunks(rows, size)| && TensorSplit(rows, k)[j] == Chunks(rows, size)[j]
      && |TensorSplit(rows, k)[j]| == size && Occurs(rows, ListStart(n, k, j), TensorSplit(rows, k)[j])
  {
    EvenSize(|rows|, k);
    ListChunk(rows, k, j);
    TensorChunk(rows, k, j);
  }

  lemma {:induction false} CutChunk<T>(rows: seq<T>, k: nat, j: nat)
    requires j < k
    ensures var n, size := |rows|, Quot(|rows|, k);
      && |CutAll(TensorSplit(rows, k), Some(size))[j]| == size
      && Occurs(rows, Start(n, k, j), CutAll(TensorSplit(rows, k), Some(size))[j])
  {
    TensorChunk(rows, k, j);
  }

  function RowNumbers(n: nat): seq<nat> { seq(n, i => i) }

  lemma {:induction false} AlignedRows(n: nat, k: nat)
    requires k > 0 && Quot(n, k) > 0
    ensures var rows, size := RowNumbers(n), Quot(n, k);
      && k <= |Chunks(rows, size)|
      && ((forall j :: 0 <= j < k ==> CutAll(TensorSplit(rows, k), Some(size))[j] == Chunks(rows, size)[j])
          <==> Rest(n, k) == 0)
  {
    var rows, size := RowNumbers(n), Quot(n, k);
    ListChunk(rows, k, 0);
    if Rest(n, k) == 0 {
      forall j | 0 <= j < k ensures CutAll(TensorSplit(rows, k), Some(size))[j] == Chunks(rows, size)[j] {
        CutChunk(rows, k, j);
        ListChunk(rows, k, j);
      }
    } else {
      QuotTimesRest(n, k);
      CutChunk(rows, k, 1);
      ListChunk(rows, k, 1);
      assert CutAll(TensorSplit(rows, k), Some(size))[1][0] == Start(n, k, 1) == ListStart(n, k, 1) + 1;
      assert Chunks(rows, size)[1][0] == ListStart(n, k, 1);
    }
  }

  // ----- Whole batches -----

  /** A dictionary has one value per key. */
  ghost predicate IsDict<T(!new)>(batch: Batch<T>) {
    forall p, q :: p in batch && q in batch && p.0 == q.0 ==> p == q
  }

  /** Every tensor and list has n rows, and there is a tensor. */
  ghost predicate Uniform<T>(batch: Batch<T>, n: nat) {
    && Tensors(batch) != []
    && forall p :: p in batch && !p.1.Other? ==> |p.1.rows| == n
  }

  lemma {:induction false} KeptItems<T>(batch: Batch<T>, key: string, rows: seq<T>)
    ensures (key, rows) in Tensors(batch) <==> (key, Tensor(rows)) in batch
    ensures (key, rows) in ListItems(batch) <==> (key, ListItem(rows)) in batch
  {
    if batch != [] { KeptItems(batch[1..], key, rows); }
  }

  lemma {:induction false} UniformItems<T>(batch: Batch<T>, n: nat)
    requires forall p :: p in batch && !p.1.Other? ==> |p.1.rows| == n
    ensures forall i :: 0 <= i < |Tensors(batch)| ==> |Tensors(batch)[i].1| == n
    ensures forall i :: 0 <= i < |ListItems(batch)| ==> |ListItems(batch)[i].1| == n
  {
    if batch != [] {
      assert batch[0] in batch;
      UniformItems(batch[1..], n);
    }
  }

  /** Where the program cuts tensors down. */
  function Cut(n: nat, k: nat): Option<nat>
    requires k > 0
  {
    if Rest(n, k) != 0 then Some(Quot(n, k)) else None
  }

  /** The chunks of a value that is kept. */
  function ItemChunks<T>(item: Item<T>, k: nat): seq<seq<T>>
    requires k > 0 && !item.Other?
  {
    var n := |item.rows|;
    if item.Tensor? then CutAll(TensorSplit(item.rows, k), Cut(n, k))
    else if Quot(n, k) > 0 then Chunks(item.rows, Quot(n, k))
    else []
  }

  function ListChunks<T>(items: seq<(string, seq<T>)>, k: nat): Chunked<T>
    requires k > 0
  {
    seq(|items|, i requires 0 <= i < |items| => (items[i].0, ItemChunks(ListItem(items[i].1), k)))
  }

  lemma {:induction false} ListsSplit<T>(items: seq<(string, seq<T>)>, n: nat, k: nat, enforce: bool)
    requires k > 0 && Quot(n, k) > 0 && (enforce ==> Rest(n, Quot(n, k)) == 0)
    requires forall i :: 0 <= i < |items| ==> |items[i].1| == n
    ensures SplitLists(items, k, enforce) == Ok(ListChunks(items, k))
  {
    if items != [] {
      ListsSplit(items[1..], n, k, enforce);
      var first := (items[0].0, ItemChunks(ListItem(items[0].1), k));
      assert ListChunks(items, k) == [first] + ListChunks(items[1..], k);
    }
  }

  /** All chunks of the batch, as the program lines them up. */
  function AllChunks<T>(batch: Batch<T>, n: nat, k: nat): Chunked<T>
    requires k > 0
  {
    SplitTensors(Tensors(batch), k, Cut(n, k)) + ListChunks(ListItems(batch), k)
  }

  lemma {:induction false} EnoughChunks<T>(batch: Batch<T>, n: nat, k: nat)
    requires k > 0 && Uniform(batch, n) && (ListItems(batch) == [] || Quot(n, k) > 0)
    ensures forall i :: 0 <= i < |AllChunks(batch, n, k)| ==> |AllChunks(batch, n, k)[i].1| >= k
  {
    UniformItems(batch, n);
    var tensors, lists := Tensors(batch), ListItems(batch);
    forall i | 0 <= i < |lists| ensures |ListChunks(lists, k)[i].1| >= k {
      ListChunk(lists[i].1, k, 0);
    }
  }

  lemma {:induction false} SplitIff<T>(batch: Batch<T>, n: nat, k: nat, enforce: bool)
    requires k > 0 && Uniform(batch, n)
    ensures KSplit(batch, k, enforce).Ok?
       <==> (enforce ==> Rest(n, k) == 0) && (ListItems(batch) == [] || Quot(n, k) > 0)
    ensures enforce && Rest(n, k) != 0 ==> KSplit(batch, k, enforce) == Err(ValueError)
    ensures (enforce ==> Rest(n, k) == 0) && ListItems(batch) != [] && Quot(n, k) == 0 ==>
      KSplit(batch, k, enforce) == Err(if enforce then ZeroDivision else ValueError)
  {
    UniformItems(batch, n);
    if (enforce ==> Rest(n, k) == 0) && (ListItems(batch) == [] || Quot(n, k) > 0) {
      SplitOk(batch, n, k, enforce);
    } else if enforce ==> Rest(n, k) == 0 {
      assert SplitLists(ListItems(batch), k, enforce) == Err(if enforce then ZeroDivision else ValueError);
    }
  }

  lemma {:induction false} SplitOk<T>(batch: Batch<T>, n: nat, k: nat, enforce: bool)
    requires k > 0 && Uniform(batch, n)
    requires (enforce ==> Rest(n, k) == 0) && (ListItems(batch) == [] || Quot(n, k) > 0)
    ensures forall i :: 0 <= i < |AllChunks(batch, n, k)| ==> |AllChunks(batch, n, k)[i].1| >= k
    ensures KSplit(batch, k, enforce) == Assemble(AllChunks(batch, n, k), k)
    ensures KSplit(batch, k, enforce).Ok?
  {
    EnoughChunks(batch, n, k);
    ListsAre(batch, n, k, enforce);
    FirstTensor(batch, n);
  }

  lemma {:induction false} FirstTensor<T>(batch: Batch<T>, n: nat)
    requires Uniform(batch, n)
    ensures |Tensors(batch)[0].1| == n
  {
    UniformItems(batch, n);
  }

  lemma {:induction false} ListsAre<T>(batch: Batch<T>, n: nat, k: nat, enforce: bool)
    requires k > 0 && Uniform(batch, n)
    requires (enforce ==> Rest(n, k) == 0) && (ListItems(batch) == [] || Quot(n, k) > 0)
    ensures SplitLists(ListItems(batch), k, enforce) == Ok(ListChunks(ListItems(batch), k))
  {
    UniformItems(batch, n);
    if ListItems(batch) != [] {
      if enforce { EvenSize(n, k); }
      ListsSplit(ListItems(batch), n, k, enforce);
    } else {
      assert ListChunks(ListItems(batch), k) == [];
    }
  }

  lemma {:induction false} GatherKeys<T>(chunked: Chunked<T>, j: nat, key: string)
    requires forall i :: 0 <= i < |chunked| ==> j < |chunked[i].1|
    ensures key in Gather(chunked, j) <==> exists i :: 0 <= i < |chunked| && chunked[i].0 == key
  {
    if chunked != [] {
      var n := |chunked| - 1;
      GatherKeys(chunked[..n], j, key);
      if i :| 0 <= i < n && chunked[i].0 == key { assert chunked[..n][i].0 == key; }
    }
  }

  /** The last entry of a key decides. */
  lemma {:induction false} GatherIs<T>(chunked: Chunked<T>, j: nat, key: string, v: seq<T>)
    requires forall i :: 0 <= i < |chunked| ==> j < |chunked[i].1|
    requires forall i :: 0 <= i < |chunked| && chunked[i].0 == key ==> chunked[i].1[j] == v
    ensures key in Gather(chunked, j) ==> Gather(chunked, j)[key] == v
  {
    if chunked != [] { GatherIs(chunked[..|chunked| - 1], j, key, v); }
  }

  /** What stands at place x of all chunks: the item it comes from, and that item's chunks. */
  lemma {:induction false} EntryFrom<T>(batch: Batch<T>, n: nat, k: nat, x: nat) returns (item: Item<T>)
    requires k > 0 && Uniform(batch, n) && x < |AllChunks(batch, n, k)|
    ensures !item.Other? && (AllChunks(batch, n, k)[x].0, item) in batch
    ensures AllChunks(batch, n, k)[x].1 == ItemChunks(item, k)
  {
    var tensors, lists := Tensors(batch), ListItems(batch);
    if x < |tensors| {
      item := Tensor(tensors[x].1);
      assert tensors[x] in tensors;
      KeptItems(batch, tensors[x].0, tensors[x].1);
    } else {
      var y := x - |tensors|;
      item := ListItem(lists[y].1);
      assert lists[y] in lists;
      KeptItems(batch, lists[y].0, lists[y].1);
    }
  }

  /** The chunks listed under the key of one item are those of that item. */
  lemma {:induction false} EntriesOf<T(!new)>(batch: Batch<T>, n: nat, k: nat, i: nat, x: nat)
    requires k > 0 && IsDict(batch) && Uniform(batch, n) && i < |batch|
    requires x < |AllChunks(batch, n, k)| && AllChunks(batch, n, k)[x].0 == batch[i].0
    ensures !batch[i].1.Other? && AllChunks(batch, n, k)[x].1 == ItemChunks(batch[i].1, k)
  {
    var item := EntryFrom(batch, n, k, x);
    assert batch[i] in batch && batch[i].0 == (batch[i].0, item).0;
  }

  lemma {:induction false} EntryOf<T>(batch: Batch<T>, n: nat, k: nat, i: nat) returns (x: nat)
    requires k > 0 && i < |batch| && !batch[i].1.Other?
    ensures x < |AllChunks(batch, n, k)| && AllChunks(batch, n, k)[x].0 == batch[i].0
  {
    var (key, item) := batch[i];
    KeptItems(batch, key, item.rows);
    assert (key, item) in batch;
    if item.Tensor? {
      x := IndexOf(Tensors(batch), (key, item.rows));
    } else {
      var y := IndexOf(ListItems(batch), (key, item.rows));
      x := |Tensors(batch)| + y;
    }
  }

  lemma {:induction false} IndexOf<T>(items: seq<(string, seq<T>)>, item: (string, seq<T>)) returns (x: nat)
    requires item in items
    ensures x < |items| && items[x] == item
  {
    x :| 0 <= x < |items| && items[x] == item;
  }

  /** Microbatch j has the j-th chunk of each of the batch's tensors and lists. */
  lemma {:induction false} MicrobatchHolds<T(!new)>(batch: Batch<T>, n: nat, k: nat, enforce: bool, i: nat, j: nat)
    requires Uniform(batch, n) && IsDict(batch) && i < |batch| && j < k
    requires KSplit(batch, k, enforce).Ok?
    ensures |KSplit(batch, k, enforce).value| == k
    ensures var m, (key, item) := KSplit(batch, k, enforce).value[j], batch[i];
      && (key in m <==> !item.Other?)
      && (!item.Other? ==> j < |ItemChunks(item, k)| && m[key] == ItemChunks(item, k)[j])
  {
    SplitIff(batch, n, k, enforce);
    SplitOk(batch, n, k, enforce);
    var (key, item) := batch[i];
    forall x | 0 <= x < |AllChunks(batch, n, k)| && AllChunks(batch, n, k)[x].0 == key
      ensures !item.Other? && AllChunks(batch, n, k)[x].1 == ItemChunks(item, k)
    {
      EntriesOf(batch, n, k, i, x);
    }
    GatherKeys(AllChunks(batch, n, k), j, key);
    if !item.Other? {
      var x := EntryOf(batch, n, k, i);
      GatherIs(AllChunks(batch, n, k), j, key, ItemChunks(item, k)[j]);
    }
  }

  function KeptKeys<T>(batch: Batch<T>): set<string> {
    set i | 0 <= i < |batch| && !batch[i].1.Other? :: batch[i].0
  }

  /** Every microbatch has exactly the keys of the batch's tensors and lists. */
  lemma {:induction false} MicrobatchKeys<T>(batch: Batch<T>, n: nat, k: nat, enforce: bool, j: nat)
    requires Uniform(batch, n) && j < k && KSplit(batch, k, enforce).Ok?
    ensures |KSplit(batch, k, enforce).value| == k
    ensures KSplit(batch, k, enforce).value[j].Keys == KeptKeys(batch)
  {
    SplitIff(batch, n, k, enforce);
    SplitOk(batch, n, k, enforce);
    KeysOfAll(batch, n, k, j);
  }

  lemma {:induction false} KeysOfAll<T>(batch: Batch<T>, n: nat, k: nat, j: nat)
    requires Uniform(batch, n) && j < k
    requires forall i :: 0 <= i < |AllChunks(batch, n, k)| ==> |AllChunks(batch, n, k)[i].1| >= k
    ensures Gather(AllChunks(batch, n, k), j).Keys == KeptKeys(batch)
  {
    var all := AllChunks(batch, n, k);
    forall key ensures key in Gather(all, j) <==> key in KeptKeys(batch) {
      GatherKeys(all, j, key);
      if x :| 0 <= x < |all| && all[x].0 == key {
        var item := EntryFrom(batch, n, k, x);
        var i :| 0 <= i < |batch| && batch[i] == (key, item);
      }
      if i :| 0 <= i < |batch| && !batch[i].1.Other? && batch[i].0 == key {
        var x := EntryOf(batch, n, k, i);
      }
    }
  }

  /** The microbatch has the key of an item that is kept, with the rows from start on. */
  ghost predicate Holds<T>(m: map<string, seq<T>>, key: string, item: Item<T>, start: nat, size: nat) {
    && (key in m <==> !item.Other?)
    && (!item.Other? ==> Occurs(item.rows, start, m[key]) && |m[key]| == size)
  }

  lemma {:induction false} EvenRows<T(!new)>(batch: Batch<T>, n: nat, k: nat, enforce: bool, i: nat, j: nat)
    requires k > 0 && n > 0 && Rest(n, k) == 0 && Uniform(batch, n) && IsDict(batch)
    requires i < |batch| && j < k
    ensures KSplit(batch, k, enforce).Ok? && |KSplit(batch, k, enforce).value| == k
    ensures KSplit(batch, k, enforce).value[j].Keys == KeptKeys(batch)
    ensures Holds(KSplit(batch, k, enforce).value[j], batch[i].0, batch[i].1, ListStart(n, k, j), Quot(n, k))
  {
    EvenSize(n, k);
    SplitIff(batch, n, k, enforce);
    MicrobatchKeys(batch, n, k, enforce, j);
    MicrobatchHolds(batch, n, k, enforce, i, j);
    assert batch[i] in batch;
    if !batch[i].1.Other? { EvenChunks(batch[i].1.rows, k, j); }
  }

  /** The chunks of one key over all microbatches. */
  function Column<T>(microbatches: seq<map<string, seq<T>>>, key: string): seq<seq<T>> {
    seq(|microbatches|, j requires 0 <= j < |microbatches| =>
      if key in microbatches[j] then microbatches[j][key] else [])
  }

  lemma {:induction false} EvenRestore<T(!new)>(batch: Batch<T>, n: nat, k: nat, enforce: bool, i: nat)
    requires k > 0 && n > 0 && Rest(n, k) == 0 && Uniform(batch, n) && IsDict(batch)
    requires i < |batch| && !batch[i].1.Other?
    ensures KSplit(batch, k, enforce).Ok?
    ensures Flatten(Column(KSplit(batch, k, enforce).value, batch[i].0)) == batch[i].1.rows
  {
    EvenRows(batch, n, k, enforce, i, 0);
    var rows, split := batch[i].1.rows, KSplit(batch, k, enforce).value;
    assert batch[i] in batch;
    forall j | 0 <= j < k ensures batch[i].0 in split[j] && split[j][batch[i].0] == TensorSplit(rows, k)[j] {
      EvenRows(batch, n, k, enforce, i, j);
      EvenChunks(rows, k, j);
    }
    ColumnRestores(split, batch[i].0, rows, k);
  }

  lemma {:induction false} ColumnRestores<T>(split: seq<map<string, seq<T>>>, key: string, rows: seq<T>, k: nat)
    requires |split| == k > 0
    requires forall j :: 0 <= j < k ==> key in split[j] && split[j][key] == TensorSplit(rows, k)[j]
    ensures Flatten(Column(split, key)) == rows
  {
    assert Column(split, key) == TensorSplit(rows, k);
    TensorSplitCovers(rows, k);
  }

  lemma {:induction false} EqualChunks<T>(chunks: seq<seq<T>>, size: nat)
    requires forall j :: 0 <= j < |chunks| ==> |chunks[j]| == size
    ensures |Flatten(chunks)| == Times(|chunks|, size)
  {
    if chunks != [] { EqualChunks(chunks[1..], size); }
  }

  /** Where the rows of an item in microbatch j start: a tensor has its own starts. */
  function ItemStart<T>(item: Item<T>, n: nat, k: nat, j: nat): nat
    requires k > 0
  {
    if item.Tensor? then Start(n, k, j) else ListStart(n, k, j)
  }

  lemma {:induction false} UnevenChunk<T>(item: Item<T>, k: nat, j: nat)
    requires j < k && !item.Other? && Rest(|item.rows|, k) != 0
    requires item.ListItem? ==> Quot(|item.rows|, k) > 0
    ensures j < |ItemChunks(item, k)| && |ItemChunks(item, k)[j]| == Quot(|item.rows|, k)
    ensures Occurs(item.rows, ItemStart(item, |item.rows|, k, j), ItemChunks(item, k)[j])
  {
    if item.Tensor? { CutChunk(item.rows, k, j); } else { ListChunk(item.rows, k, j); }
  }

  lemma {:induction false} UnevenItem<T(!new)>(batch: Batch<T>, n: nat, k: nat, i: nat, j: nat)
    requires k > 0 && Rest(n, k) != 0 && Uniform(batch, n) && IsDict(batch)
    requires ListItems(batch) == [] || n >= k
    requires i < |batch| && j < k
    ensures KSplit(batch, k, false).Ok? && |KSplit(batch, k, false).value| == k
    ensures KSplit(batch, k, false).value[j].Keys == KeptKeys(batch)
    ensures Holds(KSplit(batch, k, false).value[j], batch[i].0, batch[i].1,
                  ItemStart(batch[i].1, n, k, j), Quot(n, k))
  {
    SplitIff(batch, n, k, false);
    MicrobatchKeys(batch, n, k, false, j);
    MicrobatchHolds(batch, n, k, false, i, j);
    assert batch[i] in batch;
    if !batch[i].1.Other? {
      if batch[i].1.ListItem? {
        KeptItems(batch, batch[i].0, batch[i].1.rows);
      }
      UnevenChunk(batch[i].1, k, j);
    }
  }

  lemma {:induction false} UnevenItemLoss<T(!new)>(batch: Batch<T>, n: nat, k: nat, i: nat)
    requires k > 0 && Rest(n, k) != 0 && Uniform(batch, n) && IsDict(batch)
    requires ListItems(batch) == [] || n >= k
    requires i < |batch| && !batch[i].1.Other?
    ensures KSplit(batch, k, false).Ok?
    ensures |Flatten(Column(KSplit(batch, k, false).value, batch[i].0))| + Rest(n, k) == n == |batch[i].1.rows|
  {
    UnevenItem(batch, n, k, i, 0);
    var split := KSplit(batch, k, false).value;
    forall j | 0 <= j < k ensures batch[i].0 in split[j] && |split[j][batch[i].0]| == Quot(n, k) {
      UnevenItem(batch, n, k, i, j);
    }
    ColumnLoss(split, batch[i].0, n, k);
    assert batch[i] in batch;
  }

  lemma {:induction false} ColumnLoss<T>(split: seq<map<string, seq<T>>>, key: string, n: nat, k: nat)
    requires |split| == k > 0
    requires forall j :: 0 <= j < k ==> key in split[j] && |split[j][key]| == Quot(n, k)
    ensures |Flatten(Column(split, key))| + Rest(n, k) == n
  {
    EqualChunks(Column(split, key), Quot(n, k));
    StartGrows(n, k, k);
    QuotTimesRest(n, k);
  }

  // ----- The laws, in ordinary arithmetic -----

  lemma {:induction false} SizesAre(n: nat, k: nat)
    requires k > 0
    ensures Quot(n, k) == n / k && Rest(n, k) == n % k
    ensures Quot(n, k) > 0 <==> n >= k
  {
    QuotRestAre(n, k);
  }

  lemma {:induction false} StartsAre(n: nat, k: nat, j: nat)
    requires k > 0
    ensures ListStart(n, k, j) == j * (n / k)
    ensures Start(n, k, j) == ListStart(n, k, j) + Min(j, Rest(n, k))
  {
    QuotRestAre(n, k);
    TimesIs(j, Quot(n, k));
  }

  /** Uniform batches split exactly when k divides n or need not, and no list would get chunks without rows. */
  lemma {:induction false} KSplitIff<T>(batch: Batch<T>, n: nat, k: nat, enforce: bool)
    requires k > 0 && Uniform(batch, n)
    ensures KSplit(batch, k, enforce).Ok? <==> (enforce ==> n % k == 0) && (ListItems(batch) == [] || n >= k)
    ensures enforce && n % k != 0 ==> KSplit(batch, k, enforce) == Err(ValueError)
    ensures (enforce ==> n % k == 0) && ListItems(batch) != [] && n < k ==>
      KSplit(batch, k, enforce) == Err(if enforce then ZeroDivision else ValueError)
  {
    SizesAre(n, k);
    SplitIff(batch, n, k, enforce);
  }

  /** Batches without a tensor, and a split into no microbatches, are errors. */
  lemma {:induction false} KSplitErrors<T>(batch: Batch<T>, k: nat, enforce: bool)
    ensures Tensors(batch) == [] ==> KSplit(batch, k, enforce) == Err(IndexError)
    ensures Tensors(batch) != [] && k == 0 ==>
      KSplit(batch, k, enforce) == Err(if enforce then ZeroDivision else RuntimeError)
  {
  }

  /**
   * When all items have n rows and k divides n > 0, microbatch j has exactly the keys of the batch's
   * tensors and lists, and rows j * size to (j + 1) * size of each, where size is n / k.
   */
  lemma {:induction false} MicrobatchRows<T(!new)>(batch: Batch<T>, n: nat, k: nat, enforce: bool, i: nat, j: nat,
                                                   size: nat, start: nat)
    requires k > 0 && n > 0 && n % k == 0 && size == n / k && start == j * size
    requires Uniform(batch, n) && IsDict(batch) && i < |batch| && j < k
    ensures KSplit(batch, k, enforce).Ok? && |KSplit(batch, k, enforce).value| == k
    ensures KSplit(batch, k, enforce).value[j].Keys == KeptKeys(batch)
    ensures Holds(KSplit(batch, k, enforce).value[j], batch[i].0, batch[i].1, start, size)
  {
    SizesAre(n, k);
    StartsAre(n, k, j);
    EvenRows(batch, n, k, enforce, i, j);
  }

  /** Put together again, the microbatches restore every tensor and list. */
  lemma {:induction false} MicrobatchesRestore<T(!new)>(batch: Batch<T>, n: nat, k: nat, enforce: bool, i: nat)
    requires k > 0 && n > 0 && n % k == 0 && Uniform(batch, n) && IsDict(batch)
    requires i < |batch| && !batch[i].1.Other?
    ensures KSplit(batch, k, enforce).Ok?
    ensures Flatten(Column(KSplit(batch, k, enforce).value, batch[i].0)) == batch[i].1.rows
  {
    SizesAre(n, k);
    EvenRestore(batch, n, k, enforce, i);
  }

  lemma {:induction false} ItemStartIs<T>(item: Item<T>, n: nat, k: nat, j: nat, size: nat, rest: nat, start: nat)
    requires k > 0 && size == n / k && rest == n % k && start == j * size
    ensures Quot(n, k) == size && ItemStart(item, n, k, j) == if item.Tensor? then start + Min(j, rest) else start
  {
    SizesAre(n, k);
    StartsAre(n, k, j);
  }

  /**
   * When k does not divide n and the split need not be even, microbatch j still has exactly the keys of
   * the batch's tensors and lists, each with n / k rows: a list's from j * size on, a tensor's up to n % k
   * rows further on.
   */
  lemma {:induction false} UnevenRows<T(!new)>(batch: Batch<T>, n: nat, k: nat, i: nat, j: nat,
                                               size: nat, rest: nat, start: nat)
    requires k > 0 && size == n / k && rest == n % k != 0 && start == j * size
    requires Uniform(batch, n) && IsDict(batch) && (ListItems(batch) == [] || n >= k)
    requires i < |batch| && j < k
    ensures KSplit(batch, k, false).Ok? && |KSplit(batch, k, false).value| == k
    ensures KSplit(batch, k, false).value[j].Keys == KeptKeys(batch)
    ensures Holds(KSplit(batch, k, false).value[j], batch[i].0, batch[i].1,
                  if batch[i].1.Tensor? then start + Min(j, rest) else start, size)
  {
    SizesAre(n, k);
    UnevenItem(batch, n, k, i, j);
    ItemStartIs(batch[i].1, n, k, j, size, rest, start);
  }

  /** Then each tensor and list loses exactly n % k rows over all microbatches. */
  lemma {:induction false} UnevenLoss<T(!new)>(batch: Batch<T>, n: nat, k: nat, i: nat)
    requires k > 0 && n % k != 0 && Uniform(batch, n) && IsDict(batch)
    requires ListItems(batch) == [] || n >= k
    requires i < |batch| && !batch[i].1.Other?
    ensures KSplit(batch, k, false).Ok?
    ensures |Flatten(Column(KSplit(batch, k, false).value, batch[i].0))| + n % k == n == |batch[i].1.rows|
  {
    SizesAre(n, k);
    UnevenItemLoss(batch, n, k, i);
  }

  /**
   * Chunks of equal size of a tensor and of a list hold the same rows in every microbatch exactly when
   * k divides the number of rows.
   */
  lemma {:induction false} AlignedIff(n: nat, k: nat)
    requires k > 0 && n >= k
    ensures n / k > 0 && k <= |Chunks(RowNumbers(n), n / k)|
    ensures (forall j :: 0 <= j < k ==>
               CutAll(TensorSplit(RowNumbers(n), k), Some(n / k))[j] == Chunks(RowNumbers(n), n / k)[j])
       <==> n % k == 0
  {
    SizesAre(n, k);
    AlignedRows(n, k);
  }
}
