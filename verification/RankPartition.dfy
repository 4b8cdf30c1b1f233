// Which rank transcribes which manifest (get_manifest_for_current_rank in
// scripts/asr_eou/transcribe_speech_sharded.py).

module RankPartition {
  import opened Division
  import opened Lists

  // ----- One level -----

  /** The places i of a list of the given length with (i + id) % n == 0, in order. */
  function Places(length: nat, id: nat, n: nat): seq<nat>
    requires n > 0
  {
    if length == 0 then []
    else if (length - 1 + id) % n == 0 then Places(length - 1, id, n) + [length - 1]
    else Places(length - 1, id, n)
  }

  lemma {:induction false} PlacesAre(length: nat, id: nat, n: nat)
    requires n > 0
    ensures forall i :: i in Places(length, id, n) <==> 0 <= i < length && (i + id) % n == 0
    ensures forall t, u :: 0 <= t < u < |Places(length, id, n)| ==> Places(length, id, n)[t] < Places(length, id, n)[u]
    ensures |Places(length, id, n)| + Ceil(id, n) == Ceil(length + id, n)
  {
    if length > 0 {
      PlacesAre(length - 1, id, n);
      CeilNext(length - 1 + id, n);
      var p := Places(length - 1, id, n);
      assert forall t :: 0 <= t < |p| ==> p[t] in p;
    }
  }

  lemma {:induction false} PlacesCount(length: nat, id: nat, n: nat)
    requires id < n
    ensures length / n <= |Places(length, id, n)| <= Ceil(length, n)
  {
    PlacesAre(length, id, n);
    CeilIs(length, n);
    CeilIs(id, n);
    CeilIs(length + id, n);
    if id == 0 {
      QuotientIs(n - 1, n, 0);
      QuotientGrows(length, length + n - 1, n);
    } else {
      QuotientIs(id + n - 1, n, 1);
      QuotientOfSum(length + id - 1, 1, n);
      QuotientGrows(length, length + id - 1, n);
      QuotientGrows(length + id - 1, length + n - 1, n);
    }
  }

  /** The one id below n that is picked for place i. */
  function IdOf(i: nat, n: nat): nat
    requires n > 0
  {
    if i % n == 0 then 0 else n - i % n
  }

  lemma {:induction false} IdOfPicks(i: nat, n: nat)
    requires n > 0
    ensures IdOf(i, n) < n && (i + IdOf(i, n)) % n == 0
  {
    var q := i / n;
    assert (q + 1) * n == q * n + n;
    Multiple(if i % n == 0 then q else q + 1, n);
  }

  lemma {:induction false} IdsAgree(i: nat, n: nat, x: nat, y: nat)
    requires x < n && y < n && (i + x) % n == 0 && (i + y) % n == 0
    ensures x == y
  {
    var p, q := (i + x) / n, (i + y) / n;
    assert i + x == p * n && i + y == q * n;
    if p < q {
      ProductGrows(p + 1, q, n);
    } else if q < p {
      ProductGrows(q + 1, p, n);
    }
  }

  // ----- Two levels: nodes, then GPUs -----

  function At(places: seq<nat>, index: seq<nat>): seq<nat> {
    seq(|index|, t requires 0 <= t < |index| => if index[t] < |places| then places[index[t]] else 0)
  }

  /** The places of the manifests that one rank processes. */
  function RankPlaces(length: nat, gpu: nat, numGpu: nat, node: nat, numNode: nat): seq<nat>
    requires numGpu > 0 && numNode > 0
  {
    var places := Places(length, node, numNode);
    At(places, Places(|places|, gpu, numGpu))
  }

  method Select<T>(list: seq<T>, id: nat, n: nat) returns (r: seq<T>)
    requires n > 0
    ensures |r| == |Places(|list|, id, n)|
    ensures forall t :: 0 <= t < |r| ==> Places(|list|, id, n)[t] < |list| && r[t] == list[Places(|list|, id, n)[t]]
  {
    r := [];
    PlacesAre(0, id, n);
    for i := 0 to |list|
      invariant |r| == |Places(i, id, n)|
      invariant forall t :: 0 <= t < |r| ==> Places(i, id, n)[t] < i && r[t] == list[Places(i, id, n)[t]]
    {
      if (i + id) % n == 0 {
        r := r + [list[i]];
      }
    }
  }

  /** None is a failed assertion about the rank. */
  method GetManifestForCurrentRank<T>(manifests: seq<T>, gpu: int, numGpu: int, node: int, numNode: int)
    returns (r: Option<seq<T>>)
    ensures r.Some? <==> 0 <= gpu < numGpu && 0 <= node < numNode
    ensures r.Some? ==>
      var places := RankPlaces(|manifests|, gpu, numGpu, node, numNode);
      && |r.value| == |places|
      && forall t :: 0 <= t < |places| ==> places[t] < |manifests| && r.value[t] == manifests[places[t]]
  {
    if numNode <= 0 || numGpu <= 0 || !(0 <= gpu < numGpu) || !(0 <= node < numNode) {
      return None;
    }
    var nodeList := Select(manifests, node, numNode);
    var gpuList := Select(nodeList, gpu, numGpu);
    return Some(gpuList);
  }

  lemma {:induction false} RankPlacesAre(length: nat, gpu: nat, numGpu: nat, node: nat, numNode: nat)
    requires numGpu > 0 && numNode > 0
    ensures var places, mine := Places(length, node, numNode), RankPlaces(length, gpu, numGpu, node, numNode);
      && (forall t, u :: 0 <= t < u < |mine| ==> mine[t] < mine[u])
      && (forall i :: i in mine <==> exists j :: 0 <= j < |places| && places[j] == i && (j + gpu) % numGpu == 0)
  {
    var places, mine := Places(length, node, numNode), RankPlaces(length, gpu, numGpu, node, numNode);
    var index := Places(|places|, gpu, numGpu);
    PlacesAre(length, node, numNode);
    PlacesAre(|places|, gpu, numGpu);
    forall t | 0 <= t < |index|
      ensures index[t] < |places| && (index[t] + gpu) % numGpu == 0 && mine[t] == places[index[t]]
    {
      assert index[t] in index;
    }
    forall j | 0 <= j < |places| && (j + gpu) % numGpu == 0 ensures places[j] in mine {
      assert j in index;
      var t :| 0 <= t < |index| && index[t] == j;
      assert mine[t] == places[j];
    }
  }

  /** How many places below i are picked by the id. */
  function PickedBelow(i: nat, id: nat, n: nat): nat
    requires n > 0
  {
    if i == 0 then 0 else PickedBelow(i - 1, id, n) + if (i - 1 + id) % n == 0 then 1 else 0
  }

  /** Place i is picked for its node, and its number among the node's places is picked for the GPU. */
  predicate Picked(i: nat, gpu: nat, numGpu: nat, node: nat, numNode: nat)
    requires numGpu > 0 && numNode > 0
  {
    (i + node) % numNode == 0 && (PickedBelow(i, node, numNode) + gpu) % numGpu == 0
  }

  /** A picked place stands among the places at its number. */
  lemma {:induction false} PlaceNumber(length: nat, id: nat, n: nat, j: nat)
    requires n > 0 && j < |Places(length, id, n)|
    ensures PickedBelow(length, id, n) == |Places(length, id, n)|
    ensures PickedBelow(Places(length, id, n)[j], id, n) == j
  {
    if length > 0 {
      PlacesBelow(length - 1, id, n);
      if j < |Places(length - 1, id, n)| { PlaceNumber(length - 1, id, n, j); }
    }
  }

  lemma {:induction false} PlacesBelow(length: nat, id: nat, n: nat)
    requires n > 0
    ensures PickedBelow(length, id, n) == |Places(length, id, n)|
  {
    if length > 0 { PlacesBelow(length - 1, id, n); }
  }

  /** The places of a rank are those picked at both levels, in increasing order. */
  lemma {:induction false} RankPlacesArePicked(length: nat, gpu: nat, numGpu: nat, node: nat, numNode: nat)
    requires numGpu > 0 && numNode > 0
    ensures var mine := RankPlaces(length, gpu, numGpu, node, numNode);
      && (forall t, u :: 0 <= t < u < |mine| ==> mine[t] < mine[u])
      && (forall i: nat :: i in mine <==> i < length && Picked(i, gpu, numGpu, node, numNode))
  {
    var places, mine := Places(length, node, numNode), RankPlaces(length, gpu, numGpu, node, numNode);
    RankPlacesAre(length, gpu, numGpu, node, numNode);
    PlacesAre(length, node, numNode);
    forall i: nat ensures i in mine <==> i < length && Picked(i, gpu, numGpu, node, numNode) {
      if i in places {
        var j :| 0 <= j < |places| && places[j] == i;
        PlaceNumber(length, node, numNode, j);
        forall k | 0 <= k < |places| && places[k] == i ensures k == j { PlaceNumber(length, node, numNode, k); }
      } else {
        assert forall j :: 0 <= j < |places| ==> places[j] in places;
      }
    }
  }

  /** Every manifest belongs to some rank. */
  lemma {:induction false} SomeRank(length: nat, numGpu: nat, numNode: nat, i: nat) returns (gpu: nat, node: nat)
    requires numGpu > 0 && numNode > 0 && i < length
    ensures gpu < numGpu && node < numNode && i in RankPlaces(length, gpu, numGpu, node, numNode)
  {
    node := IdOf(i, numNode);
    IdOfPicks(i, numNode);
    PlacesAre(length, node, numNode);
    var places := Places(length, node, numNode);
    assert i in places;
    var j :| 0 <= j < |places| && places[j] == i;
    gpu := IdOf(j, numGpu);
    IdOfPicks(j, numGpu);
    RankPlacesAre(length, gpu, numGpu, node, numNode);
  }

  /** No manifest belongs to two ranks. */
  lemma {:induction false} OnlyRank(length: nat, numGpu: nat, numNode: nat, i: nat,
                                    gpu: nat, node: nat, gpu': nat, node': nat)
    requires gpu < numGpu && node < numNode && gpu' < numGpu && node' < numNode
    requires i in RankPlaces(length, gpu, numGpu, node, numNode)
    requires i in RankPlaces(length, gpu', numGpu, node', numNode)
    ensures gpu == gpu' && node == node'
  {
    RankPlacesAre(length, gpu, numGpu, node, numNode);
    RankPlacesAre(length, gpu', numGpu, node', numNode);
    PlacesAre(length, node, numNode);
    PlacesAre(length, node', numNode);
    var places := Places(length, node, numNode);
    var j :| 0 <= j < |places| && places[j] == i && (j + gpu) % numGpu == 0;
    assert i in places && i in Places(length, node', numNode);
    IdsAgree(i, numNode, node, node');
    var j' :| 0 <= j' < |places| && places[j'] == i && (j' + gpu') % numGpu == 0;
    assert j == j';
    IdsAgree(j, numGpu, gpu, gpu');
  }

  /** Each manifest goes to exactly one rank, and each rank keeps the order of the list. */
  lemma {:induction false} RanksPartition(length: nat, numGpu: nat, numNode: nat, i: nat)
    requires numGpu > 0 && numNode > 0 && i < length
    ensures exists gpu: nat, node: nat :: (
      && gpu < numGpu && node < numNode
      && i in RankPlaces(length, gpu, numGpu, node, numNode)
      && (forall gpu': nat, node': nat ::
            (gpu' < numGpu && node' < numNode && i in RankPlaces(length, gpu', numGpu, node', numNode))
            ==> (gpu' == gpu && node' == node)))
  {
    var gpu, node := SomeRank(length, numGpu, numNode, i);
    forall gpu': nat, node': nat
      | gpu' < numGpu && node' < numNode && i in RankPlaces(length, gpu', numGpu, node', numNode)
      ensures gpu' == gpu && node' == node
    {
      OnlyRank(length, numGpu, numNode, i, gpu, node, gpu', node');
    }
  }

  /** Each place is picked for exactly one rank. */
  lemma {:induction false} PickedByOne(i: nat, numGpu: nat, numNode: nat) returns (gpu: nat, node: nat)
    requires numGpu > 0 && numNode > 0
    ensures gpu < numGpu && node < numNode && Picked(i, gpu, numGpu, node, numNode)
    ensures forall gpu': nat, node': nat ::
      (gpu' < numGpu && node' < numNode && Picked(i, gpu', numGpu, node', numNode)) ==> gpu' == gpu && node' == node
  {
    gpu, node := SomeRank(i + 1, numGpu, numNode, i);
    RankPlacesArePicked(i + 1, gpu, numGpu, node, numNode);
    forall gpu': nat, node': nat | gpu' < numGpu && node' < numNode && Picked(i, gpu', numGpu, node', numNode)
      ensures gpu' == gpu && node' == node
    {
      RankPlacesArePicked(i + 1, gpu', numGpu, node', numNode);
      OnlyRank(i + 1, numGpu, numNode, i, gpu, node, gpu', node');
    }
  }

  /** The load is as even as it can be: the floor or the ceiling of length / (numNode * numGpu). */
  lemma {:induction false} RanksAreEven(length: nat, gpu: nat, numGpu: nat, node: nat, numNode: nat)
    requires gpu < numGpu && node < numNode && numNode * numGpu > 0
    ensures var ranks, mine := numNode * numGpu, |RankPlaces(length, gpu, numGpu, node, numNode)|;
      length / ranks <= mine <= Ceil(length, ranks)
  {
    var m := |Places(length, node, numNode)|;
    PlacesCount(length, node, numNode);
    PlacesCount(m, gpu, numGpu);
    EvenTwice(length, m, numGpu, numNode);
  }

  lemma {:induction false} EvenTwice(length: nat, m: nat, numGpu: nat, numNode: nat)
    requires numGpu > 0 && numNode > 0 && numNode * numGpu > 0
    requires length / numNode <= m <= Ceil(length, numNode)
    ensures length / (numNode * numGpu) <= m / numGpu && Ceil(m, numGpu) <= Ceil(length, numNode * numGpu)
  {
    CeilIs(m, numGpu);
    CeilIs(Ceil(length, numNode), numGpu);
    QuotientOfQuotient(length, numNode, numGpu);
    CeilOfCeil(length, numNode, numGpu);
    QuotientGrows(length / numNode, m, numGpu);
    QuotientGrows(m + numGpu - 1, Ceil(length, numNode) + numGpu - 1, numGpu);
  }

  /** Rank (0, 0) always takes the first manifest of a non-empty list. */
  lemma {:induction false} FirstRankTakesFirst(length: nat, numGpu: nat, numNode: nat)
    requires numGpu > 0 && numNode > 0 && length > 0
    ensures 0 in RankPlaces(length, 0, numGpu, 0, numNode)
  {
    PlacesAre(length, 0, numNode);
    var places := Places(length, 0, numNode);
    assert 0 in places;
    RankPlacesAre(length, 0, numGpu, 0, numNode);
    assert places[0] == 0;
    assert (0 + 0) % numGpu == 0;
  }
}
