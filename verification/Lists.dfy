// Option and Result, and the facts about sequences and multisets that several modules share.
// Sequences are put together at the end or cut at given places; a listing of a set or a
// shuffle of a sequence is one with the same multiset; what is true of every element of the
// one is then true of every element of the other, and sums over the two are equal.

module Lists {
  datatype Option<+T> = None | Some(value: T)

  datatype Result<+T, +E> = Ok(value: T) | Err(error: E)

  /** The total weight of the elements of s. */
  function Weight<T>(s: seq<T>, w: T -> nat): nat {
    if s == [] then 0 else w(s[0]) + Weight(s[1..], w)
  }

  lemma {:induction false} WeightConcat<T>(a: seq<T>, b: seq<T>, w: T -> nat)
    ensures Weight(a + b, w) == Weight(a, w) + Weight(b, w)
  {
    if a == [] {
      assert a + b == b;
    } else {
      assert (a + b)[1..] == a[1..] + b;
      WeightConcat(a[1..], b, w);
    }
  }

  lemma {:induction false} WeightSnoc<T>(s: seq<T>, x: T, w: T -> nat)
    ensures Weight(s + [x], w) == Weight(s, w) + w(x)
  {
    WeightConcat(s, [x], w);
  }

  lemma {:induction false} WeightRemove<T>(s: seq<T>, i: nat, w: T -> nat)
    requires i < |s|
    ensures Weight(s, w) == w(s[i]) + Weight(s[..i] + s[i + 1..], w)
  {
    assert s == s[..i] + ([s[i]] + s[i + 1..]);
    WeightConcat(s[..i], [s[i]] + s[i + 1..], w);
    WeightConcat(s[..i], s[i + 1..], w);
    assert ([s[i]] + s[i + 1..])[1..] == s[i + 1..];
  }

  lemma CancelOne<T>(m: multiset<T>, n: multiset<T>, x: T)
    requires multiset{x} + m == multiset{x} + n
    ensures m == n
  {
    assert m == (multiset{x} + m) - multiset{x};
    assert n == (multiset{x} + n) - multiset{x};
  }

  lemma {:induction false} SameMultiset<T>(a: seq<T>, b: seq<T>) returns (i: nat)
    requires multiset(a) == multiset(b) && a != []
    ensures i < |b| && b[i] == a[0] && multiset(a[1..]) == multiset(b[..i] + b[i + 1..])
  {
    assert a[0] in multiset(b);
    i :| 0 <= i < |b| && b[i] == a[0];
    assert a == [a[0]] + a[1..] && b == b[..i] + ([b[i]] + b[i + 1..]);
    CancelOne(multiset(a[1..]), multiset(b[..i] + b[i + 1..]), a[0]);
  }

  /** A total weight depends on the multiset of elements only. */
  lemma {:induction false} WeightPermutation<T>(a: seq<T>, b: seq<T>, w: T -> nat)
    requires multiset(a) == multiset(b)
    ensures Weight(a, w) == Weight(b, w)
  {
    if a == [] {
      assert |multiset(b)| == 0;
    } else {
      var i := SameMultiset(a, b);
      WeightRemove(b, i, w);
      WeightPermutation(a[1..], b[..i] + b[i + 1..], w);
    }
  }

  function Flatten<T>(ss: seq<seq<T>>): seq<T> {
    if ss == [] then [] else ss[0] + Flatten(ss[1..])
  }

  lemma {:induction false} FlattenConcat<T>(a: seq<seq<T>>, b: seq<seq<T>>)
    ensures Flatten(a + b) == Flatten(a) + Flatten(b)
  {
    if a == [] {
      assert a + b == b;
    } else {
      assert (a + b)[1..] == a[1..] + b;
      FlattenConcat(a[1..], b);
    }
  }

  lemma FlattenSnoc<T>(ss: seq<seq<T>>, s: seq<T>)
    ensures Flatten(ss + [s]) == Flatten(ss) + s
  {
    FlattenConcat(ss, [s]);
    assert Flatten([s]) == s;
  }

  /** Appending x to one inner list adds x to the multiset of all elements. */
  lemma FlattenAppend<T>(ss: seq<seq<T>>, i: nat, x: T)
    requires i < |ss|
    ensures multiset(Flatten(ss[i := ss[i] + [x]])) == multiset(Flatten(ss)) + multiset{x}
  {
    var tt := ss[i := ss[i] + [x]];
    assert tt == ss[..i] + ([ss[i] + [x]] + ss[i + 1..]);
    assert ss == ss[..i] + ([ss[i]] + ss[i + 1..]);
    FlattenConcat(ss[..i], [ss[i] + [x]] + ss[i + 1..]);
    FlattenConcat(ss[..i], [ss[i]] + ss[i + 1..]);
    assert ([ss[i] + [x]] + ss[i + 1..])[1..] == ss[i + 1..];
    assert ([ss[i]] + ss[i + 1..])[1..] == ss[i + 1..];
  }

  /** Consecutive pieces of rows, cut at the given places, put together again. */
  lemma {:induction false} FlattenCuts<T>(rows: seq<T>, chunks: seq<seq<T>>, cuts: seq<nat>)
    requires |cuts| == |chunks| + 1 && cuts[0] == 0
    requires forall i :: 0 <= i < |chunks| ==> Occurs(rows, cuts[i], chunks[i]) && cuts[i + 1] == cuts[i] + |chunks[i]|
    ensures cuts[|chunks|] <= |rows|
    ensures Flatten(chunks) == rows[..cuts[|chunks|]]
  {
    if chunks != [] {
      var n := |chunks| - 1;
      assert chunks == chunks[..n] + [chunks[n]];
      FlattenCuts(rows, chunks[..n], cuts[..n + 1]);
      FlattenSnoc(chunks[..n], chunks[n]);
      assert rows[..cuts[n]] + rows[cuts[n]..cuts[n + 1]] == rows[..cuts[n + 1]];
    }
  }

  /** The total weight of a list of lists, one inner list at a time. */
  function Load<T>(ss: seq<seq<T>>, w: T -> nat): nat {
    if ss == [] then 0 else Weight(ss[0], w) + Load(ss[1..], w)
  }

  lemma {:induction false} LoadIsWeight<T>(ss: seq<seq<T>>, w: T -> nat)
    ensures Load(ss, w) == Weight(Flatten(ss), w)
  {
    if ss != [] {
      LoadIsWeight(ss[1..], w);
      WeightConcat(ss[0], Flatten(ss[1..]), w);
    }
  }

  lemma {:induction false} LoadConcat<T>(a: seq<seq<T>>, b: seq<seq<T>>, w: T -> nat)
    ensures Load(a + b, w) == Load(a, w) + Load(b, w)
  {
    if a == [] {
      assert a + b == b;
    } else {
      assert (a + b)[1..] == a[1..] + b;
      LoadConcat(a[1..], b, w);
    }
  }

  /** m stands in s at place i. */
  predicate Occurs<T(==)>(s: seq<T>, i: nat, m: seq<T>) {
    i + |m| <= |s| && s[i..i + |m|] == m
  }

  lemma {:induction false} OccursPointwise<T>(s: seq<T>, i: nat, m: seq<T>)
    requires i + |m| <= |s| && forall k :: 0 <= k < |m| ==> s[i + k] == m[k]
    ensures Occurs(s, i, m)
  {
    forall k | 0 <= k < |m| ensures s[i..i + |m|][k] == m[k] {
      assert s[i..i + |m|][k] == s[i + k];
    }
  }

  /** s[lo:hi], as far as s goes. */
  function Slice<T>(s: seq<T>, lo: nat, hi: nat): seq<T>
    requires lo <= hi
  {
    s[if lo < |s| then lo else |s|..if hi < |s| then hi else |s|]
  }
}
