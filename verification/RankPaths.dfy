// Model-parallel ranks in checkpoint paths (nemo/utils/model_utils.py): putting the ranks
// of a process into a path as a directory, taking them out again, on which paths the one
// undoes the other, and when two processes are given the same path.

module RankPaths {
  import opened Lists
  import opened Decimal

  // ----- os.path on POSIX -----

  predicate NoSlash(s: string) {
    forall i :: 0 <= i < |s| ==> s[i] != '/'
  }

  predicate AllSlashes(s: string) {
    forall i :: 0 <= i < |s| ==> s[i] == '/'
  }

  /** The length of the part of p up to and including its last slash. */
  function HeadLength(p: string): (n: nat)
    ensures n <= |p| && (n > 0 ==> p[n - 1] == '/')
    ensures forall i :: n <= i < |p| ==> p[i] != '/'
  {
    if p == [] then 0
    else if p[|p| - 1] == '/' then |p|
    else HeadLength(p[..|p| - 1])
  }

  function Basename(p: string): string { p[HeadLength(p)..] }

  /** s without its trailing slashes. */
  function RStrip(s: string): (t: string)
    ensures |t| <= |s| && t == s[..|t|]
    ensures t != [] ==> t[|t| - 1] != '/'
    ensures forall i :: |t| <= i < |s| ==> s[i] == '/'
  {
    if s != [] && s[|s| - 1] == '/' then RStrip(s[..|s| - 1]) else s
  }

  function Strip(head: string): string {
    if AllSlashes(head) then head else RStrip(head)
  }

  function Dirname(p: string): string { Strip(p[..HeadLength(p)]) }

  function Join(a: string, b: string): string {
    if b != [] && b[0] == '/' then b
    else if a == [] || a[|a| - 1] == '/' then a + b
    else a + "/" + b
  }

  // ----- The two functions -----

  predicate Contains(s: string, m: string) { exists i: nat :: i <= |s| && Occurs(s, i, m) }

  const MP := "mp_rank"
  const TP := "tp_rank"
  const SHARD := "fsdp_shard"

  predicate HasMarker(s: string) {
    Contains(s, MP) || Contains(s, TP) || Contains(s, SHARD)
  }

  function Uninject(p: string): string {
    if HasMarker(p) then Join(Dirname(Dirname(p)), Basename(p)) else p
  }

  /** The ranks and sizes that the application state holds. */
  datatype Ranks = Ranks(
    modelParallelSize: Option<int>, pipelineSize: Option<int>, tensor: nat, pipeline: nat, data: nat)

  predicate Parallel(r: Ranks) { r.modelParallelSize.Some? && r.modelParallelSize.value > 1 }

  predicate Pipelined(r: Ranks) { r.pipelineSize.Some? && r.pipelineSize.value != 1 }

  function Marker(r: Ranks): string {
    if !Parallel(r) then SHARD else if !Pipelined(r) then MP else TP
  }

  function SecondRank(r: Ranks, fsdpSharded: bool): string {
    if Pipelined(r) then "_pp_rank_" + Pad(r.pipeline, 3)
    else if fsdpSharded then "_fsdp_shard_" + Pad(r.data, 5)
    else ""
  }

  /** The name of the directory that carries the ranks; empty for none. */
  function RankDir(r: Ranks, fsdpSharded: bool): string {
    if Parallel(r) then Marker(r) + ("_" + (Pad(r.tensor, 2) + SecondRank(r, fsdpSharded)))
    else if fsdpSharded then Marker(r) + ("_" + Pad(r.data, 5))
    else ""
  }

  function WithDir(q: string, dir: string): string {
    Dirname(q) + (if dir == "" then "" else "/" + dir) + ("/" + Basename(q))
  }

  function Inject(p: string, r: Ranks, fsdpSharded: bool): string {
    WithDir(Uninject(p), RankDir(r, fsdpSharded))
  }

  // ----- Paths that end in a plain name -----

  lemma {:induction false} SplitLast(x: string, b: string)
    requires NoSlash(b)
    ensures Basename(x + "/" + b) == b
    ensures Dirname(x + "/" + b) == Strip(x + "/")
  {
    var p := x + "/" + b;
    assert p[|x| + 1..] == b && p[..|x| + 1] == x + "/" && p[|x|] == '/';
    assert forall i :: 0 <= i < |b| ==> p[|x| + 1 + i] == b[i];
    assert HeadLength(p) == |x| + 1;
  }

  lemma {:induction false} StripAfterName(y: string)
    requires y != [] && y[|y| - 1] != '/'
    ensures Strip(y + "/") == y
  {
    var s := y + "/";
    assert s[|y| - 1] == y[|y| - 1] && s[|y|] == '/';
    assert |RStrip(s)| == |y|;
    assert s[..|y|] == y;
  }

  lemma {:induction false} DirnameEnd(p: string)
    ensures AllSlashes(Dirname(p)) || (Dirname(p) != [] && Dirname(p)[|Dirname(p)| - 1] != '/')
    ensures Strip(Dirname(p) + "/") == if AllSlashes(Dirname(p)) then Dirname(p) + "/" else Dirname(p)
  {
    var d := Dirname(p);
    if AllSlashes(d) {
      assert AllSlashes(d + "/");
    } else {
      StripAfterName(d);
    }
  }

  // ----- Markers -----

  lemma {:induction false} OccursIn(s: string, lo: nat, hi: nat, m: string)
    requires lo <= hi <= |s| && Contains(s[lo..hi], m)
    ensures Contains(s, m)
  {
    var t := s[lo..hi];
    var i: nat :| i <= |t| && Occurs(t, i, m);
    forall k | 0 <= k < |m| ensures s[lo + i + k] == m[k] {
      assert t[i..i + |m|][k] == t[i + k];
    }
    assert Occurs(s, lo + i, m);
  }

  /** A marker has no slash, so it lies on one side of every slash. */
  lemma {:induction false} NotAcrossSlash(d: string, b: string, m: string)
    requires NoSlash(m) && Contains(d + "/" + b, m)
    ensures Contains(d, m) || Contains(b, m)
  {
    var s := d + "/" + b;
    var i: nat :| i <= |s| && Occurs(s, i, m);
    assert s[|d|] == '/';
    forall k | i <= k < i + |m| ensures s[k] == m[k - i] { assert s[i..i + |m|][k - i] == s[k]; }
    if i + |m| <= |d| {
      forall k | 0 <= k < |m| ensures d[i + k] == m[k] { assert d[i + k] == s[i + k]; }
      OccursPointwise(d, i, m);
    } else {
      assert i > |d|;
      var j := i - |d| - 1;
      forall k | 0 <= k < |m| ensures b[j + k] == m[k] { assert b[j + k] == s[i + k]; }
      OccursPointwise(b, j, m);
    }
  }

  lemma {:induction false} RejoinedContains(p: string, m: string)
    requires NoSlash(m) && Contains(Dirname(p) + "/" + Basename(p), m)
    ensures Contains(p, m)
  {
    var d, n := Dirname(p), HeadLength(p);
    assert d == p[0..|d|] && Basename(p) == p[n..|p|];
    NotAcrossSlash(d, Basename(p), m);
    if Contains(d, m) {
      OccursIn(p, 0, |d|, m);
    } else {
      OccursIn(p, n, |p|, m);
    }
  }

  lemma {:induction false} RejoinedHasNoMarker(p: string)
    requires !HasMarker(p)
    ensures !HasMarker(Dirname(p) + "/" + Basename(p))
  {
    var q := Dirname(p) + "/" + Basename(p);
    if Contains(q, MP) { RejoinedContains(p, MP); }
    if Contains(q, TP) { RejoinedContains(p, TP); }
    if Contains(q, SHARD) { RejoinedContains(p, SHARD); }
  }

  lemma {:induction false} ContainsMiddle(x: string, m: string, rest: string, y: string)
    ensures Contains(x + (m + rest) + y, m)
  {
    assert Occurs(x + (m + rest) + y, |x|, m);
  }

  /** A rank directory is a plain name that carries a marker. */
  lemma {:induction false} RankDirIsMarked(r: Ranks, fsdpSharded: bool, x: string, y: string)
    requires RankDir(r, fsdpSharded) != ""
    ensures HasMarker(x + RankDir(r, fsdpSharded) + y)
  {
    if Parallel(r) {
      ContainsMiddle(x, Marker(r), "_" + (Pad(r.tensor, 2) + SecondRank(r, fsdpSharded)), y);
    } else {
      ContainsMiddle(x, Marker(r), "_" + Pad(r.data, 5), y);
    }
  }

  lemma {:induction false} RankDirIsPlain(r: Ranks, fsdpSharded: bool)
    ensures NoSlash(RankDir(r, fsdpSharded))
  {
    assert NoSlash(Marker(r));
    assert NoSlash(SecondRank(r, fsdpSharded));
  }

  lemma {:induction false} NameInDir(d: string, b: string)
    requires d != "" && d[|d| - 1] != '/' && NoSlash(b)
    ensures Dirname(d + "/" + b) == d && Basename(d + "/" + b) == b
  {
    SplitLast(d, b);
    StripAfterName(d);
  }

  /** The paths that injection makes of a file in a directory, written out. */
  lemma {:induction false} InjectedPath(d: string, b: string, r: Ranks, fsdpSharded: bool)
    requires d != "" && d[|d| - 1] != '/' && NoSlash(b) && !HasMarker(d + "/" + b)
    ensures Inject(d + "/" + b, r, fsdpSharded) ==
      if r.modelParallelSize == None || r.modelParallelSize.value <= 1 then
        d + (if fsdpSharded then "/fsdp_shard_" + Pad(r.data, 5) else "") + ("/" + b)
      else if r.pipelineSize == None || r.pipelineSize.value == 1 then
        d + ("/mp_rank_" + Pad(r.tensor, 2) + (if fsdpSharded then "_fsdp_shard_" + Pad(r.data, 5) else "")) + ("/" + b)
      else
        d + ("/tp_rank_" + Pad(r.tensor, 2) + "_pp_rank_" + Pad(r.pipeline, 3)) + ("/" + b)
  {
    NameInDir(d, b);
    RankDirWritten(r, fsdpSharded);
  }

  lemma {:induction false} RankDirWritten(r: Ranks, fsdpSharded: bool)
    ensures !Parallel(r) && fsdpSharded ==> "/" + RankDir(r, fsdpSharded) == "/fsdp_shard_" + Pad(r.data, 5)
    ensures Parallel(r) && !Pipelined(r) ==>
      "/" + RankDir(r, fsdpSharded)
      == "/mp_rank_" + Pad(r.tensor, 2) + (if fsdpSharded then "_fsdp_shard_" + Pad(r.data, 5) else "")
    ensures Parallel(r) && Pipelined(r) ==>
      "/" + RankDir(r, fsdpSharded) == "/tp_rank_" + Pad(r.tensor, 2) + "_pp_rank_" + Pad(r.pipeline, 3)
    ensures RankDir(r, fsdpSharded) == "" <==> !Parallel(r) && !fsdpSharded
  {
    if Parallel(r) && Pipelined(r) { PipelineDirWritten(r, fsdpSharded); }
  }

  lemma {:induction false} PipelineDirWritten(r: Ranks, fsdpSharded: bool)
    requires Parallel(r) && Pipelined(r)
    ensures "/" + RankDir(r, fsdpSharded) == "/tp_rank_" + Pad(r.tensor, 2) + "_pp_rank_" + Pad(r.pipeline, 3)
  {
  }

  // ----- Undo and overwrite -----

  /** What is left of a path after ranks were put in and taken out. */
  lemma {:induction false} UninjectInject(p: string, r: Ranks, fsdpSharded: bool)
    requires !HasMarker(p)
    ensures Uninject(Inject(p, r, fsdpSharded)) == Dirname(p) + "/" + Basename(p)
  {
    var dir := RankDir(r, fsdpSharded);
    assert Inject(p, r, fsdpSharded) == WithDir(p, dir);
    if dir == "" {
      WithNoDir(p);
      RejoinedHasNoMarker(p);
    } else {
      RankDirIsMarked(r, fsdpSharded, Dirname(p) + "/", "/" + Basename(p));
      RankDirIsPlain(r, fsdpSharded);
      WithSomeDir(p, dir);
      DirnameEnd(p);
      JoinBack(Dirname(p), Basename(p), dir);
    }
  }

  lemma {:induction false} WithNoDir(p: string)
    ensures WithDir(p, "") == Dirname(p) + "/" + Basename(p)
  {
    assert Dirname(p) + "" == Dirname(p);
  }

  lemma {:induction false} WithSomeDir(p: string, dir: string)
    requires dir != ""
    ensures WithDir(p, dir) == Dirname(p) + "/" + dir + ("/" + Basename(p))
    ensures WithDir(p, dir) == Dirname(p) + "/" + dir + "/" + Basename(p)
  {
    assert Dirname(p) + ("/" + dir) == Dirname(p) + "/" + dir;
  }

  lemma {:induction false} JoinBack(d: string, b: string, dir: string)
    requires dir != "" && NoSlash(dir) && NoSlash(b)
    requires Strip(d + "/") == d + "/" || (Strip(d + "/") == d && d != [] && d[|d| - 1] != '/')
    ensures var q := d + "/" + dir + "/" + b;
      Join(Dirname(Dirname(q)), Basename(q)) == d + "/" + b
  {
    var y := d + "/" + dir;
    SplitLast(y, b);
    assert y[|y| - 1] == dir[|dir| - 1];
    StripAfterName(y);
    SplitLast(d, dir);
    JoinName(d, b);
  }

  lemma {:induction false} JoinName(d: string, b: string)
    requires NoSlash(b)
    ensures Join(d + "/", b) == d + "/" + b
    ensures d != [] && d[|d| - 1] != '/' ==> Join(d, b) == d + "/" + b
  {
  }

  /** A path whose last slash follows another character than a slash. */
  predicate Regular(p: string) {
    HeadLength(p) >= 2 && p[HeadLength(p) - 2] != '/'
  }

  /** A path is its directory, a slash and its name exactly when it is regular. */
  lemma {:induction false} RejoinedIff(p: string)
    ensures Dirname(p) + "/" + Basename(p) == p <==> Regular(p)
  {
    var n, d := HeadLength(p), Dirname(p);
    var head := p[..n];
    if Regular(p) {
      assert head == head[..n - 1] + "/";
      StripAfterName(head[..n - 1]);
      assert d + "/" + Basename(p) == p;
    } else {
      assert |d| + 1 != n by {
        if !AllSlashes(head) { assert n >= 2 && head[n - 2] == p[n - 2] && head[n - 1] == '/'; }
      }
    }
  }

  /** Taking the ranks out undoes putting them in exactly on regular paths. */
  lemma {:induction false} UninjectUndoesIff(p: string, r: Ranks, fsdpSharded: bool)
    requires !HasMarker(p)
    ensures Uninject(Inject(p, r, fsdpSharded)) == p <==> Regular(p)
  {
    UninjectInject(p, r, fsdpSharded);
    RejoinedIff(p);
  }

  /** New ranks replace old ones exactly when the path has a directory other than the root. */
  lemma {:induction false} InjectOverwritesIff(p: string, r1: Ranks, fsdp1: bool, r2: Ranks, fsdp2: bool)
    requires !HasMarker(p)
    ensures Inject(Inject(p, r1, fsdp1), r2, fsdp2) == Inject(p, r2, fsdp2) <==> !AllSlashes(Dirname(p))
  {
    var d, b := Dirname(p), Basename(p);
    UninjectInject(p, r1, fsdp1);
    SplitLast(d, b);
    DirnameEnd(p);
  }

  // ----- When nothing changes -----

  lemma {:induction false} DirnameOfStripped(head: string)
    requires head != [] && head[|head| - 1] == '/' && AllSlashes(Strip(head))
    ensures Strip(head) == head && Dirname(head) == head
  {
    assert HeadLength(head) == |head|;
    assert head[..|head|] == head;
  }

  /** Below the directory of a marked path, what the marker removal leaves has the directory two levels up. */
  lemma {:induction false} TwoLevelsUp(d: string, b: string)
    requires NoSlash(b)
    requires AllSlashes(d) || d[|d| - 1] != '/'
    ensures Dirname(Join(d, b)) == d && Basename(Join(d, b)) == b
  {
    if AllSlashes(d) {
      SplitHead(d, b);
    } else {
      SplitLast(d, b);
      StripAfterName(d);
    }
  }

  lemma {:induction false} SplitHead(d: string, b: string)
    requires NoSlash(b) && AllSlashes(d)
    ensures Join(d, b) == d + b && Dirname(d + b) == d && Basename(d + b) == b
  {
    var q := d + b;
    assert q[|d|..] == b && q[..|d|] == d;
    assert forall i :: 0 <= i < |b| ==> q[|d| + i] == b[i];
    assert |d| > 0 ==> q[|d| - 1] == d[|d| - 1];
    assert HeadLength(q) == |d|;
  }

  /** What injection makes of a path that carries a marker: its last directory is exchanged. */
  lemma {:induction false} InjectMarked(p: string, r: Ranks, fsdpSharded: bool)
    requires HasMarker(p)
    ensures var d, dir := Dirname(Dirname(p)), RankDir(r, fsdpSharded);
      Inject(p, r, fsdpSharded) == d + (if dir == "" then "" else "/" + dir) + ("/" + Basename(p))
  {
    DirnameEnd(Dirname(p));
    TwoLevelsUp(Dirname(Dirname(p)), Basename(p));
  }

  /** The directory of a directory is shorter, save at the root. */
  lemma {:induction false} DirnameShrinks(p: string)
    ensures |Dirname(p)| <= HeadLength(p)
    ensures AllSlashes(Dirname(p)) ==> Dirname(Dirname(p)) == Dirname(p)
    ensures !AllSlashes(Dirname(p)) ==> |Dirname(p)| < HeadLength(p) && |Dirname(Dirname(p))| < |Dirname(p)|
  {
    var head, d := p[..HeadLength(p)], Dirname(p);
    if AllSlashes(d) {
      if d != [] { DirnameOfStripped(d); }
    } else {
      assert d == RStrip(head) && d[|d| - 1] != '/';
      assert head[|head| - 1] == '/';
      assert HeadLength(d) < |d|;
    }
  }

  /** Without a rank directory to put in, a marked path always changes: it loses a level, or gains a slash. */
  lemma {:induction false} MarkedAlwaysChanges(p: string)
    ensures Dirname(Dirname(p)) + "" + ("/" + Basename(p)) != p
  {
    DirnameShrinks(p);
    var n, d := HeadLength(p), Dirname(p);
    assert |Basename(p)| == |p| - n;
    if AllSlashes(d) { assert |d| == n by { AllSlashesIsHead(p); } }
  }

  lemma {:induction false} AllSlashesIsHead(p: string)
    requires AllSlashes(Dirname(p))
    ensures |Dirname(p)| == HeadLength(p)
  {
    var head := p[..HeadLength(p)];
    assert Dirname(p) == Strip(head);
  }

  /** The path lies in the directory of these ranks already, without a doubled slash before or after its name. */
  predicate InRankDir(p: string, dir: string) {
    Regular(p) && Regular(Dirname(p)) && Basename(Dirname(p)) == dir
  }

  lemma {:induction false} InRankDirIff(p: string, dir: string)
    requires dir != "" && NoSlash(dir)
    ensures Dirname(Dirname(p)) + "/" + dir + "/" + Basename(p) == p <==> InRankDir(p, dir)
  {
    var dd, b := Dirname(Dirname(p)), Basename(p);
    var y := dd + "/" + dir;
    RejoinedIff(p);
    RejoinedIff(Dirname(p));
    if y + "/" + b == p {
      SplitLast(y, b);
      assert y[|y| - 1] == dir[|dir| - 1];
      StripAfterName(y);
      SplitLast(dd, dir);
    }
  }

  /**
   * Injection changes nothing exactly when there are no ranks to put in and the path is regular and
   * carries no marker, or when the path lies in the directory of these ranks already.
   */
  lemma {:induction false} InjectDoesNothingIff(p: string, r: Ranks, fsdpSharded: bool)
    ensures Inject(p, r, fsdpSharded) == p
       <==> if !Parallel(r) && !fsdpSharded then !HasMarker(p) && Regular(p)
            else InRankDir(p, RankDir(r, fsdpSharded))
  {
    var dir := RankDir(r, fsdpSharded);
    assert dir == "" <==> !Parallel(r) && !fsdpSharded;
    if dir == "" {
      if HasMarker(p) {
        InjectMarked(p, r, fsdpSharded);
        MarkedAlwaysChanges(p);
      } else {
        WithNoDir(p);
        RejoinedIff(p);
      }
    } else {
      NamedDirChange(p, r, fsdpSharded);
    }
  }

  lemma {:induction false} NamedDirChange(p: string, r: Ranks, fsdpSharded: bool)
    requires RankDir(r, fsdpSharded) != ""
    ensures Inject(p, r, fsdpSharded) == p <==> InRankDir(p, RankDir(r, fsdpSharded))
  {
    RankDirIsPlain(r, fsdpSharded);
    InRankDirIff(p, RankDir(r, fsdpSharded));
    if HasMarker(p) {
      MarkedInject(p, r, fsdpSharded);
    } else {
      UnmarkedChanges(p, r, fsdpSharded);
    }
  }

  lemma {:induction false} MarkedInject(p: string, r: Ranks, fsdpSharded: bool)
    requires RankDir(r, fsdpSharded) != "" && HasMarker(p)
    ensures Inject(p, r, fsdpSharded) == Dirname(Dirname(p)) + "/" + RankDir(r, fsdpSharded) + "/" + Basename(p)
  {
    InjectMarked(p, r, fsdpSharded);
    Reassociate(Dirname(Dirname(p)), RankDir(r, fsdpSharded), Basename(p));
  }

  lemma {:induction false} Reassociate(d: string, dir: string, b: string)
    ensures d + ("/" + dir) + ("/" + b) == d + "/" + dir + "/" + b == d + "/" + dir + ("/" + b)
  {
  }

  /** The path gets a marker that it did not have. */
  lemma {:induction false} UnmarkedChanges(p: string, r: Ranks, fsdpSharded: bool)
    requires RankDir(r, fsdpSharded) != "" && !HasMarker(p)
    ensures Inject(p, r, fsdpSharded) != p
    ensures Dirname(Dirname(p)) + "/" + RankDir(r, fsdpSharded) + "/" + Basename(p) != p
  {
    var dir := RankDir(r, fsdpSharded);
    assert Inject(p, r, fsdpSharded) == WithDir(p, dir);
    WithSomeDir(p, dir);
    RankDirIsMarked(r, fsdpSharded, Dirname(p) + "/", "/" + Basename(p));
    RankDirIsMarked(r, fsdpSharded, Dirname(Dirname(p)) + "/", "/" + Basename(p));
    Reassociate(Dirname(Dirname(p)), dir, Basename(p));
  }

  /** A file name without a directory gets a slash in front, although no ranks are in use. */
  lemma {:induction false} BareNameGetsSlash(p: string, r: Ranks)
    requires NoSlash(p) && !HasMarker(p) && !Parallel(r)
    ensures Inject(p, r, false) == "/" + p
  {
    assert HeadLength(p) == 0 && Dirname(p) == "" && Basename(p) == p;
    WithNoDir(p);
    assert "" + "/" + p == "/" + p;
  }

  lemma {:induction false} LastCheckpointMoves(p: string, r: Ranks)
    requires p == "last.ckpt" && !Parallel(r)
    ensures !HasMarker(p) && Inject(p, r, false) == "/last.ckpt"
  {
    NotIn(p, MP);
    NotIn(p, TP);
    BareNameGetsSlash(p, r);
  }

  lemma {:induction false} NotIn(s: string, m: string)
    requires |s| <= 9 && |m| == 7
    requires forall i :: 0 <= i <= 2 && i < |s| ==> s[i] != m[0]
    ensures !Contains(s, m)
  {
    forall i: nat | Occurs(s, i, m) ensures i < |s| && s[i] == m[0] { OccurrenceStarts(s, i, m); }
  }

  lemma {:induction false} OccurrenceStarts(s: string, i: nat, m: string)
    requires Occurs(s, i, m) && m != []
    ensures i < |s| && s[i] == m[0]
  {
    assert s[i..i + |m|][0] == s[i];
  }

  // ----- Distinct ranks -----

  /** The ranks the chosen branch prints. */
  function Relevant(r: Ranks, fsdpSharded: bool): (nat, nat, nat) {
    if Parallel(r) && Pipelined(r) then (r.tensor, r.pipeline, 0)
    else (if Parallel(r) then r.tensor else 0, 0, if fsdpSharded then r.data else 0)
  }

  predicate SameSizes(r: Ranks, s: Ranks) {
    r.modelParallelSize == s.modelParallelSize && r.pipelineSize == s.pipelineSize
  }

  lemma {:induction false} WithDirInjective(q: string, x: string, y: string)
    requires (x == "") == (y == "") && WithDir(q, x) == WithDir(q, y)
    ensures x == y
  {
    var d, n := Dirname(q), |"/" + Basename(q)|;
    if x != "" {
      assert |WithDir(q, x)| == |d| + 1 + |x| + n && |WithDir(q, y)| == |d| + 1 + |y| + n;
      assert x == WithDir(q, x)[|d| + 1..|d| + 1 + |x|];
      assert y == WithDir(q, y)[|d| + 1..|d| + 1 + |y|];
    }
  }

  /** Two ranks share a path exactly when the chosen branch prints the same numbers for both. */
  lemma {:induction false} PathsCollideIff(p: string, r: Ranks, s: Ranks, fsdpSharded: bool)
    requires SameSizes(r, s)
    ensures Inject(p, r, fsdpSharded) == Inject(p, s, fsdpSharded)
       <==> Relevant(r, fsdpSharded) == Relevant(s, fsdpSharded)
  {
    RelevantIsPrinted(r, s, fsdpSharded);
    if Inject(p, r, fsdpSharded) == Inject(p, s, fsdpSharded) {
      WithDirInjective(Uninject(p), RankDir(r, fsdpSharded), RankDir(s, fsdpSharded));
    }
  }

  /** The directory name determines the printed numbers, and they determine it. */
  lemma {:induction false} RelevantIsPrinted(r: Ranks, s: Ranks, fsdpSharded: bool)
    requires SameSizes(r, s)
    ensures (RankDir(r, fsdpSharded) == "") == (RankDir(s, fsdpSharded) == "")
    ensures RankDir(r, fsdpSharded) == RankDir(s, fsdpSharded) <==> Relevant(r, fsdpSharded) == Relevant(s, fsdpSharded)
  {
    var a := "_" + (Pad(r.tensor, 2) + SecondRank(r, fsdpSharded));
    var b := "_" + (Pad(s.tensor, 2) + SecondRank(s, fsdpSharded));
    if RankDir(r, fsdpSharded) == RankDir(s, fsdpSharded) {
      if Parallel(r) {
        AfterPrefix(Marker(r), a, b);
        AfterPrefix("_", Pad(r.tensor, 2) + SecondRank(r, fsdpSharded), Pad(s.tensor, 2) + SecondRank(s, fsdpSharded));
        NumeralEnds(Pad(r.tensor, 2), Pad(s.tensor, 2), SecondRank(r, fsdpSharded), SecondRank(s, fsdpSharded));
        PadInjective(r.tensor, s.tensor, 2);
        SecondRankInjective(r, s, fsdpSharded);
      } else if fsdpSharded {
        AfterPrefix(Marker(r), "_" + Pad(r.data, 5), "_" + Pad(s.data, 5));
        AfterPrefix("_", Pad(r.data, 5), Pad(s.data, 5));
        PadInjective(r.data, s.data, 5);
      }
    }
  }

  lemma {:induction false} AfterPrefix(a: string, x: string, y: string)
    requires a + x == a + y
    ensures x == y
  {
    assert x == (a + x)[|a|..];
    assert y == (a + y)[|a|..];
  }

  lemma {:induction false} SecondRankInjective(r: Ranks, s: Ranks, fsdpSharded: bool)
    requires SameSizes(r, s) && SecondRank(r, fsdpSharded) == SecondRank(s, fsdpSharded)
    ensures if Pipelined(r) then r.pipeline == s.pipeline else fsdpSharded ==> r.data == s.data
  {
    if Pipelined(r) {
      AfterPrefix("_pp_rank_", Pad(r.pipeline, 3), Pad(s.pipeline, 3));
      PadInjective(r.pipeline, s.pipeline, 3);
    } else if fsdpSharded {
      AfterPrefix("_fsdp_shard_", Pad(r.data, 5), Pad(s.data, 5));
      PadInjective(r.data, s.data, 5);
    }
  }
}
