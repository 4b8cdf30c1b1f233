// Choosing the last checkpoint to resume from (check_resume in nemo/utils/exp_manager.py).

module CheckpointChoice {
  import opened Lists
  import opened Decimal
  import RankPaths

  // ----- step=<integer> fields in a file name -----

  const STEP := "step="

  predicate IsSeparator(c: char) { c == '-' || c == '_' }

  /** The place after the digits of a field that starts at p. */
  function DigitsEnd(name: string, p: nat): nat
    requires p + 5 <= |name|
  {
    p + 5 + LeadingDigits(name[p + 5..])
  }

  /** $ in a regular expression: the end, or a final line feed. */
  predicate AtEnd(name: string, q: nat) {
    q == |name| || (q + 1 == |name| && name[q] == '\n')
  }

  /** (?:^|[-_])step=(\d+)(?:[-_.]|$) with the field itself at p. */
  predicate Field(name: string, p: nat) {
    && (p == 0 || (p <= |name| && IsSeparator(name[p - 1])))
    && Occurs(name, p, STEP)
    && DigitsEnd(name, p) > p + 5
    && DigitsEnd(name, p) <= |name|
    && var q := DigitsEnd(name, p);
       AtEnd(name, q) || IsSeparator(name[q]) || name[q] == '.'
  }

  /** A match includes the separator before the field, and the one after it if there is one. */
  function MatchStart(p: nat): nat { if p == 0 then 0 else p - 1 }

  function MatchEnd(name: string, p: nat): nat
    requires Field(name, p)
  {
    var q := DigitsEnd(name, p);
    if q < |name| && (IsSeparator(name[q]) || name[q] == '.') then q + 1 else q
  }

  /** re.findall: leftmost matches that do not overlap; p is the next place to try, pos the end of the last match. */
  function FindAll(name: string, p: nat, pos: nat): seq<nat>
    decreases |name| - p
  {
    if p >= |name| then []
    else if Field(name, p) && MatchStart(p) >= pos then [p] + FindAll(name, p + 1, MatchEnd(name, p))
    else FindAll(name, p + 1, pos)
  }

  function Matches(name: string): seq<nat> { FindAll(name, 0, 0) }

  /** Every field of the name, whether or not findall returns it. */
  function Fields(name: string, p: nat): seq<nat>
    decreases |name| - p
  {
    if p >= |name| then []
    else if Field(name, p) then [p] + Fields(name, p + 1)
    else Fields(name, p + 1)
  }

  /** The separator after field p is the one before field r. */
  predicate Share(name: string, p: nat, r: nat)
    requires Field(name, p)
  {
    MatchStart(r) < MatchEnd(name, p)
  }

  function Greedy(name: string, fields: seq<nat>, pos: nat): seq<nat>
    requires forall i :: 0 <= i < |fields| ==> Field(name, fields[i])
  {
    if fields == [] then []
    else if MatchStart(fields[0]) >= pos then [fields[0]] + Greedy(name, fields[1..], MatchEnd(name, fields[0]))
    else Greedy(name, fields[1..], pos)
  }

  lemma {:induction false} FieldsAre(name: string, p: nat)
    ensures forall i :: 0 <= i < |Fields(name, p)| ==>
      p <= Fields(name, p)[i] < |name| && Field(name, Fields(name, p)[i])
    ensures forall i, j :: 0 <= i < j < |Fields(name, p)| ==> Fields(name, p)[i] < Fields(name, p)[j]
    decreases |name| - p
  {
    if p < |name| { FieldsAre(name, p + 1); }
  }

  lemma {:induction false} FindAllIsGreedy(name: string, p: nat, pos: nat)
    requires forall i :: 0 <= i < |Fields(name, p)| ==> Field(name, Fields(name, p)[i])
    ensures FindAll(name, p, pos) == Greedy(name, Fields(name, p), pos)
    decreases |name| - p
  {
    if p < |name| {
      FieldsAre(name, p + 1);
      if Field(name, p) && MatchStart(p) >= pos {
        FindAllIsGreedy(name, p + 1, MatchEnd(name, p));
      } else {
        FindAllIsGreedy(name, p + 1, pos);
      }
    }
  }

  lemma {:induction false} DigitsAre(s: string)
    ensures LeadingDigits(s) <= |s|
    ensures forall i :: 0 <= i < LeadingDigits(s) ==> IsDigit(s[i])
  {
    if s != [] && IsDigit(s[0]) { DigitsAre(s[1..]); }
  }

  /** The next field starts after the digits of this one. */
  lemma {:induction false} FieldsApart(name: string, p: nat, r: nat)
    requires Field(name, p) && Field(name, r) && p < r
    ensures DigitsEnd(name, p) < r
  {
    DigitsAre(name[p + 5..]);
    assert name[r] == name[r..r + 5][0] == 's';
    var s := name[p..p + 5];
    assert name[p + 1] == s[1] && name[p + 2] == s[2] && name[p + 3] == s[3] && name[p + 4] == s[4];
    var digits := name[p + 5..];
    assert forall k :: p + 5 <= k < DigitsEnd(name, p) ==> name[k] == digits[k - p - 5];
  }

  /**
   * A candidate is accepted, having exactly one match, exactly when its name has one step field,
   * or two that share a separator: then the second one is overlooked.
   */
  lemma {:induction false} OneMatchIff(name: string)
    ensures FieldsValid(name)
    ensures var f := Fields(name, 0);
      |Matches(name)| == 1 <==> |f| == 1 || (|f| == 2 && Share(name, f[0], f[1]))
    ensures |Matches(name)| == 1 ==> Matches(name)[0] == Fields(name, 0)[0]
  {
    var f := Fields(name, 0);
    FieldsAre(name, 0);
    FindAllIsGreedy(name, 0, 0);
    if |f| >= 1 {
      var end := MatchEnd(name, f[0]);
      assert Greedy(name, f, 0) == [f[0]] + Greedy(name, f[1..], end);
      if |f| == 2 {
        GreedyOfTwo(name, f);
      } else if |f| >= 3 {
        FieldsApart(name, f[0], f[1]);
        FieldsApart(name, f[1], f[2]);
        GreedyTakesOne(name, f[1..], end);
      }
    }
  }

  ghost predicate FieldsValid(name: string) {
    forall i :: 0 <= i < |Fields(name, 0)| ==> Field(name, Fields(name, 0)[i])
  }

  lemma {:induction false} GreedyTakesOne(name: string, f: seq<nat>, pos: nat)
    requires |f| >= 2 && forall i :: 0 <= i < |f| ==> Field(name, f[i])
    requires MatchStart(f[0]) >= pos || MatchStart(f[1]) >= pos
    ensures |Greedy(name, f, pos)| >= 1
  {
    if MatchStart(f[0]) < pos { assert f[1..][0] == f[1]; }
  }

  lemma {:induction false} GreedyOfTwo(name: string, f: seq<nat>)
    requires |f| == 2 && Field(name, f[0]) && Field(name, f[1])
    ensures |Greedy(name, f, 0)| == if Share(name, f[0], f[1]) then 1 else 2
  {
    var end, rest := MatchEnd(name, f[0]), f[1..];
    assert Greedy(name, rest[1..], end) == [];
    assert Field(name, f[1]) ==> Greedy(name, rest[1..], MatchEnd(name, f[1])) == [];
    assert Greedy(name, f, 0) == [f[0]] + Greedy(name, rest, end);
  }

  lemma {:induction false} DigitsOnce(name: string, p: nat)
    requires p + 1 < |name| && IsDigit(name[p]) && !IsDigit(name[p + 1])
    ensures LeadingDigits(name[p..]) == 1
  {
    assert name[p..][1..][0] == name[p + 1];
  }

  lemma {:induction false} OneDigitField(name: string, p: nat)
    requires p + 7 <= |name| && (p == 0 || name[p - 1] == '-')
    requires name[p] == 's' && name[p + 1] == 't' && name[p + 2] == 'e' && name[p + 3] == 'p' && name[p + 4] == '='
    requires IsDigit(name[p + 5]) && name[p + 6] == '-'
    ensures Field(name, p) && MatchEnd(name, p) == p + 7
  {
    DigitsOnce(name, p + 5);
    assert name[p..p + 5] == STEP;
  }

  lemma {:induction false} SkipNonFields(name: string, p: nat, r: nat)
    requires p <= r && forall k :: p <= k < r && k < |name| ==> !Field(name, k)
    ensures Fields(name, p) == Fields(name, r) || (r > |name| && Fields(name, p) == [])
    decreases r - p
  {
    if p < r && p < |name| { SkipNonFields(name, p + 1, r); }
  }

  lemma {:induction false} FieldLooksLikeStep(name: string, p: nat)
    requires Field(name, p)
    ensures p + 2 < |name| && name[p] == 's' && name[p + 2] == 'e'
  {
    assert name[p..p + 5][0] == 's' && name[p..p + 5][2] == 'e';
  }

  lemma {:induction false} TwoFieldsAccepted(name: string)
    requires |name| >= 14 && Field(name, 0) && Field(name, 7) && MatchEnd(name, 0) == 7
    requires forall k :: 0 < k < |name| - 2 && k != 7 ==> name[k] != 's' || name[k + 2] != 'e'
    ensures Matches(name) == [0]
  {
    forall k: nat | k < |name| && k != 0 && k != 7 ensures !Field(name, k) {
      if Field(name, k) { FieldLooksLikeStep(name, k); }
    }
    SkipNonFields(name, 1, 7);
    SkipNonFields(name, 8, |name|);
    assert Fields(name, |name|) == [];
    assert Fields(name, 0) == [0] + Fields(name, 1) && Fields(name, 7) == [7] + Fields(name, 8);
    OneMatchIff(name);
  }

  /** The name step=1-step=2-last holds two steps and is accepted, for the first of them. */
  lemma {:induction false} TwoStepsAccepted(name: string, a: string, b: string, c: string)
    requires a == "step=1-" && b == "step=2-" && c == "last" && name == a + b + c
    ensures Field(name, 0) && Field(name, 7) && Matches(name) == [0]
  {
    assert forall i :: 0 <= i < 7 ==> name[i] == a[i];
    assert forall i :: 7 <= i < 14 ==> name[i] == b[i - 7];
    assert forall i :: 14 <= i < 18 ==> name[i] == c[i - 14];
    OneDigitField(name, 0);
    OneDigitField(name, 7);
    TwoFieldsAccepted(name);
  }

  // ----- The choice -----

  /** A checkpoint path and its last component. */
  datatype Candidate = Candidate(path: string, name: string)

  datatype Error = NoSingleStep | DuplicateStep | Multiple

  predicate HasStep(c: Candidate) { |Matches(c.name)| == 1 }

  function StepOf(c: Candidate): nat
    requires HasStep(c)
  {
    MatchesAreFields(c.name, 0, 0);
    var p := Matches(c.name)[0];
    DigitsAre(c.name[p + 5..]);
    Value(c.name[p + 5..DigitsEnd(c.name, p)])
  }

  lemma {:induction false} MatchesAreFields(name: string, p: nat, pos: nat)
    ensures forall i :: 0 <= i < |FindAll(name, p, pos)| ==> Field(name, FindAll(name, p, pos)[i])
    decreases |name| - p
  {
    if p < |name| {
      if Field(name, p) && MatchStart(p) >= pos {
        MatchesAreFields(name, p + 1, MatchEnd(name, p));
      } else {
        MatchesAreFields(name, p + 1, pos);
      }
    }
  }

  /** The name is a, then the field step= with n in at least w digits, then b, and findall finds no other field. */
  ghost predicate CarriesStep(name: string, a: string, n: nat, w: nat, b: string) {
    && name == a + "step=" + Pad(n, w) + b
    && (b == "" || IsSeparator(b[0]) || b[0] == '.')
    && Matches(name) == [|a|]
  }

  /** The step of a name is the number that its field spells, however many digits that takes. */
  lemma {:induction false} StepIsWritten(c: Candidate, a: string, n: nat, w: nat, b: string)
    requires CarriesStep(c.name, a, n, w, b)
    ensures HasStep(c) && StepOf(c) == n
  {
    var name, p, digits := c.name, |a|, Pad(n, w);
    assert name[p + 5..] == digits + b;
    LeadingDigitsOf(digits, b);
    assert name[p + 5..p + 5 + |digits|] == digits;
    PadIs(n, w);
  }

  /** A field is step= after the start or a separator, all its digits, and then the end, a separator or a dot. */
  lemma {:induction false} FieldIff(name: string, p: nat, digits: string, b: string)
    requires p + 5 <= |name| && name[p + 5..] == digits + b
    requires AllDigits(digits) && (b == "" || !IsDigit(b[0]))
    ensures Field(name, p) <==>
      && (p == 0 || name[p - 1] in {'-', '_'})
      && name[p..p + 5] == "step=" && digits != ""
      && (b == "" || b == "\n" || b[0] in {'-', '_', '.'})
  {
    LeadingDigitsOf(digits, b);
    var q := p + 5 + |digits|;
    assert DigitsEnd(name, p) == q && |name| == q + |b|;
    if b != "" { assert name[q] == name[p + 5..][|digits|] == b[0]; }
    assert b == "\n" <==> |b| == 1 && b[0] == '\n';
  }

  /** Every candidate has one step, and no two have the same. */
  ghost predicate Selectable(cs: seq<Candidate>) {
    && (forall i :: 0 <= i < |cs| ==> HasStep(cs[i]))
    && (forall i, j :: 0 <= i < j < |cs| ==> StepOf(cs[i]) != StepOf(cs[j]))
  }

  /** The unique candidate of the greatest step. */
  ghost predicate IsLatest(cs: seq<Candidate>, c: Candidate) {
    c in cs && HasStep(c) && forall d :: d in cs && d != c ==> HasStep(d) && StepOf(d) < StepOf(c)
  }

  /** Candidate i carries the number ns[i] as its step. */
  ghost predicate Numbered(cs: seq<Candidate>, ns: seq<nat>) {
    && |ns| == |cs|
    && forall i :: 0 <= i < |cs| ==> exists a, w, b :: CarriesStep(cs[i].name, a, ns[i], w, b)
  }

  /** With distinct numbers the candidates can be told apart, and the latest is the one with the greatest number. */
  lemma {:induction false} LatestHasGreatestNumber(cs: seq<Candidate>, ns: seq<nat>, i: nat)
    requires Numbered(cs, ns) && i < |cs|
    ensures Selectable(cs) <==> forall j, k :: 0 <= j < k < |ns| ==> ns[j] != ns[k]
    ensures Greatest(ns, i) ==> IsLatest(cs, cs[i])
  {
    forall j | 0 <= j < |cs| ensures HasStep(cs[j]) && StepOf(cs[j]) == ns[j] {
      var a, w, b :| CarriesStep(cs[j].name, a, ns[j], w, b);
      StepIsWritten(cs[j], a, ns[j], w, b);
    }
  }

  /** The numbers are distinct, and the i-th is the greatest. */
  ghost predicate Greatest(ns: seq<nat>, i: nat) {
    && i < |ns|
    && (forall j, k :: 0 <= j < k < |ns| ==> ns[j] != ns[k])
    && (forall j :: 0 <= j < |ns| ==> ns[j] <= ns[i])
  }

  lemma {:induction false} GreatestIsSelected(cs: seq<Candidate>, r: Result<Candidate, Error>)
    requires r.Ok? <==> Selectable(cs)
    requires r.Ok? ==> IsLatest(cs, r.value)
    ensures forall ns: seq<nat>, i: nat :: Numbered(cs, ns) && Greatest(ns, i) ==> r == Ok(cs[i])
  {
    forall ns: seq<nat>, i: nat | Numbered(cs, ns) && Greatest(ns, i) ensures r == Ok(cs[i]) {
      LatestHasGreatestNumber(cs, ns, i);
      assert Selectable(cs) && IsLatest(cs, cs[i]);
    }
  }

  method SelectLatest(cs: seq<Candidate>) returns (r: Result<Candidate, Error>)
    requires cs != []
    ensures r.Ok? <==> Selectable(cs)
    ensures r.Ok? ==> IsLatest(cs, r.value)
    ensures r.Err? ==> r.error != Multiple
    ensures r == Err(NoSingleStep) ==> exists i :: 0 <= i < |cs| && !HasStep(cs[i])
    ensures r == Err(DuplicateStep) ==>
      exists i, j :: 0 <= i < j < |cs| && HasStep(cs[i]) && HasStep(cs[j]) && StepOf(cs[i]) == StepOf(cs[j])
    ensures forall ns: seq<nat>, i: nat :: Numbered(cs, ns) && Greatest(ns, i) ==> r == Ok(cs[i])
  {
    var byStep: map<nat, Candidate> := map[];
    var greatest := 0;
    ghost var steps := [];
    for k := 0 to |cs|
      invariant |steps| == k && Steps(cs, steps) && Scanned(cs, steps, byStep, greatest)
    {
      if |Matches(cs[k].name)| != 1 {
        assert !HasStep(cs[k]);
        r := Err(NoSingleStep);
        GreatestIsSelected(cs, r);
        return;
      }
      var step := StepOf(cs[k]);
      if step in byStep {
        DuplicateFound(cs, k, steps);
        r := Err(DuplicateStep);
        GreatestIsSelected(cs, r);
        return;
      }
      ScannedNext(cs, steps, byStep, greatest, step);
      byStep := byStep[step := cs[k]];
      if k == 0 || step > greatest {
        greatest := step;
      }
      steps := steps + [step];
    }
    LatestFound(cs, steps, greatest);
    r := Ok(byStep[greatest]);
    GreatestIsSelected(cs, r);
  }

  /** The steps of the first candidates. */
  ghost predicate Steps(cs: seq<Candidate>, steps: seq<nat>) {
    && |steps| <= |cs|
    && forall i :: 0 <= i < |steps| ==> HasStep(cs[i]) && StepOf(cs[i]) == steps[i]
  }

  ghost predicate Distinct(steps: seq<nat>) {
    forall i, j :: 0 <= i < j < |steps| ==> steps[i] != steps[j]
  }

  /** The dictionary by step after some candidates, whose steps are given. */
  ghost predicate Scanned(cs: seq<Candidate>, steps: seq<nat>, byStep: map<nat, Candidate>, greatest: nat) {
    && |steps| <= |cs| && Distinct(steps)
    && (forall i :: 0 <= i < |steps| ==> steps[i] in byStep && byStep[steps[i]] == cs[i] && steps[i] <= greatest)
    && (forall s :: s in byStep ==> s in steps)
    && (steps != [] ==> greatest in steps)
  }

  lemma {:induction false} ScannedNext(cs: seq<Candidate>, steps: seq<nat>, byStep: map<nat, Candidate>,
                                       greatest: nat, step: nat)
    requires |steps| < |cs| && Scanned(cs, steps, byStep, greatest) && step !in byStep
    ensures Scanned(cs, steps + [step], byStep[step := cs[|steps|]],
                    if steps == [] || step > greatest then step else greatest)
  {
    assert forall i :: 0 <= i < |steps| ==> steps[i] != step;
  }

  lemma {:induction false} DuplicateFound(cs: seq<Candidate>, k: nat, steps: seq<nat>)
    requires k < |cs| && |steps| == k && HasStep(cs[k]) && StepOf(cs[k]) in steps && Steps(cs, steps)
    ensures !Selectable(cs)
    ensures exists i, j :: 0 <= i < j < |cs| && HasStep(cs[i]) && HasStep(cs[j]) && StepOf(cs[i]) == StepOf(cs[j])
  {
    var i :| 0 <= i < k && steps[i] == StepOf(cs[k]);
  }

  lemma {:induction false} LatestFound(cs: seq<Candidate>, steps: seq<nat>, greatest: nat)
    requires |steps| == |cs| && Steps(cs, steps) && Distinct(steps)
    requires greatest in steps && forall i :: 0 <= i < |steps| ==> steps[i] <= greatest
    ensures Selectable(cs)
    ensures forall i :: 0 <= i < |cs| && steps[i] == greatest ==> IsLatest(cs, cs[i])
  {
    forall i | 0 <= i < |cs| && steps[i] == greatest ensures IsLatest(cs, cs[i]) {
      forall d | d in cs && d != cs[i] ensures HasStep(d) && StepOf(d) < greatest {
        var j :| 0 <= j < |cs| && cs[j] == d;
        assert steps[j] != steps[i];
      }
    }
  }

  /** The whole branch over last checkpoints. */
  method ChooseLast(cs: seq<Candidate>, selectLatest: bool) returns (r: Result<string, Error>)
    requires cs != []
    ensures |cs| == 1 ==> r == Ok(cs[0].path)
    ensures |cs| > 1 && RankPaths.HasMarker(cs[0].path) ==> r == Ok(RankPaths.Uninject(cs[0].path))
    ensures |cs| > 1 && !RankPaths.HasMarker(cs[0].path) ==>
      && (r.Ok? <==> selectLatest && Selectable(cs))
      && (r.Ok? ==> exists c :: IsLatest(cs, c) && r.value == c.path)
      && (!selectLatest ==> r == Err(Multiple))
  {
    if |cs| == 1 {
      return Ok(cs[0].path);
    }
    if RankPaths.HasMarker(cs[0].path) {
      return Ok(RankPaths.Uninject(cs[0].path));
    }
    if !selectLatest {
      return Err(Multiple);
    }
    var latest := SelectLatest(cs);
    return if latest.Ok? then Ok(latest.value.path) else Err(latest.error);
  }

  /** The choice does not depend on the order in which the directory lists the checkpoints. */
  lemma {:induction false} ChoiceIgnoresOrder(a: seq<Candidate>, b: seq<Candidate>)
    requires multiset(a) == multiset(b)
    ensures Selectable(a) <==> Selectable(b)
    ensures forall c, d :: IsLatest(a, c) && IsLatest(b, d) ==> c == d
  {
    if Selectable(a) { SelectableIn(a, b); }
    if Selectable(b) { SelectableIn(b, a); }
    forall c ensures c in a <==> c in b { assert c in multiset(a) <==> c in multiset(b); }
  }

  lemma {:induction false} SelectableIn(a: seq<Candidate>, b: seq<Candidate>)
    requires multiset(a) == multiset(b) && Selectable(a)
    ensures Selectable(b)
  {
    forall i | 0 <= i < |b| ensures HasStep(b[i]) {
      assert b[i] in multiset(a);
    }
    forall i, j | 0 <= i < j < |b| ensures StepOf(b[i]) != StepOf(b[j]) {
      assert b[i] in multiset(a) && b[j] in multiset(a);
      if b[i] == b[j] {
        CountedTwice(b, i, j);
        NotTwice(a, b[i]);
      }
    }
  }

  lemma {:induction false} CountedTwice(b: seq<Candidate>, i: nat, j: nat)
    requires i < j < |b| && b[i] == b[j]
    ensures multiset(b)[b[i]] >= 2
  {
    assert b == b[..i] + [b[i]] + b[i + 1..j] + [b[j]] + b[j + 1..];
  }

  lemma {:induction false} NotTwice(a: seq<Candidate>, c: Candidate)
    requires Selectable(a)
    ensures multiset(a)[c] <= 1
  {
    if a != [] {
      var n := |a| - 1;
      assert a == a[..n] + [a[n]];
      NotTwice(a[..n], c);
      assert forall i :: 0 <= i < n ==> StepOf(a[i]) != StepOf(a[n]);
    }
  }
}
