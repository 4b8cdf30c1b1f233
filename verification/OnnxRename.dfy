// Renaming the inputs and outputs of an ONNX graph (rename_onnx_io in
// nemo/utils/export_utils.py), and why the renamed graph computes the same.

module OnnxRename {
  import opened Lists

  datatype Node = Node(op: string, input: seq<string>, output: seq<string>)

  /** Initializers are named constants; the renaming leaves their names alone. */
  datatype Graph<V> = Graph(input: seq<string>, output: seq<string>, node: seq<Node>, initializer: map<string, V>)

  type Renaming = map<string, string>

  function Apply(m: Renaming, name: string): string {
    if name in m then m[name] else name
  }

  function ApplyAll(m: Renaming, names: seq<string>): seq<string> {
    seq(|names|, i requires 0 <= i < |names| => Apply(m, names[i]))
  }

  function ApplyNode(m: Renaming, n: Node): Node {
    Node(n.op, ApplyAll(m, n.input), ApplyAll(m, n.output))
  }

  function ApplyNodes(m: Renaming, nodes: seq<Node>): seq<Node> {
    seq(|nodes|, i requires 0 <= i < |nodes| => ApplyNode(m, nodes[i]))
  }

  // ----- The program -----

  /** The dictionary after the entries current[i] -> wanted[i] were put in, a later entry replacing an earlier one. */
  function Enter(m: Renaming, current: seq<string>, wanted: seq<string>): Renaming
    decreases current
  {
    if current == [] || wanted == [] then m
    else Enter(m[current[0] := wanted[0]], current[1..], wanted[1..])
  }

  function RenameMap<V>(g: Graph<V>, inputNames: seq<string>, outputNames: seq<string>): Renaming {
    Enter(Enter(map[], g.input, inputNames), g.output, outputNames)
  }

  /** The first names replaced by the new ones. */
  function Overwrite(names: seq<string>, wanted: seq<string>): seq<string>
    requires |wanted| <= |names|
  {
    wanted + names[|wanted|..]
  }

  function Renamed<V>(g: Graph<V>, inputNames: seq<string>, outputNames: seq<string>): Graph<V>
    requires |inputNames| <= |g.input| && |outputNames| <= |g.output|
  {
    var m := RenameMap(g, inputNames, outputNames);
    Graph(Overwrite(g.input, inputNames), Overwrite(g.output, outputNames), ApplyNodes(m, g.node), g.initializer)
  }

  // ----- What the saved graph looks like -----

  /** i is the last place of names, below n, where s stands. */
  ghost predicate LastAt(names: seq<string>, n: nat, s: string, i: nat) {
    && i < n <= |names| && names[i] == s
    && forall k :: i < k < n ==> names[k] != s
  }

  /**
   * What an occurrence of a name in a node turns into: the new name of the last output of that name that
   * gets one, else of the last such input, else it stays.
   */
  ghost predicate Becomes<V>(g: Graph<V>, inputNames: seq<string>, outputNames: seq<string>, s: string, t: string)
    requires |inputNames| <= |g.input| && |outputNames| <= |g.output|
  {
    && (forall j: nat :: LastAt(g.output, |outputNames|, s, j) ==> t == outputNames[j])
    && (s !in g.output[..|outputNames|] ==>
          forall i: nat :: LastAt(g.input, |inputNames|, s, i) ==> t == inputNames[i])
    && (s !in g.output[..|outputNames|] && s !in g.input[..|inputNames|] ==> t == s)
  }

  ghost predicate AllBecome<V>(g: Graph<V>, inputNames: seq<string>, outputNames: seq<string>,
                               names: seq<string>, names': seq<string>)
    requires |inputNames| <= |g.input| && |outputNames| <= |g.output|
  {
    |names'| == |names| && forall p :: 0 <= p < |names| ==> Becomes(g, inputNames, outputNames, names[p], names'[p])
  }

  /** h is g with its first inputs and outputs and all their occurrences renamed, and nothing else changed. */
  ghost predicate RenamedBy<V>(g: Graph<V>, inputNames: seq<string>, outputNames: seq<string>, h: Graph<V>)
    requires |inputNames| <= |g.input| && |outputNames| <= |g.output|
  {
    && |h.input| == |g.input| && |h.output| == |g.output|
    && (forall i :: 0 <= i < |g.input| ==> h.input[i] == if i < |inputNames| then inputNames[i] else g.input[i])
    && (forall j :: 0 <= j < |g.output| ==> h.output[j] == if j < |outputNames| then outputNames[j] else g.output[j])
    && h.initializer == g.initializer && |h.node| == |g.node|
    && forall q :: 0 <= q < |g.node| ==>
         && h.node[q].op == g.node[q].op
         && AllBecome(g, inputNames, outputNames, g.node[q].input, h.node[q].input)
         && AllBecome(g, inputNames, outputNames, g.node[q].output, h.node[q].output)
  }

  lemma {:induction false} EnterLast(m: Renaming, current: seq<string>, wanted: seq<string>, s: string, q: nat)
    requires LastAt(current, |wanted|, s, q)
    ensures s in Enter(m, current, wanted) && Enter(m, current, wanted)[s] == wanted[q]
    decreases current
  {
    var m' := m[current[0] := wanted[0]];
    if q > 0 {
      EnterLast(m', current[1..], wanted[1..], s, q - 1);
    } else {
      forall k | 0 <= k < |wanted| - 1 ensures current[1..][k] != s { assert current[k + 1] != s; }
      EnterOther(m', current[1..], wanted[1..], s);
    }
  }

  lemma {:induction false} EnterOther(m: Renaming, current: seq<string>, wanted: seq<string>, s: string)
    requires |wanted| <= |current| && forall k :: 0 <= k < |wanted| ==> current[k] != s
    ensures s in Enter(m, current, wanted) <==> s in m
    ensures s in m ==> Enter(m, current, wanted)[s] == m[s]
    decreases current
  {
    if wanted != [] { EnterOther(m[current[0] := wanted[0]], current[1..], wanted[1..], s); }
  }

  lemma {:induction false} ApplyBecomes<V>(g: Graph<V>, inputNames: seq<string>, outputNames: seq<string>, s: string)
    requires |inputNames| <= |g.input| && |outputNames| <= |g.output|
    ensures Becomes(g, inputNames, outputNames, s, Apply(RenameMap(g, inputNames, outputNames), s))
  {
    var m0 := Enter(map[], g.input, inputNames);
    forall j: nat | LastAt(g.output, |outputNames|, s, j)
      ensures Apply(RenameMap(g, inputNames, outputNames), s) == outputNames[j]
    {
      EnterLast(m0, g.output, outputNames, s, j);
    }
    if s !in g.output[..|outputNames|] {
      forall k | 0 <= k < |outputNames| ensures g.output[k] != s { assert g.output[k] in g.output[..|outputNames|]; }
      EnterOther(m0, g.output, outputNames, s);
      forall i: nat | LastAt(g.input, |inputNames|, s, i) ensures Apply(m0, s) == inputNames[i] {
        EnterLast(map[], g.input, inputNames, s, i);
      }
      if s !in g.input[..|inputNames|] {
        forall k | 0 <= k < |inputNames| ensures g.input[k] != s { assert g.input[k] in g.input[..|inputNames|]; }
        EnterOther(map[], g.input, inputNames, s);
      }
    }
  }

  lemma {:induction false} RenamedIsRenamedBy<V>(g: Graph<V>, inputNames: seq<string>, outputNames: seq<string>)
    requires |inputNames| <= |g.input| && |outputNames| <= |g.output|
    ensures RenamedBy(g, inputNames, outputNames, Renamed(g, inputNames, outputNames))
  {
    var m := RenameMap(g, inputNames, outputNames);
    forall names: seq<string> ensures AllBecome(g, inputNames, outputNames, names, ApplyAll(m, names)) {
      forall p | 0 <= p < |names| ensures Becomes(g, inputNames, outputNames, names[p], ApplyAll(m, names)[p]) {
        ApplyBecomes(g, inputNames, outputNames, names[p]);
      }
    }
  }

  method ZipInto(m0: Renaming, current: seq<string>, wanted: seq<string>) returns (m: Renaming)
    ensures m == Enter(m0, current, wanted)
  {
    m := m0;
    var i := 0;
    while i < |current| && i < |wanted|
      invariant 0 <= i <= |current| && i <= |wanted|
      invariant Enter(m, current[i..], wanted[i..]) == Enter(m0, current, wanted)
    {
      m := m[current[i] := wanted[i]];
      i := i + 1;
    }
  }

  method RenameAll(m: Renaming, names: seq<string>) returns (r: seq<string>)
    ensures r == ApplyAll(m, names)
  {
    r := names;
    for i := 0 to |names|
      invariant |r| == |names|
      invariant forall j :: 0 <= j < i ==> r[j] == Apply(m, names[j])
      invariant forall j :: i <= j < |names| ==> r[j] == names[j]
    {
      if r[i] in m {
        r := r[i := m[r[i]]];
      }
    }
  }

  /** The model file: what onnx.load reads and onnx.save replaces. */
  class ModelFile<V> {
    var graph: Graph<V>

    /** False is the IndexError for more names than the graph has; the file is not saved then. */
    method RenameOnnxIo(inputNames: seq<string>, outputNames: seq<string>) returns (ok: bool)
      modifies this
      ensures ok <==> |inputNames| <= |old(graph).input| && |outputNames| <= |old(graph).output|
      ensures ok ==> graph == Renamed(old(graph), inputNames, outputNames)
      ensures ok ==> RenamedBy(old(graph), inputNames, outputNames, graph)
      ensures !ok ==> graph == old(graph)
    {
      var model := graph;
      var renameMap := ZipInto(map[], model.input, inputNames);
      renameMap := ZipInto(renameMap, model.output, outputNames);
      var nodes := model.node;
      for i := 0 to |nodes|
        invariant graph == old(graph) && |nodes| == |model.node|
        invariant forall j :: 0 <= j < i ==> nodes[j] == ApplyNode(renameMap, model.node[j])
        invariant forall j :: i <= j < |nodes| ==> nodes[j] == model.node[j]
      {
        var input := RenameAll(renameMap, nodes[i].input);
        var output := RenameAll(renameMap, nodes[i].output);
        nodes := nodes[i := Node(nodes[i].op, input, output)];
      }
      var inputs := WriteNames(model.input, inputNames);
      if inputs == None {
        return false;
      }
      var outputs := WriteNames(model.output, outputNames);
      if outputs == None {
        return false;
      }
      graph := Graph(inputs.value, outputs.value, nodes, model.initializer);
      RenamedIsRenamedBy(old(graph), inputNames, outputNames);
      return true;
    }
  }

  method WriteNames(names: seq<string>, wanted: seq<string>) returns (r: Option<seq<string>>)
    ensures r == if |wanted| <= |names| then Some(Overwrite(names, wanted)) else None
  {
    var s := names;
    for i := 0 to |wanted|
      invariant i <= |names| && s == wanted[..i] + names[i..]
    {
      if i >= |names| {
        return None;
      }
      s := s[i := wanted[i]];
    }
    assert wanted[..|wanted|] == wanted;
    return Some(s);
  }

  // ----- What a graph computes -----

  type Env<V> = map<string, V>

  /** An operator maps its inputs to its outputs, or fails; an omitted input is None. */
  type Semantics<!V> = (string, seq<Option<V>>) -> Option<seq<V>>

  function Bind<V>(env: Env<V>, names: seq<string>, values: seq<V>): Env<V>
    requires |names| == |values|
    decreases names
  {
    if names == [] then env
    else Bind(env[names[0] := values[0]], names[1..], values[1..])
  }

  /** The values of the inputs of a node; the empty name stands for an omitted optional input. */
  function Fetch<V>(env: Env<V>, names: seq<string>): Option<seq<Option<V>>> {
    if names == [] then Some([])
    else
      match Fetch(env, names[1..])
      case None => None
      case Some(rest) =>
        if names[0] == "" then Some([None] + rest)
        else if names[0] in env then Some([Some(env[names[0]])] + rest)
        else None
  }

  function Exec<V>(sem: Semantics<V>, n: Node, env: Env<V>): Option<Env<V>> {
    match Fetch(env, n.input)
    case None => None
    case Some(args) =>
      match sem(n.op, args)
      case None => None
      case Some(results) => if |results| == |n.output| then Some(Bind(env, n.output, results)) else None
  }

  function ExecAll<V>(sem: Semantics<V>, nodes: seq<Node>, env: Env<V>): Option<Env<V>> {
    if nodes == [] then Some(env)
    else
      match Exec(sem, nodes[0], env)
      case None => None
      case Some(env') => ExecAll(sem, nodes[1..], env')
  }

  function Lookup<V>(env: Env<V>, names: seq<string>): Option<seq<V>> {
    if names == [] then Some([])
    else if names[0] !in env then None
    else
      match Lookup(env, names[1..])
      case None => None
      case Some(rest) => Some([env[names[0]]] + rest)
  }

  /** Inputs and outputs by position. */
  function Run<V>(sem: Semantics<V>, g: Graph<V>, args: seq<V>): Option<seq<V>> {
    if |args| != |g.input| then None
    else
      match ExecAll(sem, g.node, Bind(g.initializer, g.input, args))
      case None => None
      case Some(env) => Lookup(env, g.output)
  }

  /** Nodes run in order, each on what the ones before it computed. */
  lemma {:induction false} ChainRuns<V>(sem: Semantics<V>, g: Graph<V>, x: string, y: string, z: string,
                                        f: string, h: string, arg: V, mid: V, result: V)
    requires x != "" && y != "" && x != y && y != z && x != z
    requires g == Graph([x], [z], [Node(f, [x], [y]), Node(h, [y, ""], [z])], map[])
    requires sem(f, [Some(arg)]) == Some([mid]) && sem(h, [Some(mid), None]) == Some([result])
    ensures Run(sem, g, [arg]) == Some([result])
  {
    var e0, e1, e2: Env<V> := map[x := arg], map[x := arg, y := mid], map[x := arg, y := mid, z := result];
    assert g.node[1..] == [Node(h, [y, ""], [z])] && g.node[1..][1..] == [];
    BindOne(map[], x, arg);
    BindOne(e0, y, mid);
    BindOne(e1, z, result);
    FetchIs(e0, [x]);
    FetchIs(e1, [y, ""]);
    LookupIs(e2, [z]);
    assert Fetch(e0, [x]).value == [Some(arg)] && Fetch(e1, [y, ""]).value == [Some(mid), None];
    assert Lookup(e2, [z]).value == [result];
    assert Exec(sem, g.node[0], e0) == Some(e1) && Exec(sem, g.node[1], e1) == Some(e2);
    assert ExecAll(sem, g.node, e0) == ExecAll(sem, g.node[1..], e1) == Some(e2);
  }

  lemma {:induction false} BindOne<V>(env: Env<V>, x: string, v: V)
    ensures Bind(env, [x], [v]) == env[x := v]
  {
    assert Bind(env, [x], [v]) == Bind(env[x := v], [x][1..], [v][1..]);
  }

  /** A node gets one value per input, none for an omitted one, and fails exactly when a name has no value yet. */
  lemma {:induction false} FetchIs<V>(env: Env<V>, names: seq<string>)
    ensures Fetch(env, names).Some? <==> forall i :: 0 <= i < |names| ==> names[i] == "" || names[i] in env
    ensures Fetch(env, names).Some? ==>
      && |Fetch(env, names).value| == |names|
      && forall i :: 0 <= i < |names| ==>
           Fetch(env, names).value[i] == if names[i] in env && names[i] != "" then Some(env[names[i]]) else None
    decreases names
  {
    if names != [] {
      FetchIs(env, names[1..]);
      assert names == [names[0]] + names[1..];
    }
  }

  lemma {:induction false} LookupIs<V>(env: Env<V>, names: seq<string>)
    ensures Lookup(env, names).Some? <==> forall i :: 0 <= i < |names| ==> names[i] in env
    ensures Lookup(env, names).Some? ==>
      && |Lookup(env, names).value| == |names|
      && forall i :: 0 <= i < |names| ==> names[i] in env && Lookup(env, names).value[i] == env[names[i]]
    decreases names
  {
    if names != [] {
      LookupIs(env, names[1..]);
      assert names == [names[0]] + names[1..];
    }
  }

  // ----- When the renaming is safe -----

  function NodeNames(nodes: seq<Node>): set<string> {
    set i, s | 0 <= i < |nodes| && s in nodes[i].input + nodes[i].output :: s
  }

  /** Every name that occurs in the graph, and the name of omitted inputs. */
  function Names<V>(g: Graph<V>): set<string> {
    (set s | s in g.input) + (set s | s in g.output) + NodeNames(g.node) + g.initializer.Keys + {""}
  }

  ghost predicate InjectiveOn(m: Renaming, names: set<string>) {
    forall s, t :: s in names && t in names && Apply(m, s) == Apply(m, t) ==> s == t
  }

  ghost predicate Safe<V>(g: Graph<V>, inputNames: seq<string>, outputNames: seq<string>) {
    var m := RenameMap(g, inputNames, outputNames);
    && InjectiveOn(m, Names(g))
    && Apply(m, "") == ""
    && forall s :: s in g.initializer ==> Apply(m, s) == s
  }

  /** env' is env with its names renamed, as far as the given names go. */
  ghost predicate Mirrors<V>(env: Env<V>, env': Env<V>, m: Renaming, names: set<string>) {
    forall s :: s in names ==> (s in env <==> Apply(m, s) in env') && (s in env ==> env[s] == env'[Apply(m, s)])
  }

  lemma {:induction false} BindMirrors<V>(env: Env<V>, env': Env<V>, names: seq<string>, values: seq<V>,
                                          m: Renaming, all: set<string>)
    requires |names| == |values| && Mirrors(env, env', m, all) && InjectiveOn(m, all)
    requires forall s :: s in names ==> s in all
    ensures Mirrors(Bind(env, names, values), Bind(env', ApplyAll(m, names), values), m, all)
    decreases names
  {
    if names != [] {
      assert ApplyAll(m, names)[1..] == ApplyAll(m, names[1..]);
      BindMirrors(env[names[0] := values[0]], env'[Apply(m, names[0]) := values[0]], names[1..], values[1..], m, all);
    }
  }

  lemma {:induction false} FetchMirrors<V>(env: Env<V>, env': Env<V>, names: seq<string>, m: Renaming, all: set<string>)
    requires Mirrors(env, env', m, all) && InjectiveOn(m, all) && "" in all && Apply(m, "") == ""
    requires forall s :: s in names ==> s in all
    ensures Fetch(env', ApplyAll(m, names)) == Fetch(env, names)
  {
    if names != [] {
      assert ApplyAll(m, names)[1..] == ApplyAll(m, names[1..]);
      FetchMirrors(env, env', names[1..], m, all);
      assert names[0] in all;
    }
  }

  lemma {:induction false} LookupMirrors<V>(env: Env<V>, env': Env<V>, names: seq<string>,
                                            m: Renaming, all: set<string>)
    requires Mirrors(env, env', m, all)
    requires forall s :: s in names ==> s in all
    ensures Lookup(env', ApplyAll(m, names)) == Lookup(env, names)
  {
    if names != [] {
      assert ApplyAll(m, names)[1..] == ApplyAll(m, names[1..]);
      LookupMirrors(env, env', names[1..], m, all);
      assert names[0] in all;
    }
  }

  lemma {:induction false} ExecMirrors<V>(sem: Semantics<V>, nodes: seq<Node>, env: Env<V>, env': Env<V>,
                                          m: Renaming, all: set<string>)
    requires Mirrors(env, env', m, all) && InjectiveOn(m, all) && "" in all && Apply(m, "") == ""
    requires NodeNames(nodes) <= all
    ensures ExecAll(sem, nodes, env).None? <==> ExecAll(sem, ApplyNodes(m, nodes), env').None?
    ensures ExecAll(sem, nodes, env).Some? ==>
      Mirrors(ExecAll(sem, nodes, env).value, ExecAll(sem, ApplyNodes(m, nodes), env').value, m, all)
  {
    if nodes != [] {
      var n := nodes[0];
      assert ApplyNodes(m, nodes)[1..] == ApplyNodes(m, nodes[1..]);
      forall s | s in n.input + n.output ensures s in all { assert s in NodeNames(nodes); }
      FetchMirrors(env, env', n.input, m, all);
      if Exec(sem, n, env).Some? {
        var results := sem(n.op, Fetch(env, n.input).value).value;
        BindMirrors(env, env', n.output, results, m, all);
        assert NodeNames(nodes[1..]) <= all by {
          forall i, s | 0 <= i < |nodes[1..]| && s in nodes[1..][i].input + nodes[1..][i].output
            ensures s in NodeNames(nodes)
          {
            assert s in nodes[i + 1].input + nodes[i + 1].output;
          }
        }
        ExecMirrors(sem, nodes[1..], Exec(sem, n, env).value, Exec(sem, ApplyNode(m, n), env').value, m, all);
      }
    }
  }

  // ----- When the new names of inputs and outputs agree with the renaming -----

  function Io<V>(g: Graph<V>): seq<string> { g.input + g.output }

  function NewIo<V>(g: Graph<V>, inputNames: seq<string>, outputNames: seq<string>): seq<string>
    requires |inputNames| <= |g.input| && |outputNames| <= |g.output|
  {
    Overwrite(g.input, inputNames) + Overwrite(g.output, outputNames)
  }

  /** Equal names get equal new names: in particular when all names are distinct. */
  ghost predicate OneNewNameEach<V>(g: Graph<V>, inputNames: seq<string>, outputNames: seq<string>)
    requires |inputNames| <= |g.input| && |outputNames| <= |g.output|
  {
    forall p, q :: 0 <= p < |Io(g)| && 0 <= q < |Io(g)| && Io(g)[p] == Io(g)[q] ==>
      NewIo(g, inputNames, outputNames)[p] == NewIo(g, inputNames, outputNames)[q]
  }

  lemma {:induction false} EnterFrom(m: Renaming, current: seq<string>, wanted: seq<string>, s: string)
    requires |wanted| <= |current|
    ensures s in Enter(m, current, wanted) <==> s in m || s in current[..|wanted|]
    ensures s in Enter(m, current, wanted) ==>
      || (exists q :: 0 <= q < |wanted| && current[q] == s && Enter(m, current, wanted)[s] == wanted[q])
      || (s !in current[..|wanted|] && Enter(m, current, wanted)[s] == m[s])
    decreases current
  {
    if current != [] && wanted != [] {
      var m' := m[current[0] := wanted[0]];
      EnterFrom(m', current[1..], wanted[1..], s);
      assert current[..|wanted|] == [current[0]] + current[1..][..|wanted[1..]|];
      if q :| 0 <= q < |wanted[1..]| && current[1..][q] == s
              && Enter(m', current[1..], wanted[1..])[s] == wanted[1..][q] {
        assert current[q + 1] == s && wanted[q + 1] == wanted[1..][q];
      } else if s == current[0] {
        assert current[0] == s && (s in Enter(m, current, wanted) ==> Enter(m, current, wanted)[s] == wanted[0]);
      }
    }
  }

  /** Each name is mapped to the new name of some place where it stands. */
  lemma {:induction false} RenameMapFrom<V>(g: Graph<V>, inputNames: seq<string>, outputNames: seq<string>, p: nat)
    requires |inputNames| <= |g.input| && |outputNames| <= |g.output| && p < |Io(g)|
    ensures exists q :: 0 <= q < |Io(g)| && Io(g)[q] == Io(g)[p]
              && Apply(RenameMap(g, inputNames, outputNames), Io(g)[p]) == NewIo(g, inputNames, outputNames)[q]
  {
    var s, m0, m := Io(g)[p], Enter(map[], g.input, inputNames), RenameMap(g, inputNames, outputNames);
    var io, wanted, n := Io(g), NewIo(g, inputNames, outputNames), |g.input|;
    EnterFrom(map[], g.input, inputNames, s);
    EnterFrom(m0, g.output, outputNames, s);
    if q :| 0 <= q < |outputNames| && g.output[q] == s && s in m && m[s] == outputNames[q] {
      assert io[n + q] == s && wanted[n + q] == m[s];
    } else if q :| 0 <= q < |inputNames| && g.input[q] == s && s in m && m[s] == inputNames[q] {
      assert io[q] == s && wanted[q] == m[s];
    } else {
      assert s !in m;
      if p < n { assert s !in g.input[..|inputNames|]; } else { assert s !in g.output[..|outputNames|]; }
      assert wanted[p] == s;
    }
  }

  /** The new input and output names are those of the renaming exactly when equal names get equal new names. */
  lemma {:induction false} IoAgreesIff<V>(g: Graph<V>, inputNames: seq<string>, outputNames: seq<string>)
    requires |inputNames| <= |g.input| && |outputNames| <= |g.output|
    ensures NewIo(g, inputNames, outputNames) == ApplyAll(RenameMap(g, inputNames, outputNames), Io(g))
       <==> OneNewNameEach(g, inputNames, outputNames)
  {
    var m, io, wanted := RenameMap(g, inputNames, outputNames), Io(g), NewIo(g, inputNames, outputNames);
    if OneNewNameEach(g, inputNames, outputNames) {
      forall p | 0 <= p < |io| ensures wanted[p] == ApplyAll(m, io)[p] {
        RenameMapFrom(g, inputNames, outputNames, p);
      }
    } else if wanted == ApplyAll(m, io) {
      forall p | 0 <= p < |io| ensures wanted[p] == Apply(m, io[p]) {
        assert ApplyAll(m, io)[p] == Apply(m, io[p]);
      }
    }
  }

  /** The renamed graph computes what the graph computes, for every meaning of the operators and all arguments. */
  lemma {:induction false} RenamingPreservesMeaning<V>(sem: Semantics<V>, g: Graph<V>, inputNames: seq<string>,
                                                       outputNames: seq<string>, args: seq<V>)
    requires |inputNames| <= |g.input| && |outputNames| <= |g.output|
    requires Safe(g, inputNames, outputNames) && OneNewNameEach(g, inputNames, outputNames)
    ensures Run(sem, Renamed(g, inputNames, outputNames), args) == Run(sem, g, args)
  {
    var m, g', all := RenameMap(g, inputNames, outputNames), Renamed(g, inputNames, outputNames), Names(g);
    IoAgreesIff(g, inputNames, outputNames);
    IoSplits(g, inputNames, outputNames);
    if |args| == |g.input| {
      assert Mirrors(g.initializer, g'.initializer, m, all) by {
        forall s | s in all && Apply(m, s) in g.initializer ensures s in g.initializer {
          assert Apply(m, Apply(m, s)) == Apply(m, s);
        }
      }
      BindMirrors(g.initializer, g'.initializer, g.input, args, m, all);
      var env, env' := Bind(g.initializer, g.input, args), Bind(g'.initializer, g'.input, args);
      ExecMirrors(sem, g.node, env, env', m, all);
      if ExecAll(sem, g.node, env).Some? {
        LookupMirrors(ExecAll(sem, g.node, env).value, ExecAll(sem, g'.node, env').value, g.output, m, all);
      }
    }
  }

  lemma {:induction false} IoSplits<V>(g: Graph<V>, inputNames: seq<string>, outputNames: seq<string>)
    requires |inputNames| <= |g.input| && |outputNames| <= |g.output|
    requires NewIo(g, inputNames, outputNames) == ApplyAll(RenameMap(g, inputNames, outputNames), Io(g))
    ensures Overwrite(g.input, inputNames) == ApplyAll(RenameMap(g, inputNames, outputNames), g.input)
    ensures Overwrite(g.output, outputNames) == ApplyAll(RenameMap(g, inputNames, outputNames), g.output)
  {
    var m, n, all := RenameMap(g, inputNames, outputNames), |g.input|, NewIo(g, inputNames, outputNames);
    assert Overwrite(g.input, inputNames) == all[..n] && Overwrite(g.output, outputNames) == all[n..];
    assert ApplyAll(m, g.input) == ApplyAll(m, Io(g))[..n];
    assert ApplyAll(m, g.output) == ApplyAll(m, Io(g))[n..];
  }

  // ----- Renaming to fresh names -----

  /** The places of Io that get a new name. */
  predicate Placed<V>(g: Graph<V>, inputNames: seq<string>, outputNames: seq<string>, p: nat) {
    p < |inputNames| || |g.input| <= p < |g.input| + |outputNames|
  }

  /** Distinct inputs and outputs, none of them an initializer, get distinct names that the graph does not use. */
  ghost predicate Fresh<V>(g: Graph<V>, inputNames: seq<string>, outputNames: seq<string>)
    requires |inputNames| <= |g.input| && |outputNames| <= |g.output|
  {
    var io, wanted := Io(g), NewIo(g, inputNames, outputNames);
    && (forall p, q :: 0 <= p < q < |io| ==> io[p] != io[q])
    && (forall p: nat :: p < |io| && Placed(g, inputNames, outputNames, p) ==>
          wanted[p] !in Names(g) && io[p] !in g.initializer && io[p] != "")
    && (forall p: nat, q: nat ::
          (p < q < |io| && Placed(g, inputNames, outputNames, p) && Placed(g, inputNames, outputNames, q)) ==>
            wanted[p] != wanted[q])
  }

  /** The names in the dictionary are those of the places that get a new name, and they get that name. */
  lemma {:induction false} PlaceOf<V>(g: Graph<V>, inputNames: seq<string>, outputNames: seq<string>, s: string)
    returns (p: nat)
    requires |inputNames| <= |g.input| && |outputNames| <= |g.output| && OneNewNameEach(g, inputNames, outputNames)
    requires s in RenameMap(g, inputNames, outputNames)
    ensures p < |Io(g)| && Placed(g, inputNames, outputNames, p) && Io(g)[p] == s
    ensures RenameMap(g, inputNames, outputNames)[s] == NewIo(g, inputNames, outputNames)[p]
  {
    EnterFrom(map[], g.input, inputNames, s);
    EnterFrom(Enter(map[], g.input, inputNames), g.output, outputNames, s);
    if q :| 0 <= q < |outputNames| && g.output[q] == s {
      p := |g.input| + q;
    } else {
      p :| 0 <= p < |inputNames| && g.input[p] == s;
    }
    IoAgreesIff(g, inputNames, outputNames);
    assert ApplyAll(RenameMap(g, inputNames, outputNames), Io(g))[p] == RenameMap(g, inputNames, outputNames)[s];
  }

  lemma {:induction false} FreshIsInjective<V>(g: Graph<V>, inputNames: seq<string>, outputNames: seq<string>,
                                               s: string, t: string)
    requires |inputNames| <= |g.input| && |outputNames| <= |g.output|
    requires Fresh(g, inputNames, outputNames) && OneNewNameEach(g, inputNames, outputNames)
    requires s in Names(g) && t in Names(g)
    ensures var m := RenameMap(g, inputNames, outputNames); Apply(m, s) == Apply(m, t) ==> s == t
    ensures s == "" || s in g.initializer ==> Apply(RenameMap(g, inputNames, outputNames), s) == s
  {
    var m := RenameMap(g, inputNames, outputNames);
    if s in m {
      var p := PlaceOf(g, inputNames, outputNames, s);
      if t in m { var q := PlaceOf(g, inputNames, outputNames, t); }
    } else if t in m {
      var q := PlaceOf(g, inputNames, outputNames, t);
    }
  }

  /** Inputs and outputs with names of their own can be given any new names: the graph computes the same. */
  lemma {:induction false} FreshNamesPreserveMeaning<V>(sem: Semantics<V>, g: Graph<V>, inputNames: seq<string>,
                                                        outputNames: seq<string>, args: seq<V>)
    requires |inputNames| <= |g.input| && |outputNames| <= |g.output| && Fresh(g, inputNames, outputNames)
    ensures Run(sem, Renamed(g, inputNames, outputNames), args) == Run(sem, g, args)
  {
    assert OneNewNameEach(g, inputNames, outputNames);
    forall s, t | s in Names(g) && t in Names(g)
      ensures var m := RenameMap(g, inputNames, outputNames); Apply(m, s) == Apply(m, t) ==> s == t
      ensures s == "" || s in g.initializer ==> Apply(RenameMap(g, inputNames, outputNames), s) == s
    {
      FreshIsInjective(g, inputNames, outputNames, s, t);
    }
    assert "" in Names(g);
    RenamingPreservesMeaning(sem, g, inputNames, outputNames, args);
  }

  /** Swapping the names of two inputs is safe: every occurrence is looked up once. */
  lemma {:induction false} SwapIsSafe<V>(g: Graph<V>, a: string, b: string)
    requires g.input == [a, b] && a != b && a != "" && b != ""
    requires a !in g.initializer && b !in g.initializer
    ensures Safe(g, [b, a], [])
  {
    var m := RenameMap(g, [b, a], []);
    var step: Renaming := map[a := b];
    assert g.input[1..] == [b] && [b, a][1..] == [a];
    assert Enter(step, [b], [a]) == Enter(step[b := a], [b][1..], [a][1..]) == step[b := a];
    assert m == Enter(map[], g.input, [b, a]) == Enter(step, [b], [a]);
  }

  /** An input that is also an output breaks when it gets two new names: the graph no longer runs. */
  lemma {:induction false} PassThroughBreaks<V>(sem: Semantics<V>, g: Graph<V>, x: string, a: string, b: string, v: V)
    requires g == Graph([x], [x], [], map[]) && a != b
    ensures Run(sem, g, [v]) == Some([v])
    ensures Run(sem, Renamed(g, [a], [b]), [v]) == None
  {
    var g' := Renamed(g, [a], [b]);
    assert g'.input == [a] && g'.output == [b];
    var env, env': Env<V> := map[x := v], map[a := v];
    assert Bind(g.initializer, [x], [v]) == Bind(env, [x][1..], [v][1..]) == env;
    assert Bind(g'.initializer, [a], [v]) == Bind(env', [a][1..], [v][1..]) == env';
    assert Lookup(env, [x][1..]) == Some([]);
    assert Lookup(env, [x]) == Some([v] + []);
    assert Bind(g.initializer, g.input, [v]) == env && ExecAll(sem, g.node, env) == Some(env);
    assert [v] + [] == [v];
  }

  /** An output that is an initializer breaks when it gets a new name: the initializer keeps its old one. */
  lemma {:induction false} InitializerOutputBreaks<V>(sem: Semantics<V>, g: Graph<V>, x: string, w: string, b: string,
                                                      v: V, arg: V)
    requires g == Graph([x], [w], [], map[w := v]) && x != w && b != w && b != x
    ensures Run(sem, g, [arg]) == Some([v])
    ensures Run(sem, Renamed(g, [], [b]), [arg]) == None
    ensures !Safe(g, [], [b])
  {
    var g' := Renamed(g, [], [b]);
    var m := RenameMap(g, [], [b]);
    assert Enter(map[], g.input, []) == map[];
    assert m == Enter(map[w := b], [w][1..], [b][1..]) == map[w := b];
    assert Apply(m, w) == b && w in g.initializer;
    assert g'.input == [x] && g'.output == [b] && g'.initializer == g.initializer;
    var env: Env<V> := map[w := v, x := arg];
    assert Bind(g.initializer, [x], [arg]) == Bind(g.initializer[x := arg], [x][1..], [arg][1..]) == env;
    assert ExecAll(sem, g.node, env) == Some(env) && ExecAll(sem, g'.node, env) == Some(env);
    assert Lookup(env, [w][1..]) == Some([]) && [v] + [] == [v];
  }
}
