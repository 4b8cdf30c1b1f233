// Hydra 0.x to Hydra 1.x configuration trees (nemo/utils/model_utils.py).

module ConfigMigration {
  import opened Lists

  /** A configuration: a dictionary, or anything else, which the migration leaves alone. */
  datatype Cfg = Leaf(value: string) | Dict(entries: map<string, Cfg>)

  type Path = seq<string>

  /** The entries of the params section; none when there is no such section. */
  function Params(e: map<string, Cfg>): map<string, Cfg> {
    if "params" in e && e["params"].Dict? then e["params"].entries else map[]
  }

  predicate RenamesCls(e: map<string, Cfg>) { "cls" in e && "_target_" !in e }

  function Renamed(e: map<string, Cfg>): map<string, Cfg> {
    if RenamesCls(e) then (e - {"cls"})["_target_" := e["cls"]] else e
  }

  /** One dictionary after cls was renamed and params spread; its entries are parts of the original. */
  function Spread(e: map<string, Cfg>): (m: map<string, Cfg>)
    ensures forall k :: k in m ==> m[k] < Dict(e)
  {
    var m := (Renamed(e) - {"params"}) + Params(e);
    assert "params" in e ==> e["params"] < Dict(e);
    m
  }

  function Convert(c: Cfg): Cfg
    decreases c
  {
    match c
    case Leaf(_) => c
    case Dict(e) =>
      var m := Spread(e);
      Dict(map k | k in m :: Convert(m[k]))
  }

  /** No dictionary reached has a params entry that is not itself a dictionary. */
  predicate Convertible(c: Cfg)
    decreases c
  {
    match c
    case Leaf(_) => true
    case Dict(e) =>
      var m := Spread(e);
      ("params" in e ==> e["params"].Dict?) && forall k :: k in m ==> Convertible(m[k])
  }

  // ----- The program -----

  /** None is the error of spreading a params entry that has no items. */
  method SpreadParams(e: map<string, Cfg>) returns (r: Option<map<string, Cfg>>)
    ensures r == if "params" in e && e["params"].Leaf? then None else Some(Spread(e))
  {
    var cfg := e;
    if "cls" in cfg && "_target_" !in cfg {
      var cls := cfg["cls"];
      cfg := cfg - {"cls"};
      cfg := cfg["_target_" := cls];
    }
    if "params" in cfg {
      var params := cfg["params"];
      cfg := cfg - {"params"};
      if params.Leaf? {
        return None;
      }
      ghost var rest := cfg;
      var todo := params.entries.Keys;
      while todo != {}
        invariant todo <= params.entries.Keys
        invariant cfg == rest + (params.entries - todo)
        decreases todo
      {
        var key :| key in todo;
        cfg := cfg[key := params.entries[key]];
        todo := todo - {key};
      }
      assert params.entries - {} == params.entries;
    }
    assert cfg == (Renamed(e) - {"params"}) + Params(e);
    return Some(cfg);
  }

  method ConvertConfig(e: map<string, Cfg>) returns (r: Option<map<string, Cfg>>)
    ensures r.Some? <==> Convertible(Dict(e))
    ensures r.Some? ==> Dict(r.value) == Convert(Dict(e))
    decreases Dict(e)
  {
    var spread := SpreadParams(e);
    if spread == None {
      return None;
    }
    ghost var m := Spread(e);
    var cfg := spread.value;
    var todo := cfg.Keys;
    while todo != {}
      invariant todo <= m.Keys == cfg.Keys
      invariant forall k :: k in todo ==> cfg[k] == m[k]
      invariant forall k :: k in m && k !in todo ==> Convertible(m[k]) && cfg[k] == Convert(m[k])
      decreases todo
    {
      var key :| key in todo;
      if cfg[key].Dict? {
        var sub := ConvertConfig(cfg[key].entries);
        if sub == None {
          return None;
        }
        cfg := cfg[key := Dict(sub.value)];
      }
      todo := todo - {key};
    }
    assert Convert(Dict(e)).entries == cfg;
    return Some(cfg);
  }

  /** Following the path through the sections as they are spread, one meets a params entry that is no dictionary. */
  ghost predicate BadParamsAt(c: Cfg, path: Path)
    decreases path
  {
    && c.Dict?
    && if path == [] then "params" in c.entries && c.entries["params"].Leaf?
       else path[0] in Spread(c.entries) && BadParamsAt(Spread(c.entries)[path[0]], path[1..])
  }

  lemma {:induction false} BadParamsFail(c: Cfg, path: Path)
    requires BadParamsAt(c, path)
    ensures !Convertible(c)
    decreases path
  {
    if path != [] { BadParamsFail(Spread(c.entries)[path[0]], path[1..]); }
  }

  lemma {:induction false} FindBadParams(c: Cfg) returns (path: Path)
    requires !Convertible(c)
    ensures BadParamsAt(c, path)
    decreases c
  {
    var e, m := c.entries, Spread(c.entries);
    if "params" in e && e["params"].Leaf? {
      path := [];
    } else {
      var k :| k in m && !Convertible(m[k]);
      var rest := FindBadParams(m[k]);
      path := [k] + rest;
      assert path[1..] == rest;
    }
  }

  /** Migration fails exactly when a dictionary that it reaches has a params entry without items; path names one. */
  lemma {:induction false} ConvertFailsIff(c: Cfg) returns (path: Path)
    ensures !Convertible(c) ==> BadParamsAt(c, path)
    ensures forall p :: BadParamsAt(c, p) ==> !Convertible(c)
  {
    if !Convertible(c) {
      path := FindBadParams(c);
    } else {
      path := [];
    }
    forall p | BadParamsAt(c, p) ensures !Convertible(c) { BadParamsFail(c, p); }
  }

  // ----- The normal form -----

  /** The Hydra 1.x form: no params, and no cls without a _target_. */
  ghost predicate Normal(c: Cfg)
    decreases c
  {
    match c
    case Leaf(_) => true
    case Dict(e) =>
      && "params" !in e
      && ("cls" in e ==> "_target_" in e)
      && forall k :: k in e ==> Normal(e[k])
  }

  /** No params section holds params, nor a cls that its owner gives no _target_ for. */
  ghost predicate Clean(c: Cfg)
    decreases c
  {
    match c
    case Leaf(_) => true
    case Dict(e) =>
      var p, m := Params(e), Spread(e);
      && "params" !in p
      && ("cls" in p ==> "cls" in e || "_target_" in e || "_target_" in p)
      && forall k :: k in m ==> Clean(m[k])
  }

  /** Migration reaches the normal form exactly on trees with clean params sections. */
  lemma {:induction false} ConvertNormalIff(c: Cfg)
    ensures Normal(Convert(c)) <==> Clean(c)
    decreases c
  {
    if c.Dict? {
      var m, r := Spread(c.entries), Convert(c).entries;
      assert r.Keys == m.Keys;
      forall k | k in m
        ensures Normal(r[k]) <==> Clean(m[k])
      {
        ConvertNormalIff(m[k]);
      }
    }
  }

  /** The sections that the migration was written for. */
  ghost predicate PlainSections(c: Cfg)
    decreases c
  {
    c.Dict? ==>
      && "params" !in Params(c.entries) && "cls" !in Params(c.entries)
      && forall k :: k in Spread(c.entries) ==> PlainSections(Spread(c.entries)[k])
  }

  lemma {:induction false} PlainSectionsAreClean(c: Cfg)
    requires PlainSections(c)
    ensures Clean(c) && Normal(Convert(c))
    decreases c
  {
    if c.Dict? {
      var m := Spread(c.entries);
      forall k | k in m ensures Clean(m[k]) { PlainSectionsAreClean(m[k]); }
    }
    ConvertNormalIff(c);
  }

  lemma {:induction false} NormalIsFixed(c: Cfg)
    requires Normal(c)
    ensures Convertible(c) && Convert(c) == c
    decreases c
  {
    if c.Dict? {
      var e := c.entries;
      assert Spread(e) == e;
      forall k | k in e ensures Convertible(e[k]) && Convert(e[k]) == e[k] { NormalIsFixed(e[k]); }
      assert Convert(c).entries == e;
    }
  }

  /** How many params sections are nested directly in each other at the top of a tree. */
  function Nesting(c: Cfg): nat
    decreases c
  {
    if c.Dict? && "params" in c.entries then 1 + Nesting(c.entries["params"]) else 0
  }

  /** One migration leaves half of them: it spreads every other section. */
  lemma {:induction false} MigrationHalvesNesting(c: Cfg)
    ensures Nesting(Convert(c)) == Nesting(c) / 2
    decreases c
  {
    if c.Dict? && "params" in Params(c.entries) {
      var inner := Params(c.entries)["params"];
      assert Spread(c.entries)["params"] == inner;
      assert Nesting(c) == 2 + Nesting(inner);
      MigrationHalvesNesting(inner);
    }
  }

  /** A tree that migration leaves alone has the normal form. */
  lemma {:induction false} FixedIsNormal(c: Cfg)
    requires Convert(c) == c
    ensures Normal(c)
    decreases c
  {
    if c.Dict? {
      var e := c.entries;
      MigrationHalvesNesting(c);
      assert "params" !in e;
      assert Convert(c).entries.Keys == Spread(e).Keys;
      assert Spread(e) == Renamed(e);
      assert !RenamesCls(e);
      forall k | k in e ensures Normal(e[k]) {
        assert Convert(c).entries[k] == Convert(Spread(e)[k]);
        FixedIsNormal(e[k]);
      }
    }
  }

  /** Migrating twice, with success, is migrating once exactly on trees with clean params sections. */
  lemma {:induction false} ConvertIdempotentIff(c: Cfg)
    ensures Convertible(Convert(c)) && Convert(Convert(c)) == Convert(c) <==> Clean(c)
  {
    ConvertNormalIff(c);
    if Clean(c) {
      NormalIsFixed(Convert(c));
    } else if Convert(Convert(c)) == Convert(c) {
      FixedIsNormal(Convert(c));
    }
  }

  // ----- Where every value comes from, and where it goes -----

  function Lookup(c: Cfg, path: Path): Option<string>
    decreases path
  {
    match c
    case Leaf(v) => if path == [] then Some(v) else None
    case Dict(e) => if path == [] || path[0] !in e then None else Lookup(e[path[0]], path[1..])
  }

  /** The place in the original tree of what stands at a place of the migrated one. */
  function Source(c: Cfg, path: Path): Option<Path>
    decreases path
  {
    if c.Leaf? || path == [] then Some(path)
    else
      var e, k, rest := c.entries, path[0], path[1..];
      if k in Params(e) then Under(["params", k], Source(Params(e)[k], rest))
      else if k == "_target_" && RenamesCls(e) then Under(["cls"], Source(e["cls"], rest))
      else if k in e && k != "params" && !(k == "cls" && RenamesCls(e)) then Under([k], Source(e[k], rest))
      else None
  }

  function Under(prefix: Path, path: Option<Path>): Option<Path> {
    if path.Some? then Some(prefix + path.value) else None
  }

  /** Every leaf of the migrated tree is the leaf at its source: nothing is invented or moved elsewhere. */
  lemma {:induction false} LeavesComeFromSource(c: Cfg, path: Path)
    ensures Lookup(Convert(c), path)
         == if Source(c, path).Some? then Lookup(c, Source(c, path).value) else None
    decreases path
  {
    if c.Dict? && path != [] {
      var e, k, rest := c.entries, path[0], path[1..];
      var m := Spread(e);
      if k in m {
        LeavesComeFromSource(m[k], rest);
        var from := Source(m[k], rest);
        if from.Some? {
          if k in Params(e) {
            assert (["params", k] + from.value)[1..] == [k] + from.value && ([k] + from.value)[1..] == from.value;
          } else {
            var k0 := if k == "_target_" && RenamesCls(e) then "cls" else k;
            assert ([k0] + from.value)[1..] == from.value;
          }
        }
      }
    }
  }

  /** The place a value of the original moves to; None when an entry of params takes it over. */
  function Target(c: Cfg, path: Path): Option<Path>
    decreases path
  {
    if c.Leaf? || path == [] then Some(path)
    else
      var e, k, rest := c.entries, path[0], path[1..];
      if k == "params" then
        if rest != [] && rest[0] in Params(e) then Under([rest[0]], Target(Params(e)[rest[0]], rest[1..])) else None
      else
        var k' := if k == "cls" && RenamesCls(e) then "_target_" else k;
        if k' in Params(e) || k !in e then None else Under([k'], Target(e[k], rest))
  }

  /** A params entry of the same key stands in the way of this value, here or further down. */
  ghost predicate Overwritten(c: Cfg, path: Path)
    decreases path
  {
    if c.Leaf? || path == [] then false
    else
      var e, k, rest := c.entries, path[0], path[1..];
      if k == "params" then rest != [] && rest[0] in Params(e) && Overwritten(Params(e)[rest[0]], rest[1..])
      else
        var k' := if k == "cls" && RenamesCls(e) then "_target_" else k;
        k' in Params(e) || (k in e && Overwritten(e[k], rest))
  }

  /** Every leaf of the original survives with its value, unless a params entry of the same key overwrites it. */
  lemma {:induction false} LeavesSurvive(c: Cfg, path: Path)
    requires Convertible(c) && Lookup(c, path).Some?
    ensures Target(c, path).Some? <==> !Overwritten(c, path)
    ensures Target(c, path).Some? ==> Lookup(Convert(c), Target(c, path).value) == Lookup(c, path)
    decreases path
  {
    if c.Dict? {
      var e, k, rest := c.entries, path[0], path[1..];
      var m := Spread(e);
      if k == "params" {
        assert m[rest[0]] == Params(e)[rest[0]];
        LeavesSurvive(m[rest[0]], rest[1..]);
      } else {
        var k' := if k == "cls" && RenamesCls(e) then "_target_" else k;
        if k' !in Params(e) {
          assert m[k'] == e[k];
          LeavesSurvive(m[k'], rest);
        }
      }
    }
  }

}
