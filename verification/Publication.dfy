// Publishing a checkpoint directory for vLLM (examples/speechlm2/to_hf.py):
// validation, staging, backups, the multi-file commit and its rollback.

module Publication {
  import opened Lists

  datatype Exn = ValueError | OtherError

  /** File contents, as far as the program looks into them: plain text, or a parsable tokenizer config. */
  datatype Content =
    | Text(text: string)
    | TokenizerConfig(other: string, chatTemplate: Option<string>, tokenizerClass: string, audioToken: Option<string>)

  datatype Entry = File(content: Content) | Directory

  type Dir = map<string, Content>

  const CONFIG := "config.json"
  const JINJA := "chat_template.jinja"
  const TOKENIZER_CONFIG := "tokenizer_config.json"
  const GENERATION_CONFIG := "generation_config.json"
  const TOKENIZER_CLASS := "PreTrainedTokenizerFast"
  const EMBED_EXTRA_ROWS := 10

  /** What the caller passes, and what the libraries called before the commit answer or raise. */
  datatype Request = Request(
    pretrainedLlm: string, audioToken: string,
    backbone: Option<Exn>, vocabSize: Result<int, Exn>, configText: Option<Exn>, tokenizer: Option<Exn>,
    audioTokenId: Option<int>, padTokenKnown: bool,
    saved: Result<map<string, Entry>, Exn>, staging: Option<Exn>, backup: Option<Exn>,
    generationConfig: string, config: string)

  /** Everything checked before the staging directory is made. */
  function Validate(req: Request, live: Dir): Option<Exn> {
    if req.pretrainedLlm == "" || req.audioToken == "" then Some(ValueError)
    else if req.backbone.Some? then req.backbone
    else if req.vocabSize.Err? then Some(req.vocabSize.error)
    else if CONFIG !in live then Some(OtherError)
    else if req.configText.Some? then req.configText
    else if req.tokenizer.Some? then req.tokenizer
    else if req.audioTokenId == None || req.audioTokenId.value < 0 then Some(ValueError)
    else if req.audioTokenId.value >= req.vocabSize.value + EMBED_EXTRA_ROWS then Some(ValueError)
    else if !req.padTokenKnown then Some(ValueError)
    else None
  }

  predicate Blank(s: string) {
    forall i :: 0 <= i < |s| ==> s[i] in {' ', '\t', '\n', '\r'}
  }

  /** The tokenizer's files with its config normalized, the chat template inlined and the template's file dropped. */
  function Normalize(saved: map<string, Entry>, audioToken: string, generationConfig: string)
    : Result<map<string, Entry>, Exn>
  {
    if TOKENIZER_CONFIG !in saved || saved[TOKENIZER_CONFIG].Directory? then Err(OtherError)
    else if saved[TOKENIZER_CONFIG].content.Text? then Err(ValueError)
    else if JINJA in saved && (saved[JINJA].Directory? || !saved[JINJA].content.Text?) then Err(OtherError)
    else if GENERATION_CONFIG in saved && saved[GENERATION_CONFIG].Directory? then Err(OtherError)
    else
      var config := saved[TOKENIZER_CONFIG].content;
      var template := if JINJA in saved && !Blank(saved[JINJA].content.text)
                      then Some(saved[JINJA].content.text) else config.chatTemplate;
      var tok := TokenizerConfig(config.other, template, TOKENIZER_CLASS, Some(audioToken));
      Ok((saved - {JINJA})[TOKENIZER_CONFIG := File(tok)][GENERATION_CONFIG := File(Text(generationConfig))])
  }

  type Artifacts = seq<(string, Content)>

  function Listed(files: map<string, Entry>, names: seq<string>): Result<Artifacts, Exn>
    requires forall i :: 0 <= i < |names| ==> names[i] in files
  {
    if exists i :: 0 <= i < |names| && files[names[i]].Directory? then Err(ValueError)
    else if CONFIG in names then Err(ValueError)
    else Ok(seq(|names|, i requires 0 <= i < |names| && files[names[i]].File? => (names[i], files[names[i]].content)))
  }

  /** A directory listing: every name once, in any order. */
  ghost predicate IsListing(iterdir: set<string> -> seq<string>) {
    forall s :: (forall i, j :: 0 <= i < j < |iterdir(s)| ==> iterdir(s)[i] != iterdir(s)[j])
             && (forall n :: n in iterdir(s) <==> n in s)
  }

  /** The staged artifacts, or what was raised before the commit could begin. */
  function Stage(req: Request, live: Dir, iterdir: set<string> -> seq<string>): (r: Result<Artifacts, Exn>)
    requires IsListing(iterdir)
  {
    if Validate(req, live).Some? then Err(Validate(req, live).value)
    else if req.saved.Err? then Err(req.saved.error)
    else
      match Normalize(req.saved.value, req.audioToken, req.generationConfig)
      case Err(e) => Err(e)
      case Ok(files) =>
        if req.staging.Some? then Err(req.staging.value)
        else
          match Listed(files, iterdir(files.Keys))
          case Err(e) => Err(e)
          case Ok(artifacts) => if req.backup.Some? then Err(req.backup.value) else Ok(artifacts)
  }

  /** Staged artifacts never touch the root config, and never bring a chat template file. */
  lemma {:induction false} StagedNames(req: Request, live: Dir, iterdir: set<string> -> seq<string>)
    requires IsListing(iterdir) && Stage(req, live, iterdir).Ok?
    ensures Proper(Stage(req, live, iterdir).value) && CONFIG in live
  {
    var files := Normalize(req.saved.value, req.audioToken, req.generationConfig).value;
    assert JINJA !in files;
    var names := iterdir(files.Keys);
    assert JINJA !in names;
  }

  ghost predicate Proper(artifacts: Artifacts) {
    && (forall i, j :: 0 <= i < j < |artifacts| ==> artifacts[i].0 != artifacts[j].0)
    && forall i :: 0 <= i < |artifacts| ==> artifacts[i].0 != CONFIG && artifacts[i].0 != JINJA
  }

  /** Nothing that is checked or called before the commit fails, and the saved files are as the commit needs them. */
  ghost predicate AllInOrder(req: Request, live: Dir) {
    && req.pretrainedLlm != "" && req.audioToken != ""
    && req.backbone == None && req.vocabSize.Ok? && CONFIG in live && req.configText == None && req.tokenizer == None
    && req.audioTokenId.Some? && 0 <= req.audioTokenId.value < req.vocabSize.value + 10
    && req.padTokenKnown && req.saved.Ok? && req.staging == None && req.backup == None
    && SavedInOrder(req.saved.value)
  }

  /** Plain files only, a tokenizer config that can be read, a readable chat template if any, and no root config. */
  ghost predicate SavedInOrder(saved: map<string, Entry>) {
    && (forall n :: n in saved ==> saved[n].File?)
    && TOKENIZER_CONFIG in saved && saved[TOKENIZER_CONFIG].content.TokenizerConfig?
    && (JINJA in saved ==> saved[JINJA].content.Text?)
    && CONFIG !in saved
  }

  lemma {:induction false} NormalizeIff(saved: map<string, Entry>, audioToken: string, generationConfig: string)
    ensures (&& Normalize(saved, audioToken, generationConfig).Ok?
             && var files := Normalize(saved, audioToken, generationConfig).value;
                CONFIG !in files && forall n :: n in files ==> files[n].File?)
       <==> SavedInOrder(saved)
  {
    if Normalize(saved, audioToken, generationConfig).Ok? {
      var files := Normalize(saved, audioToken, generationConfig).value;
      assert forall n :: n in files <==> (n in saved && n != JINJA) || n in {TOKENIZER_CONFIG, GENERATION_CONFIG};
      assert forall n :: n in saved && n !in {JINJA, TOKENIZER_CONFIG, GENERATION_CONFIG} ==> files[n] == saved[n];
    }
  }

  /** The commit is reached exactly when everything before it is in order. */
  lemma {:induction false} StageIff(req: Request, live: Dir, iterdir: set<string> -> seq<string>)
    requires IsListing(iterdir)
    ensures Stage(req, live, iterdir).Ok? <==> AllInOrder(req, live)
  {
    if Validate(req, live) == None && req.saved.Ok? {
      NormalizeIff(req.saved.value, req.audioToken, req.generationConfig);
    }
  }

  /** Missing metadata and tokens that do not fit are ValueErrors, which the caller swallows. */
  lemma {:induction false} ValueErrors(req: Request, live: Dir, iterdir: set<string> -> seq<string>)
    requires IsListing(iterdir)
    ensures req.pretrainedLlm == "" || req.audioToken == "" ==> Stage(req, live, iterdir) == Err(ValueError)
    ensures (&& req.backbone == None && req.vocabSize.Ok? && CONFIG in live
             && req.configText == None && req.tokenizer == None
             && (|| req.audioTokenId == None || req.audioTokenId.value < 0
                 || req.audioTokenId.value >= req.vocabSize.value + 10 || !req.padTokenKnown))
            ==> Stage(req, live, iterdir) == Err(ValueError)
  {
  }

  /** The text is more than white space. */
  ghost predicate SaysSomething(text: string) {
    exists i :: 0 <= i < |text| && text[i] !in {' ', '\t', '\n', '\r'}
  }

  /**
   * What the artifact of a name holds: the generation config; the tokenizer config with the saved chat template, if
   * that says anything, the universal class and the audio token; and otherwise what was saved.
   */
  ghost function ArtifactContent(req: Request, name: string): Option<Content>
    requires req.saved.Ok? && SavedInOrder(req.saved.value)
  {
    var saved := req.saved.value;
    if name == GENERATION_CONFIG then Some(Text(req.generationConfig))
    else if name == JINJA || name !in saved then None
    else if name == TOKENIZER_CONFIG then
      var config := saved[name].content;
      Some(TokenizerConfig(
        config.other,
        if JINJA in saved && SaysSomething(saved[JINJA].content.text) then Some(saved[JINJA].content.text)
        else config.chatTemplate,
        "PreTrainedTokenizerFast", Some(req.audioToken)))
    else Some(saved[name].content)
  }

  /** The artifacts are all saved files but the chat template, and the generation config, with these contents. */
  lemma {:induction false} StagedContents(req: Request, live: Dir, iterdir: set<string> -> seq<string>)
    requires IsListing(iterdir) && AllInOrder(req, live)
    ensures Stage(req, live, iterdir).Ok?
    ensures var artifacts := Stage(req, live, iterdir).value;
      && (forall i :: 0 <= i < |artifacts| ==> ArtifactContent(req, artifacts[i].0) == Some(artifacts[i].1))
      && (forall name :: ArtifactContent(req, name).Some? ==>
            exists i :: 0 <= i < |artifacts| && artifacts[i].0 == name)
  {
    StageIff(req, live, iterdir);
    var files := Normalize(req.saved.value, req.audioToken, req.generationConfig).value;
    var names, artifacts := iterdir(files.Keys), Stage(req, live, iterdir).value;
    forall i | 0 <= i < |artifacts| ensures ArtifactContent(req, artifacts[i].0) == Some(artifacts[i].1) {
      assert names[i] in names;
    }
    forall name | ArtifactContent(req, name).Some?
      ensures exists i :: 0 <= i < |artifacts| && artifacts[i].0 == name
    {
      assert name in names;
      var i :| 0 <= i < |names| && names[i] == name;
      assert artifacts[i].0 == name;
    }
  }

  // ----- Commit and rollback, operation by operation -----

  datatype Op = Replace(name: string, content: Content) | Unlink(name: string)

  function Effect(op: Op, dir: Dir): Dir {
    match op
    case Replace(name, content) => dir[name := content]
    case Unlink(name) => dir - {name}
  }

  /** Artifacts first, then the old chat template, the root config strictly last. */
  function Commit(artifacts: Artifacts, config: Content): seq<Op> {
    seq(|artifacts|, i requires 0 <= i < |artifacts| => Replace(artifacts[i].0, artifacts[i].1))
    + [Unlink(JINJA), Replace(CONFIG, config)]
  }

  /** The names that the commit touches, in its order. */
  function Targets(artifacts: Artifacts): seq<string> {
    seq(|artifacts|, i requires 0 <= i < |artifacts| => artifacts[i].0) + [JINJA, CONFIG]
  }

  /** The original state of every name the commit touches. */
  function Backups(artifacts: Artifacts, live: Dir): seq<Op> {
    var targets := Targets(artifacts);
    seq(|targets|, i requires 0 <= i < |targets| => Restoring(targets[i], live))
  }

  function Restoring(name: string, live: Dir): Op {
    if name in live then Replace(name, live[name]) else Unlink(name)
  }

  /** The directory after the first n operations. */
  function After(ops: seq<Op>, n: nat, dir: Dir): Dir
    requires n <= |ops|
  {
    if n == 0 then dir else Effect(ops[n - 1], After(ops, n - 1, dir))
  }

  /** Which commit operation raises, and whether it took effect before it did. */
  datatype Fault = NoFault | At(step: nat, applied: bool, exn: Exn)

  predicate Hits(fault: Fault, ops: seq<Op>) { fault.At? && fault.step < |ops| }

  /** How many commit operations take effect. */
  function Reached(fault: Fault, ops: seq<Op>): nat {
    if !Hits(fault, ops) then |ops| else if fault.applied then fault.step + 1 else fault.step
  }

  function Outcome(artifacts: Artifacts, config: Content, fault: Fault, live: Dir): Dir {
    var ops := Commit(artifacts, config);
    var reached := After(ops, Reached(fault, ops), live);
    if Hits(fault, ops) then After(Backups(artifacts, live), |ops|, reached) else reached
  }

  /** Every directory an observer can see, in order: the commit, then the rollback if there is one. */
  function Trace(artifacts: Artifacts, config: Content, fault: Fault, live: Dir): seq<Dir> {
    var ops := Commit(artifacts, config);
    var n := Reached(fault, ops);
    States(ops, n, live)
    + if Hits(fault, ops) then States(Backups(artifacts, live), |ops|, After(ops, n, live))[1..] else []
  }

  function States(ops: seq<Op>, n: nat, dir: Dir): (s: seq<Dir>)
    requires n <= |ops|
    ensures |s| == n + 1 && forall i :: 0 <= i <= n ==> s[i] == After(ops, i, dir)
  {
    if n == 0 then [dir] else States(ops, n - 1, dir) + [After(ops, n, dir)]
  }

  lemma {:induction false} StatesNext(ops: seq<Op>, n: nat, dir: Dir)
    requires n < |ops|
    ensures After(ops, n + 1, dir) == Effect(ops[n], After(ops, n, dir))
    ensures States(ops, n + 1, dir) == States(ops, n, dir) + [After(ops, n + 1, dir)]
    ensures States(ops, n + 1, dir)[1..] == States(ops, n, dir)[1..] + [After(ops, n + 1, dir)]
  {
  }

  /** How many of the last two operations, the first of them numbered step, take effect. */
  function Taken(fault: Fault, step: nat): nat {
    if fault == NoFault || fault.step >= step + 2 then 2
    else if fault.step < step then 0
    else fault.step - step + if fault.applied then 1 else 0
  }

  /** The directory after the first n of: the old chat template goes, the new root config comes. */
  function AfterEnd(n: nat, config: Content, dir: Dir): Dir {
    if n == 0 then dir else if n == 1 then dir - {JINJA} else (dir - {JINJA})[CONFIG := config]
  }

  function StatesOfEnd(n: nat, config: Content, dir: Dir): seq<Dir> {
    if n == 0 then []
    else if n == 1 then [AfterEnd(1, config, dir)]
    else [AfterEnd(1, config, dir), AfterEnd(2, config, dir)]
  }

  lemma {:induction false} LastOps(artifacts: Artifacts, config: Content, fault: Fault, live: Dir)
    requires fault.At? ==> fault.step >= |artifacts|
    ensures var ops, n, taken := Commit(artifacts, config), |artifacts|, Taken(fault, |artifacts|);
      && |ops| == n + 2 && Reached(fault, ops) == n + taken
      && After(ops, n + taken, live) == AfterEnd(taken, config, After(ops, n, live))
      && States(ops, n + taken, live) == States(ops, n, live) + StatesOfEnd(taken, config, After(ops, n, live))
  {
    var ops, n := Commit(artifacts, config), |artifacts|;
    assert ops[n] == Op.Unlink(JINJA) && ops[n + 1] == Op.Replace(CONFIG, config);
    StatesNext(ops, n, live);
    StatesNext(ops, n + 1, live);
    assert States(ops, n, live) + [] == States(ops, n, live);
  }

  // ----- The output directory, with the staging directory inside it -----

  /** A live file, or one below the staging directory: an artifact, the new root config, or a backup. */
  datatype Path = Live(name: string) | Staged(name: string) | StagedConfig | Backup(name: string)

  type Disk = map<Path, Content>

  function LiveFiles(disk: Disk): Dir { map p | p in disk && p.Live? :: p.name := disk[p] }

  lemma {:induction false} LiveAfterWrite(disk: Disk, p: Path, content: Content)
    ensures LiveFiles(disk[p := content]) == if p.Live? then LiveFiles(disk)[p.name := content] else LiveFiles(disk)
  {
  }

  lemma {:induction false} LiveAfterRemove(disk: Disk, p: Path)
    ensures LiveFiles(disk - {p}) == if p.Live? then LiveFiles(disk) - {p.name} else LiveFiles(disk)
  {
  }

  /** Two disks hold the same backups. */
  ghost predicate SameBackups(d: Disk, e: Disk) {
    forall n :: (Backup(n) in d <==> Backup(n) in e) && (Backup(n) in d ==> d[Backup(n)] == e[Backup(n)])
  }

  /** The staging directory holds the artifacts from i on, and the new root config. */
  ghost predicate StagedFrom(disk: Disk, artifacts: Artifacts, config: Content, i: nat) {
    && (forall k :: i <= k < |artifacts| ==>
          Staged(artifacts[k].0) in disk && disk[Staged(artifacts[k].0)] == artifacts[k].1)
    && StagedConfig in disk && disk[StagedConfig] == config
  }

  /** For each target whether it existed; the backup of one that did is in the staging directory. */
  ghost predicate BackedUp(disk: Disk, originals: seq<(string, bool)>, backups: seq<Op>) {
    && |originals| == |backups|
    && forall i :: 0 <= i < |backups| ==>
         && originals[i] == (backups[i].name, backups[i].Replace?)
         && (backups[i].Replace? ==>
               Backup(backups[i].name) in disk && disk[Backup(backups[i].name)] == backups[i].content)
  }

  class OutputDir {
    var disk: Disk
    ghost var seen: seq<Dir>  // every state of the live files since the last call began

    function Files(): Dir
      reads this
    {
      LiveFiles(disk)
    }

    /** Writing below the staging directory. */
    method Write(p: Path, content: Content)
      requires !p.Live?
      modifies this`disk
      ensures disk == old(disk)[p := content] && Files() == old(Files())
    {
      LiveAfterWrite(disk, p, content);
      disk := disk[p := content];
    }

    /** A staged file replaces a live one; raises as the fault says. */
    method Replace(from: Path, name: string, step: nat, fault: Fault) returns (raised: bool)
      requires from in disk && !from.Live?
      modifies this
      ensures raised <==> fault.At? && fault.step == step
      ensures raised && !fault.applied ==> disk == old(disk) && seen == old(seen)
      ensures !raised || fault.applied ==>
        && disk == (old(disk) - {from})[Live(name) := old(disk)[from]]
        && Files() == old(Files())[name := old(disk)[from]] && seen == old(seen) + [Files()]
    {
      raised := fault.At? && fault.step == step;
      if !raised || fault.applied {
        LiveAfterRemove(disk, from);
        LiveAfterWrite(disk - {from}, Live(name), disk[from]);
        disk := (disk - {from})[Live(name) := disk[from]];
        seen := seen + [Files()];
      }
    }

    /** Removing a live file, if it is there; raises as the fault says. */
    method Unlink(name: string, step: nat, fault: Fault) returns (raised: bool)
      modifies this
      ensures raised <==> fault.At? && fault.step == step
      ensures raised && !fault.applied ==> disk == old(disk) && seen == old(seen)
      ensures !raised || fault.applied ==>
        && disk == old(disk) - {Live(name)}
        && Files() == old(Files()) - {name} && seen == old(seen) + [Files()]
    {
      raised := fault.At? && fault.step == step;
      if !raised || fault.applied {
        LiveAfterRemove(disk, Live(name));
        disk := disk - {Live(name)};
        seen := seen + [Files()];
      }
    }

    /** The artifacts and the new root config. */
    method WriteStaged(artifacts: Artifacts, config: Content)
      requires Proper(artifacts)
      modifies this`disk
      ensures Files() == old(Files()) && StagedFrom(disk, artifacts, config, 0)
    {
      for i := 0 to |artifacts|
        invariant Files() == old(Files())
        invariant forall k :: 0 <= k < i ==>
          Staged(artifacts[k].0) in disk && disk[Staged(artifacts[k].0)] == artifacts[k].1
      {
        Write(Staged(artifacts[i].0), artifacts[i].1);
      }
      Write(StagedConfig, config);
    }

    /** The original state of every publication target. */
    method BackUp(artifacts: Artifacts, ghost config: Content) returns (originals: seq<(string, bool)>)
      requires StagedFrom(disk, artifacts, config, 0)
      modifies this`disk
      ensures Files() == old(Files()) && StagedFrom(disk, artifacts, config, 0)
      ensures BackedUp(disk, originals, Backups(artifacts, old(Files())))
    {
      var targets := Targets(artifacts);
      ghost var backups := Backups(artifacts, Files());
      originals := [];
      for i := 0 to |targets|
        invariant Files() == old(Files()) && StagedFrom(disk, artifacts, config, 0)
        invariant BackedUp(disk, originals, backups[..i])
      {
        var target := targets[i];
        originals := originals + [(target, Live(target) in disk)];
        if Live(target) in disk {
          Write(Backup(target), disk[Live(target)]);
        }
        assert backups[..i + 1] == backups[..i] + [Restoring(target, Files())];
      }
      assert backups[..|targets|] == backups;
    }

    /** Back to the originals, from the backups. */
    method Restore(originals: seq<(string, bool)>, ghost backups: seq<Op>)
      requires BackedUp(disk, originals, backups)
      modifies this
      ensures Files() == After(backups, |backups|, old(Files()))
      ensures seen == old(seen) + States(backups, |backups|, old(Files()))[1..]
    {
      for i := 0 to |originals|
        invariant BackedUp(disk, originals, backups)
        invariant Files() == After(backups, i, old(Files()))
        invariant seen == old(seen) + States(backups, i, old(Files()))[1..]
      {
        var (name, existed) := originals[i];
        StatesNext(backups, i, old(Files()));
        if existed {
          LiveAfterWrite(disk, Live(name), disk[Backup(name)]);
          disk := disk[Live(name) := disk[Backup(name)]];
        } else {
          LiveAfterRemove(disk, Live(name));
          disk := disk - {Live(name)};
        }
        seen := seen + [Files()];
      }
    }

    method CommitAll(artifacts: Artifacts, ghost config: Content, fault: Fault) returns (raised: bool)
      requires Proper(artifacts) && StagedFrom(disk, artifacts, config, 0) && seen == [Files()]
      modifies this
      ensures SameBackups(disk, old(disk))
      ensures raised <==> Hits(fault, Commit(artifacts, config))
      ensures Files() == After(Commit(artifacts, config), Reached(fault, Commit(artifacts, config)), old(Files()))
      ensures seen == States(Commit(artifacts, config), Reached(fault, Commit(artifacts, config)), old(Files()))
    {
      raised := CommitArtifacts(artifacts, config, fault);
      if !raised {
        LastOps(artifacts, config, fault, old(Files()));
        raised := CommitEnd(config, |artifacts|, fault);
      }
    }

    /** The old chat template goes, and the root config comes last. */
    method CommitEnd(ghost config: Content, step: nat, fault: Fault) returns (raised: bool)
      requires StagedConfig in disk && disk[StagedConfig] == config
      requires fault.At? ==> fault.step >= step
      modifies this
      ensures SameBackups(disk, old(disk))
      ensures raised <==> fault.At? && fault.step < step + 2
      ensures Files() == AfterEnd(Taken(fault, step), config, old(Files()))
      ensures seen == old(seen) + StatesOfEnd(Taken(fault, step), config, old(Files()))
    {
      raised := Unlink(JINJA, step, fault);
      if !raised {
        raised := Replace(StagedConfig, CONFIG, step + 1, fault);
      }
    }

    /** The loop over the artifacts. */
    method CommitArtifacts(artifacts: Artifacts, ghost config: Content, fault: Fault) returns (raised: bool)
      requires Proper(artifacts) && StagedFrom(disk, artifacts, config, 0) && seen == [Files()]
      modifies this
      ensures SameBackups(disk, old(disk)) && StagedFrom(disk, artifacts, config, |artifacts|)
      ensures raised <==> fault.At? && fault.step < |artifacts|
      ensures var n := if raised then Reached(fault, Commit(artifacts, config)) else |artifacts|;
        && Files() == After(Commit(artifacts, config), n, old(Files()))
        && seen == States(Commit(artifacts, config), n, old(Files()))
    {
      ghost var ops := Commit(artifacts, config);
      for i := 0 to |artifacts|
        invariant fault.At? ==> fault.step >= i
        invariant SameBackups(disk, old(disk)) && StagedFrom(disk, artifacts, config, i)
        invariant Files() == After(ops, i, old(Files())) && seen == States(ops, i, old(Files()))
      {
        var name := artifacts[i].0;
        assert ops[i] == Op.Replace(name, artifacts[i].1);
        StatesNext(ops, i, old(Files()));
        raised := Replace(Staged(name), name, i, fault);
        if raised {
          return;
        }
      }
      raised := false;
    }

    method Publish(artifacts: Artifacts, ghost config: Content, fault: Fault) returns (raised: bool)
      requires Proper(artifacts) && StagedFrom(disk, artifacts, config, 0) && seen == [Files()]
      modifies this
      ensures raised <==> Hits(fault, Commit(artifacts, config))
      ensures Files() == Outcome(artifacts, config, fault, old(Files()))
      ensures seen == Trace(artifacts, config, fault, old(Files()))
    {
      ghost var live := Files();
      var originals := BackUp(artifacts, config);
      raised := CommitAll(artifacts, config, fault);
      if raised {
        SameTargets(artifacts, config, live);
        Restore(originals, Backups(artifacts, live));
      }
    }

    /** The end of the staging directory. */
    method CleanUp()
      modifies this`disk
      ensures Files() == old(Files()) && forall p :: p in disk ==> p.Live?
    {
      disk := map p | p in disk && p.Live? :: disk[p];
    }

    /** partial is what an error before the commit leaves written below the staging directory. */
    method PrepareForVllm(req: Request, iterdir: set<string> -> seq<string>, partial: Disk, fault: Fault)
      returns (raised: Option<Exn>)
      requires IsListing(iterdir)
      requires forall p :: p in partial ==> !p.Live?
      modifies this
      ensures forall p :: p in disk ==> p.Live?
      ensures var staged := Stage(req, old(Files()), iterdir);
        && (staged.Err? ==> raised == Some(staged.error) && Files() == old(Files()) && seen == [old(Files())])
        && (staged.Ok? ==>
              && raised == (if Hits(fault, Commit(staged.value, Text(req.config))) then Some(fault.exn) else None)
              && Files() == Outcome(staged.value, Text(req.config), fault, old(Files()))
              && seen == Trace(staged.value, Text(req.config), fault, old(Files())))
    {
      seen := [Files()];
      var staged := Stage(req, Files(), iterdir);
      if staged.Err? {
        assert LiveFiles(disk + partial) == LiveFiles(disk);
        disk := disk + partial;
        CleanUp();
        return Some(staged.error);
      }
      StagedNames(req, Files(), iterdir);
      WriteStaged(staged.value, Text(req.config));
      var failed := Publish(staged.value, Text(req.config), fault);
      CleanUp();
      return if failed then Some(fault.exn) else None;
    }

    /** Swallows a ValueError, and so keeps the HF-only checkpoint; passes every other exception on. */
    method TryPrepareForVllm(req: Request, iterdir: set<string> -> seq<string>, partial: Disk, fault: Fault)
      returns (raised: Option<Exn>)
      requires IsListing(iterdir)
      requires forall p :: p in partial ==> !p.Live?
      modifies this
      ensures raised != Some(ValueError) && forall p :: p in disk ==> p.Live?
      ensures raised.Some? ==> Files() == old(Files())
      ensures Files() == if Succeeds(req, old(Files()), iterdir, fault) then Published(req, old(Files()), iterdir)
                         else old(Files())
    {
      ghost var live := Files();
      raised := PrepareForVllm(req, iterdir, partial, fault);
      if Stage(req, live, iterdir).Ok? {
        RollbackRestores(Stage(req, live, iterdir).value, Text(req.config), fault, live);
      }
      if raised == Some(ValueError) {
        raised := None;
      }
    }
  }

  ghost predicate Succeeds(req: Request, live: Dir, iterdir: set<string> -> seq<string>, fault: Fault)
    requires IsListing(iterdir)
  {
    match Stage(req, live, iterdir)
    case Err(_) => false
    case Ok(artifacts) => !Hits(fault, Commit(artifacts, Text(req.config)))
  }

  /** The directory with every artifact and the root config new and the old chat template gone. */
  ghost function Published(req: Request, live: Dir, iterdir: set<string> -> seq<string>): Dir
    requires IsListing(iterdir)
  {
    match Stage(req, live, iterdir)
    case Err(_) => live
    case Ok(artifacts) => Outcome(artifacts, Text(req.config), NoFault, live)
  }

  // ----- What the rollback guarantees -----

  ghost predicate Same(d: Dir, e: Dir, name: string) {
    (name in d <==> name in e) && (name in d ==> d[name] == e[name])
  }

  ghost predicate Touched(ops: seq<Op>, n: nat, name: string)
    requires n <= |ops|
  {
    exists i :: 0 <= i < n && ops[i].name == name
  }

  lemma {:induction false} AfterTouches(ops: seq<Op>, n: nat, dir: Dir, name: string)
    requires n <= |ops| && !Touched(ops, n, name)
    ensures Same(After(ops, n, dir), dir, name)
  {
    if n > 0 {
      assert ops[n - 1].name != name;
      AfterTouches(ops, n - 1, dir, name);
    }
  }

  /** Restoring the first n targets restores exactly those. */
  lemma {:induction false} RestoreTouches(artifacts: Artifacts, live: Dir, n: nat, dir: Dir, name: string)
    requires n <= |Backups(artifacts, live)|
    ensures Same(After(Backups(artifacts, live), n, dir),
                 if Touched(Backups(artifacts, live), n, name) then live else dir, name)
  {
    var backups := Backups(artifacts, live);
    if n > 0 {
      RestoreTouches(artifacts, live, n - 1, dir, name);
      assert backups[n - 1] == Restoring(backups[n - 1].name, live);
    }
  }

  lemma {:induction false} SameTargets(artifacts: Artifacts, config: Content, live: Dir)
    ensures |Backups(artifacts, live)| == |Commit(artifacts, config)|
    ensures forall i :: 0 <= i < |Commit(artifacts, config)| ==>
      Backups(artifacts, live)[i].name == Commit(artifacts, config)[i].name
  {
  }

  /** Whatever operation raises, before or after it took effect, every file is as it was. */
  lemma {:induction false} RollbackRestores(artifacts: Artifacts, config: Content, fault: Fault, live: Dir)
    ensures Hits(fault, Commit(artifacts, config)) ==> Outcome(artifacts, config, fault, live) == live
  {
    var ops, backups := Commit(artifacts, config), Backups(artifacts, live);
    if Hits(fault, ops) {
      var n := Reached(fault, ops);
      var dir, end := After(ops, n, live), After(backups, |ops|, After(ops, n, live));
      forall name ensures Same(end, live, name) {
        SameTargets(artifacts, config, live);
        RestoreTouches(artifacts, live, |ops|, dir, name);
        if !Touched(ops, |ops|, name) { AfterTouches(ops, n, live, name); }
      }
      forall name | name in end ensures name in live && end[name] == live[name] { assert Same(end, live, name); }
      forall name | name in live ensures name in end { assert Same(end, live, name); }
    }
  }

  // ----- The order of publication -----

  /** Every artifact is the new one, and no chat template file is left to override it. */
  ghost predicate Complete(dir: Dir, artifacts: Artifacts) {
    && JINJA !in dir
    && forall i :: 0 <= i < |artifacts| ==> artifacts[i].0 in dir && dir[artifacts[i].0] == artifacts[i].1
  }

  /** A new root config is visible only with all its artifacts. */
  ghost predicate Ordered(dir: Dir, artifacts: Artifacts, config: Content) {
    CONFIG in dir && dir[CONFIG] == config ==> Complete(dir, artifacts)
  }

  lemma {:induction false} CommitProgress(artifacts: Artifacts, config: Content, live: Dir, n: nat)
    requires Proper(artifacts) && n <= |Commit(artifacts, config)|
    ensures var dir := After(Commit(artifacts, config), n, live);
      && (n < |artifacts| + 2 ==> Same(dir, live, CONFIG))
      && (forall i :: 0 <= i < n && i < |artifacts| ==> artifacts[i].0 in dir && dir[artifacts[i].0] == artifacts[i].1)
      && (n > |artifacts| ==> JINJA !in dir)
  {
    if n > 0 {
      CommitProgress(artifacts, config, live, n - 1);
      var ops := Commit(artifacts, config);
      assert n <= |artifacts| ==> ops[n - 1] == Replace(artifacts[n - 1].0, artifacts[n - 1].1);
    }
  }

  /** A successful commit publishes everything; before its last step the old root config is still there. */
  lemma {:induction false} CommitPublishes(artifacts: Artifacts, config: Content, live: Dir)
    requires Proper(artifacts)
    ensures var end := Outcome(artifacts, config, NoFault, live);
      && Complete(end, artifacts) && CONFIG in end && end[CONFIG] == config
      && forall name :: name !in Targets(artifacts) ==> Same(end, live, name)
  {
    var ops := Commit(artifacts, config);
    CommitProgress(artifacts, config, live, |ops|);
    forall name | name !in Targets(artifacts)
      ensures Same(After(ops, |ops|, live), live, name)
    {
      forall i | 0 <= i < |ops| ensures ops[i].name != name { assert Targets(artifacts)[i] != name; }
      AfterTouches(ops, |ops|, live, name);
    }
  }

  /**
   * The published directory, file by file: the new root config, no chat template file, the artifacts, and every
   * other file as it was.
   */
  lemma {:induction false} PublishedFiles(req: Request, live: Dir, iterdir: set<string> -> seq<string>, name: string)
    requires IsListing(iterdir) && AllInOrder(req, live)
    ensures var dir := Published(req, live, iterdir);
      var artifact := ArtifactContent(req, name);
      if name == CONFIG then name in dir && dir[name] == Text(req.config)
      else if name == JINJA then name !in dir
      else if artifact.Some? then name in dir && dir[name] == artifact.value
      else Same(dir, live, name)
  {
    StageIff(req, live, iterdir);
    var artifacts := Stage(req, live, iterdir).value;
    StagedNames(req, live, iterdir);
    StagedContents(req, live, iterdir);
    CommitPublishes(artifacts, Text(req.config), live);
    var artifact := ArtifactContent(req, name);
    if artifact.Some? && name != CONFIG && name != JINJA {
      var i :| 0 <= i < |artifacts| && artifacts[i].0 == name;
    } else if name != CONFIG && name != JINJA {
      forall k | 0 <= k < |Targets(artifacts)| ensures Targets(artifacts)[k] != name {
        if k < |artifacts| { assert artifacts[k].0 != name; }
      }
    }
  }

  /**
   * In every state of the commit a new root config comes with all its artifacts, exactly when the
   * root config changes at all or the artifacts were in place beforehand.
   */
  lemma {:induction false} CommitOrderedIff(artifacts: Artifacts, config: Content, live: Dir)
    requires Proper(artifacts) && CONFIG in live
    ensures (forall n :: 0 <= n <= |Commit(artifacts, config)| ==>
               Ordered(After(Commit(artifacts, config), n, live), artifacts, config))
       <==> live[CONFIG] != config || Complete(live, artifacts)
  {
    var ops := Commit(artifacts, config);
    if live[CONFIG] != config || Complete(live, artifacts) {
      forall n | 0 <= n <= |ops| ensures Ordered(After(ops, n, live), artifacts, config) {
        CommitProgress(artifacts, config, live, n);
        if Complete(live, artifacts) { StaysComplete(artifacts, config, live, n); }
      }
    } else {
      assert After(ops, 0, live) == live;
      assert exists n :: 0 <= n <= |ops| && !Ordered(After(ops, n, live), artifacts, config);
    }
  }

  lemma {:induction false} StaysComplete(artifacts: Artifacts, config: Content, live: Dir, n: nat)
    requires Proper(artifacts) && n <= |Commit(artifacts, config)| && Complete(live, artifacts)
    ensures Complete(After(Commit(artifacts, config), n, live), artifacts)
  {
    var ops := Commit(artifacts, config);
    if n > 0 {
      StaysComplete(artifacts, config, live, n - 1);
      assert n <= |artifacts| ==> ops[n - 1] == Replace(artifacts[n - 1].0, artifacts[n - 1].1);
    }
  }

  /** Undoing all but the last target restores everything except the root config. */
  lemma {:induction false} UndoAlmostAll(artifacts: Artifacts, config: Content, live: Dir)
    requires Proper(artifacts) && CONFIG in live
    requires live[CONFIG] != config && !Complete(live, artifacts)
    ensures var ops := Commit(artifacts, config);
      !Ordered(After(Backups(artifacts, live), |ops| - 1, After(ops, |ops|, live)), artifacts, config)
  {
    var ops, backups := Commit(artifacts, config), Backups(artifacts, live);
    var m := |ops| - 1;
    var top := After(ops, |ops|, live);
    var dir := After(backups, m, top);
    RestoreTouches(artifacts, live, m, top, CONFIG);
    CommitProgress(artifacts, config, live, |ops|);
    assert !Touched(backups, m, CONFIG);
    forall i | 0 <= i < |artifacts|
      ensures Same(dir, live, artifacts[i].0)
    {
      RestoreTouches(artifacts, live, m, top, artifacts[i].0);
      assert backups[i].name == artifacts[i].0;
    }
    RestoreTouches(artifacts, live, m, top, JINJA);
    assert backups[|artifacts|].name == JINJA;
    assert Same(dir, live, JINJA);
  }

  /** Rollback states that cannot show the new root config early. */
  lemma {:induction false} UndoOrdered(artifacts: Artifacts, config: Content, live: Dir, n: nat, m: nat)
    requires Proper(artifacts) && CONFIG in live
    requires n <= |Commit(artifacts, config)| && m <= |Backups(artifacts, live)|
    requires Complete(live, artifacts) || (live[CONFIG] != config && n < |Commit(artifacts, config)|)
    ensures Ordered(After(Backups(artifacts, live), m, After(Commit(artifacts, config), n, live)), artifacts, config)
  {
    CommitProgress(artifacts, config, live, n);
    RestoreTouches(artifacts, live, m, After(Commit(artifacts, config), n, live), CONFIG);
    if Complete(live, artifacts) {
      StaysComplete(artifacts, config, live, n);
      RestoreTouches(artifacts, live, m, After(Commit(artifacts, config), n, live), JINJA);
      forall i | 0 <= i < |artifacts| {
        RestoreTouches(artifacts, live, m, After(Commit(artifacts, config), n, live), artifacts[i].0);
      }
    }
  }

  /** The final replace raises after it took effect. */
  predicate LateFault(artifacts: Artifacts, fault: Fault) {
    fault.At? && fault.step == |artifacts| + 1 && fault.applied
  }

  lemma {:induction false} TraceOrdered(artifacts: Artifacts, config: Content, fault: Fault, live: Dir, i: nat)
    requires Proper(artifacts) && CONFIG in live && i < |Trace(artifacts, config, fault, live)|
    requires Complete(live, artifacts) || (live[CONFIG] != config && !LateFault(artifacts, fault))
    ensures Ordered(Trace(artifacts, config, fault, live)[i], artifacts, config)
  {
    var n := Reached(fault, Commit(artifacts, config));
    if i > n {
      UndoOrdered(artifacts, config, live, n, i - n);
    } else {
      CommitOrderedIff(artifacts, config, live);
      assert Ordered(After(Commit(artifacts, config), i, live), artifacts, config);
    }
  }

  /**
   * The same over every visible state, rollback included. The rollback restores the root config last,
   * so it shows the new config with old artifacts when the final replace raises after taking effect.
   */
  lemma {:induction false} TraceOrderedIff(artifacts: Artifacts, config: Content, fault: Fault, live: Dir)
    requires Proper(artifacts) && CONFIG in live
    ensures (forall i :: 0 <= i < |Trace(artifacts, config, fault, live)| ==>
               Ordered(Trace(artifacts, config, fault, live)[i], artifacts, config))
       <==> (Complete(live, artifacts) || (live[CONFIG] != config && !LateFault(artifacts, fault)))
  {
    var ops, trace := Commit(artifacts, config), Trace(artifacts, config, fault, live);
    if Complete(live, artifacts) || (live[CONFIG] != config && !LateFault(artifacts, fault)) {
      forall i | 0 <= i < |trace| ensures Ordered(trace[i], artifacts, config) {
        TraceOrdered(artifacts, config, fault, live, i);
      }
    } else {
      var bad := if live[CONFIG] == config then 0 else |ops| + |ops| - 1;
      if bad > 0 { UndoAlmostAll(artifacts, config, live); }
      assert !Ordered(trace[bad], artifacts, config);
    }
  }
}
