// Sharded transcription (scripts/asr_eou/transcribe_speech_sharded.py): manifests are split
// into shards, every rank transcribes its part of the unfinished ones, and the outputs are
// merged per manifest, over as many runs as it takes.

module ShardedTranscription {
  import opened Lists
  import opened Decimal
  import opened Division
  import opened RankPartition

  type Record = string

  /** A manifest file: its name without the extension, and its records. */
  datatype Manifest = Manifest(stem: string, records: seq<Record>)

  const SEP := "--tpart_"

  // ----- Splitting -----

  function ShardName(stem: string, i: nat): string { stem + SEP + Print(i) }

  function Part(m: Manifest, size: nat, i: nat): Manifest {
    Manifest(ShardName(m.stem, i), Slice(m.records, Times(i, size), Times(i, size) + size))
  }

  /** The shards of one manifest. */
  function Parts(m: Manifest, size: nat): seq<Manifest>
    requires size > 0
  {
    seq(Ceil(|m.records|, size), i requires i >= 0 => Part(m, size, i))
  }

  /** The shards of all manifests, in order. */
  function Split(manifests: seq<Manifest>, size: nat): seq<Manifest>
    requires size > 0
  {
    if manifests == [] then []
    else
      var n := |manifests| - 1;
      Split(manifests[..n], size) + Parts(manifests[n], size)
  }

  method MaybeSplitManifest(manifests: seq<Manifest>, splitSize: Option<int>) returns (shards: seq<Manifest>)
    ensures shards == if splitSize == None || splitSize.value <= 0 then manifests else Split(manifests, splitSize.value)
  {
    if splitSize == None || splitSize.value <= 0 {
      return manifests;
    }
    var size := splitSize.value;
    shards := [];
    for k := 0 to |manifests|
      invariant shards == Split(manifests[..k], size)
    {
      assert manifests[..k + 1][..k] == manifests[..k];
      var m := manifests[k];
      var numChunks := (|m.records| + size - 1) / size;
      CeilIs(|m.records|, size);
      ghost var before := shards;
      for i := 0 to numChunks
        invariant shards == before + Parts(m, size)[..i]
      {
        shards := shards + [Part(m, size, i)];
      }
      assert Parts(m, size)[..numChunks] == Parts(m, size);
    }
    assert manifests[..|manifests|] == manifests;
  }

  function Contents(shards: seq<Manifest>): seq<seq<Record>> {
    seq(|shards|, i requires 0 <= i < |shards| => shards[i].records)
  }

  /** Where part i starts, and the end of the records after the last part. */
  function PartCut(a: nat, size: nat, i: nat): nat { if Times(i, size) < a then Times(i, size) else a }

  lemma {:induction false} PartIs(m: Manifest, size: nat, i: nat)
    requires size > 0 && i < |Parts(m, size)|
    ensures var part, n := Part(m, size, i).records, |m.records|;
      && 0 < |part| <= size && Occurs(m.records, PartCut(n, size, i), part)
      && PartCut(n, size, i + 1) == PartCut(n, size, i) + |part|
  {
    BelowCeil(|m.records|, size, i);
  }

  /** Part i is the slice from i * size to (i + 1) * size. */
  lemma {:induction false} PartRecords(m: Manifest, size: nat, i: nat)
    requires size > 0
    ensures i * size <= (i + 1) * size && Part(m, size, i).records == Slice(m.records, i * size, (i + 1) * size)
    ensures Part(m, size, i).stem == m.stem + "--tpart_" + Print(i)
  {
    TimesIs(i, size);
  }

  /** The parts put together are the manifest, and none is empty or longer than the split size. */
  lemma {:induction false} PartsCover(m: Manifest, size: nat)
    requires size > 0
    ensures Flatten(Contents(Parts(m, size))) == m.records
    ensures forall i :: 0 <= i < |Parts(m, size)| ==> 0 < |Parts(m, size)[i].records| <= size
  {
    var n, chunks := |Parts(m, size)|, Contents(Parts(m, size));
    var cuts := seq(n + 1, i requires i >= 0 => PartCut(|m.records|, size, i));
    forall i | 0 <= i < n
      ensures 0 < |Parts(m, size)[i].records| <= size && Occurs(m.records, cuts[i], chunks[i])
      ensures cuts[i + 1] == cuts[i] + |chunks[i]|
    {
      PartIs(m, size, i);
    }
    BelowCeil(|m.records|, size, n);
    FlattenCuts(m.records, chunks, cuts);
  }

  // ----- Names -----

  ghost predicate HasSep(s: string) { exists i: nat :: Occurs(s, i, SEP) }

  /** Where the separator first stands, from place i on. */
  function FindSep(name: string, i: nat): (j: nat)
    requires i <= |name|
    ensures i <= j <= |name|
    ensures j < |name| ==> Occurs(name, j, SEP)
    ensures forall k :: i <= k < j ==> !Occurs(name, k, SEP)
    decreases |name| - i
  {
    if i == |name| || Occurs(name, i, SEP) then i else FindSep(name, i + 1)
  }

  /** name.split("--tpart_")[0] */
  function DataName(name: string): string { name[..FindSep(name, 0)] }

  /** A shard is merged under the name of its manifest exactly when that name is free of the separator. */
  lemma {:induction false} DataNameIff(stem: string, i: nat)
    ensures DataName(ShardName(stem, i)) == stem <==> !HasSep(stem)
  {
    var name, n := ShardName(stem, i), |stem|;
    assert name == stem + (SEP + Print(i));
    assert Occurs(name, n, SEP);
    var j := FindSep(name, 0);
    if j + |SEP| <= n {
      assert stem[j..j + |SEP|] == name[j..j + |SEP|];
      assert Occurs(stem, j, SEP);
    } else {
      SepDoesNotOverlap(name, j, n);
      forall k: nat | Occurs(stem, k, SEP) ensures Occurs(name, k, SEP) && k < n {
        assert stem[k..k + |SEP|] == name[k..k + |SEP|];
      }
    }
  }

  /** Two occurrences of the separator do not overlap. */
  lemma {:induction false} SepDoesNotOverlap(s: string, j: nat, n: nat)
    requires Occurs(s, j, SEP) && Occurs(s, n, SEP) && j <= n < j + |SEP|
    ensures j == n
  {
    assert s[j + 7] == s[j..j + 8][7] == '_';
    assert forall k :: n <= k < n + 7 ==> s[k] == s[n..n + 8][k - n] != '_';
  }

  lemma {:induction false} ShardNamesDiffer(s: string, i: nat, t: string, j: nat)
    requires !HasSep(s) && !HasSep(t) && ShardName(s, i) == ShardName(t, j)
    ensures s == t && i == j
  {
    DataNameIff(s, i);
    DataNameIff(t, j);
    assert Print(i) == ShardName(s, i)[|s| + 8..] == Print(j);
    ReadPrint(i);
    ReadPrint(j);
  }

  // ----- Merging -----

  type Files = map<string, seq<Record>>

  /** The records merged under one name, in the order of the listing. */
  function MergedFor(listing: seq<string>, done: Files, stem: string): seq<Record> {
    if listing == [] then []
    else
      var k := |listing| - 1;
      MergedFor(listing[..k], done, stem) + MergedOne(listing[k], done, stem)
  }

  function MergedOne(name: string, done: Files, stem: string): seq<Record> {
    if name in done && DataName(name) == stem then done[name] else []
  }

  function DataNames(listing: seq<string>): set<string> { set n | n in listing :: DataName(n) }

  function Merged(listing: seq<string>, done: Files): Files {
    map s | s in DataNames(listing) :: MergedFor(listing, done, s)
  }

  method MergeManifests(listing: seq<string>, done: Files) returns (merged: Files)
    requires forall n :: n in listing ==> n in done
    ensures merged == Merged(listing, done)
  {
    merged := map[];
    for k := 0 to |listing|
      invariant merged == Merged(listing[..k], done)
    {
      var name := DataName(listing[k]);
      MergedNext(listing, done, k);
      merged := merged[name := (if name in merged then merged[name] else []) + done[listing[k]]];
    }
    assert listing[..|listing|] == listing;
  }

  lemma {:induction false} MergedNext(listing: seq<string>, done: Files, k: nat)
    requires k < |listing| && forall n :: n in listing ==> n in done
    ensures var m, name := Merged(listing[..k], done), DataName(listing[k]);
      Merged(listing[..k + 1], done) == m[name := (if name in m then m[name] else []) + done[listing[k]]]
  {
    assert listing[..k + 1] == listing[..k] + [listing[k]];
    MergedSnoc(listing[..k], listing[k], done);
  }

  lemma {:induction false} MergedSnoc(listing: seq<string>, file: string, done: Files)
    requires file in done
    ensures var m, name := Merged(listing, done), DataName(file);
      Merged(listing + [file], done) == m[name := (if name in m then m[name] else []) + done[file]]
  {
    DataNamesNext(listing, file);
    NotMerged(listing, done, DataName(file));
    forall s ensures MergedFor(listing + [file], done, s) == Extended(MergedFor(listing, done, s), file, done, s) {
    }
  }

  /** The records merged for one name, with those of one more file. */
  function Extended(records: seq<Record>, file: string, done: Files, stem: string): seq<Record>
    requires file in done
  {
    if DataName(file) == stem then records + done[file] else records
  }

  lemma {:induction false} DataNamesNext(listing: seq<string>, name: string)
    ensures DataNames(listing + [name]) == DataNames(listing) + {DataName(name)}
  {
    assert forall n :: n in listing + [name] <==> n in listing || n == name;
  }

  lemma {:induction false} NotMerged(listing: seq<string>, done: Files, s: string)
    ensures s !in DataNames(listing) ==> MergedFor(listing, done, s) == []
  {
    if listing != [] {
      var k := |listing| - 1;
      assert listing == listing[..k] + [listing[k]];
      DataNamesNext(listing[..k], listing[k]);
      NotMerged(listing[..k], done, s);
    }
  }

  lemma {:induction false} MergedForConcat(a: seq<string>, b: seq<string>, done: Files, stem: string)
    ensures MergedFor(a + b, done, stem) == MergedFor(a, done, stem) + MergedFor(b, done, stem)
  {
    if b == [] {
      assert a + b == a;
    } else {
      var k := |b| - 1;
      assert (a + b)[..|a + b| - 1] == a + b[..k] && (a + b)[|a + b| - 1] == b[k];
      MergedForConcat(a, b[..k], done, stem);
      assert MergedFor(a, done, stem) + (MergedFor(b[..k], done, stem) + MergedOne(b[k], done, stem))
          == (MergedFor(a, done, stem) + MergedFor(b[..k], done, stem)) + MergedOne(b[k], done, stem);
    }
  }

  /** How often record r comes from one file merged under the name stem. */
  function Share(done: Files, stem: string, r: Record): string -> nat {
    n => if n in done && DataName(n) == stem then multiset(done[n])[r] else 0
  }

  lemma {:induction false} MergedCounts(listing: seq<string>, done: Files, stem: string, r: Record)
    ensures multiset(MergedFor(listing, done, stem))[r] == Weight(listing, Share(done, stem, r))
  {
    if listing != [] {
      var k := |listing| - 1;
      MergedCounts(listing[..k], done, stem, r);
      assert listing == listing[..k] + [listing[k]];
      WeightConcat(listing[..k], [listing[k]], Share(done, stem, r));
    }
  }

  /** Directory order does not change which records are merged. */
  lemma {:induction false} MergeInAnyOrder(a: seq<string>, b: seq<string>, done: Files, stem: string)
    requires multiset(a) == multiset(b)
    ensures multiset(MergedFor(a, done, stem)) == multiset(MergedFor(b, done, stem))
  {
    forall r ensures multiset(MergedFor(a, done, stem))[r] == multiset(MergedFor(b, done, stem))[r] {
      MergedCounts(a, done, stem, r);
      MergedCounts(b, done, stem, r);
      WeightPermutation(a, b, Share(done, stem, r));
    }
  }

  // ----- Split, transcribe, merge -----

  type Transcriber = Record -> Record

  function Transcribe(records: seq<Record>, t: Transcriber): seq<Record> {
    seq(|records|, i requires 0 <= i < |records| => t(records[i]))
  }

  function Names(shards: seq<Manifest>): seq<string> {
    seq(|shards|, i requires 0 <= i < |shards| => shards[i].stem)
  }

  /** Every shard has its transcription in the output directory. */
  ghost predicate AllDone(shards: seq<Manifest>, done: Files, t: Transcriber) {
    forall i :: 0 <= i < |shards| ==> shards[i].stem in done && done[shards[i].stem] == Transcribe(shards[i].records, t)
  }

  ghost predicate PlainStems(manifests: seq<Manifest>) {
    && (forall i :: 0 <= i < |manifests| ==> !HasSep(manifests[i].stem))
    && (forall i, j :: 0 <= i < j < |manifests| ==> manifests[i].stem != manifests[j].stem)
  }

  lemma {:induction false} TranscribeConcat(a: seq<Record>, b: seq<Record>, t: Transcriber)
    ensures Transcribe(a + b, t) == Transcribe(a, t) + Transcribe(b, t)
  {
  }

  lemma {:induction false} NamesConcat(a: seq<Manifest>, b: seq<Manifest>)
    ensures Names(a + b) == Names(a) + Names(b)
    ensures Contents(a + b) == Contents(a) + Contents(b)
  {
  }

  lemma {:induction false} AllDoneParts(a: seq<Manifest>, b: seq<Manifest>, done: Files, t: Transcriber)
    requires AllDone(a + b, done, t)
    ensures AllDone(a, done, t) && AllDone(b, done, t)
  {
    var all := a + b;
    assert forall i :: 0 <= i < |a| ==> all[i] == a[i];
    assert forall i :: 0 <= i < |b| ==> all[|a| + i] == b[i];
  }

  /** Shards of one manifest, merged in order. */
  lemma {:induction false} ShardsMerge(shards: seq<Manifest>, done: Files, t: Transcriber, of: string, stem: string)
    requires AllDone(shards, done, t) && forall i :: 0 <= i < |shards| ==> DataName(shards[i].stem) == of
    ensures MergedFor(Names(shards), done, stem)
         == if stem == of then Transcribe(Flatten(Contents(shards)), t) else []
  {
    if shards != [] {
      var n := |shards| - 1;
      var before, last := shards[..n], shards[n];
      assert shards == before + [last];
      ShardsMerge(before, done, t, of, stem);
      NamesConcat(before, [last]);
      assert Names([last]) == [last.stem] && Contents([last]) == [last.records];
      FlattenSnoc(Contents(before), last.records);
      TranscribeConcat(Flatten(Contents(before)), last.records, t);
    }
  }

  lemma {:induction false} ManifestMerge(m: Manifest, size: nat, done: Files, t: Transcriber, stem: string)
    requires size > 0 && !HasSep(m.stem) && AllDone(Parts(m, size), done, t)
    ensures MergedFor(Names(Parts(m, size)), done, stem) == if stem == m.stem then Transcribe(m.records, t) else []
  {
    var parts := Parts(m, size);
    forall i | 0 <= i < |parts| ensures DataName(parts[i].stem) == m.stem { DataNameIff(m.stem, i); }
    ShardsMerge(parts, done, t, m.stem, stem);
    PartsCover(m, size);
  }

  /** Merged in index order, each manifest comes back record by record, transcribed. */
  lemma {:induction false} MergeRestores(manifests: seq<Manifest>, size: nat, done: Files, t: Transcriber, stem: string)
    requires size > 0 && PlainStems(manifests) && AllDone(Split(manifests, size), done, t)
    ensures MergedFor(Names(Split(manifests, size)), done, stem) == Transcribe(RecordsOf(manifests, stem), t)
  {
    if manifests != [] {
      var n := |manifests| - 1;
      var before, last := Split(manifests[..n], size), Parts(manifests[n], size);
      AllDoneParts(before, last, done, t);
      NamesConcat(before, last);
      MergeRestores(manifests[..n], size, done, t, stem);
      ManifestMerge(manifests[n], size, done, t, stem);
      MergedForConcat(Names(before), Names(last), done, stem);
      RecordsOfNext(manifests, t, stem);
    }
  }

  lemma {:induction false} RecordsOfNext(manifests: seq<Manifest>, t: Transcriber, stem: string)
    requires manifests != [] && PlainStems(manifests)
    ensures var n := |manifests| - 1;
      Transcribe(RecordsOf(manifests, stem), t)
      == Transcribe(RecordsOf(manifests[..n], stem), t)
         + if stem == manifests[n].stem then Transcribe(manifests[n].records, t) else []
  {
    NoOther(manifests[..|manifests| - 1], manifests[|manifests| - 1].stem);
  }

  /** The records of the manifest of that name; none if there is no such manifest. */
  function RecordsOf(manifests: seq<Manifest>, stem: string): seq<Record> {
    if manifests == [] then []
    else if manifests[|manifests| - 1].stem == stem then manifests[|manifests| - 1].records
    else RecordsOf(manifests[..|manifests| - 1], stem)
  }

  lemma {:induction false} NoOther(manifests: seq<Manifest>, stem: string)
    requires forall i :: 0 <= i < |manifests| ==> manifests[i].stem != stem
    ensures RecordsOf(manifests, stem) == []
  {
    if manifests != [] { NoOther(manifests[..|manifests| - 1], stem); }
  }

  /** Merged in any directory order, each manifest keeps each record exactly once. */
  lemma {:induction false} MergeKeepsRecords(manifests: seq<Manifest>, size: nat, done: Files, t: Transcriber,
                                             listing: seq<string>, stem: string)
    requires size > 0 && PlainStems(manifests) && AllDone(Split(manifests, size), done, t)
    requires multiset(listing) == multiset(Names(Split(manifests, size)))
    ensures multiset(MergedFor(listing, done, stem)) == multiset(Transcribe(RecordsOf(manifests, stem), t))
  {
    var names := Names(Split(manifests, size));
    MergeRestores(manifests, size, done, t, stem);
    MergeInAnyOrder(listing, names, done, stem);
  }

  // ----- Many ranks, many runs -----

  datatype Rank = Rank(gpu: nat, node: nat)

  /** What all runs share: the manifests, how to split them, the ranks, the transcriber and the order of sorted(). */
  datatype Job = Job(
    manifests: seq<Manifest>, splitSize: Option<int>, numGpu: nat, numNode: nat,
    transcriber: Transcriber, sorted: seq<string> -> seq<string>)

  /** Otherwise the manifests are processed whole, and nothing is ever merged. */
  predicate Splits(job: Job) { job.splitSize.Some? && job.splitSize.value > 0 }

  function Shards(job: Job): seq<Manifest> {
    if Splits(job) then Split(job.manifests, job.splitSize.value) else job.manifests
  }

  /** The output directory, and for each running rank the shards it still has to process. */
  datatype State = State(done: Files, queue: map<Rank, seq<string>>, merged: Option<Files>)

  datatype Event =
    | Launch(rank: Rank, listing: seq<string>)   // listing is the order in which a merge would read the directory
    | Write(rank: Rank)                          // one output file, atomically
    | Finish(rank: Rank, listing: seq<string>)
    | Crash(rank: Rank)

  function Missing(names: seq<string>, done: Files): seq<string> {
    if names == [] then []
    else
      var k := |names| - 1;
      if names[k] in done then Missing(names[..k], done) else Missing(names[..k], done) + [names[k]]
  }

  function Unfinished(job: Job, done: Files): seq<string> { job.sorted(Missing(Names(Shards(job)), done)) }

  method GetUnfinishedManifest(shards: seq<Manifest>, done: Files, sorted: seq<string> -> seq<string>)
    returns (unfinished: seq<string>)
    ensures unfinished == sorted(Missing(Names(shards), done))
  {
    var names := Names(shards);
    var found := [];
    for k := 0 to |names|
      invariant found == Missing(names[..k], done)
    {
      assert names[..k + 1][..k] == names[..k];
      if names[k] !in done {
        found := found + [names[k]];
      }
    }
    assert names[..|names|] == names;
    return sorted(found);
  }

  function RankList(job: Job, rank: Rank, unfinished: seq<string>): seq<string>
    requires job.numGpu > 0 && job.numNode > 0
  {
    var places := RankPlaces(|unfinished|, rank.gpu, job.numGpu, rank.node, job.numNode);
    seq(|places|, i requires 0 <= i < |places| => if places[i] < |unfinished| then unfinished[places[i]] else "")
  }

  ghost predicate ValidJob(job: Job) {
    && job.numGpu > 0 && job.numNode > 0
    && (forall i, j :: 0 <= i < j < |Shards(job)| ==> Shards(job)[i].stem != Shards(job)[j].stem)
    && (forall s :: multiset(job.sorted(s)) == multiset(s))
  }

  /** sorted() makes the partition independent of the order in which a rank lists its shards. */
  ghost predicate Canonical(sorted: seq<string> -> seq<string>) {
    forall s, t :: multiset(s) == multiset(t) ==> sorted(s) == sorted(t)
  }

  function Shard(shards: seq<Manifest>, name: string): seq<Record> { RecordsOf(shards, name) }

  predicate IsShardName(name: string) { FindSep(name, 0) < |name| }

  /** The files that match *--tpart_*.json. */
  function ShardFiles(done: Files): set<string> { set n | n in done && IsShardName(n) }

  /** Only a job that splits is merged, by rank (0, 0) alone, and only here, when nothing is left to do. */
  function MaybeMerged(job: Job, rank: Rank, listing: seq<string>, done: Files, merged: Option<Files>): Option<Files> {
    if Splits(job) && rank == Rank(0, 0) && listing != [] then Some(Merged(listing, done)) else merged
  }

  function MaybeMerge(job: Job, s: State, rank: Rank, listing: seq<string>): State {
    s.(merged := MaybeMerged(job, rank, listing, s.done, s.merged))
  }

  ghost predicate Enabled(job: Job, s: State, e: Event) {
    match e
    case Launch(rank, listing) =>
      && rank.gpu < job.numGpu && rank.node < job.numNode && rank !in s.queue
      && multiset(listing) == multiset(ShardFiles(s.done))
    case Write(rank) => rank in s.queue && s.queue[rank] != []
    case Finish(rank, listing) =>
      && rank in s.queue && s.queue[rank] == []
      && multiset(listing) == multiset(ShardFiles(s.done))
    case Crash(rank) => rank in s.queue
  }

  lemma {:induction false} ListingHolds(listing: seq<string>, names: set<string>)
    requires multiset(listing) == multiset(names)
    ensures forall n :: n in listing <==> n in names
  {
    forall n ensures n in listing <==> n in names {
      assert n in multiset(listing) <==> n in multiset(names);
    }
  }

  ghost function Step(job: Job, s: State, e: Event): State
    requires ValidJob(job) && Enabled(job, s, e)
  {
    match e
    case Launch(rank, listing) =>
      var unfinished := Unfinished(job, s.done);
      if unfinished == [] then MaybeMerge(job, s, rank, listing)
      else
        var mine := RankList(job, rank, unfinished);
        if mine == [] then s else s.(queue := s.queue[rank := mine])
    case Write(rank) =>
      var name := s.queue[rank][0];
      s.(done := s.done[name := Transcribe(Shard(Shards(job), name), job.transcriber)],
         queue := s.queue[rank := s.queue[rank][1..]])
    case Finish(rank, listing) =>
      var t := s.(queue := s.queue - {rank});
      if Unfinished(job, s.done) == [] then MaybeMerge(job, t, rank, listing) else t
    case Crash(rank) => s.(queue := s.queue - {rank})
  }

  ghost predicate Right(job: Job, done: Files) {
    forall n :: n in done ==> n in Names(Shards(job)) && done[n] == Transcribe(Shard(Shards(job), n), job.transcriber)
  }

  /** What every interleaving of all ranks over all runs keeps. */
  ghost predicate Inv(job: Job, s: State) {
    && Right(job, s.done)
    && (forall r, i :: r in s.queue && 0 <= i < |s.queue[r]| ==> s.queue[r][i] in Names(Shards(job)))
    && (s.merged.Some? ==>
          && Splits(job) && AllDone(Shards(job), s.done, job.transcriber)
          && exists listing :: multiset(listing) == multiset(Names(Shards(job)))
               && s.merged.value == Merged(listing, s.done))
  }

  lemma {:induction false} MissingAre(names: seq<string>, done: Files)
    ensures forall n :: n in Missing(names, done) <==> n in names && n !in done
  {
    if names != [] {
      var k := |names| - 1;
      MissingAre(names[..k], done);
      assert names == names[..k] + [names[k]];
    }
  }

  lemma {:induction false} UnfinishedAre(job: Job, done: Files)
    requires ValidJob(job)
    ensures forall n :: n in Unfinished(job, done) <==> n in Names(Shards(job)) && n !in done
    ensures |Unfinished(job, done)| == |Missing(Names(Shards(job)), done)|
  {
    var missing := Missing(Names(Shards(job)), done);
    MissingAre(Names(Shards(job)), done);
    assert |multiset(job.sorted(missing))| == |multiset(missing)|;
    forall n ensures n in job.sorted(missing) <==> n in missing {
      assert n in multiset(job.sorted(missing)) <==> n in multiset(missing);
    }
  }

  lemma {:induction false} RankListIsPart(job: Job, rank: Rank, unfinished: seq<string>)
    requires job.numGpu > 0 && job.numNode > 0
    ensures forall n :: n in RankList(job, rank, unfinished) ==> n in unfinished
    ensures unfinished != [] ==> unfinished[0] in RankList(job, Rank(0, 0), unfinished)
  {
    var length := |unfinished|;
    var places := RankPlaces(length, rank.gpu, job.numGpu, rank.node, job.numNode);
    RankPlacesAre(length, rank.gpu, job.numGpu, rank.node, job.numNode);
    PlacesAre(length, rank.node, job.numNode);
    forall i | 0 <= i < |places| ensures places[i] < length {
      assert places[i] in places;
      var all := Places(length, rank.node, job.numNode);
      var j :| 0 <= j < |all| && all[j] == places[i];
      assert places[i] in all;
    }
    if length > 0 {
      FirstRankTakesFirst(length, job.numGpu, job.numNode);
      var first := RankPlaces(length, 0, job.numGpu, 0, job.numNode);
      var i :| 0 <= i < |first| && first[i] == 0;
      assert RankList(job, Rank(0, 0), unfinished)[i] == unfinished[0];
    }
  }

  lemma {:induction false} RecordsOfShard(shards: seq<Manifest>, i: nat)
    requires i < |shards| && forall j, k :: 0 <= j < k < |shards| ==> shards[j].stem != shards[k].stem
    ensures RecordsOf(shards, shards[i].stem) == shards[i].records
  {
    if i < |shards| - 1 { RecordsOfShard(shards[..|shards| - 1], i); }
  }

  lemma {:induction false} RightAndFinished(job: Job, done: Files)
    requires ValidJob(job) && Right(job, done) && Unfinished(job, done) == []
    ensures AllDone(Shards(job), done, job.transcriber)
    ensures forall n :: n in done <==> n in Names(Shards(job))
  {
    var names := Names(Shards(job));
    UnfinishedAre(job, done);
    forall i | 0 <= i < |Shards(job)|
      ensures var shard := Shards(job)[i];
        shard.stem in done && done[shard.stem] == Transcribe(shard.records, job.transcriber)
    {
      assert names[i] in names;
      RecordsOfShard(Shards(job), i);
    }
  }

  /** A directory listing of distinct names is a rearrangement of them. */
  lemma {:induction false} DistinctAsSet(names: seq<string>, all: set<string>)
    requires forall i, j :: 0 <= i < j < |names| ==> names[i] != names[j]
    requires forall n :: n in all <==> n in names
    ensures multiset(names) == multiset(all)
  {
    if names == [] {
      assert all == {};
    } else {
      var k := |names| - 1;
      assert names == names[..k] + [names[k]];
      DistinctAsSet(names[..k], all - {names[k]});
      assert all == (all - {names[k]}) + {names[k]};
    }
  }

  lemma {:induction false} MergeKeepsInv(job: Job, s: State, rank: Rank, listing: seq<string>)
    requires ValidJob(job) && Inv(job, s) && Unfinished(job, s.done) == []
    requires multiset(listing) == multiset(ShardFiles(s.done))
    ensures Inv(job, MaybeMerge(job, s, rank, listing))
  {
    RightAndFinished(job, s.done);
    if Splits(job) { ShardFilesAre(job, s.done); }
  }

  /** Once all shards are done, the files to be merged are exactly the shards. */
  lemma {:induction false} ShardFilesAre(job: Job, done: Files)
    requires ValidJob(job) && Splits(job)
    requires forall n :: n in done <==> n in Names(Shards(job))
    ensures multiset(Names(Shards(job))) == multiset(ShardFiles(done))
  {
    ShardNamesHaveSep(job.manifests, job.splitSize.value);
    DistinctAsSet(Names(Shards(job)), ShardFiles(done));
  }

  lemma {:induction false} ShardNamesHaveSep(manifests: seq<Manifest>, size: nat)
    requires size > 0
    ensures forall n :: n in Names(Split(manifests, size)) ==> IsShardName(n)
  {
    if manifests != [] {
      var n := |manifests| - 1;
      ShardNamesHaveSep(manifests[..n], size);
      NamesConcat(Split(manifests[..n], size), Parts(manifests[n], size));
      forall i | 0 <= i < |Parts(manifests[n], size)| ensures IsShardName(Names(Parts(manifests[n], size))[i]) {
        ShardNameHasSep(manifests[n].stem, i);
      }
    }
  }

  lemma {:induction false} ShardNameHasSep(stem: string, i: nat)
    ensures IsShardName(ShardName(stem, i))
  {
    assert Occurs(ShardName(stem, i), |stem|, SEP);
  }

  lemma {:induction false} LaunchKeepsInv(job: Job, s: State, rank: Rank, listing: seq<string>)
    requires ValidJob(job) && Inv(job, s) && Enabled(job, s, Launch(rank, listing))
    ensures Inv(job, Step(job, s, Launch(rank, listing)))
  {
    UnfinishedAre(job, s.done);
    if Unfinished(job, s.done) == [] {
      MergeKeepsInv(job, s, rank, listing);
    } else {
      RankListIsPart(job, rank, Unfinished(job, s.done));
    }
  }

  lemma {:induction false} WriteKeepsInv(job: Job, s: State, rank: Rank)
    requires ValidJob(job) && Inv(job, s) && Enabled(job, s, Write(rank))
    ensures Inv(job, Step(job, s, Write(rank)))
  {
    if s.merged.Some? { WriteAgain(job, s.done, s.queue[rank][0]); }
  }

  lemma {:induction false} StepKeepsInv(job: Job, s: State, e: Event)
    requires ValidJob(job) && Inv(job, s) && Enabled(job, s, e)
    ensures Inv(job, Step(job, s, e))
  {
    match e
    case Launch(rank, listing) => LaunchKeepsInv(job, s, rank, listing);
    case Write(rank) => WriteKeepsInv(job, s, rank);
    case Finish(rank, listing) =>
      if Unfinished(job, s.done) == [] { MergeKeepsInv(job, s.(queue := s.queue - {rank}), rank, listing); }
    case Crash(rank) =>
  }

  /** Writing a finished shard again changes nothing. */
  lemma {:induction false} WriteAgain(job: Job, done: Files, name: string)
    requires ValidJob(job) && Right(job, done) && AllDone(Shards(job), done, job.transcriber)
    requires name in Names(Shards(job))
    ensures done[name := Transcribe(Shard(Shards(job), name), job.transcriber)] == done
  {
    var i :| 0 <= i < |Shards(job)| && Names(Shards(job))[i] == name;
    assert Shards(job)[i].stem == name;
  }

  datatype History = Fresh(done: Files) | Then(before: History, event: Event)

  ghost predicate Possible(job: Job, h: History)
    requires ValidJob(job)
    decreases h, 0
  {
    match h
    case Fresh(done) => Right(job, done)
    case Then(before, e) => Possible(job, before) && Enabled(job, Reach(job, before), e)
  }

  /** The state after any interleaving of launches, writes, finishes and crashes of all ranks. */
  ghost function Reach(job: Job, h: History): State
    requires ValidJob(job) && Possible(job, h)
    decreases h, 1
  {
    match h
    case Fresh(done) => State(done, map[], None)
    case Then(before, e) => Step(job, Reach(job, before), e)
  }

  /** In every interleaving: whatever was merged holds every record of its manifest, transcribed, exactly once. */
  lemma {:induction false} MergedIsComplete(job: Job, h: History, stem: string)
    requires ValidJob(job) && Possible(job, h) && PlainStems(job.manifests)
    requires Reach(job, h).merged.Some?
    ensures var s := Reach(job, h);
      && Splits(job) && AllDone(Shards(job), s.done, job.transcriber)
      && (stem in s.merged.value ==>
            multiset(s.merged.value[stem]) == multiset(Transcribe(RecordsOf(job.manifests, stem), job.transcriber)))
      && (stem !in s.merged.value ==> RecordsOf(job.manifests, stem) == [])
  {
    ReachIsInv(job, h);
    var s := Reach(job, h);
    var listing :| multiset(listing) == multiset(Names(Shards(job)))
      && s.merged.value == Merged(listing, s.done);
    MergeKeepsRecords(job.manifests, job.splitSize.value, s.done, job.transcriber, listing, stem);
    NotMerged(listing, s.done, stem);
    if stem !in s.merged.value {
      var transcribed := Transcribe(RecordsOf(job.manifests, stem), job.transcriber);
      assert multiset(transcribed) == multiset{};
      assert |multiset(transcribed)| == |RecordsOf(job.manifests, stem)|;
    }
  }

  /** Splitting manifests with plain, distinct stems gives distinct shard names. */
  lemma {:induction false} SplitNamesDiffer(manifests: seq<Manifest>, size: nat)
    requires size > 0 && PlainStems(manifests)
    ensures forall i, j :: 0 <= i < j < |Split(manifests, size)| ==>
      Split(manifests, size)[i].stem != Split(manifests, size)[j].stem
    ensures forall i :: 0 <= i < |Split(manifests, size)| ==>
      DataName(Split(manifests, size)[i].stem) in Names(manifests)
  {
    if manifests != [] {
      var n := |manifests| - 1;
      var before, last, m := Split(manifests[..n], size), Parts(manifests[n], size), manifests[n];
      SplitNamesDiffer(manifests[..n], size);
      forall i | 0 <= i < |last| ensures DataName(last[i].stem) == m.stem { DataNameIff(m.stem, i); }
      forall i, j | 0 <= i < j < |last| ensures last[i].stem != last[j].stem {
        if last[i].stem == last[j].stem { ShardNamesDiffer(m.stem, i, m.stem, j); }
      }
      NamesConcat(manifests[..n], [m]);
      assert manifests == manifests[..n] + [m] && Names([m]) == [m.stem];
      forall k | 0 <= k < n ensures Names(manifests[..n])[k] != m.stem { assert manifests[k].stem != m.stem; }
    }
  }

  // ----- Progress by rank (0, 0) alone -----

  /**
   * w lists the share of a rank in the list u: the names at the places picked at both levels, and no others, in
   * the order of u.
   */
  ghost predicate IsShare(job: Job, rank: Rank, u: seq<string>, w: seq<string>)
    requires job.numGpu > 0 && job.numNode > 0
  {
    exists places: seq<nat> :: SharePlaces(job, rank, u, w, places)
  }

  ghost predicate SharePlaces(job: Job, rank: Rank, u: seq<string>, w: seq<string>, places: seq<nat>)
    requires job.numGpu > 0 && job.numNode > 0
  {
    && |places| == |w|
    && (forall t, v :: 0 <= t < v < |places| ==> places[t] < places[v])
    && (forall t :: 0 <= t < |places| ==> places[t] < |u| && w[t] == u[places[t]])
    && (forall i: nat :: i in places <==>
          i < |u| && Picked(i, rank.gpu, job.numGpu, rank.node, job.numNode))
  }

  /** after is before with the transcriptions of the shards named in w, record by record, and nothing else changed. */
  ghost predicate Extends(job: Job, before: Files, after: Files, w: seq<string>) {
    && (forall n :: n in after <==> n in before || n in w)
    && (forall n :: n in before && n !in w ==> after[n] == before[n])
    && forall i, n :: 0 <= i < |Shards(job)| && n in w && Shards(job)[i].stem == n ==>
         && |after[n]| == |Shards(job)[i].records|
         && forall k :: 0 <= k < |after[n]| ==> after[n][k] == job.transcriber(Shards(job)[i].records[k])
  }

  /** A run wrote its share of the shards that were unfinished before it, transcribed, in order, and nothing else. */
  ghost predicate WritesShare(job: Job, rank: Rank, before: Files, after: Files, w: seq<string>)
    requires job.numGpu > 0 && job.numNode > 0
  {
    IsShare(job, rank, Unfinished(job, before), w) && Extends(job, before, after, w)
  }

  /** The output directory after one rank processed its list. */
  function WriteAll(job: Job, list: seq<string>, done: Files): Files {
    if list == [] then done
    else
      var k := |list| - 1;
      WriteAll(job, list[..k], done)[list[k] := Transcribe(Shard(Shards(job), list[k]), job.transcriber)]
  }

  class Workspace {
    var done: Files
    var merged: Option<Files>
    ghost var written: seq<string>  // the files written so far, in order

    method MaybeMergeManifest(job: Job, rank: Rank, listing: seq<string>)
      requires forall n :: n in listing ==> n in done
      modifies this
      ensures done == old(done) && written == old(written)
      ensures merged == MaybeMerged(job, rank, listing, done, old(merged))
    {
      if job.splitSize == None || job.splitSize.value <= 0 {
        return;
      }
      if rank.gpu != 0 || rank.node != 0 {
        return;
      }
      if listing == [] {
        return;
      }
      var files := MergeManifests(listing, done);
      merged := Some(files);
    }

    /** The loop over the shards of this rank. */
    method ProcessAll(job: Job, list: seq<string>)
      modifies this
      ensures done == WriteAll(job, list, old(done)) && merged == old(merged) && written == old(written) + list
    {
      for k := 0 to |list|
        invariant done == WriteAll(job, list[..k], old(done)) && merged == old(merged)
        invariant written == old(written) + list[..k]
      {
        assert list[..k + 1][..k] == list[..k];
        done := done[list[k] := Transcribe(Shard(Shards(job), list[k]), job.transcriber)];
        written := written + [list[k]];
      }
      assert list[..|list|] == list;
    }

    /** The end of a run: merge if no shard is left. */
    method MergeIfDone(job: Job, shards: seq<Manifest>, rank: Rank, listDir: set<string> -> seq<string>)
      requires shards == Shards(job)
      requires forall s :: multiset(listDir(s)) == multiset(s)
      modifies this
      ensures done == old(done) && written == old(written)
      ensures merged == MergedIfDone(job, rank, listDir, done, old(merged))
    {
      var unfinished := GetUnfinishedManifest(shards, done, job.sorted);
      if unfinished == [] {
        ListingHolds(listDir(ShardFiles(done)), ShardFiles(done));
        MaybeMergeManifest(job, rank, listDir(ShardFiles(done)));
      }
    }

    /** One whole run of one rank; listDir is the order in which a directory is read. */
    method RunDistributedTranscribe(job: Job, rank: Rank, listDir: set<string> -> seq<string>)
      requires ValidJob(job) && rank.gpu < job.numGpu && rank.node < job.numNode
      requires forall s :: multiset(listDir(s)) == multiset(s)
      modifies this
      ensures done == WriteAll(job, RankList(job, rank, Unfinished(job, old(done))), old(done))
      ensures merged == MergedBy(job, rank, listDir, old(done), done, old(merged))
      ensures old(written) <= written
      ensures WritesShare(job, rank, old(done), done, written[|old(written)|..])
    {
      ghost var list := RankList(job, rank, Unfinished(job, done));
      ListIsWritten(job, rank, done);
      assert (written + list)[|written|..] == list;
      var shards := MaybeSplitManifest(job.manifests, job.splitSize);
      var unfinished := GetUnfinishedManifest(shards, done, job.sorted);
      if unfinished == [] {
        assert written + list == written;
        MergeIfDone(job, shards, rank, listDir);
        return;
      }
      var mine := MyShards(job, rank, unfinished);
      assert mine == [] ==> written + list == written;
      if mine == [] {
        return;
      }
      ProcessAll(job, mine);
      MergeIfDone(job, shards, rank, listDir);
    }

    method MyShards(job: Job, rank: Rank, unfinished: seq<string>) returns (mine: seq<string>)
      requires rank.gpu < job.numGpu && rank.node < job.numNode
      ensures mine == RankList(job, rank, unfinished)
    {
      var list := GetManifestForCurrentRank(unfinished, rank.gpu, job.numGpu, rank.node, job.numNode);
      return list.value;
    }
  }

  /** What the end of a run leaves merged. */
  function MergedIfDone(job: Job, rank: Rank, listDir: set<string> -> seq<string>, done: Files,
                        merged: Option<Files>): Option<Files>
  {
    if Unfinished(job, done) != [] then merged else MaybeMerged(job, rank, listDir(ShardFiles(done)), done, merged)
  }

  /** What a run leaves merged: nothing new if there was work, but none for this rank. */
  function MergedBy(job: Job, rank: Rank, listDir: set<string> -> seq<string>, before: Files, after: Files,
                    merged: Option<Files>): Option<Files>
    requires job.numGpu > 0 && job.numNode > 0
  {
    if Unfinished(job, before) != [] && RankList(job, rank, Unfinished(job, before)) == [] then merged
    else MergedIfDone(job, rank, listDir, after, merged)
  }

  /** A run of rank (0, 0) merges exactly when the job splits and nothing is unfinished after it. */
  lemma {:induction false} LastRunMerges(job: Job, listDir: set<string> -> seq<string>, before: Files, after: Files,
                                         merged: Option<Files>)
    requires ValidJob(job) && Shards(job) != []
    requires forall names :: multiset(listDir(names)) == multiset(names)
    ensures MergedBy(job, Rank(0, 0), listDir, before, after, merged)
         == if Splits(job) && Unfinished(job, after) == [] then Some(Merged(listDir(ShardFiles(after)), after))
            else merged
  {
    RankListIsPart(job, Rank(0, 0), Unfinished(job, before));
    if Splits(job) && Unfinished(job, after) == [] {
      UnfinishedAre(job, after);
      ShardNamesHaveSep(job.manifests, job.splitSize.value);
      ListingHolds(listDir(ShardFiles(after)), ShardFiles(after));
      var name := Names(Shards(job))[0];
      assert name in Names(Shards(job)) && name in listDir(ShardFiles(after));
    }
  }

  lemma {:induction false} WriteAllAdds(job: Job, list: seq<string>, done: Files)
    ensures forall n :: n in WriteAll(job, list, done) <==> n in done || n in list
  {
    if list != [] {
      var k := |list| - 1;
      WriteAllAdds(job, list[..k], done);
      assert list == list[..k] + [list[k]];
    }
  }

  lemma {:induction false} MissingShrinks(names: seq<string>, done: Files, done': Files, x: string)
    requires done.Keys <= done'.Keys
    ensures |Missing(names, done')| <= |Missing(names, done)|
    ensures x in names && x !in done && x in done' ==> |Missing(names, done')| < |Missing(names, done)|
  {
    if names != [] {
      var k := |names| - 1;
      assert names == names[..k] + [names[k]];
      MissingShrinks(names[..k], done, done', x);
    }
  }

  /** The output directory after one run of rank (0, 0). */
  function Rerun(job: Job, before: Files): Files
    requires job.numGpu > 0 && job.numNode > 0
  {
    WriteAll(job, RankList(job, Rank(0, 0), Unfinished(job, before)), before)
  }

  function Iterate<S>(f: S -> S, s: S, n: nat): S {
    if n == 0 then s else f(Iterate(f, s, n - 1))
  }

  lemma {:induction false} Countdown<S(!new)>(f: S -> S, s: S, n: nat, left: S -> nat)
    requires forall t :: left(f(t)) == 0 || left(f(t)) < left(t)
    ensures left(Iterate(f, s, n)) == 0 || left(Iterate(f, s, n)) + n <= left(s)
  {
    if n > 0 { Countdown(f, s, n - 1, left); }
  }

  lemma {:induction false} IterateKeeps<S(!new)>(f: S -> S, s: S, n: nat, inv: S -> bool)
    requires inv(s) && forall t :: inv(t) ==> inv(f(t))
    ensures inv(Iterate(f, s, n))
  {
    if n > 0 { IterateKeeps(f, s, n - 1, inv); }
  }

  lemma {:induction false} IterateProjects<S(!new), D>(f: S -> S, g: D -> D, project: S -> D, s: S, n: nat)
    requires forall t :: project(f(t)) == g(project(t))
    ensures project(Iterate(f, s, n)) == Iterate(g, project(s), n)
  {
    if n > 0 { IterateProjects(f, g, project, s, n - 1); }
  }

  function Rerunning(job: Job): Files -> Files
    requires job.numGpu > 0 && job.numNode > 0
  {
    before => Rerun(job, before)
  }

  /** The output directory after n runs of rank (0, 0) alone. */
  function Reruns(job: Job, done: Files, n: nat): Files
    requires job.numGpu > 0 && job.numNode > 0
  {
    Iterate(Rerunning(job), done, n)
  }

  /** How many shards are left; as many as are listed as unfinished. */
  function Left(job: Job): Files -> nat { done => |Missing(Names(Shards(job)), done)| }

  /**
   * Each run of rank (0, 0) finishes at least the first unfinished shard, whatever the number of ranks,
   * so as many runs as there are unfinished shards finish the job.
   */
  lemma {:induction false} RerunsFinish(job: Job, done: Files, n: nat)
    requires ValidJob(job) && n >= |Unfinished(job, done)|
    ensures Unfinished(job, Reruns(job, done, n)) == []
  {
    forall before ensures Left(job)(Rerunning(job)(before)) == 0
                       || Left(job)(Rerunning(job)(before)) < Left(job)(before)
    {
      RerunShrinks(job, before);
    }
    Countdown(Rerunning(job), done, n, Left(job));
    UnfinishedAre(job, done);
    UnfinishedAre(job, Reruns(job, done, n));
  }

  lemma {:induction false} RerunShrinks(job: Job, before: Files)
    requires ValidJob(job)
    ensures Left(job)(Rerun(job, before)) == 0 || Left(job)(Rerun(job, before)) < Left(job)(before)
  {
    var unfinished, after := Unfinished(job, before), Rerun(job, before);
    WriteAllAdds(job, RankList(job, Rank(0, 0), unfinished), before);
    UnfinishedAre(job, before);
    UnfinishedAre(job, after);
    RankListIsPart(job, Rank(0, 0), unfinished);
    MissingShrinks(Names(Shards(job)), before, after, if unfinished == [] then "" else unfinished[0]);
  }

  // ----- Whole runs are histories of events -----

  /** What a whole run of one rank makes of a state. */
  function AfterRun(job: Job, rank: Rank, listDir: set<string> -> seq<string>, s: State): State
    requires job.numGpu > 0 && job.numNode > 0
  {
    var after := WriteAll(job, RankList(job, rank, Unfinished(job, s.done)), s.done);
    State(after, s.queue, MergedBy(job, rank, listDir, s.done, after, s.merged))
  }

  /** A whole run of one rank is a launch, its writes and a finish: its outputs, and its merge, are theirs. */
  lemma {:induction false} RunAsEvents(job: Job, h: History, rank: Rank, listDir: set<string> -> seq<string>)
    returns (h': History)
    requires ValidJob(job) && Possible(job, h) && rank.gpu < job.numGpu && rank.node < job.numNode
    requires rank !in Reach(job, h).queue && forall names :: multiset(listDir(names)) == multiset(names)
    ensures Possible(job, h')
    ensures Reach(job, h') == AfterRun(job, rank, listDir, Reach(job, h))
  {
    var s := Reach(job, h);
    if Unfinished(job, s.done) == [] || RankList(job, rank, Unfinished(job, s.done)) == [] {
      h' := IdleAsEvent(job, h, rank, listDir);
    } else {
      h' := WorkAsEvents(job, h, rank, listDir);
    }
  }

  function Running(job: Job, listDir: set<string> -> seq<string>): State -> State
    requires job.numGpu > 0 && job.numNode > 0
  {
    s => AfterRun(job, Rank(0, 0), listDir, s)
  }

  /** n runs of rank (0, 0) alone, on an output directory in which nothing was merged. */
  function RerunsFrom(job: Job, listDir: set<string> -> seq<string>, done: Files, n: nat): State
    requires job.numGpu > 0 && job.numNode > 0
  {
    Iterate(Running(job, listDir), State(done, map[], None), n)
  }

  /** Some history ends in the state, with no rank running. */
  ghost predicate Reachable(job: Job, s: State)
    requires ValidJob(job)
  {
    s.queue == map[] && exists h :: Possible(job, h) && Reach(job, h) == s
  }

  /**
   * Rerunning rank (0, 0) alone ends in a merge: after as many runs as there are unfinished shards, and at
   * least one, every manifest is merged, each of its records transcribed exactly once.
   */
  lemma {:induction false} RerunsMergeAll(job: Job, listDir: set<string> -> seq<string>, done: Files, n: nat,
                                          stem: string)
    requires ValidJob(job) && Splits(job) && PlainStems(job.manifests) && Shards(job) != []
    requires Right(job, done) && n >= 1 && n >= |Unfinished(job, done)|
    requires forall names :: multiset(listDir(names)) == multiset(names)
    ensures var merged := RerunsFrom(job, listDir, done, n).merged;
      && merged.Some?
      && (stem in merged.value ==>
            multiset(merged.value[stem]) == multiset(Transcribe(RecordsOf(job.manifests, stem), job.transcriber)))
      && (stem !in merged.value ==> RecordsOf(job.manifests, stem) == [])
  {
    RerunsMerge(job, listDir, done, n);
    RerunsReach(job, listDir, done, n);
    var h :| Possible(job, h) && Reach(job, h) == RerunsFrom(job, listDir, done, n);
    MergedIsComplete(job, h, stem);
  }

  // ----- How the ranks share the work -----

  ghost predicate DistinctNames(s: seq<string>) {
    forall i, j :: 0 <= i < j < |s| ==> s[i] != s[j]
  }

  /** What a run of the rank leaves in an output directory that nobody else writes to meanwhile. */
  function DoneBy(job: Job, rank: Rank, listDir: set<string> -> seq<string>, done: Files): Files
    requires job.numGpu > 0 && job.numNode > 0
  {
    AfterRun(job, rank, listDir, State(done, map[], None)).done
  }

  /** A run writes the i-th unfinished shard exactly when its node and then its GPU pick place i. */
  lemma {:induction false} RunWritesPicked(job: Job, rank: Rank, listDir: set<string> -> seq<string>, done: Files,
                                         i: nat)
    requires ValidJob(job) && i < |Unfinished(job, done)|
    ensures Unfinished(job, done)[i] !in done
    ensures Unfinished(job, done)[i] in DoneBy(job, rank, listDir, done)
       <==> Picked(i, rank.gpu, job.numGpu, rank.node, job.numNode)
  {
    var u, list := Unfinished(job, done), RankList(job, rank, Unfinished(job, done));
    UnfinishedAre(job, done);
    assert u[i] in u;
    UnfinishedDistinct(job, done);
    WriteAllAdds(job, list, done);
    RankListIsShare(job, rank, u);
    var places: seq<nat> :| SharePlaces(job, rank, u, list, places);
  }

  ghost predicate IsRank(job: Job, rank: Rank) { rank.gpu < job.numGpu && rank.node < job.numNode }

  /** When the ranks start from the same outputs, every unfinished shard is written by exactly one of them. */
  lemma {:induction false} EachShardWrittenOnce(job: Job, listDir: set<string> -> seq<string>, done: Files, i: nat)
    returns (rank: Rank)
    requires ValidJob(job) && i < |Unfinished(job, done)|
    ensures IsRank(job, rank) && Unfinished(job, done)[i] in DoneBy(job, rank, listDir, done)
    ensures forall other :: IsRank(job, other) && other != rank ==>
      Unfinished(job, done)[i] !in DoneBy(job, other, listDir, done)
  {
    var gpu, node := PickedByOne(i, job.numGpu, job.numNode);
    rank := Rank(gpu, node);
    RunWritesPicked(job, rank, listDir, done, i);
    forall other | IsRank(job, other) && other != rank
      ensures Unfinished(job, done)[i] !in DoneBy(job, other, listDir, done)
    {
      assert !Picked(i, other.gpu, job.numGpu, other.node, job.numNode);
      RunWritesPicked(job, other, listDir, done, i);
    }
  }

  /** A run writes between the floor and the ceiling of the unfinished shards divided by the number of ranks. */
  lemma {:induction false} RunsAreEven(job: Job, rank: Rank, listDir: set<string> -> seq<string>, done: Files)
    requires ValidJob(job) && IsRank(job, rank) && job.numNode * job.numGpu > 0
    ensures var n, added := |Unfinished(job, done)|, set f | f in DoneBy(job, rank, listDir, done) && f !in done;
      n / (job.numNode * job.numGpu) <= |added| <= Ceil(n, job.numNode * job.numGpu)
  {
    var u, list := Unfinished(job, done), RankList(job, rank, Unfinished(job, done));
    RanksAreEven(|u|, rank.gpu, job.numGpu, rank.node, job.numNode);
    UnfinishedAre(job, done);
    UnfinishedDistinct(job, done);
    WriteAllAdds(job, list, done);
    RankListIsPart(job, rank, u);
    ShareIsDistinct(job, rank, u);
    NamesAsSet(list);
    assert (set f | f in DoneBy(job, rank, listDir, done) && f !in done) == (set f | f in list);
  }

  /** No other rank ever merges. */
  lemma {:induction false} OnlyFirstRankMerges(job: Job, rank: Rank, listDir: set<string> -> seq<string>, s: State)
    requires job.numGpu > 0 && job.numNode > 0 && rank != Rank(0, 0)
    ensures AfterRun(job, rank, listDir, s).merged == s.merged
  {
  }

  // ----- The whole job -----

  /** A merge gathers the outputs whose name has the separator, under the name before it, and no other file. */
  lemma {:induction false} OnlyShardsAreMerged(listing: seq<string>, done: Files)
    requires multiset(listing) == multiset(ShardFiles(done))
    ensures forall n :: n in listing <==> n in done && HasSep(n)
    ensures forall stem :: stem in Merged(listing, done) <==> exists n :: n in done && HasSep(n) && DataName(n) == stem
  {
    ListingHolds(listing, ShardFiles(done));
    forall n ensures IsShardName(n) <==> HasSep(n) { }
  }

  /** The shards of all manifests, put together, are the records of all manifests in order. */
  lemma {:induction false} SplitCovers(manifests: seq<Manifest>, size: nat)
    requires size > 0
    ensures Flatten(Contents(Split(manifests, size))) == Flatten(Contents(manifests))
  {
    if manifests != [] {
      var n := |manifests| - 1;
      SplitCovers(manifests[..n], size);
      PartsCover(manifests[n], size);
      NamesConcat(Split(manifests[..n], size), Parts(manifests[n], size));
      FlattenConcat(Contents(Split(manifests[..n], size)), Contents(Parts(manifests[n], size)));
      NamesConcat(manifests[..n], [manifests[n]]);
      assert manifests == manifests[..n] + [manifests[n]] && Contents([manifests[n]]) == [manifests[n].records];
      FlattenSnoc(Contents(manifests[..n]), manifests[n].records);
    }
  }

  /** How often record r comes out of transcribing the records. */
  function Made(t: Transcriber, r: Record): Record -> nat { x => if t(x) == r then 1 else 0 }

  /**
   * Rerunning rank (0, 0) alone, manifest by manifest: every manifest with records is merged under its name, and each
   * record comes out as often as records of the manifest are transcribed to it.
   */
  lemma {:induction false} EveryManifestMerged(job: Job, listDir: set<string> -> seq<string>, done: Files, n: nat,
                                               m: nat, r: Record)
    requires ValidJob(job) && Splits(job) && PlainStems(job.manifests) && Shards(job) != []
    requires Right(job, done) && n >= 1 && n >= |Unfinished(job, done)|
    requires forall names :: multiset(listDir(names)) == multiset(names)
    requires m < |job.manifests| && job.manifests[m].records != []
    ensures var merged := RerunsFrom(job, listDir, done, n).merged;
      && merged.Some? && job.manifests[m].stem in merged.value
      && multiset(merged.value[job.manifests[m].stem])[r] == Weight(job.manifests[m].records, Made(job.transcriber, r))
  {
    var manifest := job.manifests[m];
    RerunsMergeAll(job, listDir, done, n, manifest.stem);
    RecordsOfShard(job.manifests, m);
    TranscribedCounts(manifest.records, job.transcriber, r);
  }

  // ----- Listing order -----

  /** How many shards of that name a manifest gives. */
  function Named(size: nat, name: string): Manifest -> nat
    requires size > 0
  {
    m => multiset(Names(Parts(m, size)))[name]
  }

  function Called(name: string): Manifest -> nat { (m: Manifest) => if m.stem == name then 1 else 0 }

  /** With sorted(), all ranks divide the same list, in whatever order each of them lists the manifests. */
  lemma {:induction false} ListingOrderDoesNotMatter(job: Job, other: Job, done: Files, rank: Rank)
    requires ValidJob(job) && Canonical(job.sorted)
    requires other == job.(manifests := other.manifests) && multiset(other.manifests) == multiset(job.manifests)
    ensures RankList(other, rank, Unfinished(other, done)) == RankList(job, rank, Unfinished(job, done))
  {
    ShardNamesOfListing(job, other);
    MissingPermuted(Names(Shards(job)), Names(Shards(other)), done);
  }

  // ----- Runs as events, step by step -----

  lemma {:induction false} ReachIsInv(job: Job, h: History)
    requires ValidJob(job) && Possible(job, h)
    ensures Inv(job, Reach(job, h))
  {
    match h
    case Fresh(_) =>
    case Then(before, e) =>
      ReachIsInv(job, before);
      StepKeepsInv(job, Reach(job, before), e);
  }

  lemma {:induction false} AllWritesAsEvents(job: Job, h: History, rank: Rank, others: map<Rank, seq<string>>,
                                             mine: seq<string>) returns (h': History)
    requires ValidJob(job) && Possible(job, h) && Reach(job, h).queue == others[rank := mine]
    ensures Possible(job, h')
    ensures var s := Reach(job, h);
      Reach(job, h') == s.(done := WriteAll(job, mine, s.done), queue := others[rank := []])
  {
    h' := WritesAsEvents(job, h, rank, |mine|);
    assert mine[..|mine|] == mine && mine[|mine|..] == [];
    assert others[rank := mine][rank := []] == others[rank := []];
  }

  /** The first k files of the list of a running rank. */
  lemma {:induction false} WritesAsEvents(job: Job, h: History, rank: Rank, k: nat) returns (h': History)
    requires ValidJob(job) && Possible(job, h)
    requires rank in Reach(job, h).queue && k <= |Reach(job, h).queue[rank]|
    ensures Possible(job, h')
    ensures var s := Reach(job, h);
      Reach(job, h') == s.(done := WriteAll(job, s.queue[rank][..k], s.done),
                           queue := s.queue[rank := s.queue[rank][k..]])
  {
    var s := Reach(job, h);
    var list := s.queue[rank];
    if k == 0 {
      assert list[..0] == [] && list[0..] == list && s.queue[rank := list] == s.queue;
      h' := h;
    } else {
      var before := WritesAsEvents(job, h, rank, k - 1);
      h' := Then(before, Write(rank));
      assert list[..k][..k - 1] == list[..k - 1] && list[k - 1..][1..] == list[k..];
      assert s.queue[rank := list[k - 1..]][rank := list[k..]] == s.queue[rank := list[k..]];
    }
  }

  lemma {:induction false} IdleAsEvent(job: Job, h: History, rank: Rank, listDir: set<string> -> seq<string>)
    returns (h': History)
    requires ValidJob(job) && Possible(job, h) && rank.gpu < job.numGpu && rank.node < job.numNode
    requires rank !in Reach(job, h).queue && forall names :: multiset(listDir(names)) == multiset(names)
    requires var unfinished := Unfinished(job, Reach(job, h).done);
      unfinished == [] || RankList(job, rank, unfinished) == []
    ensures Possible(job, h') && Reach(job, h') == AfterRun(job, rank, listDir, Reach(job, h))
  {
    h' := Then(h, Launch(rank, listDir(ShardFiles(Reach(job, h).done))));
  }

  lemma {:induction false} WorkAsEvents(job: Job, h: History, rank: Rank, listDir: set<string> -> seq<string>)
    returns (h': History)
    requires ValidJob(job) && Possible(job, h) && rank.gpu < job.numGpu && rank.node < job.numNode
    requires rank !in Reach(job, h).queue && forall names :: multiset(listDir(names)) == multiset(names)
    requires var unfinished := Unfinished(job, Reach(job, h).done);
      unfinished != [] && RankList(job, rank, unfinished) != []
    ensures Possible(job, h') && Reach(job, h') == AfterRun(job, rank, listDir, Reach(job, h))
  {
    var s := Reach(job, h);
    var mine := RankList(job, rank, Unfinished(job, s.done));
    var launched := LaunchAsEvent(job, h, rank, listDir);
    var written := AllWritesAsEvents(job, launched, rank, s.queue, mine);
    h' := FinishAsEvent(job, written, s.queue, rank, listDir);
  }

  lemma {:induction false} LaunchAsEvent(job: Job, h: History, rank: Rank, listDir: set<string> -> seq<string>)
    returns (h': History)
    requires ValidJob(job) && Possible(job, h) && rank.gpu < job.numGpu && rank.node < job.numNode
    requires rank !in Reach(job, h).queue && forall names :: multiset(listDir(names)) == multiset(names)
    requires var unfinished := Unfinished(job, Reach(job, h).done);
      unfinished != [] && RankList(job, rank, unfinished) != []
    ensures Possible(job, h')
    ensures var s := Reach(job, h);
      Reach(job, h') == s.(queue := s.queue[rank := RankList(job, rank, Unfinished(job, s.done))])
  {
    h' := Then(h, Launch(rank, listDir(ShardFiles(Reach(job, h).done))));
  }

  lemma {:induction false} FinishAsEvent(job: Job, h: History, others: map<Rank, seq<string>>, rank: Rank,
                                         listDir: set<string> -> seq<string>) returns (h': History)
    requires ValidJob(job) && Possible(job, h) && rank !in others
    requires Reach(job, h).queue == others[rank := []]
    requires forall names :: multiset(listDir(names)) == multiset(names)
    ensures Possible(job, h')
    ensures var s := Reach(job, h);
      Reach(job, h') == State(s.done, others, MergedIfDone(job, rank, listDir, s.done, s.merged))
  {
    var s := Reach(job, h);
    h' := Then(h, Finish(rank, listDir(ShardFiles(s.done))));
    assert s.queue - {rank} == others;
  }

  lemma {:induction false} RunReaches(job: Job, listDir: set<string> -> seq<string>, s: State)
    requires ValidJob(job) && Reachable(job, s) && forall names :: multiset(listDir(names)) == multiset(names)
    ensures Reachable(job, AfterRun(job, Rank(0, 0), listDir, s))
  {
    var h :| Possible(job, h) && Reach(job, h) == s;
    var h' := RunAsEvents(job, h, Rank(0, 0), listDir);
  }

  lemma {:induction false} RerunsReach(job: Job, listDir: set<string> -> seq<string>, done: Files, n: nat)
    requires ValidJob(job) && Right(job, done) && forall names :: multiset(listDir(names)) == multiset(names)
    ensures Reachable(job, RerunsFrom(job, listDir, done, n))
  {
    var inv := (s: State) => Reachable(job, s);
    var start := State(done, map[], None);
    assert Possible(job, Fresh(done)) && Reach(job, Fresh(done)) == start;
    forall s | inv(s) ensures inv(Running(job, listDir)(s)) { RunReaches(job, listDir, s); }
    IterateKeeps(Running(job, listDir), start, n, inv);
  }

  lemma {:induction false} RerunsWrite(job: Job, listDir: set<string> -> seq<string>, done: Files, n: nat)
    requires job.numGpu > 0 && job.numNode > 0
    ensures RerunsFrom(job, listDir, done, n).done == Reruns(job, done, n)
  {
    var written := (s: State) => s.done;
    IterateProjects(Running(job, listDir), Rerunning(job), written, State(done, map[], None), n);
  }

  lemma {:induction false} RerunsMerge(job: Job, listDir: set<string> -> seq<string>, done: Files, n: nat)
    requires ValidJob(job) && Splits(job) && Shards(job) != []
    requires n >= 1 && n >= |Unfinished(job, done)|
    requires forall names :: multiset(listDir(names)) == multiset(names)
    ensures RerunsFrom(job, listDir, done, n).merged.Some?
  {
    RerunsFinish(job, done, n);
    RerunsWrite(job, listDir, done, n - 1);
    var s := RerunsFrom(job, listDir, done, n - 1);
    LastRunMerges(job, listDir, s.done, Rerun(job, s.done), s.merged);
  }

  // ----- What a run writes -----

  lemma {:induction false} WriteAllExtends(job: Job, list: seq<string>, before: Files)
    requires ValidJob(job)
    ensures Extends(job, before, WriteAll(job, list, before), list)
  {
    if list != [] {
      var k := |list| - 1;
      WriteAllExtends(job, list[..k], before);
      assert list == list[..k] + [list[k]];
      forall i | 0 <= i < |Shards(job)| && Shards(job)[i].stem == list[k]
        ensures Shard(Shards(job), list[k]) == Shards(job)[i].records
      {
        RecordsOfShard(Shards(job), i);
      }
    }
  }

  lemma {:induction false} RankListIsShare(job: Job, rank: Rank, u: seq<string>)
    requires job.numGpu > 0 && job.numNode > 0
    ensures IsShare(job, rank, u, RankList(job, rank, u))
  {
    var places := RankPlaces(|u|, rank.gpu, job.numGpu, rank.node, job.numNode);
    RankPlacesArePicked(|u|, rank.gpu, job.numGpu, rank.node, job.numNode);
    forall t | 0 <= t < |places| ensures places[t] < |u| { assert places[t] in places; }
    assert SharePlaces(job, rank, u, RankList(job, rank, u), places);
  }

  lemma {:induction false} ListIsWritten(job: Job, rank: Rank, before: Files)
    requires ValidJob(job)
    ensures var list := RankList(job, rank, Unfinished(job, before));
      WritesShare(job, rank, before, WriteAll(job, list, before), list)
  {
    RankListIsShare(job, rank, Unfinished(job, before));
    WriteAllExtends(job, RankList(job, rank, Unfinished(job, before)), before);
  }

  // ----- Names of unfinished shards -----

  lemma {:induction false} MissingDistinct(names: seq<string>, done: Files)
    requires DistinctNames(names)
    ensures DistinctNames(Missing(names, done))
  {
    if names != [] {
      var k := |names| - 1;
      MissingDistinct(names[..k], done);
      MissingAre(names[..k], done);
      assert forall n :: n in names[..k] ==> n != names[k];
      assert forall i :: 0 <= i < |Missing(names[..k], done)| ==> Missing(names[..k], done)[i] in names[..k];
    }
  }

  lemma {:induction false} DistinctPermuted(s: seq<string>, t: seq<string>)
    requires DistinctNames(s) && multiset(t) == multiset(s)
    ensures DistinctNames(t)
  {
    forall i, j | 0 <= i < j < |t| && t[i] == t[j] ensures false {
      assert t == t[..i] + [t[i]] + t[i + 1..j] + [t[j]] + t[j + 1..];
      assert multiset(t)[t[i]] >= 2;
      OnceEach(s, t[i]);
    }
  }

  lemma {:induction false} OnceEach(s: seq<string>, n: string)
    requires DistinctNames(s)
    ensures multiset(s)[n] <= 1
  {
    if s != [] {
      var k := |s| - 1;
      assert s == s[..k] + [s[k]];
      OnceEach(s[..k], n);
      if n == s[k] { assert n !in s[..k]; }
    }
  }

  lemma {:induction false} UnfinishedDistinct(job: Job, done: Files)
    requires ValidJob(job)
    ensures DistinctNames(Unfinished(job, done))
  {
    MissingDistinct(Names(Shards(job)), done);
    DistinctPermuted(Missing(Names(Shards(job)), done), Unfinished(job, done));
  }

  lemma {:induction false} NamesAsSet(s: seq<string>)
    requires DistinctNames(s)
    ensures |set n | n in s| == |s|
  {
    if s == [] {
      assert (set n | n in s) == {};
    } else {
      var k := |s| - 1;
      NamesAsSet(s[..k]);
      assert s == s[..k] + [s[k]];
      assert (set n | n in s) == (set n | n in s[..k]) + {s[k]};
      assert s[k] !in s[..k];
    }
  }

  lemma {:induction false} ShareIsDistinct(job: Job, rank: Rank, u: seq<string>)
    requires job.numGpu > 0 && job.numNode > 0 && DistinctNames(u)
    ensures DistinctNames(RankList(job, rank, u))
  {
    RankListIsShare(job, rank, u);
    var places: seq<nat> :| SharePlaces(job, rank, u, RankList(job, rank, u), places);
  }

  // ----- Shards counted by name -----

  lemma {:induction false} CountNames(a: seq<Manifest>, b: seq<Manifest>, name: string)
    ensures multiset(Names(a + b))[name] == multiset(Names(a))[name] + multiset(Names(b))[name]
  {
    NamesConcat(a, b);
  }

  lemma {:induction false} SplitCounts(manifests: seq<Manifest>, size: nat, name: string)
    requires size > 0
    ensures multiset(Names(Split(manifests, size)))[name] == Weight(manifests, Named(size, name))
  {
    if manifests != [] {
      var n := |manifests| - 1;
      SplitCounts(manifests[..n], size, name);
      SplitCountsNext(manifests[..n], manifests[n], size, name);
      assert manifests == manifests[..n] + [manifests[n]];
    }
  }

  lemma {:induction false} SplitCountsNext(manifests: seq<Manifest>, m: Manifest, size: nat, name: string)
    requires size > 0
    requires multiset(Names(Split(manifests, size)))[name] == Weight(manifests, Named(size, name))
    ensures multiset(Names(Split(manifests + [m], size)))[name] == Weight(manifests + [m], Named(size, name))
  {
    assert (manifests + [m])[..|manifests|] == manifests;
    CountNames(Split(manifests, size), Parts(m, size), name);
    WeightSnoc(manifests, m, Named(size, name));
  }

  lemma {:induction false} NameCounts(manifests: seq<Manifest>, name: string)
    ensures multiset(Names(manifests))[name] == Weight(manifests, Called(name))
  {
    if manifests != [] {
      NameCounts(manifests[1..], name);
      assert Names(manifests) == [manifests[0].stem] + Names(manifests[1..]);
    }
  }

  /** Manifests listed in another order give the same shard names. */
  lemma {:induction false} ShardNamesOfListing(job: Job, other: Job)
    requires other == job.(manifests := other.manifests) && multiset(other.manifests) == multiset(job.manifests)
    ensures multiset(Names(Shards(other))) == multiset(Names(Shards(job)))
  {
    forall name ensures multiset(Names(Shards(other)))[name] == multiset(Names(Shards(job)))[name] {
      if Splits(job) {
        var size := job.splitSize.value;
        SplitCounts(job.manifests, size, name);
        SplitCounts(other.manifests, size, name);
        WeightPermutation(job.manifests, other.manifests, Named(size, name));
      } else {
        NameCounts(job.manifests, name);
        NameCounts(other.manifests, name);
        WeightPermutation(job.manifests, other.manifests, Called(name));
      }
    }
  }

  lemma {:induction false} MissingPermuted(names: seq<string>, others: seq<string>, done: Files)
    requires multiset(names) == multiset(others)
    ensures multiset(Missing(names, done)) == multiset(Missing(others, done))
  {
    MissingCounts(names, done);
    MissingCounts(others, done);
  }

  lemma {:induction false} MissingCounts(names: seq<string>, done: Files)
    ensures forall n :: multiset(Missing(names, done))[n] == if n in done then 0 else multiset(names)[n]
  {
    if names != [] {
      var k := |names| - 1;
      assert names == names[..k] + [names[k]];
      MissingCounts(names[..k], done);
    }
  }

  lemma {:induction false} TranscribedCounts(records: seq<Record>, t: Transcriber, r: Record)
    ensures multiset(Transcribe(records, t))[r] == Weight(records, Made(t, r))
  {
    if records != [] {
      TranscribedCounts(records[1..], t, r);
      assert Transcribe(records, t) == [t(records[0])] + Transcribe(records[1..], t);
    }
  }
}
