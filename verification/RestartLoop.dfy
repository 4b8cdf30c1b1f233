// The epoch loop that skips the validation of a restart once, and puts the data
// loader back where the checkpoint left it (nemo/utils/exp_manager.py).

module RestartLoop {
  import opened Lists

  datatype State = State(
    restarting: bool,           // set when a checkpoint is loaded
    skipOnce: bool,             // _skip_resume_validation_once
    cached: Option<nat>,        // the loader cursor kept for reapplication
    hasLoader: bool,            // the combined loader accepts state
    cursor: nat,                // where the data loader stands
    batches: nat,               // batch progress
    validations: nat)           // validation runs

  /** What Lightning's own code answers during one pass of the loop. */
  datatype Pass = Pass(
    wantsBefore: bool,          // its validation test, asked in advance
    reloadRaises: bool,         // loading the loader state raises
    advanceRaises: bool,        // its own advance raises, having consumed nothing
    wantsAfter: bool,           // its validation test, asked in on_advance_end
    endRaises: bool)            // its on_advance_end raises

  datatype Event =
    | Load(fitRestarting: bool, restarting: bool, states: Option<nat>)
    | Prefetch(moved: nat)      // the data fetcher runs ahead
    | Settle                    // Lightning ends the restarting phase on its own
    | Iterate(pass: Pass)

  // ----- Specification -----

  function Loaded(s: State, fitRestarting: bool, restarting: bool, states: Option<nat>): State {
    s.(cached := if fitRestarting && states.Some? then states else s.cached,
       cursor := if states.Some? then states.value else s.cursor,
       restarting := restarting)
  }

  predicate Skips(s: State, pass: Pass) { s.restarting && pass.wantsBefore }

  predicate Reapplies(s: State) { s.cached.Some? && s.hasLoader }

  function Reloaded(s: State): State {
    if Reapplies(s) then s.(cursor := s.cached.value, cached := None) else s
  }

  predicate ReloadFails(s: State, pass: Pass) { Reapplies(s) && pass.reloadRaises }

  /** advance; the flag says whether it raised. */
  function Advanced(s: State, pass: Pass): (State, bool) {
    if Skips(s, pass) then
      if ReloadFails(s, pass) then (s, true) else (Reloaded(s).(skipOnce := true, restarting := false), false)
    else if pass.advanceRaises then (s, true)
    else (s.(batches := s.batches + 1, cursor := s.cursor + 1), false)
  }

  predicate Validates(s: State, wants: bool) { !s.skipOnce && !s.restarting && wants }

  function Ended(s: State, pass: Pass): State {
    s.(validations := if Validates(s, pass.wantsAfter) then s.validations + 1 else s.validations, skipOnce := false)
  }

  /** One pass of Lightning's loop; however it ends, the restarting phase is over after it. */
  function Iterated(s: State, pass: Pass): State {
    var (t, raised) := Advanced(s, pass);
    (if raised then t else Ended(t, pass)).(restarting := false)
  }

  function Step(s: State, e: Event): State {
    match e
    case Load(fitRestarting, restarting, states) => Loaded(s, fitRestarting, restarting, states)
    case Prefetch(moved) => s.(cursor := s.cursor + moved)
    case Settle => s.(restarting := false)
    case Iterate(pass) => Iterated(s, pass)
  }

  function Run(s: State, events: seq<Event>): State {
    if events == [] then s else Step(Run(s, events[..|events| - 1]), events[|events| - 1])
  }

  predicate Initial(s: State) { !s.restarting && !s.skipOnce && s.cached == None }

  // ----- The program -----

  class SkipResumeTrainingValidationLoop {
    var restarting: bool
    var skipOnce: bool
    var cached: Option<nat>
    const hasLoader: bool
    var cursor: nat
    var batches: nat
    var validations: nat

    function Now(): State
      reads this
    {
      State(restarting, skipOnce, cached, hasLoader, cursor, batches, validations)
    }

    constructor (hasLoader: bool)
      ensures Initial(Now()) && this.hasLoader == hasLoader
    {
      restarting, skipOnce, cached, cursor, batches, validations := false, false, None, 0, 0, 0;
      this.hasLoader := hasLoader;
    }

    /** The wrapper around Lightning's loading of the loader states. */
    method LoadCombinedLoaderStates(fitRestarting: bool, states: Option<nat>)
      modifies this
      ensures Now() == Loaded(old(Now()), fitRestarting, old(restarting), states)
    {
      if fitRestarting && states.Some? {
        cached := states;
      }
      if states.Some? {
        cursor := states.value;
      }
    }

    method ReloadUnconsumed(reloadRaises: bool) returns (raised: bool)
      modifies this
      ensures raised <==> Reapplies(old(Now())) && reloadRaises
      ensures Now() == if raised then old(Now()) else Reloaded(old(Now()))
    {
      if cached == None || !hasLoader {
        return false;
      }
      if reloadRaises {
        return true;
      }
      cursor := cached.value;
      cached := None;
      return false;
    }

    method Advance(pass: Pass) returns (raised: bool)
      modifies this
      ensures (Now(), raised) == Advanced(old(Now()), pass)
      ensures raised <==>
        if old(restarting) && pass.wantsBefore then old(cached).Some? && hasLoader && pass.reloadRaises
        else pass.advanceRaises
      ensures raised ==> Now() == old(Now())
      ensures !raised && old(restarting) && pass.wantsBefore ==> skipOnce && !restarting && batches == old(batches)
    {
      if restarting && pass.wantsBefore {
        raised := ReloadUnconsumed(pass.reloadRaises);
        if raised {
          return;
        }
        skipOnce := true;
        restarting := false;
        return false;
      }
      if pass.advanceRaises {
        return true;
      }
      batches := batches + 1;
      cursor := cursor + 1;
      return false;
    }

    method ShouldCheckVal(wants: bool) returns (b: bool)
      ensures b <==> Validates(Now(), wants)
    {
      if skipOnce {
        return false;
      }
      if restarting {
        return false;
      }
      return wants;
    }

    /** Lightning's bookkeeping, and the clearing of the flag on every way out of it. */
    method OnAdvanceEnd(pass: Pass) returns (raised: bool)
      modifies this
      ensures Now() == Ended(old(Now()), pass)
      ensures raised == pass.endRaises
    {
      var check := ShouldCheckVal(pass.wantsAfter);
      if check {
        validations := validations + 1;
      }
      raised := pass.endRaises;
      skipOnce := false;
    }

    /** One pass of Lightning's loop. */
    method Iterate(pass: Pass)
      modifies this
      ensures Now() == Iterated(old(Now()), pass)
    {
      var raised := Advance(pass);
      if !raised {
        var _ := OnAdvanceEnd(pass);
      }
      restarting := false;
    }
  }

  // ----- Over all runs -----

  /** The flag is set only within one pass, between advance and the end of on_advance_end, raising or not. */
  lemma {:induction false} FlagIsOneShot(s: State, events: seq<Event>)
    requires Initial(s)
    ensures !Run(s, events).skipOnce
  {
    if events != [] { FlagIsOneShot(s, events[..|events| - 1]); }
  }

  /** Over any run, validation only ever follows a trained batch, at most once each: never a skipped pass. */
  lemma {:induction false} ValidationsFollowBatches(s: State, events: seq<Event>)
    requires Initial(s)
    ensures Run(s, events).validations - s.validations <= Run(s, events).batches - s.batches
  {
    if events != [] {
      var before := events[..|events| - 1];
      ValidationsFollowBatches(s, before);
      FlagIsOneShot(s, before);
    }
  }

  /** Outside a restart, in every run, a pass trains the next batch and then validates whenever Lightning wants to. */
  lemma {:induction false} OrdinaryPass(s: State, events: seq<Event>, pass: Pass)
    requires Initial(s) && !Run(s, events).restarting
    ensures var t := Run(s, events);
      Iterated(t, pass) ==
        if pass.advanceRaises then t
        else t.(batches := t.batches + 1, cursor := t.cursor + 1,
                validations := t.validations + if pass.wantsAfter then 1 else 0)
  {
    FlagIsOneShot(s, events);
  }

  /** The first pass of a restart that has no validation to skip trains the next batch, and does not validate. */
  lemma {:induction false} RestartTrains(s: State, events: seq<Event>, pass: Pass)
    requires Initial(s) && Run(s, events).restarting && !pass.wantsBefore && !pass.advanceRaises
    ensures var t := Run(s, events);
      Iterated(t, pass) == t.(batches := t.batches + 1, cursor := t.cursor + 1, restarting := false)
  {
    FlagIsOneShot(s, events);
  }

  // ----- Where a skipped pass leaves the loader -----

  ghost predicate OnlyPrefetches(events: seq<Event>) {
    forall i :: 0 <= i < |events| ==> events[i].Prefetch?
  }

  lemma {:induction false} PrefetchKeeps(s: State, events: seq<Event>)
    requires OnlyPrefetches(events)
    ensures var t := Run(s, events);
      && t.cursor >= s.cursor && t == s.(cursor := t.cursor)
  {
    if events != [] { PrefetchKeeps(s, events[..|events| - 1]); }
  }

  lemma {:induction false} RunConcat(s: State, a: seq<Event>, b: seq<Event>)
    ensures Run(s, a + b) == Run(Run(s, a), b)
  {
    if b == [] {
      assert a + b == a;
    } else {
      assert (a + b)[..|a + b| - 1] == a + b[..|b| - 1];
      RunConcat(s, a, b[..|b| - 1]);
    }
  }

  lemma {:induction false} RunSnoc(s: State, a: seq<Event>, e: Event)
    ensures Run(s, a + [e]) == Step(Run(s, a), e)
  {
    assert (a + [e])[..|a|] == a;
  }

  /** The restarting phase of any run lasts from a load to the next pass: only prefetches have happened since. */
  lemma {:induction false} RestartingSince(s: State, events: seq<Event>) returns (i: nat)
    requires Initial(s) && Run(s, events).restarting
    ensures i < |events| && events[i].Load? && events[i].restarting && OnlyPrefetches(events[i + 1..])
  {
    var n := |events| - 1;
    if events[n].Load? {
      i := n;
    } else {
      i := RestartingSince(s, events[..n]);
      assert events[i + 1..] == events[..n][i + 1..] + [events[n]];
    }
  }

  /** The pass puts the kept cursor back. */
  predicate PutsBack(s: State, pass: Pass) { Skips(s, pass) && Reapplies(s) && !pass.reloadRaises }

  /** The states of the last load that kept any, unless they were put back since. */
  function Kept(s: State, events: seq<Event>): Option<nat> {
    if events == [] then None
    else
      var before, e := events[..|events| - 1], events[|events| - 1];
      if e.Load? && e.fitRestarting && e.states.Some? then e.states
      else if e.Iterate? && PutsBack(Run(s, before), e.pass) then None
      else Kept(s, before)
  }

  lemma {:induction false} CachedIsKept(s: State, events: seq<Event>)
    requires Initial(s)
    ensures Run(s, events).cached == Kept(s, events)
    ensures Run(s, events).hasLoader == s.hasLoader
  {
    if events != [] { CachedIsKept(s, events[..|events| - 1]); }
  }

  /**
   * Every skipped pass of every run: no batch is trained, nothing is validated, the restart is over, and the
   * loader goes to the kept cursor if there is one that it accepts, and otherwise stays where it is.
   */
  lemma {:induction false} SkippedPass(s: State, events: seq<Event>, pass: Pass)
    requires Initial(s) && Skips(Run(s, events), pass)
    ensures var t := Run(s, events);
      var u := Iterated(t, pass);
      && u.batches == t.batches && u.validations == t.validations && !u.restarting && !u.skipOnce
      && (if s.hasLoader && Kept(s, events).Some? && !pass.reloadRaises
          then u.cursor == Kept(s, events).value && u.cached == None
          else u.cursor == t.cursor && u.cached == t.cached)
  {
    CachedIsKept(s, events);
    FlagIsOneShot(s, events);
  }

  /** What the load keeps: its own states if it has any and the fit is restarting, and otherwise the older ones. */
  function KeptBy(load: Event, older: Option<nat>): Option<nat>
    requires load.Load?
  {
    if load.fitRestarting && load.states.Some? then load.states else older
  }

  /**
   * After any run, a load that restarts, and any run-ahead of the loader, a skipped pass: the loader is at the
   * cursor of the load. This holds for every run-ahead exactly when the loader accepts state and the load kept
   * its own states, or the states kept from an older load happen to be the same cursor.
   */
  lemma {:induction false} SkipRestoresCursorIff(s: State, before: seq<Event>, load: Event, pass: Pass)
    requires Initial(s) && load.Load? && load.restarting && pass.wantsBefore && !pass.reloadRaises
    ensures var at := Step(Run(s, before), load).cursor;
      (forall ahead | OnlyPrefetches(ahead) :: Iterated(Run(s, before + [load] + ahead), pass).cursor == at)
      <==> s.hasLoader && KeptBy(load, Kept(s, before)) == Some(at)
  {
    var base := Step(Run(s, before), load);
    CachedIsKept(s, before);
    forall ahead | OnlyPrefetches(ahead)
      ensures var t := Run(s, before + [load] + ahead); t == base.(cursor := t.cursor)
    {
      AfterLoad(s, before, load, ahead);
    }
    if !(s.hasLoader && KeptBy(load, Kept(s, before)) == Some(base.cursor)) {
      AfterLoad(s, before, load, [Prefetch(1)]);
      RunSnoc(base, [], Prefetch(1));
      assert OnlyPrefetches([Prefetch(1)]);
      assert Run(base, [Prefetch(1)]).cursor == base.cursor + 1;
    }
  }

  lemma {:induction false} AfterLoad(s: State, before: seq<Event>, load: Event, ahead: seq<Event>)
    requires OnlyPrefetches(ahead)
    ensures var base := Step(Run(s, before), load);
      Run(s, before + [load] + ahead) == Run(base, ahead) == base.(cursor := Run(base, ahead).cursor)
  {
    RunSnoc(s, before, load);
    RunConcat(s, before + [load], ahead);
    PrefetchKeeps(Step(Run(s, before), load), ahead);
  }

  /** A load that carries states of a restarting fit always meets the condition. */
  lemma {:induction false} OwnStatesRestore(s: State, before: seq<Event>, at: nat, ahead: seq<Event>, pass: Pass)
    requires Initial(s) && s.hasLoader && OnlyPrefetches(ahead) && pass.wantsBefore && !pass.reloadRaises
    ensures Iterated(Run(s, before + [Load(true, true, Some(at))] + ahead), pass).cursor == at
  {
    SkipRestoresCursorIff(s, before, Load(true, true, Some(at)), pass);
  }

  /**
   * A checkpoint without loader states, resumed by a process that kept the cursor of an earlier one: the
   * skipped pass moves the loader back to that stale cursor, before a batch that was trained on.
   */
  lemma {:induction false} StaleCursorPutBack(s: State, at: nat, train: Pass, skip: Pass, e: seq<Event>)
    requires Initial(s) && s.hasLoader
    requires !train.wantsBefore && !train.advanceRaises && skip.wantsBefore && !skip.reloadRaises
    requires e == [Load(true, true, Some(at)), Iterate(train), Load(true, true, None)]
    ensures var t := Run(s, e);
      && t.cursor == at + 1 && t.batches == s.batches + 1
      && Iterated(t, skip).cursor == at && Iterated(t, skip).batches == t.batches
  {
    assert e[..1] == [] + [e[0]] && e[..2] == e[..1] + [e[1]] && e == e[..2] + [e[2]];
    RunSnoc(s, [], e[0]);
    RunSnoc(s, e[..1], e[1]);
    RunSnoc(s, e[..2], e[2]);
  }

  function Loads(events: seq<Event>): nat {
    if events == [] then 0
    else
      var e := events[|events| - 1];
      Loads(events[..|events| - 1]) + if e.Load? && e.fitRestarting && e.states.Some? then 1 else 0
  }

  /** How many passes of the run put a cached cursor back. */
  function Reapplied(s: State, events: seq<Event>): nat {
    if events == [] then 0
    else
      var before, e := events[..|events| - 1], events[|events| - 1];
      var t := Run(s, before);
      Reapplied(s, before) + if e.Iterate? && PutsBack(t, e.pass) then 1 else 0
  }

  /** Each load pays for at most one reapplication. */
  lemma {:induction false} ReappliedAtMostOncePerLoad(s: State, events: seq<Event>)
    requires Initial(s)
    ensures Reapplied(s, events) + (if Run(s, events).cached.Some? then 1 else 0) <= Loads(events)
  {
    if events != [] { ReappliedAtMostOncePerLoad(s, events[..|events| - 1]); }
  }
}
