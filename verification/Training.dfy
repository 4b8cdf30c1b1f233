// Interrupting and resuming training (nemo/utils/exp_manager.py): batch progress,
// the deadline timer and preemption saves, and chains of runs cut short at any point.

module Training {
  /**
   * What a checkpoint holds: the batch counters, the optimizer steps, the next sample of the data loader,
   * and the model, here the samples that the optimizer was applied to.
   */
  datatype Checkpoint = Checkpoint(ready: nat, completed: nat, globalStep: nat, cursor: nat, weights: seq<nat>)

  /**
   * Where the loop stands in a batch: between batches, counted as ready, its sample pulled from the loader,
   * or stepped with its end hooks still to run.
   */
  datatype Phase = Between | Counted | Pulled | Stepped

  datatype State = State(
    phase: Phase, ready: nat, completed: nat, globalStep: nat, cursor: nat, weights: seq<nat>, disk: Checkpoint)

  /** Stop: a hook finds the deadline reached or a signal pending. Kill: the process dies. */
  datatype Event = Advance | Stop | Kill

  /**
   * flush: the shutdown code brings completed up to ready. callback: a checkpoint callback is configured.
   * stateful: the loader resumes at its own saved cursor; otherwise the batch counter places it.
   */
  datatype Setup = Setup(flush: bool, callback: bool, stateful: bool)

  // ----- Steps -----

  function Next(s: State): State {
    match s.phase
    case Between => s.(phase := Counted, ready := s.ready + 1)
    case Counted => s.(phase := Pulled, cursor := s.cursor + 1)
    case Pulled => s.(phase := Stepped, globalStep := s.globalStep + 1, weights := s.weights + [InHand(s)])
    case Stepped => s.(phase := Between, completed := s.completed + 1)
  }

  /** The sample of the batch in flight, the last one pulled. */
  function InHand(s: State): nat { if s.cursor > 0 then s.cursor - 1 else 0 }

  function Flushed(s: State): State {
    if s.ready > s.completed then s.(completed := s.completed + 1) else s
  }

  function Saved(s: State): State {
    s.(disk := Checkpoint(s.ready, s.completed, s.globalStep, s.cursor, s.weights))
  }

  /** The sample that a run resumed from the checkpoint pulls first. */
  function ResumesAt(c: Checkpoint, stateful: bool): nat { if stateful then c.cursor else c.completed }

  /** A new run: everything comes from the checkpoint, and the progress is rewound to completed. */
  function Restarted(s: State, stateful: bool): State {
    var c := s.disk;
    State(Between, c.completed, c.completed, c.globalStep, ResumesAt(c, stateful), c.weights, c)
  }

  /** The shutdown code, and the run that follows it. */
  function Stopped(s: State, setup: Setup): State {
    var t := if setup.flush then Flushed(s) else s;
    Restarted(if setup.callback then Saved(t) else t, setup.stateful)
  }

  function Step(s: State, e: Event, setup: Setup): State {
    match e
    case Advance => Next(s)
    case Stop => Stopped(s, setup)
    case Kill => Restarted(s, setup.stateful)
  }

  const START := State(Between, 0, 0, 0, 0, [], Checkpoint(0, 0, 0, 0, []))

  /** The state after a whole chain of runs. */
  function Run(events: seq<Event>, setup: Setup): State {
    if events == [] then START
    else Step(Run(events[..|events| - 1], setup), events[|events| - 1], setup)
  }

  // ----- The objects of the program -----

  class Trainer {
    var phase: Phase
    var ready: nat
    var completed: nat
    var globalStep: nat
    var cursor: nat
    var weights: seq<nat>
    var disk: Checkpoint
    const callback: bool
    const stateful: bool

    function Now(): State
      reads this
    {
      State(phase, ready, completed, globalStep, cursor, weights, disk)
    }

    constructor (callback: bool, stateful: bool)
      ensures Now() == START && this.callback == callback && this.stateful == stateful
    {
      phase, ready, completed, globalStep, cursor, weights := Between, 0, 0, 0, 0, [];
      disk := Checkpoint(0, 0, 0, 0, []);
      this.callback, this.stateful := callback, stateful;
    }

    /** Lightning's side: one more step of the batch loop. */
    method AdvanceLoop()
      modifies this
      ensures Now() == Next(old(Now()))
    {
      match phase {
        case Between => phase, ready := Counted, ready + 1;
        case Counted => phase, cursor := Pulled, cursor + 1;
        case Pulled =>
          weights := weights + [if cursor > 0 then cursor - 1 else 0];
          phase, globalStep := Stepped, globalStep + 1;
        case Stepped => phase, completed := Between, completed + 1;
      }
    }

    method FlushInFlightBatchProgress()
      modifies this
      ensures Now() == Flushed(old(Now()))
    {
      if ready > completed {
        completed := completed + 1;
      }
    }

    method SaveLastCheckpoint()
      modifies this
      ensures Now() == Saved(old(Now()))
    {
      disk := Checkpoint(ready, completed, globalStep, cursor, weights);
    }

    /** The common end of the preemption callbacks; always raises the exit exception. */
    method SaveLastCheckpointAndExit()
      modifies this
      ensures Now() == if callback then Saved(Flushed(old(Now()))) else Flushed(old(Now()))
    {
      FlushInFlightBatchProgress();
      if callback {
        SaveLastCheckpoint();
      }
    }

    /** The timer's check; shouldStop is the verdict of the superclass. */
    method CheckTimeRemaining(shouldStop: bool) returns (exits: bool)
      modifies this
      ensures exits == shouldStop
      ensures Now() == if !shouldStop then old(Now())
                       else if callback then Saved(Flushed(old(Now()))) else Flushed(old(Now()))
    {
      if shouldStop {
        FlushInFlightBatchProgress();
        if callback {
          SaveLastCheckpoint();
        }
      }
      return shouldStop;
    }

    /** The next run. */
    method Resume()
      modifies this
      ensures Now() == Restarted(old(Now()), stateful)
    {
      phase, ready, completed := Between, disk.completed, disk.completed;
      globalStep, weights := disk.globalStep, disk.weights;
      cursor := if stateful then disk.cursor else disk.completed;
    }

    /** One event of a chain of runs. */
    method Handle(e: Event)
      modifies this
      ensures Now() == Step(old(Now()), e, Setup(true, callback, stateful))
    {
      match e {
        case Advance => AdvanceLoop();
        case Stop => var _ := CheckTimeRemaining(true); Resume();
        case Kill => Resume();
      }
    }
  }

  // ----- Two things a checkpoint can get right -----

  function UpTo(n: nat): seq<nat> { seq(n, i => i) }

  /** Counters: completed counts the optimizer steps. Samples: the model saw each sample before the next once. */
  datatype Aspect = Counters | Samples

  /** The saved state is right: its counters agree; every sample before the next one was trained on once, in order. */
  ghost predicate Right(c: Checkpoint, setup: Setup, aspect: Aspect) {
    match aspect
    case Counters => c.completed == c.globalStep
    case Samples => c.weights == UpTo(ResumesAt(c, setup.stateful))
  }

  /** At most one batch is in flight, and it is the last one counted. */
  ghost predicate OneInFlight(s: State) {
    && s.ready == s.completed + (if s.phase == Between then 0 else 1)
    && (s.phase == Pulled ==> s.cursor > 0)
  }

  /** The samples pulled so far, save one in hand, are those trained on. */
  function Trained(s: State): nat { if s.phase == Pulled then InHand(s) else s.cursor }

  ghost predicate Live(s: State, setup: Setup, aspect: Aspect) {
    && OneInFlight(s)
    && Right(s.disk, setup, aspect)
    && match aspect
       case Counters => s.globalStep == s.completed + (if s.phase == Stepped then 1 else 0)
       case Samples =>
         && s.weights == UpTo(Trained(s))
         && (setup.stateful || s.cursor == s.completed + (if s.phase in {Pulled, Stepped} then 1 else 0))
  }

  /** The phases in which a save goes wrong. */
  function BadPhases(setup: Setup, aspect: Aspect): set<Phase> {
    if aspect == Samples && setup.stateful then {Pulled}
    else if setup.flush then {Counted, Pulled}
    else {Stepped}
  }

  ghost predicate BadSave(s: State, e: Event, setup: Setup, aspect: Aspect) {
    e == Stop && setup.callback && s.phase in BadPhases(setup, aspect)
  }

  lemma {:induction false} StepKeepsLive(s: State, e: Event, setup: Setup, aspect: Aspect)
    requires Live(s, setup, aspect)
    ensures BadSave(s, e, setup, aspect) ==> !Right(Step(s, e, setup).disk, setup, aspect)
    ensures !BadSave(s, e, setup, aspect) ==> Live(Step(s, e, setup), setup, aspect)
  {
    match e
    case Advance => AdvanceKeepsLive(s, setup, aspect);
    case Stop => StopKeepsLive(s, setup, aspect);
    case Kill =>
  }

  lemma {:induction false} AdvanceKeepsLive(s: State, setup: Setup, aspect: Aspect)
    requires Live(s, setup, aspect)
    ensures Live(Next(s), setup, aspect)
  {
    assert UpTo(Trained(s) + 1) == UpTo(Trained(s)) + [Trained(s)];
  }

  lemma {:induction false} StopKeepsLive(s: State, setup: Setup, aspect: Aspect)
    requires Live(s, setup, aspect)
    ensures BadSave(s, Stop, setup, aspect) ==> !Right(Stopped(s, setup).disk, setup, aspect)
    ensures !BadSave(s, Stop, setup, aspect) ==> Live(Stopped(s, setup), setup, aspect)
  {
    if setup.callback && aspect == Samples {
      var c := Stopped(s, setup).disk;
      assert c.weights == UpTo(Trained(s));
      assert |UpTo(Trained(s))| == Trained(s) && |UpTo(ResumesAt(c, setup.stateful))| == ResumesAt(c, setup.stateful);
    }
  }

  /** No save of the chain happens in a bad phase. */
  ghost predicate NoBadSave(events: seq<Event>, setup: Setup, aspect: Aspect) {
    forall i :: 0 <= i < |events| ==> !BadSave(Run(events[..i], setup), events[i], setup, aspect)
  }

  lemma {:induction false} NoBadSaveBefore(events: seq<Event>, setup: Setup, aspect: Aspect, n: nat)
    requires n <= |events| && forall i :: 0 <= i < n ==> !BadSave(Run(events[..i], setup), events[i], setup, aspect)
    ensures NoBadSave(events[..n], setup, aspect)
  {
    assert forall i :: 0 <= i <= n ==> events[..n][..i] == events[..i];
  }

  lemma {:induction false} RunIsLive(events: seq<Event>, setup: Setup, aspect: Aspect)
    requires NoBadSave(events, setup, aspect)
    ensures Live(Run(events, setup), setup, aspect)
  {
    if events != [] {
      var n := |events| - 1;
      NoBadSaveBefore(events, setup, aspect, n);
      RunIsLive(events[..n], setup, aspect);
      StepKeepsLive(Run(events[..n], setup), events[n], setup, aspect);
    }
  }

  lemma {:induction false} FirstBadSave(events: seq<Event>, setup: Setup, aspect: Aspect, n: nat) returns (i: nat)
    requires n <= |events|
    requires exists j :: 0 <= j < n && BadSave(Run(events[..j], setup), events[j], setup, aspect)
    ensures i < n && BadSave(Run(events[..i], setup), events[i], setup, aspect)
    ensures forall j :: 0 <= j < i ==> !BadSave(Run(events[..j], setup), events[j], setup, aspect)
  {
    if exists j :: 0 <= j < n - 1 && BadSave(Run(events[..j], setup), events[j], setup, aspect) {
      i := FirstBadSave(events, setup, aspect, n - 1);
    } else {
      i := n - 1;
    }
  }

  lemma {:induction false} RunNext(events: seq<Event>, k: nat, setup: Setup)
    requires k < |events|
    ensures Run(events[..k + 1], setup) == Step(Run(events[..k], setup), events[k], setup)
  {
    assert events[..k + 1][..k] == events[..k];
  }

  /** The checkpoint right after the first bad save is wrong. */
  lemma {:induction false} BadSaveShows(events: seq<Event>, setup: Setup, aspect: Aspect) returns (n: nat)
    requires !NoBadSave(events, setup, aspect)
    ensures n <= |events| && !Right(Run(events[..n], setup).disk, setup, aspect)
  {
    var i := FirstBadSave(events, setup, aspect, |events|);
    NoBadSaveBefore(events, setup, aspect, i);
    RunIsLive(events[..i], setup, aspect);
    StepKeepsLive(Run(events[..i], setup), events[i], setup, aspect);
    RunNext(events, i, setup);
    n := i + 1;
  }

  /** Every checkpoint ever on disk is right, precisely when no save falls into a bad phase. */
  lemma {:induction false} RightIff(events: seq<Event>, setup: Setup, aspect: Aspect)
    ensures (forall n :: 0 <= n <= |events| ==> Right(Run(events[..n], setup).disk, setup, aspect))
       <==> NoBadSave(events, setup, aspect)
  {
    if NoBadSave(events, setup, aspect) {
      forall n | 0 <= n <= |events| ensures Right(Run(events[..n], setup).disk, setup, aspect) {
        NoBadSaveBefore(events, setup, aspect, n);
        RunIsLive(events[..n], setup, aspect);
      }
    } else {
      var n := BadSaveShows(events, setup, aspect);
    }
  }

  /** Some save of the chain happens in one of the phases. */
  ghost predicate SavesIn(events: seq<Event>, setup: Setup, phases: set<Phase>) {
    setup.callback && exists i :: 0 <= i < |events| && events[i] == Stop && Run(events[..i], setup).phase in phases
  }

  /**
   * Over any chain of runs, stopped or killed anywhere: completed equals the number of optimizer steps in
   * every checkpoint, precisely when no save falls between the counting of a batch and its step (with the
   * flush), or between the step and the end of the batch (without).
   */
  lemma {:induction false} CountersAgreeIff(events: seq<Event>, setup: Setup)
    ensures (forall n :: 0 <= n <= |events| ==>
               Run(events[..n], setup).disk.completed == Run(events[..n], setup).disk.globalStep)
       <==> !SavesIn(events, setup, if setup.flush then {Counted, Pulled} else {Stepped})
  {
    RightIff(events, setup, Counters);
  }

  /**
   * Over any chain of runs, stopped or killed anywhere: every checkpoint was trained on each sample before
   * the one it resumes at exactly once and in order, precisely when no save falls in the phases named. A
   * loader with a saved cursor only minds a save with a sample in hand, and does not need the flush.
   */
  lemma {:induction false} ExactlyOnceIff(events: seq<Event>, setup: Setup)
    ensures (forall n :: 0 <= n <= |events| ==>
               var c := Run(events[..n], setup).disk;
               c.weights == UpTo(ResumesAt(c, setup.stateful)))
       <==> !SavesIn(events, setup,
                     if setup.stateful then {Pulled} else if setup.flush then {Counted, Pulled} else {Stepped})
  {
    RightIff(events, setup, Samples);
  }

  // ----- What a run does when nobody interrupts it, and what a kill undoes -----

  function Advances(n: nat): seq<Event> { seq(n, _ => Advance) }

  /** k samples from the given one on. */
  function SamplesFrom(first: nat, k: nat): seq<nat> { seq(k, i => first + i) }

  lemma {:induction false} RunSnoc(events: seq<Event>, e: Event, setup: Setup)
    ensures Run(events + [e], setup) == Step(Run(events, setup), e, setup)
  {
    assert (events + [e])[..|events|] == events;
  }

  /** The state after k more batches, each counted, stepped and trained on the next sample. */
  function Ahead(s: State, k: nat): State {
    State(Between, s.ready + k, s.completed + k, s.globalStep + k, s.cursor + k,
          s.weights + SamplesFrom(s.cursor, k), s.disk)
  }

  lemma {:induction false} AheadNext(s: State, k: nat)
    ensures Ahead(Ahead(s, k), 1) == Ahead(s, k + 1)
  {
    assert SamplesFrom(s.cursor, k) + SamplesFrom(s.cursor + k, 1) == SamplesFrom(s.cursor, k + 1);
  }

  /** Four steps of the loop train one batch, on the next sample. */
  lemma {:induction false} BatchTrained(s: State)
    requires s.phase == Between
    ensures Next(Next(Next(Next(s)))) == Ahead(s, 1)
  {
    assert SamplesFrom(s.cursor, 1) == [s.cursor];
  }

  lemma {:induction false} FourAdvances(events: seq<Event>, setup: Setup)
    ensures Run(events + [Advance] + [Advance] + [Advance] + [Advance], setup)
      == Next(Next(Next(Next(Run(events, setup)))))
  {
    AdvanceSnoc(events, setup);
    AdvanceSnoc(events + [Advance], setup);
    AdvanceSnoc(events + [Advance] + [Advance], setup);
    AdvanceSnoc(events + [Advance] + [Advance] + [Advance], setup);
  }

  lemma {:induction false} AdvanceSnoc(events: seq<Event>, setup: Setup)
    ensures Run(events + [Advance], setup) == Next(Run(events, setup))
  {
    RunSnoc(events, Advance, setup);
  }

  lemma {:induction false} FourMore(events: seq<Event>, n: nat)
    ensures events + Advances(n + 4) == events + Advances(n) + [Advance] + [Advance] + [Advance] + [Advance]
  {
  }

  lemma {:induction false} NoneMore(events: seq<Event>, s: State)
    requires s.phase == Between
    ensures events + Advances(0) == events && Ahead(s, 0) == s
  {
    assert s.weights + SamplesFrom(s.cursor, 0) == s.weights;
  }

  /** From any point between batches, an uninterrupted run trains the next k samples, one batch each. */
  lemma {:induction false} UninterruptedTrains(events: seq<Event>, k: nat, setup: Setup)
    requires Run(events, setup).phase == Between
    ensures Run(events + Advances(4 * k), setup) == Ahead(Run(events, setup), k)
  {
    if k == 0 {
      NoneMore(events, Run(events, setup));
    } else {
      UninterruptedTrains(events, k - 1, setup);
      FourMore(events, 4 * (k - 1));
      FourAdvances(events + Advances(4 * (k - 1)), setup);
      BatchTrained(Ahead(Run(events, setup), k - 1));
      AheadNext(Run(events, setup), k - 1);
    }
  }

  lemma {:induction false} AdvancesKeepDisk(events: seq<Event>, m: nat, setup: Setup)
    requires m <= |events| && forall i :: m <= i < |events| ==> events[i] == Advance
    ensures Run(events, setup).disk == Run(events[..m], setup).disk
  {
    if m < |events| {
      var n := |events| - 1;
      assert events[..n][..m] == events[..m];
      AdvancesKeepDisk(events[..n], m, setup);
    } else {
      assert events[..m] == events;
    }
  }

  /** A kill undoes everything since the run began: the next run begins in the very same state. */
  lemma {:induction false} KillUndoesTheRun(events: seq<Event>, m: nat, setup: Setup)
    requires m <= |events| && (m == 0 || events[m - 1] != Advance)
    requires forall i :: m <= i < |events| ==> events[i] == Advance
    ensures Run(events + [Kill], setup) == Run(events[..m], setup)
  {
    AdvancesKeepDisk(events, m, setup);
    RunSnoc(events, Kill, setup);
    if m > 0 { RunNext(events, m - 1, setup); }
  }

  /** Without a checkpoint callback a stop saves nothing, and so undoes as much as a kill. */
  lemma {:induction false} StopWithoutCallback(events: seq<Event>, setup: Setup)
    requires !setup.callback
    ensures Run(events + [Stop], setup) == Run(events + [Kill], setup)
  {
    RunSnoc(events, Stop, setup);
    RunSnoc(events, Kill, setup);
  }

  // ----- The chain of the timer -----

  /** Hooks that run after the optimizer step, or between batches. */
  ghost predicate HooksAfterStep(events: seq<Event>, setup: Setup) {
    forall i :: 0 <= i < |events| && events[i] == Stop ==> Run(events[..i], setup).phase !in {Counted, Pulled}
  }

  /** With the flush, each sample is applied exactly once and in order, through every interruption. */
  lemma {:induction false} ResumedTrainingIsUninterrupted(events: seq<Event>, setup: Setup)
    requires setup.flush && HooksAfterStep(events, setup)
    ensures var s := Run(events, setup);
      && s.weights == UpTo(s.globalStep)
      && s.ready - s.completed in {0, 1}
      && s.disk.ready == s.disk.completed == s.disk.globalStep == s.disk.cursor
      && s.disk.weights == UpTo(s.disk.globalStep)
  {
    RunIsLive(events, setup, Counters);
    RunIsLive(events, setup, Samples);
    SavedTogether(events, setup);
  }

  /** Saved counters and saved cursor agree, and the live cursor is one ahead of completed at most. */
  ghost predicate Together(s: State) {
    && OneInFlight(s)
    && s.disk.ready == s.disk.completed == s.disk.cursor
    && s.cursor == s.completed + (if s.phase in {Pulled, Stepped} then 1 else 0)
  }

  lemma {:induction false} SavedTogether(events: seq<Event>, setup: Setup)
    requires setup.flush && HooksAfterStep(events, setup)
    ensures Together(Run(events, setup))
  {
    if events != [] {
      var n := |events| - 1;
      assert forall i :: 0 <= i <= n ==> events[..n][..i] == events[..i];
      SavedTogether(events[..n], setup);
      StepTogether(Run(events[..n], setup), events[n], setup);
    }
  }

  lemma {:induction false} StepTogether(s: State, e: Event, setup: Setup)
    requires setup.flush && Together(s) && (e == Stop ==> s.phase !in {Counted, Pulled})
    ensures Together(Step(s, e, setup))
  {
  }

  // ----- What a stop costs in each phase -----

  /** How many stops fell into the phase. */
  function StopsIn(events: seq<Event>, setup: Setup, phase: Phase): nat {
    if events == [] then 0
    else
      var n := |events| - 1;
      StopsIn(events[..n], setup, phase)
      + if events[n] == Stop && Run(events[..n], setup).phase == phase then 1 else 0
  }

  /**
   * A guard that stops the run before its sample is pulled, once the batch is counted: with a loader that
   * saves its cursor no sample is lost, but each such stop counts one batch more than was trained on.
   */
  lemma {:induction false} GuardStopsDrift(events: seq<Event>, setup: Setup)
    requires setup == Setup(true, true, true) && Kill !in events
    requires forall i :: 0 <= i < |events| && events[i] == Stop ==> Run(events[..i], setup).phase != Pulled
    ensures var s := Run(events, setup);
      && OneInFlight(s) && s.weights == UpTo(Trained(s))
      && s.completed + (if s.phase == Stepped then 1 else 0) == s.globalStep + StopsIn(events, setup, Counted)
  {
    RunIsLive(events, setup, Samples);
    GuardCounters(events, setup);
  }

  lemma {:induction false} GuardCounters(events: seq<Event>, setup: Setup)
    requires setup == Setup(true, true, true) && Kill !in events
    requires forall i :: 0 <= i < |events| && events[i] == Stop ==> Run(events[..i], setup).phase != Pulled
    ensures var s := Run(events, setup);
      && OneInFlight(s)
      && s.completed + (if s.phase == Stepped then 1 else 0) == s.globalStep + StopsIn(events, setup, Counted)
  {
    if events != [] {
      var n := |events| - 1;
      assert forall i :: 0 <= i <= n ==> events[..n][..i] == events[..i];
      GuardCounters(events[..n], setup);
    }
  }

  /** Without the flush, every stop in the end hooks leaves one optimizer step uncounted. */
  lemma {:induction false} WithoutFlushStepsDrift(events: seq<Event>, setup: Setup)
    requires !setup.flush && setup.callback && Kill !in events
    ensures var s := Run(events, setup);
      && OneInFlight(s)
      && s.globalStep == s.completed + StopsIn(events, setup, Stepped) + (if s.phase == Stepped then 1 else 0)
  {
    if events != [] {
      var n := |events| - 1;
      WithoutFlushStepsDrift(events[..n], setup);
    }
  }

  /** The first sample that the run after a stop trains on. */
  function AfterStop(s: State, setup: Setup): nat {
    InHand(Next(Next(Stopped(s, setup))))
  }

  /**
   * The next sample after any stop of any chain without bad saves so far, when the batch counter places
   * the loader: without the flush a stop in the end hooks replays the last sample; with it, a stop before
   * the step skips one; every other stop goes on with the next sample.
   */
  lemma {:induction false} CounterReplaysOrSkips(events: seq<Event>, setup: Setup)
    requires setup.callback && !setup.stateful && NoBadSave(events, setup, Samples)
    ensures var s := Run(events, setup);
      AfterStop(s, setup) ==
        if !setup.flush && s.phase == Stepped then |s.weights| - 1
        else if setup.flush && s.phase in {Counted, Pulled} then |s.weights| + 1
        else |s.weights|
  {
    RunIsLive(events, setup, Samples);
  }

  /** A loader that resumes at its own cursor only ever loses a sample in hand, with or without the flush. */
  lemma {:induction false} CursorSkipsInHand(events: seq<Event>, setup: Setup)
    requires setup.callback && setup.stateful && NoBadSave(events, setup, Samples)
    ensures var s := Run(events, setup);
      AfterStop(s, setup) == if s.phase == Pulled then |s.weights| + 1 else |s.weights|
  {
    RunIsLive(events, setup, Samples);
  }

  /** One interruption after the first step, seen step by step: replayed without the flush, not with it. */
  lemma {:induction false} WithoutFlushReplays(e: seq<Event>, setup: Setup)
    requires e == [Advance, Advance, Advance] && setup.callback && !setup.stateful
    ensures Run(e, setup).phase == Stepped && Run(e, setup).weights == [0]
    ensures AfterStop(Run(e, setup), setup) == if setup.flush then 1 else 0
  {
    RunNext(e, 0, setup);
    RunNext(e, 1, setup);
    RunNext(e, 2, setup);
    assert e[..3] == e;
  }
}
