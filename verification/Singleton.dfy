// The double-checked locking of the Singleton metaclass (nemo/utils/metaclasses.py),
// for any number of threads and classes.

module Singleton {
  import opened Lists

  type Class = nat
  type Thread = nat
  type Object = nat

  /** Where a thread stands in __call__ for one class. */
  datatype Pc =
    | Idle
    | Checking(cls: Class)          // the first test, without the lock
    | Waiting(cls: Class)           // at the lock
    | Rechecking(cls: Class)        // the second test, holding the lock
    | Building(cls: Class)          // in the constructor, holding the lock
    | Storing(cls: Class, obj: Object)
    | Releasing(cls: Class)
    | Failing(cls: Class)           // the constructor raised; the lock is about to be released
    | Returning(cls: Class)

  datatype State = State(
    pc: map<Thread, Pc>,
    lock: Option<Thread>,
    instances: map<Class, Object>,
    heap: map<Object, Class>,                       // every object built so far
    returned: set<(Class, Object)>)                 // every result handed to a caller

  datatype Action =
    | Call(cls: Class)
    | Test
    | Acquire
    | Retest
    | Build(obj: Object)
    | Raise
    | Store
    | Release
    | Return

  function At(s: State, t: Thread): Pc { if t in s.pc then s.pc[t] else Idle }

  function Goto(s: State, t: Thread, pc: Pc): State { s.(pc := s.pc[t := pc]) }

  predicate Enabled(s: State, t: Thread, a: Action) {
    match a
    case Call(_) => At(s, t).Idle?
    case Test => At(s, t).Checking?
    case Acquire => At(s, t).Waiting? && s.lock == None
    case Retest => At(s, t).Rechecking?
    case Build(obj) => At(s, t).Building? && obj !in s.heap
    case Raise => At(s, t).Building?
    case Store => At(s, t).Storing?
    case Release => At(s, t).Releasing? || At(s, t).Failing?
    case Return => At(s, t).Returning?
  }

  /** One atomic step of one thread. The final read has no default: a missing key would raise. */
  function Step(s: State, t: Thread, a: Action): State
    requires Enabled(s, t, a)
  {
    match a
    case Call(cls) => Goto(s, t, Checking(cls))
    case Test =>
      var cls := At(s, t).cls;
      Goto(s, t, if cls in s.instances then Returning(cls) else Waiting(cls))
    case Acquire => Goto(s, t, Rechecking(At(s, t).cls)).(lock := Some(t))
    case Retest =>
      var cls := At(s, t).cls;
      Goto(s, t, if cls in s.instances then Releasing(cls) else Building(cls))
    case Build(obj) =>
      var cls := At(s, t).cls;
      Goto(s, t, Storing(cls, obj)).(heap := s.heap[obj := cls])
    case Raise => Goto(s, t, Failing(At(s, t).cls))
    case Store =>
      var Storing(cls, obj) := At(s, t);
      Goto(s, t, Releasing(cls)).(instances := s.instances[cls := obj])
    case Release =>
      var cls := At(s, t).cls;
      Goto(s, t, if At(s, t).Failing? then Idle else Returning(cls)).(lock := None)
    case Return =>
      var cls := At(s, t).cls;
      var result := if cls in s.instances then {(cls, s.instances[cls])} else {};
      Goto(s, t, Idle).(returned := s.returned + result)
  }

  const START := State(map[], None, map[], map[], {})

  datatype Schedule = Nil | Snoc(before: Schedule, thread: Thread, action: Action)

  /** The schedule is one the threads can follow from the start. */
  ghost predicate Possible(sched: Schedule)
    decreases sched, 0
  {
    match sched
    case Nil => true
    case Snoc(before, t, a) => Possible(before) && Enabled(Reach(before), t, a)
  }

  function Reach(sched: Schedule): State
    requires Possible(sched)
    decreases sched, 1
  {
    match sched
    case Nil => START
    case Snoc(before, t, a) => Step(Reach(before), t, a)
  }

  // ----- The inductive invariant -----

  predicate InCritical(pc: Pc) {
    pc.Rechecking? || pc.Building? || pc.Storing? || pc.Releasing? || pc.Failing?
  }

  /** The lock is held exactly by the thread in the critical section. */
  ghost predicate Exclusive(s: State) {
    forall t: Thread :: InCritical(At(s, t)) <==> s.lock == Some(t)
  }

  /** A builder builds for a class without an instance; whoever returns finds one. */
  ghost predicate Tested(s: State) {
    forall t: Thread :: var pc := At(s, t);
      && (pc.Building? || pc.Storing? || pc.Failing? ==> pc.cls !in s.instances)
      && (pc.Releasing? || pc.Returning? ==> pc.cls in s.instances)
      && (pc.Storing? ==> pc.obj in s.heap && s.heap[pc.obj] == pc.cls)
  }

  /** The object is the instance of its class, or about to become it. */
  ghost predicate Accounted(s: State, obj: Object) {
    obj in s.heap ==>
      || (s.heap[obj] in s.instances && s.instances[s.heap[obj]] == obj)
      || (s.lock.Some? && At(s, s.lock.value) == Storing(s.heap[obj], obj))
  }

  ghost predicate Inv(s: State) {
    && Exclusive(s)
    && Tested(s)
    && (forall obj: Object :: Accounted(s, obj))
    && (forall cls :: cls in s.instances ==> s.instances[cls] in s.heap && s.heap[s.instances[cls]] == cls)
    && (forall r :: r in s.returned ==> r.0 in s.instances && s.instances[r.0] == r.1)
  }

  lemma {:induction false} OthersStay(s: State, t: Thread, a: Action)
    requires Enabled(s, t, a)
    ensures forall u: Thread :: u != t ==> At(Step(s, t, a), u) == At(s, u)
  {
  }

  lemma {:induction false} StepKeepsExclusive(s: State, t: Thread, a: Action)
    requires Inv(s) && Enabled(s, t, a)
    ensures Exclusive(Step(s, t, a))
  {
    OthersStay(s, t, a);
    assert InCritical(At(s, t)) <==> s.lock == Some(t);
  }

  lemma {:induction false} StepKeepsTested(s: State, t: Thread, a: Action)
    requires Inv(s) && Enabled(s, t, a)
    ensures Tested(Step(s, t, a))
  {
    OthersStay(s, t, a);
  }

  lemma {:induction false} StepKeepsAccounted(s: State, t: Thread, a: Action, obj: Object)
    requires Inv(s) && Enabled(s, t, a)
    ensures Accounted(Step(s, t, a), obj)
  {
    OthersStay(s, t, a);
    assert Accounted(s, obj);
    assert InCritical(At(s, t)) <==> s.lock == Some(t);
  }

  lemma {:induction false} InstancesStay(s: State, t: Thread, a: Action)
    requires Inv(s) && Enabled(s, t, a)
    ensures forall cls :: cls in s.instances ==>
      cls in Step(s, t, a).instances && Step(s, t, a).instances[cls] == s.instances[cls]
  {
  }

  lemma {:induction false} StepKeepsInv(s: State, t: Thread, a: Action)
    requires Inv(s) && Enabled(s, t, a)
    ensures Inv(Step(s, t, a))
    ensures forall cls :: cls in s.instances ==>
      cls in Step(s, t, a).instances && Step(s, t, a).instances[cls] == s.instances[cls]
  {
    StepKeepsExclusive(s, t, a);
    StepKeepsTested(s, t, a);
    forall obj: Object ensures Accounted(Step(s, t, a), obj) { StepKeepsAccounted(s, t, a, obj); }
    InstancesStay(s, t, a);
  }

  lemma {:induction false} ReachIsInv(sched: Schedule)
    requires Possible(sched)
    ensures Inv(Reach(sched))
  {
    match sched
    case Nil =>
    case Snoc(before, t, a) =>
      ReachIsInv(before);
      StepKeepsInv(Reach(before), t, a);
  }

  // ----- Safety in every interleaving -----

  /** Each class is built at most once. */
  lemma {:induction false} BuiltAtMostOnce(sched: Schedule, x: Object, y: Object)
    requires Possible(sched) && x in Reach(sched).heap && y in Reach(sched).heap
    requires Reach(sched).heap[x] == Reach(sched).heap[y]
    ensures x == y
  {
    ReachIsInv(sched);
    assert Accounted(Reach(sched), x) && Accounted(Reach(sched), y);
  }

  /** All callers of a class get the same object, built for that class; the final read never fails. */
  lemma {:induction false} SameInstanceForAll(sched: Schedule)
    requires Possible(sched)
    ensures var s := Reach(sched);
      && (forall p, q :: p in s.returned && q in s.returned && p.0 == q.0 ==> p.1 == q.1)
      && (forall p :: p in s.returned ==> p.1 in s.heap && s.heap[p.1] == p.0)
      && (forall t: Thread :: At(s, t).Returning? ==> At(s, t).cls in s.instances)
  {
    ReachIsInv(sched);
  }

  /** Every call that returns hands out an object, built for its class. */
  lemma {:induction false} EveryReturnHandsOut(sched: Schedule, t: Thread)
    requires Possible(Snoc(sched, t, Return))
    ensures var s, cls := Reach(Snoc(sched, t, Return)), At(Reach(sched), t).cls;
      && At(s, t).Idle?
      && exists obj :: (cls, obj) in s.returned && obj in s.heap && s.heap[obj] == cls
  {
    ReachIsInv(sched);
    var s, cls := Reach(sched), At(Reach(sched), t).cls;
    assert cls in s.instances;
    assert (cls, s.instances[cls]) in Reach(Snoc(sched, t, Return)).returned;
  }

  /** Once a class has its instance, a call needs no lock: it returns whatever the other threads hold. */
  lemma {:induction false} NoLockOnceBuilt(sched: Schedule, t: Thread, cls: Class)
    requires Possible(sched) && At(Reach(sched), t).Idle? && cls in Reach(sched).instances
    ensures var called := Snoc(Snoc(Snoc(sched, t, Call(cls)), t, Test), t, Return);
      && Possible(called) && At(Reach(called), t).Idle? && Reach(called).lock == Reach(sched).lock
      && (cls, Reach(sched).instances[cls]) in Reach(called).returned
  {
    var a := Snoc(sched, t, Call(cls));
    var b := Snoc(a, t, Test);
    assert Possible(a) && At(Reach(a), t) == Checking(cls);
    assert Possible(b) && At(Reach(b), t) == Returning(cls);
  }

  lemma {:induction false} Extend(sched: Schedule, t: Thread, a: Action) returns (next: Schedule)
    requires Possible(sched) && Enabled(Reach(sched), t, a)
    ensures next == Snoc(sched, t, a) && Possible(next) && Reach(next) == Step(Reach(sched), t, a)
  {
    next := Snoc(sched, t, a);
  }

  /** A call for a class without instance can build one object, store it and hand it out. */
  lemma {:induction false} FirstCallBuilds(sched: Schedule, t: Thread, cls: Class, obj: Object)
    returns (called: Schedule)
    requires Possible(sched) && At(Reach(sched), t).Idle? && Reach(sched).lock == None
    requires cls !in Reach(sched).instances && obj !in Reach(sched).heap
    ensures Possible(called) && Continues(called, sched)
    ensures At(Reach(called), t).Idle? && Reach(called).lock == None
    ensures Reach(called).instances == Reach(sched).instances[cls := obj]
    ensures Reach(called).heap == Reach(sched).heap[obj := cls]
    ensures Reach(called).returned == Reach(sched).returned + {(cls, obj)}
  {
    var waiting := Extend(sched, t, Call(cls));
    waiting := Extend(waiting, t, Test);
    var building := Extend(waiting, t, Acquire);
    building := Extend(building, t, Retest);
    var stored := Extend(building, t, Build(obj));
    stored := Extend(stored, t, Store);
    called := Extend(stored, t, Release);
    called := Extend(called, t, Return);
    assert Continues(waiting, sched);
    assert Continues(building, sched);
    assert Continues(stored, sched);
  }

  /** A constructor that raises leaves the class as it was, and the lock free. */
  lemma {:induction false} RaiseLeavesNothing(sched: Schedule, t: Thread) returns (after: Schedule)
    requires Possible(sched) && At(Reach(sched), t).Building?
    ensures after == Snoc(Snoc(sched, t, Raise), t, Release) && Possible(after)
    ensures At(Reach(after), t).Idle? && Reach(after).lock == None
    ensures At(Reach(sched), t).cls !in Reach(after).instances
    ensures Reach(after).instances == Reach(sched).instances && Reach(after).heap == Reach(sched).heap
    ensures Reach(after).returned == Reach(sched).returned
  {
    ReachIsInv(sched);
    after := Extend(sched, t, Raise);
    after := Extend(after, t, Release);
  }

  ghost predicate Continues(later: Schedule, sched: Schedule) {
    later == sched || (later.Snoc? && Continues(later.before, sched))
  }

  /** An instance once set stays set, whatever happens later. */
  lemma {:induction false} InstanceNeverChanges(sched: Schedule, later: Schedule, cls: Class)
    requires Possible(later) && Continues(later, sched) && Possible(sched)
    requires cls in Reach(sched).instances
    ensures cls in Reach(later).instances && Reach(later).instances[cls] == Reach(sched).instances[cls]
  {
    if later != sched {
      PrefixPossible(later.before, sched);
      InstanceNeverChanges(sched, later.before, cls);
      ReachIsInv(later.before);
      StepKeepsInv(Reach(later.before), later.thread, later.action);
    }
  }

  lemma {:induction false} PrefixPossible(later: Schedule, sched: Schedule)
    requires Possible(later) && Continues(later, sched)
    ensures Possible(sched)
  {
    if later != sched { PrefixPossible(later.before, sched); }
  }

  // ----- Progress -----

  lemma {:induction false} FreshObject(used: set<Object>) returns (obj: Object)
    ensures forall x :: x in used ==> x < obj
  {
    if used == {} {
      obj := 0;
    } else {
      var x :| x in used;
      var rest := FreshObject(used - {x});
      obj := if x < rest then rest else x + 1;
      assert forall y :: y in used ==> y == x || y in used - {x};
    }
  }

  /** While any call is under way some thread can take a step, even if no constructor raises: no deadlock. */
  lemma {:induction false} NoDeadlock(sched: Schedule, t: Thread)
    requires Possible(sched) && !At(Reach(sched), t).Idle?
    ensures exists u, a :: Enabled(Reach(sched), u, a) && !a.Call? && !a.Raise?
  {
    var s := Reach(sched);
    ReachIsInv(sched);
    var u := if s.lock.Some? then s.lock.value else t;
    assert s.lock.Some? ==> InCritical(At(s, u));
    var obj := FreshObject(s.heap.Keys);
    var a := match At(s, u)
      case Checking(_) => Test
      case Waiting(_) => Acquire
      case Rechecking(_) => Retest
      case Building(_) => Build(obj)
      case Storing(_, _) => Store
      case Returning(_) => Return
      case _ => Release;
    assert Enabled(s, u, a);
  }

  function Left(pc: Pc): nat {
    match pc
    case Checking(_) => 7
    case Waiting(_) => 6
    case Rechecking(_) => 5
    case Building(_) => 4
    case Storing(_, _) => 3
    case Releasing(_) => 2
    case Failing(_) => 2
    case Returning(_) => 1
    case Idle => 0
  }

  /** The steps left to all the threads of ts. */
  ghost function Total(s: State, ts: set<Thread>): nat {
    if ts == {} then 0
    else
      var t :| t in ts;
      Left(At(s, t)) + Total(s, ts - {t})
  }

  lemma {:induction false} TotalOfOne(s: State, ts: set<Thread>, t: Thread)
    requires t in ts
    ensures Total(s, ts) == Left(At(s, t)) + Total(s, ts - {t})
  {
    var u :| u in ts && Total(s, ts) == Left(At(s, u)) + Total(s, ts - {u});
    if u != t {
      TotalOfOne(s, ts - {u}, t);
      TotalOfOne(s, ts - {t}, u);
      assert ts - {u} - {t} == ts - {t} - {u};
    }
  }

  lemma {:induction false} TotalUnchanged(s: State, s': State, ts: set<Thread>)
    requires forall t :: t in ts ==> At(s', t) == At(s, t)
    ensures Total(s', ts) == Total(s, ts)
  {
    if ts != {} {
      var t :| t in ts;
      TotalOfOne(s, ts, t);
      TotalOfOne(s', ts, t);
      TotalUnchanged(s, s', ts - {t});
    }
  }

  ghost function Remaining(s: State): nat { Total(s, s.pc.Keys) }

  /** Every step of a call brings its thread closer to the end and moves no other thread. */
  lemma {:induction false} StepsAreFinite(s: State, t: Thread, a: Action)
    requires Enabled(s, t, a) && !a.Call?
    ensures Remaining(Step(s, t, a)) < Remaining(s)
  {
    var s', ts := Step(s, t, a), s.pc.Keys;
    assert s'.pc.Keys == ts;
    TotalOfOne(s, ts, t);
    TotalOfOne(s', ts, t);
    TotalUnchanged(s, s', ts - {t});
  }

  function Length(sched: Schedule): nat { if sched.Nil? then 0 else 1 + Length(sched.before) }

  /** later continues sched without a new call. */
  ghost predicate Quiet(later: Schedule, sched: Schedule) {
    later == sched || (later.Snoc? && !later.action.Call? && Quiet(later.before, sched))
  }

  /**
   * Without new calls every run ends, within the steps that the calls under way have left; and it can
   * only end with every thread back from its call.
   */
  lemma {:induction false} CallsFinish(sched: Schedule, later: Schedule)
    requires Possible(sched) && Possible(later) && Quiet(later, sched)
    ensures Length(later) + Remaining(Reach(later)) <= Length(sched) + Remaining(Reach(sched))
    ensures (forall u, a :: Enabled(Reach(later), u, a) ==> a.Call?) ==> forall t: Thread :: At(Reach(later), t).Idle?
  {
    if later != sched {
      CallsFinish(sched, later.before);
      StepsAreFinite(Reach(later.before), later.thread, later.action);
    }
    if t: Thread :| !At(Reach(later), t).Idle? { NoDeadlock(later, t); }
  }
}
