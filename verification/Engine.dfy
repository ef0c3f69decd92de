/**
 The settings store and the sync engine as one interleaved protocol
 (settings_store.py:161-188, scheduler.py:43-163).

 An update runs under the store's lock in separate steps; the engine reads the
 generation without the lock, then takes a snapshot under it; a watcher compares
 generations; each module loop runs, waits and is woken; run-now requests may come
 between any two steps. A step is the code between two awaits.
 */
module Engine {
  import opened Prelude

  type Config = int
  type Module = string

  /** Where the holder of the store's lock is (settings_store.py:183-188). */
  datatype Lock = Free | Acquired(next: Config) | Assigned | Bumped

  /** Where `Engine.run` is (scheduler.py:126-160). */
  datatype Phase = Top | HalfRead | Built | Idle | Serving | Cancelled

  /** Where the loop of a module is (scheduler.py:43-68). */
  datatype LoopPc = Waiting | Running | Exited

  datatype State = State(
    config: Config, generation: nat, lock: Lock,
    phase: Phase, captured: nat, snapshot: Config,
    stop: bool, reload: bool,
    triggers: map<Module, bool>, loops: map<Module, LoopPc>)

  datatype Action =
    | Acquire(next: Config) | Assign | Bump | Release
    | Stop
    | ReadGeneration | TakeSnapshot | GoIdle | Serve(modules: set<Module>) | LeaveIdle | Cancel | DropTriggers
    | Watch
    | RunNow(name: Module)
    | Wake(name: Module, byTimeout: bool) | Finish(name: Module)

  /** Which of the two reads the engine makes first; the program reads the generation first. */
  datatype Order = GenerationFirst | ConfigFirst

  predicate HasSnapshot(s: State) {
    s.phase !in {Top, HalfRead}
  }

  // ---------------------------------------------------------------- steps

  predicate Enabled(s: State, a: Action, order: Order) {
    match a
    case Acquire(_) => s.lock == Free
    case Assign => s.lock.Acquired?
    case Bump => s.lock == Assigned
    case Release => s.lock == Bumped
    case Stop => true
    case ReadGeneration => if order == GenerationFirst then s.phase == Top && !s.stop else s.phase == HalfRead
    case TakeSnapshot =>
      s.lock == Free && if order == GenerationFirst then s.phase == HalfRead else s.phase == Top && !s.stop
    case GoIdle => s.phase == Built
    case Serve(_) => s.phase == Built
    case LeaveIdle => s.phase == Idle && (s.stop || s.reload)
    case Cancel => s.phase == Serving && (s.stop || s.reload)
    case DropTriggers => s.phase == Cancelled
    case Watch => HasSnapshot(s)
    case RunNow(_) => true
    case Wake(m, byTimeout) =>
      s.phase == Serving && m in s.loops && m in s.triggers && s.loops[m] == Waiting
      && (byTimeout || s.stop || s.reload || s.triggers[m])
    case Finish(m) => s.phase == Serving && m in s.loops && s.loops[m] == Running
  }

  /** A woken loop clears its event and starts a run, unless it has been told to end. */
  predicate Starts(s: State, a: Action, m: Module) {
    a.Wake? && a.name == m && !s.stop && !s.reload
  }

  function Apply(s: State, a: Action, order: Order): State
    requires Enabled(s, a, order)
  {
    match a
    case Acquire(next) => s.(lock := Acquired(next))
    case Assign => s.(config := s.lock.next, lock := Assigned)
    case Bump => s.(generation := s.generation + 1, lock := Bumped)
    case Release => s.(lock := Free)
    case Stop => s.(stop := true)
    case ReadGeneration =>
      s.(captured := s.generation, reload := false, phase := if order == GenerationFirst then HalfRead else Built)
    case TakeSnapshot =>
      s.(snapshot := s.config, reload := false, phase := if order == GenerationFirst then Built else HalfRead)
    case GoIdle => s.(phase := Idle)
    case Serve(ms) =>
      s.(phase := Serving, triggers := map m | m in ms :: false, loops := map m | m in ms :: Waiting)
    case LeaveIdle => s.(phase := Top)
    case Cancel => s.(phase := Cancelled, loops := map[])
    case DropTriggers => s.(phase := Top, triggers := map[])
    case Watch => if s.stop || s.generation != s.captured then s.(reload := true) else s
    case RunNow(m) => if m in s.triggers then s.(triggers := s.triggers[m := true]) else s
    case Wake(m, _) =>
      if !s.stop && !s.reload then s.(triggers := s.triggers[m := false], loops := s.loops[m := Running])
      else s.(loops := s.loops[m := Exited])
    case Finish(m) => s.(loops := s.loops[m := Waiting])
  }

  function Init(config: Config): State {
    State(config, 0, Free, Top, 0, config, false, false, map[], map[])
  }

  /** A run of the protocol: `b[k + 1]` follows `b[k]` by action `acts[k]`. */
  ghost predicate Behaviour(b: seq<State>, acts: seq<Action>, order: Order) {
    && |b| == |acts| + 1
    && b[0] == Init(b[0].config)
    && forall k | 0 <= k < |acts| :: Enabled(b[k], acts[k], order) && b[k + 1] == Apply(b[k], acts[k], order)
  }

  lemma StepAt(b: seq<State>, acts: seq<Action>, order: Order, k: nat)
    requires Behaviour(b, acts, order) && k < |acts|
    ensures |b| == |acts| + 1 && Enabled(b[k], acts[k], order) && b[k + 1] == Apply(b[k], acts[k], order)
  {
  }

  lemma BehaviourShape(b: seq<State>, acts: seq<Action>, order: Order)
    requires Behaviour(b, acts, order)
    ensures |b| == |acts| + 1 && b[0] == Init(b[0].config)
  {
  }

  // ---------------------------------------------------------------- the store

  /** The four steps of an update, with nothing in between. */
  function Updated(s: State, next: Config, order: Order): State
    requires s.lock == Free
  {
    Apply(Apply(Apply(Apply(s, Acquire(next), order), Assign, order), Bump, order), Release, order)
  }

  /** settings_store.py:84-188. Callers hold copies; what `persist` writes is in `file`. */
  class SettingsStore {
    var config: Config
    var generation: nat
    var lock: Lock
    var file: Config

    /** The store is as the protocol sees it. */
    predicate Agrees(s: State)
      reads this
    {
      s.config == config && s.generation == generation && s.lock == lock
    }

    constructor (config: Config)
      ensures file == config && Agrees(Init(config))
    {
      this.config, file, generation, lock := config, config, 0, Free;
    }

    method Get() returns (c: Config)
      requires lock == Free
      ensures c == config
    {
      c := config;
    }

    /** Writing the file may fail. */
    method Persist() returns (ok: bool)
      modifies `file
      ensures file == if ok then config else old(file)
    {
      ok := *;
      if ok {
        file := config;
      }
    }

    /**
     `replace` is the case of a constant change. A change that does not validate leaves
     everything alone; one that cannot be written is in force, but not announced. Success
     is the protocol's four steps from any state `s` of it in which the lock is free.
     */
    method UpdateField(change: Config -> Outcome<Config>, ghost s: State, ghost order: Order) returns (r: Outcome<bool>)
      requires lock == Free && Agrees(s)
      modifies this
      ensures lock == Free
      ensures change(old(config)).Raised? ==>
                r.Raised? && config == old(config) && generation == old(generation) && file == old(file)
      ensures change(old(config)).Ok? ==> config == change(old(config)).value
      ensures r.Ok? ==> change(old(config)).Ok? && file == config && Agrees(Updated(s, config, order))
      ensures r.Ok? ==> generation == old(generation) + 1
      ensures r.Raised? ==> generation == old(generation) && file == old(file)
    {
      var next := change(config);
      if next.Raised? {
        return Raised(next.refusal);
      }
      lock := Acquired(next.value);
      ghost var t := Apply(s, Acquire(next.value), order);
      assert Agrees(t);
      config, lock := next.value, Assigned;
      t := Apply(t, Assign, order);
      assert Agrees(t) && !Settled(t);
      var written := Persist();
      if !written {
        lock := Free;
        return Raised(false);
      }
      generation, lock := generation + 1, Bumped;
      t := Apply(t, Bump, order);
      assert Agrees(t) && Settled(t);
      lock := Free;
      r := Ok(true);
    }
  }

  /** An update changes the configuration and the generation, and nothing else. */
  lemma UpdateChanges(s: State, next: Config, order: Order)
    requires s.lock == Free
    ensures Updated(s, next, order) == s.(config := next, generation := s.generation + 1)
    ensures Inv(s) && order == GenerationFirst ==> Inv(Updated(s, next, order))
  {
    if Inv(s) && order == GenerationFirst {
      InvStep(s, Acquire(next));
    }
  }

  // ------------------------------------------------- snapshots and generations

  /** No update is between changing the configuration and announcing it. */
  predicate Settled(s: State) {
    s.lock != Assigned
  }

  predicate Inv(s: State) {
    && (s.phase != Top ==> s.captured <= s.generation)
    && (HasSnapshot(s) && Settled(s) && s.captured == s.generation ==> s.snapshot == s.config)
    && (HasSnapshot(s) && s.reload ==> s.stop || s.captured < s.generation)
  }

  lemma InvStep(s: State, a: Action)
    requires Inv(s) && Enabled(s, a, GenerationFirst)
    ensures Inv(Apply(s, a, GenerationFirst))
  {
  }

  lemma {:induction false} InvAlways(b: seq<State>, acts: seq<Action>, k: nat)
    requires Behaviour(b, acts, GenerationFirst) && k < |b|
    ensures Inv(b[k])
    decreases k
  {
    BehaviourShape(b, acts, GenerationFirst);
    hide Behaviour;
    if k > 0 {
      InvAlways(b, acts, k - 1);
      StepAt(b, acts, GenerationFirst, k - 1);
      InvStep(b[k - 1], acts[k - 1]);
    }
  }

  /**
   Whenever no update holds the lock and the store still has the generation the engine
   captured, the engine works with the store's configuration.
   */
  lemma SnapshotIsCurrent(b: seq<State>, acts: seq<Action>, k: nat)
    requires Behaviour(b, acts, GenerationFirst) && k < |b|
    requires HasSnapshot(b[k]) && b[k].lock == Free && b[k].generation == b[k].captured
    ensures b[k].snapshot == b[k].config
  {
    InvAlways(b, acts, k);
  }

  /** The engine is told to rebuild only for a reason: a stop, or a newer generation. */
  lemma ReloadHasReason(b: seq<State>, acts: seq<Action>, k: nat)
    requires Behaviour(b, acts, GenerationFirst) && k < |b|
    requires HasSnapshot(b[k]) && b[k].reload
    ensures b[k].stop || b[k].captured < b[k].generation
  {
    InvAlways(b, acts, k);
  }

  /** An engine that works with a superseded configuration is told so by the watcher's next look. */
  lemma StaleIsNoticed(b: seq<State>, acts: seq<Action>, k: nat)
    requires Behaviour(b, acts, GenerationFirst) && k < |acts| && acts[k] == Watch
    requires b[k].lock == Free && b[k].snapshot != b[k].config
    ensures b[k + 1].reload
  {
    InvAlways(b, acts, k);
  }

  /** Read the other way round, an update that fits between the two reads goes unnoticed. */
  lemma ConfigFirstGoesStale() returns (b: seq<State>, acts: seq<Action>)
    ensures Behaviour(b, acts, ConfigFirst)
    ensures var s := b[|b| - 1];
            HasSnapshot(s) && s.lock == Free && s.generation == s.captured && s.snapshot != s.config
  {
    acts := [TakeSnapshot, Acquire(1), Assign, Bump, Release, ReadGeneration];
    var s0 := Init(0);
    var s1 := Apply(s0, acts[0], ConfigFirst);
    var s2 := Apply(s1, acts[1], ConfigFirst);
    var s3 := Apply(s2, acts[2], ConfigFirst);
    var s4 := Apply(s3, acts[3], ConfigFirst);
    var s5 := Apply(s4, acts[4], ConfigFirst);
    var s6 := Apply(s5, acts[5], ConfigFirst);
    b := [s0, s1, s2, s3, s4, s5, s6];
  }

  /** What later states keep of a state in which no update was under way. */
  predicate Since(s: State, t: State) {
    && s.generation <= t.generation
    && (s.generation == t.generation && Settled(t) ==> t.config == s.config)
    && (t.lock == Bumped ==> s.generation < t.generation)
  }

  lemma SinceStep(s: State, t: State, a: Action, order: Order)
    requires Since(s, t) && Enabled(t, a, order)
    ensures Since(s, Apply(t, a, order))
  {
  }

  /** The generation never falls, and it stands still only with the configuration. */
  lemma GenerationNamesConfig(b: seq<State>, acts: seq<Action>, order: Order, i: nat, j: nat)
    requires Behaviour(b, acts, order) && i <= j < |b|
    requires b[i].lock == Free
    ensures b[i].generation <= b[j].generation
    ensures b[i].generation == b[j].generation && b[j].lock != Assigned ==> b[j].config == b[i].config
  {
    SinceAlways(b, acts, order, i, j);
  }

  lemma {:induction false} SinceAlways(b: seq<State>, acts: seq<Action>, order: Order, i: nat, j: nat)
    requires Behaviour(b, acts, order) && i <= j < |b|
    requires b[i].lock == Free
    ensures Since(b[i], b[j])
    decreases j
  {
    hide Behaviour, Apply, Enabled, Since;
    BehaviourShape(b, acts, order);
    if i < j {
      SinceAlways(b, acts, order, i, j - 1);
      StepAt(b, acts, order, j - 1);
      SinceStep(b[i], b[j - 1], acts[j - 1], order);
    } else {
      SinceSelf(b[i]);
    }
  }

  lemma SinceSelf(s: State)
    requires s.lock == Free
    ensures Since(s, s)
  {
  }

  /** Two finished updates never leave the same generation behind. */
  lemma GenerationsNeverRepeat(b: seq<State>, acts: seq<Action>, order: Order, i: nat, j: nat)
    requires Behaviour(b, acts, order) && i < j < |acts|
    requires acts[i] == Bump && acts[j] == Bump
    ensures b[i + 1].generation < b[j + 1].generation
  {
    GenerationRises(b, acts, order, i + 1, j);
  }

  lemma {:induction false} GenerationRises(b: seq<State>, acts: seq<Action>, order: Order, i: nat, j: nat)
    requires Behaviour(b, acts, order) && i <= j < |b|
    ensures b[i].generation <= b[j].generation
    decreases j
  {
    hide Behaviour, Apply, Enabled;
    BehaviourShape(b, acts, order);
    if i < j {
      GenerationRises(b, acts, order, i, j - 1);
      StepAt(b, acts, order, j - 1);
      StepRises(b[j - 1], acts[j - 1], order);
    }
  }

  lemma StepRises(s: State, a: Action, order: Order)
    requires Enabled(s, a, order)
    ensures s.generation <= Apply(s, a, order).generation
  {
  }

  // ------------------------------------------------------------ run-now events

  /** While modules are served, events and loops belong to the same modules. */
  predicate LoopsMatch(s: State) {
    && (s.phase == Serving ==> s.loops.Keys == s.triggers.Keys)
    && (s.triggers != map[] ==> s.phase in {Serving, Cancelled})
    && (s.phase == Cancelled ==> s.stop || s.reload)
    && (forall m | m in s.loops && s.loops[m] == Exited :: s.stop || s.reload)
    && (s.loops != map[] ==> s.phase == Serving)
  }

  lemma {:induction false} LoopsMatchAlways(b: seq<State>, acts: seq<Action>, k: nat)
    requires Behaviour(b, acts, GenerationFirst) && k < |b|
    ensures LoopsMatch(b[k])
    decreases k
  {
    BehaviourShape(b, acts, GenerationFirst);
    hide Behaviour;
    if k > 0 {
      LoopsMatchAlways(b, acts, k - 1);
      StepAt(b, acts, GenerationFirst, k - 1);
      LoopsMatchStep(b[k - 1], acts[k - 1]);
    }
  }

  lemma LoopsMatchStep(s: State, a: Action)
    requires LoopsMatch(s) && Enabled(s, a, GenerationFirst)
    ensures LoopsMatch(Apply(s, a, GenerationFirst))
  {
  }

  /** Neither a stop nor a reload up to and including state `j`. */
  ghost predicate Undisturbed(b: seq<State>, i: nat, j: nat)
    requires j < |b|
  {
    forall k | i <= k <= j :: !b[k].stop && !b[k].reload
  }

  ghost predicate NoStart(b: seq<State>, acts: seq<Action>, m: Module, i: nat, j: nat)
    requires |b| == |acts| + 1 && j <= |acts|
  {
    forall k | i <= k < j :: !Starts(b[k], acts[k], m)
  }

  /** An accepted request that no run has followed yet still has its event set. */
  lemma RequestKept(b: seq<State>, acts: seq<Action>, m: Module, i: nat, j: nat)
    requires Behaviour(b, acts, GenerationFirst) && i < j <= |acts|
    requires acts[i] == RunNow(m) && m in b[i].triggers
    requires Undisturbed(b, i, j) && NoStart(b, acts, m, i + 1, j)
    ensures b[j].phase == Serving && m in b[j].loops && m in b[j].triggers && b[j].triggers[m]
  {
    PendingAlways(b, acts, m, i, j);
  }

  lemma {:induction false} PendingAlways(b: seq<State>, acts: seq<Action>, m: Module, i: nat, j: nat)
    requires Behaviour(b, acts, GenerationFirst) && i < j <= |acts|
    requires acts[i] == RunNow(m) && m in b[i].triggers
    requires Undisturbed(b, i, j) && NoStart(b, acts, m, i + 1, j)
    ensures Pending(b[j], m)
    decreases j
  {
    hide Behaviour, Apply, Enabled, LoopsMatch, Pending, Starts;
    BehaviourShape(b, acts, GenerationFirst);
    LoopsMatchAlways(b, acts, j - 1);
    StepAt(b, acts, GenerationFirst, j - 1);
    if j == i + 1 {
      RequestSets(b[i], m);
    } else {
      PendingAlways(b, acts, m, i, j - 1);
      PendingStep(b[j - 1], acts[j - 1], m);
    }
  }

  /** The event of the module is set, and its loop is there to notice. */
  predicate Pending(s: State, m: Module) {
    s.phase == Serving && m in s.loops && m in s.triggers && s.triggers[m]
  }

  lemma RequestSets(s: State, m: Module)
    requires LoopsMatch(s) && m in s.triggers && Enabled(s, RunNow(m), GenerationFirst) && !s.stop && !s.reload
    ensures Pending(Apply(s, RunNow(m), GenerationFirst), m)
  {
  }

  lemma PendingStep(s: State, a: Action, m: Module)
    requires LoopsMatch(s) && Enabled(s, a, GenerationFirst) && Pending(s, m) && !Starts(s, a, m)
    requires !s.stop && !s.reload
    ensures Pending(Apply(s, a, GenerationFirst), m)
  {
  }

  /** A waiting loop with a kept request does not need its timeout to go on. */
  lemma KeptRequestWakes(b: seq<State>, acts: seq<Action>, m: Module, i: nat, j: nat)
    requires Behaviour(b, acts, GenerationFirst) && i < j <= |acts|
    requires acts[i] == RunNow(m) && m in b[i].triggers
    requires Undisturbed(b, i, j) && NoStart(b, acts, m, i + 1, j)
    ensures m in b[j].loops && b[j].loops[m] != Exited
    ensures b[j].loops[m] == Waiting ==> Enabled(b[j], Wake(m, false), GenerationFirst)
  {
    RequestKept(b, acts, m, i, j);
    LoopsMatchAlways(b, acts, j);
  }

  /** The steps the loop of `m` itself takes from `i` to `j`. */
  function LoopSteps(acts: seq<Action>, m: Module, i: nat, j: nat): nat
    requires i <= j <= |acts|
    decreases j
  {
    if i == j then 0
    else
      var mine := acts[j - 1] == Finish(m) || (acts[j - 1].Wake? && acts[j - 1].name == m);
      LoopSteps(acts, m, i, j - 1) + if mine then 1 else 0
  }

  /** Without a start, the loop can take one step at most: it finishes the run it was in. */
  lemma {:induction false} OneStepWithoutStart(b: seq<State>, acts: seq<Action>, m: Module, i: nat, j: nat)
    requires Behaviour(b, acts, GenerationFirst) && i < j <= |acts|
    requires acts[i] == RunNow(m) && m in b[i].triggers
    requires Undisturbed(b, i, j) && NoStart(b, acts, m, i + 1, j)
    ensures m in b[j].loops
    ensures LoopSteps(acts, m, i + 1, j) <= (if b[j].loops[m] == Running then 0 else 1)
    decreases j
  {
    hide Behaviour;
    BehaviourShape(b, acts, GenerationFirst);
    KeptRequestWakes(b, acts, m, i, j);
    if j > i + 1 {
      OneStepWithoutStart(b, acts, m, i, j - 1);
      KeptRequestWakes(b, acts, m, i, j - 1);
      StepAt(b, acts, GenerationFirst, j - 1);
      assert !Starts(b[j - 1], acts[j - 1], m);
    }
  }

  /** A run of the module begins: its loop was waiting, and its event is cleared before it runs. */
  ghost predicate RunBegins(s: State, t: State, m: Module) {
    && m in s.loops && s.loops[m] == Waiting
    && m in t.loops && t.loops[m] == Running && m in t.triggers && !t.triggers[m]
  }

  lemma StartsIs(s: State, a: Action, m: Module)
    requires Enabled(s, a, GenerationFirst)
    ensures Starts(s, a, m) <==> RunBegins(s, Apply(s, a, GenerationFirst), m)
  {
  }

  /** A step of the loop of `m` itself: it wakes, or finishes a run. */
  ghost predicate OwnStep(a: Action, m: Module) {
    a == Finish(m) || a == Wake(m, true) || a == Wake(m, false)
  }

  lemma {:induction false} TwoSteps(acts: seq<Action>, m: Module, i: nat, j: nat, p: nat, q: nat)
    requires i <= p < q < j <= |acts| && OwnStep(acts[p], m) && OwnStep(acts[q], m)
    ensures LoopSteps(acts, m, i, j) >= 2
    decreases j
  {
    if q < j - 1 {
      TwoSteps(acts, m, i, j - 1, p, q);
    } else {
      OneStep(acts, m, i, j - 1, p);
    }
  }

  lemma {:induction false} OneStep(acts: seq<Action>, m: Module, i: nat, j: nat, p: nat)
    requires i <= p < j <= |acts| && OwnStep(acts[p], m)
    ensures LoopSteps(acts, m, i, j) >= 1
    decreases j
  {
    if p < j - 1 {
      OneStep(acts, m, i, j - 1, p);
    }
  }

  /**
   No request is lost: once the loop of the module has taken two more steps, a run has
   begun since the request, unless a stop or a reload came first. In particular a
   request made during a run yields another run.
   */
  lemma RequestServed(b: seq<State>, acts: seq<Action>, m: Module, i: nat, p: nat, q: nat)
    requires Behaviour(b, acts, GenerationFirst) && i < p < q < |acts|
    requires acts[i] == RunNow(m) && m in b[i].triggers
    requires OwnStep(acts[p], m) && OwnStep(acts[q], m)
    requires forall k | i <= k <= q + 1 :: !b[k].stop && !b[k].reload
    ensures exists k | i < k <= q :: RunBegins(b[k], b[k + 1], m)
  {
    hide Behaviour, Apply, Enabled, Starts, RunBegins;
    BehaviourShape(b, acts, GenerationFirst);
    TwoSteps(acts, m, i + 1, q + 1, p, q);
    if NoStart(b, acts, m, i + 1, q + 1) {
      OneStepWithoutStart(b, acts, m, i, q + 1);
    }
    var k :| i + 1 <= k < q + 1 && Starts(b[k], acts[k], m);
    StepAt(b, acts, GenerationFirst, k);
    StartsIs(b[k], acts[k], m);
  }
}
