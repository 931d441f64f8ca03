/**
 The memory accountant, shared by threads: `allocate` loads the counter and compares, adds to
 it, takes a handle, and creates and inserts the tensor; `free` removes the tensor and, still
 under the lock, subtracts its size.  Each of these is a step of its own, and the steps of
 different threads interleave in every possible way.
 */
module MemoryAccounting {
  import opened Common
  import opened Tensors

  type Handle = nat

  /** A tensor, by its shape and the size of its elements in bytes. */
  datatype Tensor = Tensor(shape: seq<nat>, elementSize: nat)
  {
    function Bytes(): nat { Product(shape) * elementSize }
  }

  function Product(shape: seq<nat>): nat {
    if shape == [] then 1 else Product(shape[..|shape| - 1]) * shape[|shape| - 1]
  }

  /** Where a thread is in `allocate` or `free`. */
  datatype Phase =
    | Idle
    | Checked(tensor: Tensor)                     // the compare has passed
    | Added(tensor: Tensor)                       // the counter includes it
    | Numbered(tensor: Tensor, handle: Handle)    // it has a handle
    | Removing(tensor: Tensor)                    // removed, not yet subtracted
  {
    /** Bytes that the counter includes on behalf of the thread. */
    function Reserved(): nat {
      if Added? || Numbered? || Removing? then tensor.Bytes() else 0
    }

    /** Bytes that the thread is about to add. */
    function Announced(): nat {
      if Checked? then tensor.Bytes() else 0
    }
  }

  datatype Memory = Memory(
    counter: int,
    nextHandle: Handle,
    tensors: map<Handle, Tensor>,
    phases: seq<Phase>,
    lock: Option<nat>,
    leaked: nat,                // bytes reserved for tensors whose creation failed
    returned: seq<Handle>)      // the handles that `allocate` has returned

  datatype Step =
    | Load(thread: nat, tensor: Tensor)
    | Add(thread: nat)
    | TakeHandle(thread: nat)
    | Insert(thread: nat)
    | CreateFails(thread: nat)
    | Remove(thread: nat, handle: Handle)
    | Subtract(thread: nat)

  function Start(threads: nat): Memory {
    Memory(0, 1, map[], seq(threads, _ => Idle), None, 0, [])
  }

  predicate Enabled(m: Memory, step: Step) {
    && step.thread < |m.phases|
    && var phase := m.phases[step.thread];
       match step
       case Load(_, _) => phase.Idle?
       case Add(_) => phase.Checked?
       case TakeHandle(_) => phase.Added?
       case Insert(_) => phase.Numbered? && m.lock.None?
       case CreateFails(_) => phase.Numbered?
       case Remove(_, _) => phase.Idle? && m.lock.None?
       case Subtract(_) => phase.Removing?
  }

  function Goes(m: Memory, thread: nat, phase: Phase): Memory
    requires thread < |m.phases|
  {
    m.(phases := m.phases[thread := phase])
  }

  function Apply(m: Memory, max: nat, step: Step): Memory
    requires Enabled(m, step)
  {
    var phase := m.phases[step.thread];
    match step
    case Load(t, tensor) => if m.counter + tensor.Bytes() > max then m else Goes(m, t, Checked(tensor))
    case Add(t) => Goes(m, t, Added(phase.tensor)).(counter := m.counter + phase.tensor.Bytes())
    case TakeHandle(t) => Goes(m, t, Numbered(phase.tensor, m.nextHandle)).(nextHandle := m.nextHandle + 1)
    case Insert(t) =>
      Goes(m, t, Idle).(tensors := m.tensors[phase.handle := phase.tensor], returned := m.returned + [phase.handle])
    case CreateFails(t) => Goes(m, t, Idle).(leaked := m.leaked + phase.tensor.Bytes())
    case Remove(t, handle) =>
      if handle in m.tensors
      then Goes(m, t, Removing(m.tensors[handle])).(tensors := m.tensors - {handle}, lock := Some(t))
      else m
    case Subtract(t) => Goes(m, t, Idle).(counter := m.counter - phase.tensor.Bytes(), lock := None)
  }

  // ---------------------------------------------------------------- sums

  function Reserved(phases: seq<Phase>): nat {
    if phases == [] then 0 else Reserved(phases[..|phases| - 1]) + phases[|phases| - 1].Reserved()
  }

  function Announced(phases: seq<Phase>): nat {
    if phases == [] then 0 else Announced(phases[..|phases| - 1]) + phases[|phases| - 1].Announced()
  }

  /** The bytes of the tensors with handles below `n`. */
  function Live(tensors: map<Handle, Tensor>, n: Handle): nat {
    if n == 0 then 0 else Live(tensors, n - 1) + if n - 1 in tensors then tensors[n - 1].Bytes() else 0
  }

  lemma {:induction false} PhaseChanges(phases: seq<Phase>, t: nat, phase: Phase)
    requires t < |phases|
    ensures Reserved(phases[t := phase]) + phases[t].Reserved() == Reserved(phases) + phase.Reserved()
    ensures Announced(phases[t := phase]) + phases[t].Announced() == Announced(phases) + phase.Announced()
  {
    var n := |phases| - 1;
    var changed := phases[t := phase];
    if t < n {
      PhaseChanges(phases[..n], t, phase);
      assert changed[..n] == phases[..n][t := phase];
    } else {
      assert changed[..n] == phases[..n];
    }
  }

  lemma {:induction false} LiveChanges(tensors: map<Handle, Tensor>, n: Handle, h: Handle, tensor: Tensor)
    requires h !in tensors
    ensures Live(tensors[h := tensor], n) == Live(tensors, n) + if h < n then tensor.Bytes() else 0
  {
    if n > 0 {
      LiveChanges(tensors, n - 1, h, tensor);
    }
  }

  lemma LiveDrops(tensors: map<Handle, Tensor>, n: Handle, h: Handle)
    requires h in tensors && h < n
    ensures Live(tensors, n) == Live(tensors - {h}, n) + tensors[h].Bytes()
  {
    LiveChanges(tensors - {h}, n, h, tensors[h]);
    assert (tensors - {h})[h := tensors[h]] == tensors;
  }

  // ---------------------------------------------------------------- the invariant

  /** The counter is the bytes of the live tensors, of those between their reservation and their
      insertion or between their removal and its accounting, and of failed creations. */
  ghost predicate Accounts(m: Memory) {
    m.counter == Live(m.tensors, m.nextHandle) + Reserved(m.phases) + m.leaked
  }

  ghost predicate Locked(m: Memory) {
    forall t: nat :: t < |m.phases| && m.phases[t].Removing? ==> m.lock == Some(t)
  }

  ghost predicate HandlesFit(m: Memory) {
    && (forall i :: 0 <= i < |m.returned| ==> m.returned[i] < m.nextHandle)
    && (forall i, j :: 0 <= i < j < |m.returned| ==> m.returned[i] != m.returned[j])
    && (forall h :: h in m.tensors ==> h in m.returned)
    && (forall t: nat :: t < |m.phases| && m.phases[t].Numbered? ==>
          m.phases[t].handle < m.nextHandle && m.phases[t].handle !in m.returned)
    && (forall t: nat, u: nat :: t < u < |m.phases| && m.phases[t].Numbered? && m.phases[u].Numbered? ==>
          m.phases[t].handle != m.phases[u].handle)
  }

  ghost predicate Inv(m: Memory) {
    Accounts(m) && Locked(m) && HandlesFit(m)
  }

  lemma StepKeepsAccounts(m: Memory, max: nat, step: Step)
    requires Inv(m) && Enabled(m, step)
    ensures Accounts(Apply(m, max, step))
  {
    var m' := Apply(m, max, step);
    PhaseChanges(m.phases, step.thread, m'.phases[step.thread]);
    match step
    case Insert(t) =>
      var phase := m.phases[t];
      LiveChanges(m.tensors, m.nextHandle, phase.handle, phase.tensor);
    case Remove(_, h) =>
      if h in m.tensors {
        LiveDrops(m.tensors, m.nextHandle, h);
      }
    case _ =>
  }

  lemma StepKeepsHandles(m: Memory, max: nat, step: Step)
    requires Inv(m) && Enabled(m, step)
    ensures HandlesFit(Apply(m, max, step))
  {
    hide Accounts, Locked;
  }

  lemma StepKeepsLock(m: Memory, max: nat, step: Step)
    requires Inv(m) && Enabled(m, step)
    ensures Locked(Apply(m, max, step))
  {
    hide Accounts, HandlesFit;
  }

  lemma {:induction false} StartIsQuiet(threads: nat)
    ensures Reserved(Start(threads).phases) == Announced(Start(threads).phases) == 0
  {
    if threads > 0 {
      StartIsQuiet(threads - 1);
      assert Start(threads).phases[..threads - 1] == Start(threads - 1).phases;
    }
  }

  lemma StartFits(threads: nat)
    ensures Inv(Start(threads))
  {
    StartIsQuiet(threads);
  }

  lemma StepKeepsInv(m: Memory, max: nat, step: Step)
    requires Inv(m) && Enabled(m, step)
    ensures Inv(Apply(m, max, step)) && |Apply(m, max, step).phases| == |m.phases|
  {
    StepKeepsAccounts(m, max, step);
    StepKeepsHandles(m, max, step);
    StepKeepsLock(m, max, step);
  }

  // ---------------------------------------------------------------- whole runs

  ghost predicate Possible(threads: nat, max: nat, steps: seq<Step>)
    decreases |steps|, 0
  {
    steps == [] ||
    var front := steps[..|steps| - 1];
    Possible(threads, max, front) && Enabled(After(threads, max, front), steps[|steps| - 1])
  }

  ghost function After(threads: nat, max: nat, steps: seq<Step>): Memory
    requires Possible(threads, max, steps)
    decreases |steps|, 1
  {
    if steps == [] then Start(threads)
    else Apply(After(threads, max, steps[..|steps| - 1]), max, steps[|steps| - 1])
  }

  /** In every interleaving, the counter accounts for every byte. */
  lemma {:induction false} RunKeepsInv(threads: nat, max: nat, steps: seq<Step>)
    requires Possible(threads, max, steps)
    ensures Inv(After(threads, max, steps)) && |After(threads, max, steps).phases| == threads
  {
    hide Inv, Apply, Enabled;
    if steps == [] {
      StartFits(threads);
    } else {
      var front := steps[..|steps| - 1];
      RunKeepsInv(threads, max, front);
      StepKeepsInv(After(threads, max, front), max, steps[|steps| - 1]);
    }
  }

  lemma {:induction false} ReservedAtLeast(phases: seq<Phase>, t: nat)
    requires t < |phases|
    ensures Reserved(phases) >= phases[t].Reserved()
  {
    if t < |phases| - 1 {
      ReservedAtLeast(phases[..|phases| - 1], t);
    }
  }

  /** The unsigned counter never underflows: whenever `free` subtracts, it holds as much. */
  lemma SubtractNeverUnderflows(threads: nat, max: nat, steps: seq<Step>, t: nat)
    requires Possible(threads, max, steps) && Enabled(After(threads, max, steps), Subtract(t))
    ensures After(threads, max, steps).counter >= After(threads, max, steps).phases[t].tensor.Bytes()
  {
    RunKeepsInv(threads, max, steps);
    ReservedAtLeast(After(threads, max, steps).phases, t);
  }

  lemma {:induction false} PrefixPossible(threads: nat, max: nat, steps: seq<Step>, i: nat)
    requires Possible(threads, max, steps) && i <= |steps|
    ensures Possible(threads, max, steps[..i])
    decreases |steps|
  {
    if i < |steps| {
      PrefixPossible(threads, max, steps[..|steps| - 1], i);
      assert steps[..|steps| - 1][..i] == steps[..i];
    } else {
      assert steps[..i] == steps;
    }
  }

  lemma StepKeepsDead(m: Memory, max: nat, step: Step, h: Handle)
    requires Inv(m) && Enabled(m, step)
    ensures m.returned <= Apply(m, max, step).returned
    ensures h in m.returned && h !in m.tensors ==> h !in Apply(m, max, step).tensors
  {
  }

  /** No handle is returned twice, and a handle that was returned and freed is never live again. */
  lemma {:induction false} HandlesAreNeverReused(threads: nat, max: nat, steps: seq<Step>, i: nat, h: Handle)
    requires Possible(threads, max, steps) && i <= |steps|
    ensures Possible(threads, max, steps[..i])
    ensures var before, after := After(threads, max, steps[..i]), After(threads, max, steps);
            && (forall j, k :: 0 <= j < k < |after.returned| ==> after.returned[j] != after.returned[k])
            && before.returned <= after.returned
            && (h in before.returned && h !in before.tensors ==> h !in after.tensors)
    decreases |steps|
  {
    PrefixPossible(threads, max, steps, i);
    RunKeepsInv(threads, max, steps);
    if i < |steps| {
      var front := steps[..|steps| - 1];
      hide Inv, Apply, Enabled;
      HandlesAreNeverReused(threads, max, front, i, h);
      RunKeepsInv(threads, max, front);
      assert front[..i] == steps[..i];
      StepKeepsDead(After(threads, max, front), max, steps[|steps| - 1], h);
    } else {
      assert steps[..i] == steps;
    }
  }

  // ---------------------------------------------------------------- the capacity

  /** No compare passes for more than the capacity, and each thread can overrun it once. */
  ghost predicate Bounded(m: Memory, max: nat) {
    && m.counter + Announced(m.phases) <= Times(|m.phases|, max)
    && forall t: nat :: t < |m.phases| ==> m.phases[t].Announced() <= max
  }

  lemma {:induction false} AnnouncedAtMost(phases: seq<Phase>, max: nat)
    requires forall t: nat :: t < |phases| ==> phases[t].Announced() <= max
    ensures Announced(phases) <= Times(|phases|, max)
  {
    if phases != [] {
      AnnouncedAtMost(phases[..|phases| - 1], max);
    }
  }

  lemma {:induction false} AnnouncedByOthers(phases: seq<Phase>, max: nat, t: nat)
    requires t < |phases| && phases[t].Idle? && forall u: nat :: u < |phases| ==> phases[u].Announced() <= max
    ensures Announced(phases) + max <= Times(|phases|, max)
  {
    var n := |phases| - 1;
    if t < n {
      AnnouncedByOthers(phases[..n], max, t);
    } else {
      AnnouncedAtMost(phases[..n], max);
    }
  }

  lemma StepKeepsBound(m: Memory, max: nat, step: Step)
    requires Inv(m) && Bounded(m, max) && Enabled(m, step)
    ensures Bounded(Apply(m, max, step), max)
  {
    var m' := Apply(m, max, step);
    PhaseChanges(m.phases, step.thread, m'.phases[step.thread]);
    if step.Load? {
      AnnouncedByOthers(m.phases, max, step.thread);
    }
  }

  /** With `threads` threads, the counter and the sizes that have passed the compare but are not
      yet added never exceed `threads` times the capacity; with one thread, the capacity. */
  lemma {:induction false} CounterIsBounded(threads: nat, max: nat, steps: seq<Step>)
    requires Possible(threads, max, steps)
    ensures Bounded(After(threads, max, steps), max) && |After(threads, max, steps).phases| == threads
    ensures After(threads, max, steps).counter <= threads * max
  {
    StartIsQuiet(threads);
    TimesIsProduct(threads, max);
    if steps != [] {
      var front := steps[..|steps| - 1];
      CounterIsBounded(threads, max, front);
      RunKeepsInv(threads, max, front);
      StepKeepsBound(After(threads, max, front), max, steps[|steps| - 1]);
    }
    RunKeepsInv(threads, max, steps);
  }

  /** The steps of the threads below `k`, one after the other. */
  function Loads(k: nat, tensor: Tensor): seq<Step> { seq(k, t requires 0 <= t => Load(t, tensor)) }

  function Adds(k: nat): seq<Step> { seq(k, t requires 0 <= t => Add(t)) }

  lemma {:induction false} AllLoad(threads: nat, max: nat, k: nat, tensor: Tensor)
    requires k <= threads && tensor.Bytes() == max
    ensures Possible(threads, max, Loads(k, tensor))
    ensures After(threads, max, Loads(k, tensor)) ==
              Start(threads).(phases := seq(threads, t => if t < k then Checked(tensor) else Idle))
  {
    if k == 0 {
      assert Start(threads).phases == seq(threads, t => if t < 0 then Checked(tensor) else Idle);
    } else {
      AllLoad(threads, max, k - 1, tensor);
      assert Loads(k, tensor)[..k - 1] == Loads(k - 1, tensor);
    }
  }

  lemma {:induction false} AllAdd(threads: nat, max: nat, k: nat, tensor: Tensor)
    requires k <= threads && tensor.Bytes() == max
    ensures Possible(threads, max, Loads(threads, tensor) + Adds(k))
    ensures After(threads, max, Loads(threads, tensor) + Adds(k)) ==
              Start(threads).(phases := seq(threads, t => if t < k then Added(tensor) else Checked(tensor)),
                              counter := Times(k, max))
  {
    var steps := Loads(threads, tensor) + Adds(k);
    if k == 0 {
      AllLoad(threads, max, threads, tensor);
      assert steps == Loads(threads, tensor);
      assert seq(threads, t => if t < threads then Checked(tensor) else Idle) ==
             seq(threads, t => if t < 0 then Added(tensor) else Checked(tensor));
    } else {
      AllAdd(threads, max, k - 1, tensor);
      assert steps[..|steps| - 1] == Loads(threads, tensor) + Adds(k - 1);
    }
  }

  /** The bound is met: when all threads compare before any adds, the counter reaches `threads`
      times the capacity. */
  lemma BoundIsReached(threads: nat, max: nat) returns (steps: seq<Step>)
    ensures Possible(threads, max, steps)
    ensures After(threads, max, steps).counter == threads * max
  {
    var tensor := Tensor([max], 1);
    assert Product([max]) == Product([]) * max;
    AllAdd(threads, max, threads, tensor);
    TimesIsProduct(threads, max);
    steps := Loads(threads, tensor) + Adds(threads);
  }

  /** No compare passes while another thread's size is announced but not yet added. */
  ghost predicate NoOverlap(threads: nat, max: nat, steps: seq<Step>)
    requires Possible(threads, max, steps)
  {
    forall i :: 0 <= i < |steps| && steps[i].Load? ==> LoadsAlone(threads, max, steps, i)
  }

  ghost predicate LoadsAlone(threads: nat, max: nat, steps: seq<Step>, i: nat)
    requires Possible(threads, max, steps) && i < |steps|
  {
    PrefixPossible(threads, max, steps, i);
    Announced(After(threads, max, steps[..i]).phases) == 0
  }

  /** Without such overlaps the counter never exceeds the capacity. */
  lemma {:induction false} NoOverlapNoOverrun(threads: nat, max: nat, steps: seq<Step>)
    requires Possible(threads, max, steps) && NoOverlap(threads, max, steps)
    ensures After(threads, max, steps).counter + Announced(After(threads, max, steps).phases) <= max
  {
    StartIsQuiet(threads);
    if steps != [] {
      var front, step := steps[..|steps| - 1], steps[|steps| - 1];
      forall i | 0 <= i < |front| && front[i].Load? ensures LoadsAlone(threads, max, front, i) {
        assert steps[i].Load? && LoadsAlone(threads, max, steps, i) && front[..i] == steps[..i];
      }
      NoOverlapNoOverrun(threads, max, front);
      RunKeepsInv(threads, max, front);
      var m := After(threads, max, front);
      if step.Load? {
        assert LoadsAlone(threads, max, steps, |front|);
      }
      PhaseChanges(m.phases, step.thread, Apply(m, max, step).phases[step.thread]);
    }
  }

  /** The threads from `k` on add what they have announced. */
  function Settle(m: Memory, max: nat, k: nat): (steps: seq<Step>)
    requires k <= |m.phases|
    decreases |m.phases| - k
  {
    if k == |m.phases| then []
    else if m.phases[k].Checked? then [Add(k)] + Settle(Apply(m, max, Add(k)), max, k + 1)
    else Settle(m, max, k + 1)
  }

  /** `steps` lead from `m` to `m'`. */
  ghost predicate Leads(m: Memory, max: nat, steps: seq<Step>, m': Memory)
    decreases steps
  {
    if steps == [] then m == m'
    else Enabled(m, steps[0]) && Leads(Apply(m, max, steps[0]), max, steps[1..], m')
  }

  /** So they do, and all of them are additions. */
  ghost predicate AddsLead(m: Memory, max: nat, steps: seq<Step>, m': Memory) {
    Leads(m, max, steps, m') && forall i :: 0 <= i < |steps| ==> steps[i].Add?
  }

  lemma {:induction false} SettleLeads(m: Memory, max: nat, k: nat) returns (m': Memory)
    requires k <= |m.phases| && forall t: nat :: t < k ==> !m.phases[t].Checked?
    ensures AddsLead(m, max, Settle(m, max, k), m')
    ensures m'.counter == m.counter + Announced(m.phases)
    decreases |m.phases| - k
  {
    if k == |m.phases| {
      m' := m;
      NothingAnnounced(m.phases);
    } else if m.phases[k].Checked? {
      var m1 := Apply(m, max, Add(k));
      PhaseChanges(m.phases, k, m1.phases[k]);
      m' := SettleLeads(m1, max, k + 1);
      assert Settle(m, max, k)[1..] == Settle(m1, max, k + 1);
    } else {
      m' := SettleLeads(m, max, k + 1);
    }
  }

  lemma {:induction false} NothingAnnounced(phases: seq<Phase>)
    requires forall t: nat :: t < |phases| ==> !phases[t].Checked?
    ensures Announced(phases) == 0
  {
    if phases != [] {
      NothingAnnounced(phases[..|phases| - 1]);
    }
  }

  lemma {:induction false} AddsKeepTotal(m: Memory, max: nat, steps: seq<Step>, m': Memory)
    requires AddsLead(m, max, steps, m')
    ensures m'.counter + Announced(m'.phases) == m.counter + Announced(m.phases)
    decreases steps
  {
    if steps != [] {
      var m1 := Apply(m, max, steps[0]);
      PhaseChanges(m.phases, steps[0].thread, m1.phases[steps[0].thread]);
      assert AddsLead(m1, max, steps[1..], m');
      AddsKeepTotal(m1, max, steps[1..], m');
    }
  }

  ghost predicate Overruns(m: Memory, max: nat, steps: seq<Step>, m': Memory) {
    AddsLead(m, max, steps, m') && m'.counter > max
  }

  ghost predicate CanOverrun(m: Memory, max: nat) {
    exists steps, m' :: Overruns(m, max, steps, m')
  }

  /** The capacity is about to be overrun, by additions alone, exactly when what the counter
      holds and what has passed the compare exceed it together. */
  lemma OverrunIff(m: Memory, max: nat)
    ensures CanOverrun(m, max) <==> m.counter + Announced(m.phases) > max
  {
    if CanOverrun(m, max) {
      var steps, m' :| Overruns(m, max, steps, m');
      AddsKeepTotal(m, max, steps, m');
    }
    var m' := SettleLeads(m, max, 0);
    if m'.counter > max {
      assert Overruns(m, max, Settle(m, max, 0), m');
    }
  }

  ghost predicate RunOverruns(threads: nat, max: nat, steps: seq<Step>) {
    Possible(threads, max, steps) && After(threads, max, steps).counter > max
  }

  /** Some run exceeds the capacity exactly when there are two threads or more and the capacity
      is not zero. */
  lemma SomeRunOverrunsIff(threads: nat, max: nat)
    ensures (exists steps :: RunOverruns(threads, max, steps)) <==> threads >= 2 && max > 0
  {
    if steps :| RunOverruns(threads, max, steps) {
      CounterIsBounded(threads, max, steps);
      assert threads == 1 ==> threads * max == max;
    }
    if threads >= 2 && max > 0 {
      var steps := BoundIsReached(threads, max);
      assert threads * max == (threads - 2) * max + 2 * max;
      assert RunOverruns(threads, max, steps);
    }
  }

  // ---------------------------------------------------------------- what a handle gives

  /** What `get` finds when it has the lock. */
  function Lookup(m: Memory, h: Handle): Option<Tensor> {
    if h in m.tensors then Some(m.tensors[h]) else None
  }

  predicate Removes(step: Step, h: Handle) {
    step.Remove? && step.handle == h
  }

  /** Some step from the `i`th on removes the handle. */
  ghost predicate RemovedSince(steps: seq<Step>, i: nat, h: Handle) {
    exists j :: i <= j < |steps| && Removes(steps[j], h)
  }

  lemma RemovedSinceStep(front: seq<Step>, step: Step, i: nat, h: Handle)
    requires i <= |front|
    ensures RemovedSince(front + [step], i, h) <==> RemovedSince(front, i, h) || Removes(step, h)
  {
    var steps := front + [step];
    assert steps[|front|] == step && forall j :: 0 <= j < |front| ==> front[j] == steps[j];
    if RemovedSince(front, i, h) {
      var j :| i <= j < |front| && Removes(front[j], h);
      assert Removes(steps[j], h);
    } else if Removes(step, h) {
      assert Removes(steps[|front|], h);
    }
  }

  lemma StepKeepsLookup(m: Memory, max: nat, step: Step, h: Handle)
    requires Inv(m) && Enabled(m, step) && h in m.returned
    ensures h in Apply(m, max, step).returned
    ensures Lookup(Apply(m, max, step), h) == if Removes(step, h) then None else Lookup(m, h)
  {
    hide Accounts, Locked;
  }

  /** From when a handle is returned until some thread removes it, every thread that looks it up
      finds the tensor it was returned for; and nothing from then on. */
  lemma {:induction false} HandleGivesItsTensor(threads: nat, max: nat, steps: seq<Step>, i: nat, h: Handle)
    requires Possible(threads, max, steps) && i <= |steps|
    ensures Possible(threads, max, steps[..i])
    ensures var before, after := After(threads, max, steps[..i]), After(threads, max, steps);
            h in before.returned ==>
              && h in after.returned
              && Lookup(after, h) ==
                   if RemovedSince(steps, i, h) then None else Lookup(before, h)
    decreases |steps|
  {
    PrefixPossible(threads, max, steps, i);
    if i < |steps| {
      hide Inv, Apply, Enabled, Lookup, RemovedSince, Removes;
      var front, step := steps[..|steps| - 1], steps[|steps| - 1];
      HandleGivesItsTensor(threads, max, front, i, h);
      assert front[..i] == steps[..i] && steps == front + [step];
      RunKeepsInv(threads, max, front);
      RemovedSinceStep(front, step, i, h);
      if h in After(threads, max, steps[..i]).returned {
        StepKeepsLookup(After(threads, max, front), max, step, h);
      }
    } else {
      assert steps[..i] == steps;
    }
  }
}
