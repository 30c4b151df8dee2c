/**
 The run loop of a context over its queue: one loop thread, any number of pushers and channel
 owners beside it. Everything done while the queue's mutex is held is one step.
 */
module ContextLoop {
  import opened Basics

  datatype Policy = Forever | UntilWorkers

  datatype Phase =
    | Resetting
    | Entering
    | Asleep
    | Woken
    | InHand(task: Task, raised: bool)        // popped; `raised`: an interrupt came since
    | Running(task: Task, raised: bool, nested: seq<nat>)   // called; what it has invoked inline so far
    | Testing
    | Stopped

  /** What became of a popped task; `raised`: an interrupt came between its pop and the test. */
  datatype Fate = Ran(raised: bool, nested: seq<nat>) | Skipped(raised: bool)

  datatype Done = Done(task: Task, fate: Fate)

  /** `owned`: the context knows the loop's thread id. `pushed`, `done` and `inlined` are histories. */
  datatype State = State(
    queue: seq<Task>, interrupted: bool, pending: nat, channels: nat, run: bool, owned: bool,
    phase: Phase, pushed: seq<Task>, done: seq<Done>, inlined: seq<nat>)

  /** The loop thread has just entered `run`. */
  predicate Entered(s: State) {
    s.phase == Resetting && s.run && s.owned && s.queue == s.pushed && s.done == [] && s.inlined == []
  }

  datatype Action =
    | Push(task: Task)
    | AddChannel
    | DropChannel
    | Notify
    | SpuriousWake
    | Step
    | Invoke(id: nat)   // by the running action
    | Stop              // by the running action: elsewhere the thread id does not match

  predicate Enabled(s: State, a: Action) {
    match a
    case DropChannel => s.channels > 0
    case Notify => s.pending > 0
    case SpuriousWake => s.phase == Asleep
    case Step => s.phase != Asleep && s.phase != Stopped
    case Invoke(_) => s.phase.Running?
    case Stop => s.phase.Running?
    case _ => true
  }

  function Wake(s: State): State {
    if s.phase == Asleep then s.(phase := Woken) else s
  }

  function PushTask(s: State, t: Task): State {
    Wake(s.(queue := s.queue + [t], pushed := s.pushed + [t]))
  }

  /** The store of `interrupt`; its `notify_all` is still to come. */
  function Raise(s: State): State {
    var phase := if s.phase.InHand? then InHand(s.phase.task, true) else s.phase;
    s.(interrupted := true, pending := s.pending + 1, phase := phase)
  }

  function WaitPop(s: State): State {
    if s.interrupted then s.(phase := Testing)
    else if s.queue != [] then s.(queue := s.queue[1..], phase := InHand(s.queue[0], false))
    else s.(phase := Asleep)
  }

  function StepLoop(policy: Policy, s: State): State {
    match s.phase
    case Resetting => s.(interrupted := false, phase := Entering)
    case Entering => WaitPop(s)
    case Woken =>
      if !s.interrupted && |s.queue| % COUNTER_LIMIT == 0 then s.(phase := Asleep) else WaitPop(s)
    case InHand(task, raised) =>
      if task.Job? && (policy == Forever || !s.interrupted) then s.(phase := Running(task, raised, []))
      else s.(phase := Testing, done := s.done + [Done(task, Skipped(raised))])
    case Running(task, raised, nested) =>
      s.(phase := Testing, done := s.done + [Done(task, Ran(raised, nested))])
    case Testing =>
      s.(phase := if s.run && (policy == Forever || s.channels > 0) then Resetting else Stopped)
    case _ => s
  }

  function Apply(policy: Policy, s: State, a: Action): State
    requires Enabled(s, a)
  {
    match a
    case Push(t) => PushTask(s, t)
    case AddChannel => s.(channels := s.channels + 1)
    case DropChannel =>
      var t := s.(channels := s.channels - 1);
      if s.channels == 1 then Raise(t) else t
    case Notify => Wake(s.(pending := s.pending - 1))
    case SpuriousWake => s.(phase := Woken)
    case Step => StepLoop(policy, s)
    case Invoke(id) =>
      if s.owned then s.(phase := s.phase.(nested := s.phase.nested + [id]), inlined := s.inlined + [id])
      else PushTask(s, Job(id))
    case Stop =>
      if s.owned then
        var t := s.(owned := false);
        if s.run then Raise(t.(run := false)) else t
      else s
  }

  ghost predicate Legal(policy: Policy, s: State, run: seq<Action>)
    decreases |run|
  {
    run != [] ==> Enabled(s, run[0]) && Legal(policy, Apply(policy, s, run[0]), run[1..])
  }

  ghost function Execute(policy: Policy, s: State, run: seq<Action>): State
    requires Legal(policy, s, run)
    decreases |run|
  {
    if run == [] then s else Execute(policy, Apply(policy, s, run[0]), run[1..])
  }

  // ---------------------------------------------------------------- what holds in every state

  function Tasks(done: seq<Done>): seq<Task> {
    seq(|done|, i requires 0 <= i < |done| => done[i].task)
  }

  function Current(s: State): seq<Task> {
    if s.phase.InHand? || s.phase.Running? then [s.phase.task] else []
  }

  function Nested(fate: Fate): seq<nat> {
    if fate.Ran? then fate.nested else []
  }

  function AllNested(done: seq<Done>): seq<nat> {
    if done == [] then [] else AllNested(done[..|done| - 1]) + Nested(done[|done| - 1].fate)
  }

  function CurrentNested(s: State): seq<nat> {
    if s.phase.Running? then s.phase.nested else []
  }

  ghost predicate FateOk(policy: Policy, d: Done) {
    match d.fate
    case Ran(raised, _) => d.task.Job? && (policy == UntilWorkers ==> !raised)
    case Skipped(raised) => d.task.Job? ==> policy == UntilWorkers && raised
  }

  ghost predicate Inv(policy: Policy, s: State) {
    && s.pushed == Tasks(s.done) + Current(s) + s.queue
    && s.inlined == AllNested(s.done) + CurrentNested(s)
    && (forall i :: 0 <= i < |s.done| ==> FateOk(policy, s.done[i]))
    && (s.phase.Running? ==> s.phase.task.Job? && (policy == UntilWorkers ==> !s.phase.raised))
    && (s.phase.InHand? ==> (s.interrupted <==> s.phase.raised))
  }

  lemma Finished(done: seq<Done>, d: Done)
    ensures Tasks(done + [d]) == Tasks(done) + [d.task]
    ensures AllNested(done + [d]) == AllNested(done) + Nested(d.fate)
  {
    assert (done + [d])[..|done|] == done;
  }

  lemma PushKeeps(policy: Policy, s: State, x: Task)
    requires Inv(policy, s)
    ensures Inv(policy, PushTask(s, x))
  {
    assert s.pushed + [x] == Tasks(s.done) + Current(s) + (s.queue + [x]);
  }

  /** Steps that move no task. */
  lemma QuietKeeps(policy: Policy, s: State, t: State)
    requires Inv(policy, s) && t.queue == s.queue && t.pushed == s.pushed && t.done == s.done
    requires t.inlined == s.inlined && Current(t) == Current(s) && CurrentNested(t) == CurrentNested(s)
    requires t.phase.Running? ==> t.phase.task.Job? && (policy == UntilWorkers ==> !t.phase.raised)
    requires t.phase.InHand? ==> (t.interrupted <==> t.phase.raised)
    ensures Inv(policy, t)
  {
  }

  lemma SettleKeeps(policy: Policy, s: State, t: State, fate: Fate)
    requires Inv(policy, s) && (s.phase.InHand? || s.phase.Running?)
    requires FateOk(policy, Done(s.phase.task, fate)) && Nested(fate) == CurrentNested(s)
    requires t == s.(phase := Testing, done := s.done + [Done(s.phase.task, fate)])
    ensures Inv(policy, t)
  {
    hide Tasks, AllNested, FateOk, Nested;
    Finished(s.done, Done(s.phase.task, fate));
    assert Tasks(t.done) + [] + t.queue == Tasks(s.done) + [s.phase.task] + s.queue;
    assert AllNested(t.done) + [] == AllNested(s.done) + Nested(fate);
  }

  /** What the invariant says about the action at hand. */
  lemma HandFacts(policy: Policy, s: State)
    requires Inv(policy, s)
    ensures s.phase.InHand? ==> (s.interrupted <==> s.phase.raised)
    ensures s.phase.Running? ==> s.phase.task.Job? && (policy == UntilWorkers ==> !s.phase.raised)
  {
  }

  lemma PopKeeps(policy: Policy, s: State)
    requires Inv(policy, s) && !s.phase.InHand? && !s.phase.Running?
    ensures Inv(policy, WaitPop(s))
  {
    if !s.interrupted && s.queue != [] {
      assert s.queue == [s.queue[0]] + s.queue[1..];
      assert s.pushed == Tasks(s.done) + [s.queue[0]] + s.queue[1..];
    }
  }

  lemma LoopKeeps(policy: Policy, s: State)
    requires Inv(policy, s) && s.phase != Asleep && s.phase != Stopped
    ensures Inv(policy, StepLoop(policy, s))
  {
    hide Inv, Tasks, AllNested, WaitPop;
    HandFacts(policy, s);
    var t := StepLoop(policy, s);
    match s.phase
    case InHand(task, raised) =>
      if t.phase == Testing {
        SettleKeeps(policy, s, t, Skipped(raised));
      } else {
        QuietKeeps(policy, s, t);
      }
    case Running(_, raised, nested) => SettleKeeps(policy, s, t, Ran(raised, nested));
    case Entering => PopKeeps(policy, s);
    case Woken =>
      QuietKeeps(policy, s, s.(phase := Asleep));
      PopKeeps(policy, s);
    case _ => QuietKeeps(policy, s, t);
  }

  lemma InvokeKeeps(policy: Policy, s: State, id: nat)
    requires Inv(policy, s) && s.phase.Running?
    ensures Inv(policy, Apply(policy, s, Invoke(id)))
  {
    if s.owned {
      assert s.inlined + [id] == AllNested(s.done) + (CurrentNested(s) + [id]);
    } else {
      PushKeeps(policy, s, Job(id));
    }
  }

  lemma RaiseKeeps(policy: Policy, s: State)
    requires Inv(policy, s)
    ensures Inv(policy, Raise(s))
  {
    QuietKeeps(policy, s, Raise(s));
  }

  lemma StepKeeps(policy: Policy, s: State, a: Action)
    requires Inv(policy, s) && Enabled(s, a)
    ensures Inv(policy, Apply(policy, s, a))
  {
    hide Inv, Tasks, AllNested, StepLoop, WaitPop;
    HandFacts(policy, s);
    match a
    case Push(x) => PushKeeps(policy, s, x);
    case Invoke(id) => InvokeKeeps(policy, s, id);
    case Step => LoopKeeps(policy, s);
    case DropChannel =>
      QuietKeeps(policy, s, s.(channels := s.channels - 1));
      RaiseKeeps(policy, s.(channels := s.channels - 1));
    case Stop =>
      QuietKeeps(policy, s, s.(owned := false));
      QuietKeeps(policy, s, s.(owned := false, run := false));
      RaiseKeeps(policy, s.(owned := false, run := false));
    case _ => QuietKeeps(policy, s, Apply(policy, s, a));
  }

  lemma {:induction false} RunKeeps(policy: Policy, s: State, run: seq<Action>)
    requires Inv(policy, s) && Legal(policy, s, run)
    ensures Inv(policy, Execute(policy, s, run))
    decreases |run|
  {
    if run != [] {
      StepKeeps(policy, s, run[0]);
      RunKeeps(policy, Apply(policy, s, run[0]), run[1..]);
    }
  }

  /** FIFO, exactly once: over any interleaving of pushes, channel drops, interrupts, resets and
      stops, what was pushed is what was popped and settled, then what is in hand, then what is
      queued, in that order; and every inline invocation is nested in exactly the action that
      made it, in order. */
  lemma Fifo(policy: Policy, s: State, run: seq<Action>)
    requires Entered(s) && Legal(policy, s, run)
    ensures var t := Execute(policy, s, run);
      && t.pushed == Tasks(t.done) + Current(t) + t.queue
      && t.inlined == AllNested(t.done) + CurrentNested(t)
  {
    assert Tasks([]) == [];
    RunKeeps(policy, s, run);
  }

  /** Under `Forever` exactly the non-empty popped actions run. Under `UntilWorkers` exactly those
      run for which no interrupt was raised between their pop and the test. */
  lemma WhatRuns(policy: Policy, s: State, run: seq<Action>, i: nat)
    requires Entered(s) && Legal(policy, s, run) && i < |Execute(policy, s, run).done|
    ensures var d := Execute(policy, s, run).done[i];
      d.fate.Ran? <==> d.task.Job? && (policy == Forever || !d.fate.raised)
  {
    assert Tasks([]) == [];
    RunKeeps(policy, s, run);
    assert FateOk(policy, Execute(policy, s, run).done[i]);
  }

  // ---------------------------------------------------------------- wake-ups

  /** The loop sleeps unnotified only while there is nothing for it: no action, and no interrupt except
      one whose `notify_all` is still to come. */
  ghost predicate Attentive(s: State) {
    s.phase == Asleep ==> s.queue == [] && (s.interrupted ==> s.pending > 0)
  }

  /** The loop was woken over a non-empty queue, and the counter says there is nothing. */
  predicate Misled(s: State, a: Action) {
    a == Step && s.phase == Woken && !s.interrupted && s.queue != [] && |s.queue| % COUNTER_LIMIT == 0
  }

  lemma AttentiveUnlessMisled(policy: Policy, s: State, a: Action)
    requires Attentive(s) && Enabled(s, a)
    ensures Attentive(Apply(policy, s, a)) <==> !Misled(s, a)
  {
  }

  /** Attentive now and after every step. */
  ghost predicate StaysAttentive(policy: Policy, s: State, run: seq<Action>)
    requires Legal(policy, s, run)
    decreases |run|
  {
    Attentive(s) && (run != [] ==> StaysAttentive(policy, Apply(policy, s, run[0]), run[1..]))
  }

  ghost predicate NeverMisled(policy: Policy, s: State, run: seq<Action>)
    requires Legal(policy, s, run)
    decreases |run|
  {
    run != [] ==> !Misled(s, run[0]) && NeverMisled(policy, Apply(policy, s, run[0]), run[1..])
  }

  /** No lost wake-up: over every run, with any pushers, channel owners and stops, the loop never sleeps
      unnotified over an action or an interrupt, exactly as long as it is never woken over a queue whose
      length is a positive multiple of 2^32. */
  lemma {:induction false} NoLostWakeup(policy: Policy, s: State, run: seq<Action>)
    requires Attentive(s) && Legal(policy, s, run)
    ensures StaysAttentive(policy, s, run) <==> NeverMisled(policy, s, run)
    ensures NeverMisled(policy, s, run) ==> Attentive(Execute(policy, s, run))
    decreases |run|
  {
    hide Attentive, Misled, Enabled, Apply;
    if run != [] {
      AttentiveUnlessMisled(policy, s, run[0]);
      if !Misled(s, run[0]) {
        NoLostWakeup(policy, Apply(policy, s, run[0]), run[1..]);
      }
    }
  }

  // ---------------------------------------------------------------- stopping

  /** What the run puts into the queue while the context no longer knows its thread: the pushed
      tasks and every invocation, in order. */
  function Posted(run: seq<Action>): seq<Task> {
    if run == [] then []
    else
      (match run[0]
       case Push(t) => [t]
       case Invoke(id) => [Job(id)]
       case _ => [])
      + Posted(run[1..])
  }

  function LoopSteps(run: seq<Action>): nat {
    if run == [] then 0 else (if run[0] == Step then 1 else 0) + LoopSteps(run[1..])
  }

  /** Steps of the loop thread until it has left `run`, when nothing lets it go round again. */
  function StepsLeft(phase: Phase): nat {
    if phase.Running? then 2 else if phase == Testing then 1 else 0
  }

  /** A stop has been called and the loop has not gone round since. */
  ghost predicate Stopping(s: State) {
    !s.owned && !s.run && (s.phase.Running? || s.phase in {Testing, Stopped})
  }

  /** How a stopping loop at `s` winds down to `t`. */
  ghost predicate WindsDown(s: State, t: State, run: seq<Action>) {
    && Stopping(t) && t.inlined == s.inlined && t.queue == s.queue + Posted(run)
    && StepsLeft(t.phase) + LoopSteps(run) == StepsLeft(s.phase)
    && (t.phase.Running? ==> t.phase == s.phase)
    && t.done == s.done + (if s.phase.Running? && !t.phase.Running?
                           then [Done(s.phase.task, Ran(s.phase.raised, s.phase.nested))] else [])
  }

  lemma StoppingStep(policy: Policy, s: State, a: Action)
    requires Stopping(s) && Enabled(s, a)
    ensures WindsDown(s, Apply(policy, s, a), [a])
  {
    assert Posted([a][1..]) == [] && LoopSteps([a][1..]) == 0;
  }

  lemma PostedFirst(run: seq<Action>)
    requires run != []
    ensures Posted(run) == Posted([run[0]]) + Posted(run[1..])
    ensures LoopSteps(run) == LoopSteps([run[0]]) + LoopSteps(run[1..])
  {
    assert [run[0]][1..] == [] && Posted([]) == [] && LoopSteps([]) == 0;
  }

  lemma {:induction false} StoppingRun(policy: Policy, s: State, run: seq<Action>)
    requires Stopping(s) && Legal(policy, s, run)
    ensures WindsDown(s, Execute(policy, s, run), run)
    decreases |run|
  {
    hide Apply, Enabled, Stopping;
    if run == [] {
      assert s.queue + [] == s.queue && s.done + [] == s.done;
    } else {
      StoppingStep(policy, s, run[0]);
      PostedFirst(run);
      StoppingRun(policy, Apply(policy, s, run[0]), run[1..]);
      assert (s.queue + Posted([run[0]])) + Posted(run[1..]) == s.queue + (Posted([run[0]]) + Posted(run[1..]));
    }
  }

  /** A stop from inside an action ends the loop: over every continuation, under both policies and
      whatever is pushed, notified or dropped, no further action is taken from the queue; at most
      the stopping action is added to those that ran, with exactly the inline invocations it had
      made before; every later invocation is queued; and after two steps the loop has left `run`. */
  lemma StopEndsTheLoop(policy: Policy, s: State, run: seq<Action>)
    requires s.phase.Running? && s.owned && s.run && Legal(policy, Apply(policy, s, Stop), run)
    ensures var t := Execute(policy, Apply(policy, s, Stop), run);
      && t.queue == s.queue + Posted(run)
      && t.inlined == s.inlined
      && t.done == s.done + (if LoopSteps(run) == 0 then []
                             else [Done(s.phase.task, Ran(s.phase.raised, s.phase.nested))])
      && LoopSteps(run) <= 2
      && (t.phase == Stopped <==> LoopSteps(run) == 2)
  {
    StoppingRun(policy, Apply(policy, s, Stop), run);
  }

  // ---------------------------------------------------------------- who interrupts

  /** The queue is interrupted by the last channel going, and by the first stop of the running loop. */
  predicate Interrupts(s: State, a: Action) {
    (a == DropChannel && s.channels == 1) || (a == Stop && s.owned && s.run)
  }

  ghost function CountOf(run: seq<Action>, a: Action): nat {
    if run == [] then 0 else (if run[0] == a then 1 else 0) + CountOf(run[1..], a)
  }

  ghost function InterruptsIn(policy: Policy, s: State, run: seq<Action>): nat
    requires Legal(policy, s, run)
    decreases |run|
  {
    if run == [] then 0
    else (if Interrupts(s, run[0]) then 1 else 0) + InterruptsIn(policy, Apply(policy, s, run[0]), run[1..])
  }

  /** An interrupt came, and the loop has not reset the queue since. */
  ghost predicate InterruptedAfter(policy: Policy, s: State, run: seq<Action>, flag: bool)
    requires Legal(policy, s, run)
    decreases |run|
  {
    if run == [] then flag
    else InterruptedAfter(policy, Apply(policy, s, run[0]), run[1..],
                          Interrupts(s, run[0]) || (flag && !(run[0] == Step && s.phase == Resetting)))
  }

  lemma InterruptStep(policy: Policy, s: State, a: Action)
    requires Enabled(s, a)
    ensures var t := Apply(policy, s, a);
      && (t.interrupted <==> Interrupts(s, a) || (s.interrupted && !(a == Step && s.phase == Resetting)))
      && t.pending + (if a == Notify then 1 else 0) == s.pending + (if Interrupts(s, a) then 1 else 0)
      && t.channels + (if a == DropChannel then 1 else 0) == s.channels + (if a == AddChannel then 1 else 0)
  {
  }

  /** Over every run the flag is up exactly from an interrupt to the next reset, every interrupt has its
      notification or still owes it, and the channels are those added and not yet dropped. */
  lemma {:induction false} WhoInterrupts(policy: Policy, s: State, run: seq<Action>)
    requires Legal(policy, s, run)
    ensures var t := Execute(policy, s, run);
      && (t.interrupted <==> InterruptedAfter(policy, s, run, s.interrupted))
      && t.pending + CountOf(run, Notify) == s.pending + InterruptsIn(policy, s, run)
      && t.channels + CountOf(run, DropChannel) == s.channels + CountOf(run, AddChannel)
    decreases |run|
  {
    hide Apply, Enabled, Interrupts;
    if run != [] {
      InterruptStep(policy, s, run[0]);
      WhoInterrupts(policy, Apply(policy, s, run[0]), run[1..]);
    }
  }

  // ---------------------------------------------------------------- going round

  /** The loop finds no channel at a test of its condition, which under UntilWorkers ends it. */
  predicate Deserted(policy: Policy, s: State, a: Action) {
    policy == UntilWorkers && a == Step && s.phase == Testing && s.channels == 0
  }

  ghost predicate NeverDeserted(policy: Policy, s: State, run: seq<Action>)
    requires Legal(policy, s, run)
    decreases |run|
  {
    run != [] ==> !Deserted(policy, s, run[0]) && NeverDeserted(policy, Apply(policy, s, run[0]), run[1..])
  }

  /** A stopped loop never runs again. */
  lemma {:induction false} StoppedStays(policy: Policy, s: State, run: seq<Action>)
    requires s.phase == Stopped && Legal(policy, s, run)
    ensures Execute(policy, s, run).phase == Stopped
    decreases |run|
  {
    if run != [] {
      StoppedStays(policy, Apply(policy, s, run[0]), run[1..]);
    }
  }

  lemma FlagsStay(policy: Policy, s: State, a: Action)
    requires Enabled(s, a) && a != Stop
    ensures Apply(policy, s, a).run == s.run && Apply(policy, s, a).owned == s.owned
  {
  }

  lemma StopsWhenDeserted(policy: Policy, s: State, a: Action)
    requires Enabled(s, a) && a != Stop && s.run && s.phase != Stopped
    ensures Apply(policy, s, a).phase == Stopped <==> Deserted(policy, s, a)
  {
  }

  lemma {:induction false} RunFlagStays(policy: Policy, s: State, run: seq<Action>)
    requires Legal(policy, s, run) && Stop !in run
    ensures Execute(policy, s, run).run == s.run && Execute(policy, s, run).owned == s.owned
    decreases |run|
  {
    hide Apply, Enabled;
    if run != [] {
      assert run[0] in run && Stop !in run[1..];
      FlagsStay(policy, s, run[0]);
      RunFlagStays(policy, Apply(policy, s, run[0]), run[1..]);
    }
  }

  /** As long as nobody calls `stop`, the loop goes round and round: under Forever always, under
      UntilWorkers exactly until it tests its condition while no channel is left. */
  lemma {:induction false} LeavesOnlyWhenDeserted(policy: Policy, s: State, run: seq<Action>)
    requires s.run && s.phase != Stopped && Legal(policy, s, run) && Stop !in run
    ensures Execute(policy, s, run).run
    ensures Execute(policy, s, run).phase != Stopped <==> NeverDeserted(policy, s, run)
    ensures policy == Forever ==> Execute(policy, s, run).phase != Stopped
    decreases |run|
  {
    hide Apply, Enabled;
    if run != [] {
      var t := Apply(policy, s, run[0]);
      assert run[0] in run && Stop !in run[1..];
      FlagsStay(policy, s, run[0]);
      StopsWhenDeserted(policy, s, run[0]);
      if t.phase == Stopped {
        StoppedStays(policy, t, run[1..]);
        RunFlagStays(policy, t, run[1..]);
      } else {
        LeavesOnlyWhenDeserted(policy, t, run[1..]);
      }
    }
  }

  function PushedBy(run: seq<Action>): seq<Task> {
    if run == [] then [] else (if run[0].Push? then [run[0].task] else []) + PushedBy(run[1..])
  }

  function InvokedBy(run: seq<Action>): seq<nat> {
    if run == [] then [] else (if run[0].Invoke? then [run[0].id] else []) + InvokedBy(run[1..])
  }

  lemma WhatReachesTheQueue(policy: Policy, s: State, a: Action)
    requires s.owned && Enabled(s, a) && a != Stop
    ensures Apply(policy, s, a).pushed == s.pushed + if a.Push? then [a.task] else []
    ensures Apply(policy, s, a).inlined == s.inlined + if a.Invoke? then [a.id] else []
  {
    assert s.pushed + [] == s.pushed && s.inlined + [] == s.inlined;
  }

  /** While the context knows its thread, what the running action invokes is called at once and never
      queued: only pushes reach the queue. */
  lemma {:induction false} InvokeRunsInline(policy: Policy, s: State, run: seq<Action>)
    requires s.owned && Legal(policy, s, run) && Stop !in run
    ensures Execute(policy, s, run).pushed == s.pushed + PushedBy(run)
    ensures Execute(policy, s, run).inlined == s.inlined + InvokedBy(run)
    decreases |run|
  {
    hide Apply, Enabled;
    if run == [] {
      assert s.pushed + [] == s.pushed && s.inlined + [] == s.inlined;
    } else {
      var a, rest := run[0], run[1..];
      assert a in run && Stop !in rest;
      FlagsStay(policy, s, a);
      WhatReachesTheQueue(policy, s, a);
      InvokeRunsInline(policy, Apply(policy, s, a), rest);
      var pushed, inlined := if a.Push? then [a.task] else [], if a.Invoke? then [a.id] else [];
      assert (s.pushed + pushed) + PushedBy(rest) == s.pushed + (pushed + PushedBy(rest));
      assert (s.inlined + inlined) + InvokedBy(rest) == s.inlined + (inlined + InvokedBy(rest));
    }
  }

  // ---------------------------------------------------------------- service

  /** Steps of the loop until it sleeps over an empty queue. */
  function Effort(s: State): nat {
    match s.phase
    case InHand(_, _) => 5
    case Running(_, _, _) => 4
    case Testing => 3
    case Resetting => 2
    case Entering => if s.interrupted then 4 else 1
    case Woken => if s.interrupted then 4 else 1
    case _ => 0
  }

  function Load(s: State): nat {
    6 * |s.queue| + Effort(s)
  }

  lemma StepServes(policy: Policy, s: State)
    requires s.run && (policy == UntilWorkers ==> s.channels > 0) && Enabled(s, Step)
    ensures Load(StepLoop(policy, s)) < Load(s)
    ensures StepLoop(policy, s).run && StepLoop(policy, s).channels == s.channels
    ensures StepLoop(policy, s).phase != Stopped
  {
  }

  lemma {:induction false} StepsServe(policy: Policy, s: State, steps: seq<Action>)
    requires s.run && (policy == UntilWorkers ==> s.channels > 0) && s.phase != Stopped
    requires Legal(policy, s, steps) && forall a :: a in steps ==> a == Step
    ensures |steps| + Load(Execute(policy, s, steps)) <= Load(s) && Execute(policy, s, steps).phase != Stopped
    decreases |steps|
  {
    if steps != [] {
      assert steps[0] in steps && forall a :: a in steps[1..] ==> a in steps;
      StepServes(policy, s);
      StepsServe(policy, Apply(policy, s, Step), steps[1..]);
    }
  }

  /** Every pushed action is settled: whatever has happened before, interrupts included, as long as the loop
      has not been stopped or deserted it has only so many steps to make by itself, and when it can not
      step any more, everything ever pushed has been popped and settled, unless the counter misled it. */
  lemma EveryActionIsServed(policy: Policy, s: State, run: seq<Action>, steps: seq<Action>)
    requires Entered(s) && Legal(policy, s, run) && NeverMisled(policy, s, run)
    requires var t := Execute(policy, s, run);
      && t.run && t.phase != Stopped && (policy == UntilWorkers ==> t.channels > 0)
      && Legal(policy, t, steps) && NeverMisled(policy, t, steps)
    requires forall a :: a in steps ==> a == Step
    ensures |steps| <= 6 * |Execute(policy, s, run).queue| + 5
    ensures var t := Execute(policy, Execute(policy, s, run), steps);
      !Enabled(t, Step) ==> t.queue == [] && t.pushed == Tasks(t.done)
  {
    assert Tasks([]) == [];
    var u := Execute(policy, s, run);
    RunKeeps(policy, s, run);
    NoLostWakeup(policy, s, run);
    StepsServe(policy, u, steps);
    RunKeeps(policy, u, steps);
    NoLostWakeup(policy, u, steps);
    var t := Execute(policy, u, steps);
    if !Enabled(t, Step) {
      assert t.phase == Asleep;
      assert Tasks(t.done) + [] + [] == Tasks(t.done);
    }
  }

  // ---------------------------------------------------------------- the last channel

  /** Under UntilWorkers the loop is on its way out: it has not forgotten the interrupt. */
  ghost predicate Leaving(s: State) {
    && s.channels == 0
    && match s.phase
       case Resetting => false
       case Entering => s.interrupted
       case Woken => s.interrupted
       case Asleep => s.interrupted && s.pending > 0
       case _ => true
  }

  function StepsOut(phase: Phase): nat {
    match phase
    case InHand(_, _) => 3
    case Running(_, _, _) => 2
    case Entering => 2
    case Woken => 2
    case Asleep => 2
    case Testing => 1
    case _ => 0
  }

  lemma LastChannelRaises(s: State)
    requires s.channels == 1
    ensures Leaving(Apply(UntilWorkers, s, DropChannel)) <==> s.phase != Resetting
  {
  }

  lemma LeavingStep(s: State, a: Action)
    requires Leaving(s) && Enabled(s, a) && a != AddChannel
    ensures var t := Apply(UntilWorkers, s, a);
      Leaving(t) && StepsOut(t.phase) + LoopSteps([a]) <= StepsOut(s.phase)
  {
    assert LoopSteps([a][1..]) == 0;
  }

  lemma {:induction false} LeavingRun(s: State, run: seq<Action>)
    requires Leaving(s) && Legal(UntilWorkers, s, run) && AddChannel !in run
    ensures var t := Execute(UntilWorkers, s, run);
      && LoopSteps(run) + StepsOut(t.phase) <= StepsOut(s.phase) <= 3
      && (!Enabled(t, Step) && !Enabled(t, Notify) ==> t.phase == Stopped)
    decreases |run|
  {
    if run != [] {
      assert run[0] in run && AddChannel !in run[1..];
      LeavingStep(s, run[0]);
      PostedFirst(run);
      LeavingRun(Apply(UntilWorkers, s, run[0]), run[1..]);
    }
  }

  /** Dropping the last channel ends a loop under UntilWorkers, wherever it is but at its reset: if no
      channel is added any more, it takes at most three steps over every continuation, it is never left
      asleep without a notification to come, and when it can neither step nor be notified it has left. */
  lemma LastChannelEndsTheLoop(s: State, run: seq<Action>)
    requires s.channels == 1 && s.phase != Resetting
    requires Legal(UntilWorkers, Apply(UntilWorkers, s, DropChannel), run) && AddChannel !in run
    ensures var t := Execute(UntilWorkers, Apply(UntilWorkers, s, DropChannel), run);
      && LoopSteps(run) <= 3
      && (!Enabled(t, Step) && !Enabled(t, Notify) ==> t.phase == Stopped)
  {
    LastChannelRaises(s);
    LeavingRun(Apply(UntilWorkers, s, DropChannel), run);
  }

  lemma Prefixed(s: State, a: Action, rest: seq<Action>)
    requires Enabled(s, a) && Legal(UntilWorkers, Apply(UntilWorkers, s, a), rest)
    ensures Legal(UntilWorkers, s, [a] + rest)
    ensures Execute(UntilWorkers, s, [a] + rest) == Execute(UntilWorkers, Apply(UntilWorkers, s, a), rest)
  {
    assert ([a] + rest)[1..] == rest;
  }

  /** At its reset the loop misses it: the flag is cleared before the loop has seen it, and with nothing to do
      the loop falls asleep without a channel, past the only notification that was to come. */
  lemma ResetMissesTheLastChannel(s: State)
    requires s.phase == Resetting && s.run && s.channels == 1 && s.queue == [] && s.pending == 0
    ensures var run := [DropChannel, Step, Step, Notify, Step];
      Legal(UntilWorkers, s, run)
      && var t := Execute(UntilWorkers, s, run);
         t.phase == Asleep && t.run && t.channels == 0 && !Enabled(t, Step) && !Enabled(t, Notify)
  {
    var s1 := Apply(UntilWorkers, s, DropChannel);
    var s2 := Apply(UntilWorkers, s1, Step);
    var s3 := Apply(UntilWorkers, s2, Step);
    var s4 := Apply(UntilWorkers, s3, Notify);
    Prefixed(s4, Step, []);
    Prefixed(s3, Notify, [Step] + []);
    Prefixed(s2, Step, [Notify] + ([Step] + []));
    Prefixed(s1, Step, [Step] + ([Notify] + ([Step] + [])));
    Prefixed(s, DropChannel, [Step] + ([Step] + ([Notify] + ([Step] + []))));
    assert [DropChannel] + ([Step] + ([Step] + ([Notify] + ([Step] + []))))
        == [DropChannel, Step, Step, Notify, Step];
  }
}
