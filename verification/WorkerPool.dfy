/**
 The queue under concurrent use, with the thread pool as its client. Everything done while the
 mutex is held is one step; a worker's program counter says where its thread is.
 */
module WorkerPool {
  import opened Basics

  datatype Worker =
    | Checking               // about to test `isInterrupt` in its loop condition
    | Entering               // about to lock the mutex in `waitPop`
    | Asleep                 // in `wait`, not notified
    | Woken                  // in `wait`, about to lock the mutex and test the predicate
    | Holding(ticket: nat)   // returned from `waitPop` with the task taken as number `ticket`
    | Exited

  datatype Taken = Taken(task: Task, worker: nat, done: bool)

  datatype Call = Call(ticket: nat, worker: nat)

  /** `pending` counts interrupters between their store and their `notify_all`. `pushed`, `taken`
      and `calls` are histories. */
  datatype State = State(
    queue: seq<Task>, interrupted: bool, pending: nat, workers: seq<Worker>,
    pushed: seq<Task>, taken: seq<Taken>, calls: seq<Call>)

  function Initial(n: nat): State {
    State([], false, 0, seq(n, _ => Checking), [], [], [])
  }

  datatype Action =
    | Push(task: Task)
    | Interrupt
    | Notify
    | Reset
    | SpuriousWake(worker: nat)
    | Step(worker: nat)

  predicate Enabled(s: State, a: Action) {
    match a
    case Notify => s.pending > 0
    case SpuriousWake(w) => w < |s.workers| && s.workers[w] == Asleep
    case Step(w) => w < |s.workers| && s.workers[w] != Asleep && s.workers[w] != Exited
    case _ => true
  }

  function WakeAll(workers: seq<Worker>): seq<Worker> {
    seq(|workers|, i requires 0 <= i < |workers| => if workers[i] == Asleep then Woken else workers[i])
  }

  function At(s: State, w: nat, pc: Worker): State
    requires w < |s.workers|
  {
    s.(workers := s.workers[w := pc])
  }

  /** `waitPop` from the moment it holds the mutex until it releases it. */
  function WaitPop(s: State, w: nat): State
    requires w < |s.workers|
  {
    if s.interrupted then At(s, w, Checking)
    else if s.queue != [] then
      At(s.(queue := s.queue[1..], taken := s.taken + [Taken(s.queue[0], w, false)]), w, Holding(|s.taken|))
    else At(s, w, Asleep)
  }

  /** The wait predicate, on the counter. */
  predicate MaySleep(s: State) {
    !s.interrupted && |s.queue| % COUNTER_LIMIT == 0
  }

  /** Run the task in hand. */
  function RunTask(s: State, w: nat, k: nat): State
    requires w < |s.workers| && k < |s.taken|
  {
    var t := s.(taken := s.taken[k := s.taken[k].(done := true)]);
    At(if s.taken[k].task.Job? then t.(calls := t.calls + [Call(k, w)]) else t, w, Checking)
  }

  function StepWorker(s: State, w: nat): State
    requires w < |s.workers|
  {
    match s.workers[w]
    case Checking => At(s, w, if s.interrupted then Exited else Entering)
    case Entering => WaitPop(s, w)
    case Woken => if MaySleep(s) then At(s, w, Asleep) else WaitPop(s, w)
    case Holding(k) => if k < |s.taken| then RunTask(s, w, k) else s
    case _ => s
  }

  function Apply(s: State, a: Action): State
    requires Enabled(s, a)
  {
    match a
    case Push(t) => s.(queue := s.queue + [t], pushed := s.pushed + [t], workers := WakeAll(s.workers))
    case Interrupt => s.(interrupted := true, pending := s.pending + 1)
    case Notify => s.(pending := s.pending - 1, workers := WakeAll(s.workers))
    case Reset => s.(interrupted := false)
    case SpuriousWake(w) => At(s, w, Woken)
    case Step(w) => StepWorker(s, w)
  }

  ghost predicate Legal(s: State, run: seq<Action>)
    decreases |run|
  {
    run != [] ==> Enabled(s, run[0]) && Legal(Apply(s, run[0]), run[1..])
  }

  ghost function Execute(s: State, run: seq<Action>): State
    requires Legal(s, run)
    decreases |run|
  {
    if run == [] then s else Execute(Apply(s, run[0]), run[1..])
  }

  // ---------------------------------------------------------------- conservation

  function Tasks(taken: seq<Taken>): seq<Task> {
    seq(|taken|, i requires 0 <= i < |taken| => taken[i].task)
  }

  /** A ticket is with exactly one worker: in its hand, or finished by it. */
  ghost predicate TicketOk(s: State, k: nat)
    requires k < |s.taken|
  {
    var t := s.taken[k];
    && t.worker < |s.workers|
    && (!t.done ==> s.workers[t.worker] == Holding(k))
    && (Call(k, t.worker) in s.calls <==> t.done && t.task.Job?)
  }

  ghost predicate WorkerOk(s: State, w: nat)
    requires w < |s.workers|
  {
    s.workers[w].Holding? ==>
      var k := s.workers[w].ticket;
      k < |s.taken| && s.taken[k].worker == w && !s.taken[k].done
  }

  ghost predicate CallsOk(s: State) {
    && (forall i :: 0 <= i < |s.calls| ==> CallOk(s, s.calls[i]))
    && (forall i, j :: 0 <= i < j < |s.calls| ==> s.calls[i].ticket != s.calls[j].ticket)
  }

  ghost predicate CallOk(s: State, c: Call) {
    c.ticket < |s.taken| && s.taken[c.ticket].worker == c.worker
  }

  ghost predicate Conserved(s: State) {
    && s.pushed == Tasks(s.taken) + s.queue
    && (forall k :: 0 <= k < |s.taken| ==> TicketOk(s, k))
    && (forall w :: 0 <= w < |s.workers| ==> WorkerOk(s, w))
    && CallsOk(s)
  }

  /** Moves that take no task and finish none. */
  ghost predicate SameHands(s: State, t: State) {
    && t.taken == s.taken && t.calls == s.calls && |t.workers| == |s.workers|
    && forall w :: 0 <= w < |s.workers| ==>
         t.workers[w] == s.workers[w] || !(s.workers[w].Holding? || t.workers[w].Holding?)
  }

  lemma MoveConserves(s: State, t: State)
    requires Conserved(s) && SameHands(s, t) && t.pushed == Tasks(t.taken) + t.queue
    ensures Conserved(t)
  {
    forall k | 0 <= k < |t.taken| ensures TicketOk(t, k) {
      assert TicketOk(s, k);
    }
    forall w | 0 <= w < |t.workers| ensures WorkerOk(t, w) {
      assert WorkerOk(s, w);
    }
    forall i | 0 <= i < |t.calls| ensures CallOk(t, t.calls[i]) {
      assert CallOk(s, s.calls[i]);
    }
  }

  lemma TakeConserves(s: State, w: nat)
    requires Conserved(s) && w < |s.workers| && !s.workers[w].Holding? && s.queue != [] && !s.interrupted
    ensures Conserved(WaitPop(s, w))
  {
    var t := WaitPop(s, w);
    assert Tasks(t.taken) == Tasks(s.taken) + [s.queue[0]];
    assert s.queue == [s.queue[0]] + s.queue[1..];
    forall i | 0 <= i < |t.calls| ensures CallOk(t, t.calls[i]) && t.calls[i].ticket < |s.taken| {
      assert CallOk(s, s.calls[i]);
    }
    forall k | 0 <= k < |t.taken| ensures TicketOk(t, k) {
      assert k < |s.taken| ==> TicketOk(s, k);
    }
    forall v | 0 <= v < |t.workers| ensures WorkerOk(t, v) {
      assert WorkerOk(s, v);
    }
  }

  lemma RunConserves(s: State, w: nat, k: nat)
    requires Conserved(s) && w < |s.workers| && s.workers[w] == Holding(k)
    ensures k < |s.taken| && Conserved(RunTask(s, w, k))
  {
    assert WorkerOk(s, w);
    var t := RunTask(s, w, k);
    assert Tasks(t.taken) == Tasks(s.taken);
    assert TicketOk(s, k);
    forall i | 0 <= i < |s.calls| ensures CallOk(t, s.calls[i]) && s.calls[i].ticket != k {
      assert CallOk(s, s.calls[i]) && s.calls[i] in s.calls;
    }
    forall j | 0 <= j < |t.taken| ensures TicketOk(t, j) {
      assert TicketOk(s, j);
    }
    forall v | 0 <= v < |t.workers| ensures WorkerOk(t, v) {
      assert WorkerOk(s, v);
    }
  }

  lemma StepConserves(s: State, a: Action)
    requires Conserved(s) && Enabled(s, a)
    ensures Conserved(Apply(s, a))
  {
    var t := Apply(s, a);
    match a
    case Push(task) =>
      assert s.pushed + [task] == Tasks(s.taken) + (s.queue + [task]);
      MoveConserves(s, t);
    case Step(w) =>
      if s.workers[w].Holding? {
        RunConserves(s, w, s.workers[w].ticket);
      } else if |t.taken| > |s.taken| {
        TakeConserves(s, w);
      } else {
        MoveConserves(s, t);
      }
    case _ =>
      MoveConserves(s, t);
  }

  // ---------------------------------------------------------------- wake-ups

  /** A worker sleeps unnotified only while there is nothing for it: no task, and no interrupt
      except one whose `notify_all` is still to come. */
  ghost predicate Attentive(s: State) {
    forall w :: 0 <= w < |s.workers| && s.workers[w] == Asleep ==>
      s.queue == [] && (s.interrupted ==> s.pending > 0)
  }

  /** The counter has not wrapped. */
  ghost predicate Small(s: State) {
    |s.queue| < COUNTER_LIMIT
  }

  /** A worker woken over a non-empty queue tests its predicate, and the counter says there is nothing:
      the queue tests the counter before it sleeps, but the front link before it pops. */
  predicate Misled(s: State, a: Action) {
    a.Step? && a.worker < |s.workers| && s.workers[a.worker] == Woken && MaySleep(s) && s.queue != []
  }

  /** The only step that leaves a worker asleep over work is one that was misled. */
  lemma AttentiveUnlessMisled(s: State, a: Action)
    requires Attentive(s) && Enabled(s, a)
    ensures Attentive(Apply(s, a)) <==> !Misled(s, a)
  {
    if Misled(s, a) {
      assert Apply(s, a).workers[a.worker] == Asleep;
    }
  }

  lemma SmallIsNotMisled(s: State, a: Action)
    requires Small(s)
    ensures !Misled(s, a)
  {
  }

  /** No worker sleeps through an interrupt whose `notify_all` is over, however long the queue is. */
  ghost predicate Alert(s: State) {
    forall w :: 0 <= w < |s.workers| && s.workers[w] == Asleep ==> s.interrupted ==> s.pending > 0
  }

  lemma StepAlert(s: State, a: Action)
    requires Alert(s) && Enabled(s, a)
    ensures Alert(Apply(s, a))
  {
  }

  // ---------------------------------------------------------------- runs of the pool

  /** A run in which the queue stays below 2^32 tasks. */
  ghost predicate SmallRun(s: State, run: seq<Action>)
    requires Legal(s, run)
    decreases |run|
  {
    Small(s) && (run != [] ==> SmallRun(Apply(s, run[0]), run[1..]))
  }

  lemma {:induction false} RunKeeps(s: State, run: seq<Action>)
    requires Conserved(s) && Legal(s, run)
    ensures Conserved(Execute(s, run)) && |Execute(s, run).workers| == |s.workers|
    ensures Alert(s) ==> Alert(Execute(s, run))
    decreases |run|
  {
    hide Conserved, Alert, Enabled, Apply;
    if run != [] {
      StepConserves(s, run[0]);
      SameWorkers(s, run[0]);
      if Alert(s) {
        StepAlert(s, run[0]);
      }
      RunKeeps(Apply(s, run[0]), run[1..]);
    }
  }

  lemma SameWorkers(s: State, a: Action)
    requires Enabled(s, a)
    ensures |Apply(s, a).workers| == |s.workers|
  {
  }

  /** Attentive now and after every step. */
  ghost predicate StaysAttentive(s: State, run: seq<Action>)
    requires Legal(s, run)
    decreases |run|
  {
    Attentive(s) && (run != [] ==> StaysAttentive(Apply(s, run[0]), run[1..]))
  }

  ghost predicate NeverMisled(s: State, run: seq<Action>)
    requires Legal(s, run)
    decreases |run|
  {
    run != [] ==> !Misled(s, run[0]) && NeverMisled(Apply(s, run[0]), run[1..])
  }

  lemma {:induction false} AttentiveIffNeverMisled(s: State, run: seq<Action>)
    requires Attentive(s) && Legal(s, run)
    ensures StaysAttentive(s, run) <==> NeverMisled(s, run)
    decreases |run|
  {
    hide Attentive, Misled, Enabled, Apply;
    if run != [] {
      AttentiveUnlessMisled(s, run[0]);
      if !Misled(s, run[0]) {
        AttentiveIffNeverMisled(Apply(s, run[0]), run[1..]);
      }
    }
  }

  lemma {:induction false} SmallRunIsNotMisled(s: State, run: seq<Action>)
    requires Legal(s, run) && SmallRun(s, run)
    ensures NeverMisled(s, run)
    decreases |run|
  {
    hide Small, Misled, Enabled, Apply;
    if run != [] {
      SmallIsNotMisled(s, run[0]);
      SmallRunIsNotMisled(Apply(s, run[0]), run[1..]);
    }
  }

  lemma {:induction false} EndsAttentive(s: State, run: seq<Action>)
    requires Legal(s, run) && StaysAttentive(s, run)
    ensures Attentive(Execute(s, run))
    decreases |run|
  {
    hide Attentive, Enabled, Apply;
    if run != [] {
      EndsAttentive(Apply(s, run[0]), run[1..]);
    }
  }

  /** No lost wake-up, with any number of pushers, workers, interrupters and resets: over every run a
      worker that sleeps unnotified has nothing to wake up for, exactly as long as no woken worker
      meets a queue whose length is a positive multiple of 2^32; below 2^32 tasks always. */
  lemma NoLostWakeup(n: nat, run: seq<Action>)
    requires Legal(Initial(n), run)
    ensures StaysAttentive(Initial(n), run) <==> NeverMisled(Initial(n), run)
    ensures SmallRun(Initial(n), run) ==> NeverMisled(Initial(n), run)
    ensures NeverMisled(Initial(n), run) ==>
      var s := Execute(Initial(n), run);
      forall w :: 0 <= w < |s.workers| && s.workers[w] == Asleep ==>
        s.queue == [] && (!s.interrupted || s.pending > 0)
  {
    AttentiveIffNeverMisled(Initial(n), run);
    if SmallRun(Initial(n), run) {
      SmallRunIsNotMisled(Initial(n), run);
    }
    if NeverMisled(Initial(n), run) {
      EndsAttentive(Initial(n), run);
    }
  }

  /** It does happen: one worker falls asleep over an empty queue, `n` tasks are pushed, the worker
      wakes up and tests its predicate. */
  function WakeRun(n: nat, task: Task): seq<Action> {
    [Step(0), Step(0)] + seq(n, _ => Push(task)) + [Step(0)]
  }

  lemma Prefixed(s: State, a: Action, rest: seq<Action>)
    requires Enabled(s, a) && Legal(Apply(s, a), rest)
    ensures Legal(s, [a] + rest) && Execute(s, [a] + rest) == Execute(Apply(s, a), rest)
  {
    assert ([a] + rest)[1..] == rest;
  }

  lemma {:induction false} PushMany(s: State, n: nat, task: Task, rest: seq<Action>)
    requires n > 0 ==> s.workers == [Woken]
    requires Legal(s.(queue := s.queue + seq(n, _ => task), pushed := s.pushed + seq(n, _ => task)), rest)
    ensures Legal(s, seq(n, _ => Push(task)) + rest)
    ensures Execute(s, seq(n, _ => Push(task)) + rest)
         == Execute(s.(queue := s.queue + seq(n, _ => task), pushed := s.pushed + seq(n, _ => task)), rest)
    decreases n
  {
    if n == 0 {
      assert seq(n, _ => Push(task)) + rest == rest && s.queue + [] == s.queue && s.pushed + [] == s.pushed;
    } else {
      var t := Apply(s, Push(task));
      assert t.workers == s.workers;
      assert seq(n, _ => task) == [task] + seq(n - 1, _ => task);
      assert s.queue + seq(n, _ => task) == t.queue + seq(n - 1, _ => task);
      assert s.pushed + seq(n, _ => task) == t.pushed + seq(n - 1, _ => task);
      PushMany(t, n - 1, task, rest);
      Prefixed(s, Push(task), seq(n - 1, _ => Push(task)) + rest);
      assert seq(n, _ => Push(task)) + rest == [Push(task)] + (seq(n - 1, _ => Push(task)) + rest);
    }
  }

  function AwakeOver(tasks: seq<Task>): State {
    State(tasks, false, 0, [Woken], tasks, [], [])
  }

  lemma FallsAsleepThenWakes(task: Task)
    ensures Enabled(Initial(1), Step(0)) && Enabled(Apply(Initial(1), Step(0)), Step(0))
    ensures Apply(Apply(Apply(Initial(1), Step(0)), Step(0)), Push(task)) == AwakeOver([task])
  {
    var s := Initial(1);
    assert s.workers == [Checking];
    assert Apply(s, Step(0)).workers == [Entering];
    assert Apply(Apply(s, Step(0)), Step(0)).workers == [Asleep];
    assert WakeAll([Asleep]) == [Woken];
  }

  lemma LastStep(n: nat, task: Task)
    requires n > 0
    ensures var v := AwakeOver(seq(n, _ => task));
      && Legal(v, [Step(0)]) && var s := Execute(v, [Step(0)]);
         && |s.workers| == 1 && (s.workers[0] == Asleep <==> n % COUNTER_LIMIT == 0)
         && (s.workers[0] == Asleep ==> |s.queue| == n && !s.interrupted && s.pending == 0)
  {
    var v := AwakeOver(seq(n, _ => task));
    assert [Step(0)][1..] == [];
    assert Execute(v, [Step(0)]) == Apply(v, Step(0));
  }

  lemma WrapRun(n: nat, task: Task)
    requires n > 0
    ensures Legal(Initial(1), WakeRun(n, task))
    ensures var s := Execute(Initial(1), WakeRun(n, task));
      && |s.workers| == 1 && (s.workers[0] == Asleep <==> n % COUNTER_LIMIT == 0)
      && (s.workers[0] == Asleep ==> |s.queue| == n && !s.interrupted && s.pending == 0)
  {
    hide Enabled, WaitPop, RunTask;
    var u, v := AwakeOver([task]), AwakeOver(seq(n, _ => task));
    var rest := seq(n - 1, _ => Push(task)) + [Step(0)];
    FallsAsleepThenWakes(task);
    assert v.queue == [task] + seq(n - 1, _ => task);
    assert [Step(0)][1..] == [];
    LastStep(n, task);
    PushMany(u, n - 1, task, [Step(0)]);
    Prefixed(Apply(Apply(Initial(1), Step(0)), Step(0)), Push(task), rest);
    Prefixed(Apply(Initial(1), Step(0)), Step(0), [Push(task)] + rest);
    Prefixed(Initial(1), Step(0), [Step(0)] + ([Push(task)] + rest));
    assert WakeRun(n, task) == [Step(0)] + ([Step(0)] + ([Push(task)] + rest));
  }

  /** In the pool of one worker that run ends with the worker asleep again, over `n` tasks it was
      just told about and with nothing left to wake it, exactly when `n` is a multiple of 2^32. */
  lemma WrapLosesWakeup(n: nat, task: Task)
    requires n > 0
    ensures Legal(Initial(1), WakeRun(n, task))
    ensures var s := Execute(Initial(1), WakeRun(n, task));
      && |s.workers| == 1 && (s.workers[0] == Asleep <==> n % COUNTER_LIMIT == 0)
      && (s.workers[0] == Asleep ==> |s.queue| == n && !s.interrupted && s.pending == 0)
    ensures n % COUNTER_LIMIT == 0 ==> !NeverMisled(Initial(1), WakeRun(n, task))
  {
    WrapRun(n, task);
    NoLostWakeup(1, WakeRun(n, task));
  }

  /** Conservation: the pushed tasks are those taken followed by those queued, in order; every
      taken task is in the hand of the one worker that took it or finished by it; and the calls
      are those of the finished non-empty tasks, each called once. */
  lemma TasksAreConserved(n: nat, run: seq<Action>)
    requires Legal(Initial(n), run)
    ensures var s := Execute(Initial(n), run);
      && s.pushed == Tasks(s.taken) + s.queue
      && (forall k :: 0 <= k < |s.taken| ==>
            && s.taken[k].worker < |s.workers|
            && (s.taken[k].done || s.workers[s.taken[k].worker] == Holding(k))
            && (Call(k, s.taken[k].worker) in s.calls <==> s.taken[k].done && s.taken[k].task.Job?))
      && (forall c :: c in s.calls ==> c.ticket < |s.taken| && c.worker == s.taken[c.ticket].worker)
      && (forall i, j :: 0 <= i < j < |s.calls| ==> s.calls[i].ticket != s.calls[j].ticket)
  {
    assert Tasks([]) == [];
    RunKeeps(Initial(n), run);
    var s := Execute(Initial(n), run);
    forall k | 0 <= k < |s.taken|
      ensures s.taken[k].worker < |s.workers|
      ensures s.taken[k].done || s.workers[s.taken[k].worker] == Holding(k)
      ensures Call(k, s.taken[k].worker) in s.calls <==> s.taken[k].done && s.taken[k].task.Job?
    {
      assert TicketOk(s, k);
    }
    forall i | 0 <= i < |s.calls|
      ensures s.calls[i].ticket < |s.taken| && s.calls[i].worker == s.taken[s.calls[i].ticket].worker
    {
      assert CallOk(s, s.calls[i]);
    }
  }

  /** When `stop` has joined every worker, each taken task is finished, and the non-empty ones
      have been called. */
  lemma StopRunsWhatWasTaken(n: nat, run: seq<Action>)
    requires Legal(Initial(n), run)
    requires forall w :: 0 <= w < |Execute(Initial(n), run).workers| ==> Execute(Initial(n), run).workers[w] == Exited
    ensures var s := Execute(Initial(n), run);
      forall k :: 0 <= k < |s.taken| ==>
        s.taken[k].done && (s.taken[k].task.Job? ==> Call(k, s.taken[k].worker) in s.calls)
  {
    assert Tasks([]) == [];
    RunKeeps(Initial(n), run);
    var s := Execute(Initial(n), run);
    forall k | 0 <= k < |s.taken|
      ensures s.taken[k].done && (s.taken[k].task.Job? ==> Call(k, s.taken[k].worker) in s.calls)
    {
      assert TicketOk(s, k);
    }
  }

  // ---------------------------------------------------------------- shutdown

  ghost function Phase(w: Worker): nat {
    match w
    case Asleep => 3
    case Checking => 1
    case Exited => 0
    case _ => 2
  }

  ghost function Phases(workers: seq<Worker>): nat {
    if workers == [] then 0 else Phases(workers[..|workers| - 1]) + Phase(workers[|workers| - 1])
  }

  lemma {:induction false} PhasesUpdate(workers: seq<Worker>, w: nat, pc: Worker)
    requires w < |workers|
    ensures Phases(workers[w := pc]) + Phase(workers[w]) == Phases(workers) + Phase(pc)
  {
    var n := |workers| - 1;
    if w < n {
      PhasesUpdate(workers[..n], w, pc);
      assert workers[w := pc][..n] == workers[..n][w := pc];
    } else {
      assert workers[w := pc][..n] == workers[..n];
    }
  }

  lemma {:induction false} WakingLowers(workers: seq<Worker>)
    ensures Phases(WakeAll(workers)) <= Phases(workers)
  {
    if workers != [] {
      var n := |workers| - 1;
      WakingLowers(workers[..n]);
      assert WakeAll(workers)[..n] == WakeAll(workers[..n]);
    }
  }

  ghost function WorkerSteps(run: seq<Action>): nat {
    if run == [] then 0 else (if run[0].Step? || run[0].SpuriousWake? then 1 else 0) + WorkerSteps(run[1..])
  }

  lemma InterruptedStep(s: State, a: Action)
    requires s.interrupted && Enabled(s, a) && a != Reset && Conserved(s)
    ensures Apply(s, a).interrupted && Tasks(Apply(s, a).taken) == Tasks(s.taken)
    ensures Phases(Apply(s, a).workers) + (if a.Step? || a.SpuriousWake? then 1 else 0) <= Phases(s.workers)
  {
    match a
    case Push(_) => WakingLowers(s.workers);
    case Notify => WakingLowers(s.workers);
    case SpuriousWake(w) => PhasesUpdate(s.workers, w, Woken);
    case Step(w) =>
      assert WorkerOk(s, w);
      PhasesUpdate(s.workers, w, Apply(s, a).workers[w]);
      assert Tasks(Apply(s, a).taken) == Tasks(s.taken);
    case _ =>
  }

  /** After the interrupt no task is taken any more, and the workers have only so many steps left:
      pushes, further interrupts and notifications never add one. */
  lemma {:induction false} ShutdownTerminates(s: State, run: seq<Action>)
    requires Conserved(s) && s.interrupted && Legal(s, run) && Reset !in run
    ensures var t := Execute(s, run);
      t.interrupted && Tasks(t.taken) == Tasks(s.taken) && WorkerSteps(run) + Phases(t.workers) <= Phases(s.workers)
    decreases |run|
  {
    if run != [] {
      InterruptedStep(s, run[0]);
      StepConserves(s, run[0]);
      ShutdownTerminates(Apply(s, run[0]), run[1..]);
    }
  }

  lemma {:induction false} PhasesBound(workers: seq<Worker>)
    ensures Phases(workers) <= 3 * |workers|
    ensures Phases(workers) == 0 ==> forall w :: 0 <= w < |workers| ==> workers[w] == Exited
  {
    if workers != [] {
      PhasesBound(workers[..|workers| - 1]);
      assert forall w :: 0 <= w < |workers| - 1 ==> workers[w] == workers[..|workers| - 1][w];
    }
  }

  /** Shutdown leaves nobody behind, not even a worker that the counter has misled: once every
      `notify_all` of an interrupt is through, a worker that has not left its loop can take a step.
      With `ShutdownTerminates` every worker exits, within three steps each. */
  lemma NobodyLeftBehind(n: nat, run: seq<Action>, w: nat)
    requires Legal(Initial(n), run)
    requires var s := Execute(Initial(n), run);
      s.interrupted && s.pending == 0 && w < |s.workers| && s.workers[w] != Exited
    ensures Enabled(Execute(Initial(n), run), Step(w))
    ensures Phases(Execute(Initial(n), run).workers) <= 3 * n
  {
    assert Tasks([]) == [];
    RunKeeps(Initial(n), run);
    PhasesBound(Execute(Initial(n), run).workers);
  }

  /** The interrupt flag after the run: set by every interrupt, cleared by every reset. */
  function FlagAfter(flag: bool, run: seq<Action>): bool
    decreases |run|
  {
    if run == [] then flag
    else FlagAfter(if run[0] == Interrupt then true else if run[0] == Reset then false else flag, run[1..])
  }

  lemma {:induction false} InterruptedAfter(s: State, run: seq<Action>)
    requires Legal(s, run)
    ensures Execute(s, run).interrupted == FlagAfter(s.interrupted, run)
    ensures Reset !in run ==> (Execute(s, run).interrupted <==> s.interrupted || Interrupt in run)
    decreases |run|
  {
    if run != [] {
      InterruptedAfter(Apply(s, run[0]), run[1..]);
      assert run == [run[0]] + run[1..];
    }
  }

  lemma NotifyLowers(s: State)
    requires s.pending > 0
    ensures Phases(Apply(s, Notify).workers) <= Phases(s.workers)
  {
    WakingLowers(s.workers);
  }

  lemma SomeoneCanStep(s: State, w: nat)
    requires Alert(s) && s.interrupted && s.pending == 0 && w < |s.workers| && s.workers[w] != Exited
    ensures Enabled(s, Step(w))
  {
  }

  /** From an interrupted state the outstanding notifications and then the workers bring everybody out. */
  lemma {:induction false} WorkersLeave(s: State) returns (run: seq<Action>)
    requires Conserved(s) && Alert(s) && s.interrupted
    ensures Legal(s, run) && (forall a :: a in run ==> a == Notify || a.Step?)
    ensures WorkerSteps(run) <= Phases(s.workers)
    ensures |Execute(s, run).workers| == |s.workers|
    ensures forall w :: 0 <= w < |s.workers| ==> Execute(s, run).workers[w] == Exited
    decreases s.pending, Phases(s.workers)
  {
    hide Conserved, Alert, Apply, Enabled, Phases;
    var a;
    if s.pending > 0 {
      a := Notify;
      NotifyEnabled(s);
      NotifyLowers(s);
    } else if w :| 0 <= w < |s.workers| && s.workers[w] != Exited {
      a := Step(w);
      SomeoneCanStep(s, w);
      InterruptedStep(s, a);
    } else {
      return [];
    }
    StepConserves(s, a);
    StepAlert(s, a);
    SameWorkers(s, a);
    StaysInterrupted(s, a);
    var rest := WorkersLeave(Apply(s, a));
    Prefixed(s, a, rest);
    run := [a] + rest;
    assert run[1..] == rest;
  }

  lemma NotifyEnabled(s: State)
    requires s.pending > 0
    ensures Enabled(s, Notify) && Apply(s, Notify).pending < s.pending
  {
  }

  lemma StaysInterrupted(s: State, a: Action)
    requires s.interrupted && Enabled(s, a) && a != Reset
    ensures Apply(s, a).interrupted && (a.Step? ==> Apply(s, a).pending == s.pending)
  {
  }

  /** Shutdown, from the call on: once a run has called `interrupt`, and as long as nobody resets the queue,
      the notifications still due and at most three steps per worker bring every worker out of its loop. */
  lemma ShutdownReachesAll(n: nat, run: seq<Action>) returns (more: seq<Action>)
    requires Legal(Initial(n), run) && Interrupt in run && Reset !in run
    ensures Legal(Execute(Initial(n), run), more)
    ensures WorkerSteps(more) <= 3 * n && forall a :: a in more ==> a == Notify || a.Step?
    ensures var s := Execute(Execute(Initial(n), run), more);
      |s.workers| == n && forall w :: 0 <= w < n ==> s.workers[w] == Exited
  {
    assert Tasks([]) == [];
    RunKeeps(Initial(n), run);
    InterruptedAfter(Initial(n), run);
    PhasesBound(Execute(Initial(n), run).workers);
    more := WorkersLeave(Execute(Initial(n), run));
  }

  // ---------------------------------------------------------------- service

  /** Until the first interrupt no worker leaves its loop. */
  lemma {:induction false} NobodyLeavesEarly(s: State, run: seq<Action>)
    requires Legal(s, run) && Interrupt !in run && !s.interrupted
    requires forall w :: 0 <= w < |s.workers| ==> s.workers[w] != Exited
    ensures var t := Execute(s, run);
      !t.interrupted && forall w :: 0 <= w < |t.workers| ==> t.workers[w] != Exited
    decreases |run|
  {
    if run != [] {
      NobodyLeavesEarly(Apply(s, run[0]), run[1..]);
    }
  }

  /** Steps a worker makes until it sleeps over an empty queue. */
  ghost function Effort(w: Worker): nat {
    match w
    case Holding(_) => 3
    case Checking => 2
    case Entering => 1
    case Woken => 1
    case _ => 0
  }

  ghost function Efforts(workers: seq<Worker>): nat {
    if workers == [] then 0 else Efforts(workers[..|workers| - 1]) + Effort(workers[|workers| - 1])
  }

  ghost function Load(s: State): nat {
    4 * |s.queue| + Efforts(s.workers)
  }

  lemma {:induction false} EffortsUpdate(workers: seq<Worker>, w: nat, pc: Worker)
    requires w < |workers|
    ensures Efforts(workers[w := pc]) + Effort(workers[w]) == Efforts(workers) + Effort(pc)
  {
    var n := |workers| - 1;
    if w < n {
      EffortsUpdate(workers[..n], w, pc);
      assert workers[w := pc][..n] == workers[..n][w := pc];
    } else {
      assert workers[w := pc][..n] == workers[..n];
    }
  }

  lemma {:induction false} EffortsBound(workers: seq<Worker>)
    ensures Efforts(workers) <= 3 * |workers|
  {
    if workers != [] {
      EffortsBound(workers[..|workers| - 1]);
    }
  }

  lemma StepServes(s: State, w: nat)
    requires Conserved(s) && !s.interrupted && Enabled(s, Step(w))
    ensures !Apply(s, Step(w)).interrupted && Load(Apply(s, Step(w))) < Load(s)
  {
    assert WorkerOk(s, w);
    EffortsUpdate(s.workers, w, Apply(s, Step(w)).workers[w]);
  }

  lemma {:induction false} StepsServe(s: State, steps: seq<Action>)
    requires Conserved(s) && !s.interrupted && Legal(s, steps) && forall a :: a in steps ==> a.Step?
    ensures |steps| + Load(Execute(s, steps)) <= Load(s)
    decreases |steps|
  {
    hide Conserved, Apply, Load;
    if steps != [] {
      assert steps[0] in steps;
      StepConserves(s, steps[0]);
      StepServes(s, steps[0].worker);
      StepsServe(Apply(s, steps[0]), steps[1..]);
    }
  }

  /** Every pushed task is run: whatever has happened before the first interrupt, the workers by themselves
      have only so many steps to make, and when none of them can step any more, every task ever pushed
      has been taken and finished, and each non-empty one called, unless the counter has misled them. */
  lemma EveryTaskIsServed(n: nat, run: seq<Action>, steps: seq<Action>)
    requires n > 0 && Legal(Initial(n), run) && Interrupt !in run && NeverMisled(Initial(n), run)
    requires Legal(Execute(Initial(n), run), steps) && forall a :: a in steps ==> a.Step?
    ensures |steps| <= 4 * |Execute(Initial(n), run).queue| + 3 * n
    ensures var s := Execute(Execute(Initial(n), run), steps);
      NeverMisled(Execute(Initial(n), run), steps) && (forall w: nat :: !Enabled(s, Step(w))) ==>
        && s.pushed == Tasks(s.taken)
        && forall k :: 0 <= k < |s.taken| ==>
             s.taken[k].done && (s.taken[k].task.Job? ==> Call(k, s.taken[k].worker) in s.calls)
  {
    var s := Execute(Initial(n), run);
    assert Tasks([]) == [];
    RunKeeps(Initial(n), run);
    NobodyLeavesEarly(Initial(n), run);
    AttentiveIffNeverMisled(Initial(n), run);
    EndsAttentive(Initial(n), run);
    StepsServe(s, steps);
    EffortsBound(s.workers);
    var t := Execute(s, steps);
    RunKeeps(s, steps);
    NobodyLeavesEarly(s, steps);
    if NeverMisled(s, steps) && forall w: nat :: !Enabled(t, Step(w)) {
      AttentiveIffNeverMisled(s, steps);
      EndsAttentive(s, steps);
      AllAsleep(t);
    }
  }

  lemma AllAsleep(t: State)
    requires Conserved(t) && Attentive(t) && |t.workers| > 0 && forall w: nat :: !Enabled(t, Step(w))
    requires forall w :: 0 <= w < |t.workers| ==> t.workers[w] != Exited
    ensures t.pushed == Tasks(t.taken)
    ensures forall k :: 0 <= k < |t.taken| ==>
      t.taken[k].done && (t.taken[k].task.Job? ==> Call(k, t.taken[k].worker) in t.calls)
  {
    forall w | 0 <= w < |t.workers| ensures t.workers[w] == Asleep {
      assert !Enabled(t, Step(w));
    }
    assert t.workers[0] == Asleep && Tasks(t.taken) + [] == Tasks(t.taken);
    forall k | 0 <= k < |t.taken|
      ensures t.taken[k].done && (t.taken[k].task.Job? ==> Call(k, t.taken[k].worker) in t.calls)
    {
      assert TicketOk(t, k);
    }
  }
}
