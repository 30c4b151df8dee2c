/**
 A second push that comes from another thread: it waits in the queue like any message, and what it
 does is decided when it is taken. Until then the run is the run without it.
 */
module LoopQueuedPush {
  import opened CommandTypes
  import opened LoopMachine
  import opened LoopInvariant
  import opened LoopSteps
  import opened LoopTheorems
  import opened LoopRepush
  import LoopComplete

  // ---------------------------------------------------------------- handlers do not look at the queue

  /** The same change in two queues: `s` to `t` and `u` to `v` end with the same commands, and post the
      same messages, all of them finishes. */
  ghost predicate Parallel(s: State, t: State, u: State, v: State) {
    && t.cells == v.cells && s.queue <= t.queue && u.queue <= v.queue
    && t.queue[|s.queue|..] == v.queue[|u.queue|..]
    && forall k :: |s.queue| <= k < |t.queue| ==> t.queue[k].FinishMessage?
  }

  lemma ParallelTransitive(s: State, t: State, w: State, u: State, v: State, x: State)
    requires Parallel(s, t, u, v) && Parallel(t, w, v, x)
    ensures Parallel(s, w, u, x)
  {
    assert w.queue[|s.queue|..] == t.queue[|s.queue|..] + w.queue[|t.queue|..];
    assert x.queue[|u.queue|..] == v.queue[|u.queue|..] + x.queue[|v.queue|..];
    assert forall k :: |s.queue| <= k < |t.queue| ==> w.queue[k] == t.queue[k];
  }

  lemma CompleteParallel(s: State, u: State, c: nat, r: CommandResult)
    requires s.cells == u.cells && c < |s.cells|
    requires forall k :: 0 <= k < |s.cells[c].listeners| ==> s.cells[c].listeners[k] < |s.cells|
    ensures Parallel(s, Complete(s, c, r), u, Complete(u, c, r))
  {
    hide Deliveries;
    var t, v := Complete(s, c, r), Complete(u, c, r);
    if s.cells[c].status == ACTIVE {
      var ms := Deliveries(t.cells, t.cells[c].listeners, c, r);
      assert t.queue == s.queue + ms && v.queue == u.queue + ms;
    }
  }

  lemma FinishParallel(p: Program, s: State, u: State, l: nat, r: CommandResult)
    requires Shaped(p, s) && s.cells == u.cells && l < |s.cells|
    ensures Parallel(s, FinishLoop(s, l, r), u, FinishLoop(u, l, r))
  {
    assert CellShaped(p, s.cells[l], l);
    hide CellShaped, MessageShaped, Complete;
    if s.cells[l].open {
      assert Exit(s, l).cells == Exit(u, l).cells;
      CompleteParallel(Exit(s, l), Exit(u, l), l, r);
    }
  }

  lemma {:induction false} BeginParallel(p: Program, s: State, u: State, c: nat)
    requires Shaped(p, s) && Shaped(p, u) && s.cells == u.cells && c < |s.cells|
    ensures Parallel(s, Begin(p, s, c), u, Begin(p, u, c))
    decreases |p.kinds| - c, 3, 0
  {
    match p.kinds[c]
    case Leaf(r, _) =>
      assert CellShaped(p, s.cells[c], c);
      CompleteParallel(s, u, c, r);
    case Loop(_) =>
      if s.cells[c].open {
        NextParallel(p, s, u, c);
      }
  }

  lemma {:induction false} NextParallel(p: Program, s: State, u: State, l: nat)
    requires Shaped(p, s) && Shaped(p, u) && s.cells == u.cells && l < |s.cells| && p.kinds[l].Loop?
    ensures Parallel(s, Next(p, s, l), u, Next(p, u, l))
    decreases |p.kinds| - l, 2, 0
  {
    var o := s.cells[l];
    assert CellShaped(p, o, l);
    if o.deque != [] {
      if p.kinds[l].mode.multiCommand {
        LaunchAllParallel(p, s, u, l, o.deque);
      } else if s.cells[o.deque[0]].status == INACTIVE {
        LaunchParallel(p, s, u, l, o.deque[0]);
      }
    } else {
      FinishParallel(p, s, u, l, if o.status == ACTIVE then SUCCESS else ABORTED);
    }
  }

  lemma {:induction false} LaunchAllParallel(p: Program, s: State, u: State, l: nat, cs: seq<nat>)
    requires Shaped(p, s) && Shaped(p, u) && s.cells == u.cells && l < |s.cells|
    requires forall k :: 0 <= k < |cs| ==> IsChild(p, l, cs[k])
    ensures Parallel(s, LaunchAll(p, s, l, cs), u, LaunchAll(p, u, l, cs))
    decreases |p.kinds| - l, 1, |cs|
  {
    hide CellShaped, MessageShaped, Parallel;
    if cs == [] {
      SameParallel(s, u);
    } else {
      assert IsChild(p, l, cs[0]);
      if s.cells[cs[0]].status == INACTIVE {
        LaunchParallel(p, s, u, l, cs[0]);
        var t, v := Launch(p, s, l, cs[0]), Launch(p, u, l, cs[0]);
        ParallelCells(s, t, u, v);
        LaunchAllParallel(p, t, v, l, cs[1..]);
        ParallelTransitive(s, t, LaunchAll(p, t, l, cs[1..]), u, v, LaunchAll(p, v, l, cs[1..]));
      } else {
        LaunchAllParallel(p, s, u, l, cs[1..]);
      }
    }
  }

  lemma SameParallel(s: State, u: State)
    requires s.cells == u.cells
    ensures Parallel(s, s, u, u)
  {
  }

  lemma ParallelCells(s: State, t: State, u: State, v: State)
    requires Parallel(s, t, u, v)
    ensures t.cells == v.cells
  {
  }

  lemma {:induction false} LaunchParallel(p: Program, s: State, u: State, l: nat, c: nat)
    requires Shaped(p, s) && Shaped(p, u) && s.cells == u.cells && IsChild(p, l, c)
    ensures Parallel(s, Launch(p, s, l, c), u, Launch(p, u, l, c))
    decreases |p.kinds| - l, 0, 0
  {
    PreparedShape(p, s, l, c);
    PreparedShape(p, u, l, c);
    hide CellShaped, MessageShaped, Begin;
    BeginParallel(p, Prepared(s, l, c), Prepared(u, l, c), c);
  }

  lemma ProcessParallel(p: Program, s: State, u: State, l: nat, c: nat, r: CommandResult)
    requires Shaped(p, s) && Shaped(p, u) && s.cells == u.cells && IsChild(p, l, c)
    ensures Parallel(s, ProcessEvent(p, s, l, c, r), u, ProcessEvent(p, u, l, c, r))
  {
    if s.cells[l].open {
      EraseShaped(p, s, l, c);
      EraseShaped(p, u, l, c);
      hide CellShaped, MessageShaped, Next, FinishLoop;
      FinishParallel(p, Erase(s, l, c), Erase(u, l, c), l, FAILED);
      NextParallel(p, Erase(s, l, c), Erase(u, l, c), l);
    }
  }

  lemma PushParallel(p: Program, s: State, u: State, l: nat, c: nat)
    requires Shaped(p, s) && Shaped(p, u) && s.cells == u.cells && IsChild(p, l, c)
    ensures Parallel(s, PushBack(p, s, l, c), u, PushBack(p, u, l, c))
  {
    AcceptShape(p, s, l, c);
    AcceptShape(p, u, l, c);
    hide CellShaped, MessageShaped, Next;
    var t := Accept(s, l, c);
    if t.cells[l].status == ACTIVE && (|t.cells[l].deque| == 1 || p.kinds[l].mode.multiCommand) {
      NextParallel(p, t, Accept(u, l, c), l);
    }
  }

  lemma HandleParallel(p: Program, s: State, u: State, m: Message)
    requires Shaped(p, s) && Shaped(p, u) && s.cells == u.cells && MessageShaped(p, m)
    ensures Parallel(s, Handle(p, s, m), u, Handle(p, u, m))
  {
    match m
    case StartMessage(l) => NextParallel(p, s, u, l);
    case FinishMessage(l, c, r) => ProcessParallel(p, s, u, l, c, r);
    case PushMessage(l, c) => PushParallel(p, s, u, l, c);
  }

  // ---------------------------------------------------------------- one message more in the queue

  /** `u` is `v` with the message `m` in place `k` of the queue, and no other such message behind it. */
  ghost predicate WithExtra(u: State, v: State, k: nat, m: Message) {
    && u.cells == v.cells && k <= |v.queue|
    && u.queue == v.queue[..k] + [m] + v.queue[k..]
    && m !in v.queue[k..]
  }

  lemma Appended(q: seq<Message>, k: nat, m: Message, more: seq<Message>)
    requires k <= |q|
    ensures (q[..k] + [m] + q[k..]) + more == (q + more)[..k] + [m] + (q + more)[k..]
    ensures (q + more)[k..] == q[k..] + more
  {
  }

  lemma ParallelExtra(u: State, t: State, v: State, w: State, k: nat, m: Message)
    requires WithExtra(u, v, k, m) && Parallel(u, t, v, w) && m.PushMessage?
    ensures WithExtra(t, w, k, m)
  {
    var more := t.queue[|u.queue|..];
    assert t.queue == u.queue + more && w.queue == v.queue + more;
    Appended(v.queue, k, m, more);
    assert forall i :: 0 <= i < |more| ==> more[i] == t.queue[|u.queue| + i];
  }

  lemma PostExtra(u: State, v: State, k: nat, m: Message, n: Message)
    requires WithExtra(u, v, k, m) && n != m
    ensures WithExtra(u.Post(n), v.Post(n), k, m)
  {
    assert v.Post(n).queue[..k] == v.queue[..k] && v.Post(n).queue[k..] == v.queue[k..] + [n];
  }

  lemma PopExtra(u: State, v: State, k: nat, m: Message)
    requires WithExtra(u, v, k, m) && k > 0
    ensures u.queue != [] && v.queue != [] && u.queue[0] == v.queue[0]
    ensures WithExtra(Popped(u), Popped(v), k - 1, m)
  {
    assert v.queue[1..][..k - 1] == v.queue[..k][1..] && v.queue[1..][k - 1..] == v.queue[k..];
    assert u.queue[1..] == v.queue[..k][1..] + [m] + v.queue[k..];
  }

  lemma RootExtra(p: Program, u: State, v: State, k: nat, m: Message, onThread: bool)
    requires Shaped(p, u) && Shaped(p, v) && WithExtra(u, v, k, m) && m.PushMessage?
    requires Shaped(p, Activate(u, 0)) && Shaped(p, Activate(v, 0))
    ensures WithExtra(RootStarted(p, u, onThread), RootStarted(p, v, onThread), k, m)
  {
    var x, y := Activate(u, 0), Activate(v, 0);
    assert WithExtra(x, y, k, m);
    hide WithExtra, Parallel, CellShaped, MessageShaped, Begin;
    BeginParallel(p, x, y, 0);
    ParallelExtra(x, Begin(p, x, 0), y, Begin(p, y, 0), k, m);
    PostExtra(x, y, k, m, StartMessage(0));
    ExtraCells(x, y, k, m);
  }

  lemma ExtraCells(u: State, v: State, k: nat, m: Message)
    requires WithExtra(u, v, k, m)
    ensures u.cells == v.cells && m in u.queue && forall n :: n in v.queue ==> n in u.queue
  {
    assert u.queue[k] == m;
    forall n | n in v.queue ensures n in u.queue {
      assert v.queue == v.queue[..k] + v.queue[k..];
    }
  }

  lemma ActivateShaped(p: Program, s: State)
    requires Shaped(p, s)
    ensures Shaped(p, Activate(s, 0))
  {
    assert CellShaped(p, s.cells[0], 0);
  }

  lemma OfferExtra(p: Program, u: State, v: State, k: nat, m: Message, l: nat, c: nat, onThread: bool)
    requires Shaped(p, u) && Shaped(p, v) && WithExtra(u, v, k, m) && m.PushMessage?
    requires Enabled(p, u, Offer(l, c, onThread))
    ensures Enabled(p, v, Offer(l, c, onThread))
    ensures WithExtra(Pushed(p, u, l, c, onThread), Pushed(p, v, l, c, onThread), k, m)
  {
    ExtraCells(u, v, k, m);
    hide WithExtra, Parallel, CellShaped, MessageShaped, PushBack;
    if u.cells[l].open {
      if onThread {
        PushParallel(p, u, v, l, c);
        ParallelExtra(u, PushBack(p, u, l, c), v, PushBack(p, v, l, c), k, m);
      } else {
        PostExtra(u, v, k, m, PushMessage(l, c));
      }
    }
  }

  lemma DeliverExtra(p: Program, u: State, v: State, k: nat, m: Message)
    requires Shaped(p, u) && Shaped(p, v) && WithExtra(u, v, k, m) && m.PushMessage? && k > 0
    ensures u.queue != [] && v.queue != []
    ensures WithExtra(Apply(p, u, Deliver), Apply(p, v, Deliver), k - 1, m)
  {
    PopExtra(u, v, k, m);
    PoppedShaped(p, u);
    PoppedShaped(p, v);
    var x, y := Popped(u), Popped(v);
    ExtraCells(x, y, k - 1, m);
    hide Shaped, MessageShaped, Handle, WithExtra, Parallel;
    HandleParallel(p, x, y, u.queue[0]);
    ParallelExtra(x, Handle(p, x, u.queue[0]), y, Handle(p, y, u.queue[0]), k - 1, m);
  }

  lemma LeafExtra(p: Program, u: State, v: State, k: nat, m: Message, c: nat)
    requires Shaped(p, u) && Shaped(p, v) && WithExtra(u, v, k, m) && m.PushMessage?
    requires Enabled(p, u, FinishLeaf(c))
    ensures Enabled(p, v, FinishLeaf(c))
    ensures WithExtra(Apply(p, u, FinishLeaf(c)), Apply(p, v, FinishLeaf(c)), k, m)
  {
    ExtraCells(u, v, k, m);
    assert CellShaped(p, u.cells[c], c);
    hide CellShaped, MessageShaped, Complete, WithExtra, Parallel;
    CompleteParallel(u, v, c, p.kinds[c].result);
    ParallelExtra(u, Apply(p, u, FinishLeaf(c)), v, Apply(p, v, FinishLeaf(c)), k, m);
  }

  /** Any step but taking the message itself is the same step without it. */
  lemma StepExtra(p: Program, u: State, v: State, k: nat, m: Message, a: Action)
    requires Shaped(p, u) && Shaped(p, v) && WithExtra(u, v, k, m) && m.PushMessage?
    requires Enabled(p, u, a) && (a == Deliver ==> k > 0)
    ensures Enabled(p, v, a)
    ensures WithExtra(Apply(p, u, a), Apply(p, v, a), if a == Deliver then k - 1 else k, m)
  {
    match a
    case Deliver => DeliverExtra(p, u, v, k, m);
    case FinishLeaf(c) => LeafExtra(p, u, v, k, m, c);
    case StartRoot(onThread) =>
      hide CellShaped, MessageShaped;
      ExtraCells(u, v, k, m);
      ActivateShaped(p, u);
      ActivateShaped(p, v);
      RootExtra(p, u, v, k, m, onThread);
    case Offer(l, c, onThread) => OfferExtra(p, u, v, k, m, l, c, onThread);
  }

  function Taken(run: seq<Action>): nat {
    if run == [] then 0 else (if run[0] == Deliver then 1 else 0) + Taken(run[1..])
  }

  lemma {:induction false} RunExtra(p: Program, u: State, v: State, k: nat, m: Message, run: seq<Action>)
    requires Shaped(p, u) && Shaped(p, v) && WithExtra(u, v, k, m) && m.PushMessage?
    requires Legal(p, u, run) && Taken(run) <= k
    ensures Legal(p, v, run)
    ensures WithExtra(Execute(p, u, run), Execute(p, v, run), k - Taken(run), m)
    decreases |run|
  {
    hide Shaped, Apply, Enabled, WithExtra;
    if run != [] {
      var a := run[0];
      StepExtra(p, u, v, k, m, a);
      RunExtra(p, Apply(p, u, a), Apply(p, v, a), if a == Deliver then k - 1 else k, m, run[1..]);
    }
  }

  /** The queued second push. Whatever happens until it is taken happens as it would without it; and
      what it does then is decided then, exactly as for a push made inline: it is harmless if and only
      if the command has not been processed by that time. */
  lemma QueuedRepushIsHarmlessIffNotHandled(p: Program, s: State, l: nat, c: nat, run: seq<Action>)
    requires Reachable(p, s) && Shaped(p, s) && IsChild(p, l, c)
    requires Shaped(p, s.Post(PushMessage(l, c))) && Legal(p, s.Post(PushMessage(l, c)), run) && Taken(run) == |s.queue|
    requires Execute(p, s.Post(PushMessage(l, c)), run).cells[l].status == ACTIVE
    requires forall i :: 0 <= i < |p.kinds| && p.kinds[i].Loop? ==> !p.kinds[i].mode.continuous
    ensures var u := Execute(p, s.Post(PushMessage(l, c)), run);
      && Legal(p, s, run) && u.cells == Execute(p, s, run).cells
      && u.queue == [PushMessage(l, c)] + Execute(p, s, run).queue && Enabled(p, u, Deliver)
      && (c !in u.cells[l].handled ==> EndsByItself(p, Apply(p, u, Deliver), l))
      && (c in u.cells[l].handled ==> NeverSucceeds(p, Apply(p, u, Deliver), l))
      && (!p.kinds[l].mode.transaction ==> (CanFinish(p, Apply(p, u, Deliver), l) <==> c !in u.cells[l].handled))
  {
    var m := PushMessage(l, c);
    PostedExtra(s, m);
    hide Shaped, Legal, Execute, WithExtra, PushBack, Reachable;
    RunExtra(p, s.Post(m), s, |s.queue|, m, run);
    var u, v := Execute(p, s.Post(m), run), Execute(p, s, run);
    ExtraAtFront(u, v, m);
    LoopComplete.ReachableRun(p, s, run);
    TakenPush(p, u, v, l, c);
    RepushIsHarmlessIffNotHandled(p, v, l, c);
  }

  lemma PostedExtra(s: State, m: Message)
    ensures WithExtra(s.Post(m), s, |s.queue|, m)
  {
    assert s.queue[..|s.queue|] == s.queue && s.queue[|s.queue|..] == [];
  }

  lemma ExtraAtFront(u: State, v: State, m: Message)
    requires WithExtra(u, v, 0, m)
    ensures u.cells == v.cells && u.queue == [m] + v.queue && m !in v.queue
  {
    assert v.queue[..0] == [] && v.queue[0..] == v.queue;
  }

  lemma TakenPush(p: Program, u: State, v: State, l: nat, c: nat)
    requires Shaped(p, u) && Shaped(p, v) && IsChild(p, l, c) && u.cells == v.cells
    requires u.queue == [PushMessage(l, c)] + v.queue
    ensures Enabled(p, u, Deliver) && Apply(p, u, Deliver) == PushBack(p, v, l, c)
  {
    assert Popped(u) == v;
  }
}
