/** In which order a loop starts its commands, who finishes a leaf, what other threads may do, and how a loop closes. */
module LoopOrder {
  import opened CommandTypes
  import opened LoopMachine
  import opened LoopFrame
  import opened LoopInvariant
  import opened LoopSteps
  import opened LoopTheorems

  /** The commands of `q` that are not in `gone`, in order. */
  function Minus(q: seq<nat>, gone: seq<nat>): seq<nat> {
    if q == [] then []
    else Minus(q[..|q| - 1], gone) + if q[|q| - 1] in gone then [] else [q[|q| - 1]]
  }

  /** Commands are started in the order they were accepted, and wait in that order. */
  ghost predicate Ordered(o: Cell) {
    o.started <= o.accepted && (o.open ==> o.deque == Minus(o.accepted, o.handled))
  }

  ghost predicate AllOrdered(p: Program, s: State)
    requires |s.cells| == |p.kinds|
  {
    forall l :: 0 <= l < |s.cells| && p.kinds[l].Loop? ==> Ordered(s.cells[l])
  }

  /** A leaf that finishes inside its start is never seen ACTIVE, but for `c`, which is just being started. */
  ghost predicate Prompt(p: Program, s: State, c: int)
    requires |s.cells| == |p.kinds|
  {
    forall i :: 0 <= i < |s.cells| && i != c && p.kinds[i].Leaf? && p.kinds[i].immediate ==> s.cells[i].status != ACTIVE
  }

  /** From `s` to `t` no other leaf finishes. */
  ghost predicate Lazy(p: Program, s: State, t: State)
    requires |s.cells| == |t.cells| == |p.kinds|
  {
    forall i :: 0 <= i < |s.cells| && p.kinds[i].Leaf? && !p.kinds[i].immediate && t.cells[i].status == FINISHED ==>
      s.cells[i].status == FINISHED
  }

  // ---------------------------------------------------------------- facts about order

  lemma {:induction false} MinusConcat(a: seq<nat>, b: seq<nat>, gone: seq<nat>)
    ensures Minus(a + b, gone) == Minus(a, gone) + Minus(b, gone)
  {
    if b == [] {
      assert a + b == a;
    } else {
      MinusConcat(a, b[..|b| - 1], gone);
      assert (a + b)[..|a + b| - 1] == a + b[..|b| - 1];
    }
  }

  lemma {:induction false} MinusNone(q: seq<nat>, gone: seq<nat>)
    requires forall k :: 0 <= k < |q| ==> q[k] !in gone
    ensures Minus(q, gone) == q
  {
    if q != [] {
      MinusNone(q[..|q| - 1], gone);
    }
  }

  lemma {:induction false} MinusMembers(q: seq<nat>, gone: seq<nat>, c: nat)
    ensures c in Minus(q, gone) <==> c in q && c !in gone
  {
    if q != [] {
      MinusMembers(q[..|q| - 1], gone, c);
      assert q == q[..|q| - 1] + [q[|q| - 1]];
    }
  }

  lemma WithoutFirst(q: seq<nat>, rest: seq<nat>, x: nat, c: nat)
    requires q == [x] + rest
    ensures Without(q, c) == if x == c then rest else [x] + Without(rest, c)
  {
    assert q[1..] == rest;
  }

  lemma {:induction false} WithoutAppend(a: seq<nat>, x: nat, c: nat)
    ensures c in a ==> Without(a + [x], c) == Without(a, c) + [x]
    ensures c !in a ==> Without(a + [x], c) == if x == c then a else a + [x]
  {
    hide Without;
    if a == [] {
      WithoutFirst([x], [], x, c);
      assert a + [x] == [x] && Without([], c) == [];
    } else {
      var y, rest := a[0], a[1..];
      assert a == [y] + rest && a + [x] == [y] + (rest + [x]);
      WithoutFirst(a, rest, y, c);
      WithoutFirst(a + [x], rest + [x], y, c);
      WithoutAppend(rest, x, c);
      assert [y] + (Without(rest, c) + [x]) == ([y] + Without(rest, c)) + [x];
    }
  }

  lemma MinusAppend(q: seq<nat>, x: nat, gone: seq<nat>)
    ensures Minus(q + [x], gone) == if x in gone then Minus(q, gone) else Minus(q, gone) + [x]
  {
    assert (q + [x])[..|q|] == q;
    assert Minus(q, gone) + [] == Minus(q, gone);
  }

  lemma StillGone(gone: seq<nat>, c: nat, x: nat)
    ensures x in gone + [c] <==> x in gone || x == c
  {
  }

  /** Processing one more command takes exactly it out of what is left. */
  lemma {:induction false} MinusOneMore(q: seq<nat>, gone: seq<nat>, c: nat)
    requires NoDup(q) && c !in gone
    ensures Minus(q, gone + [c]) == Without(Minus(q, gone), c)
  {
    if q != [] {
      var front, x := q[..|q| - 1], q[|q| - 1];
      assert q == front + [x] && (x == c ==> c !in front);
      MinusOneMore(front, gone, c);
      hide Minus, Without, NoDup;
      MinusAppend(front, x, gone);
      MinusAppend(front, x, gone + [c]);
      StillGone(gone, c, x);
      MinusMembers(front, gone, c);
      WithoutAppend(Minus(front, gone), x, c);
    }
  }

  // ---------------------------------------------------------------- which command is next

  /** The commands accepted and not started are the end of the deque, and the others in it are started. */
  ghost predicate Due(s: State, l: nat, cs: seq<nat>)
    requires l < |s.cells|
  {
    var o := s.cells[l];
    && o.started <= o.accepted
    && var due := o.accepted[|o.started|..];
       && |due| <= |cs| && cs[|cs| - |due|..] == due
       && (forall k :: 0 <= k < |due| ==> due[k] < |s.cells| && s.cells[due[k]].status == INACTIVE)
       && (forall k :: 0 <= k < |cs| - |due| ==> cs[k] < |s.cells| && s.cells[cs[k]].status != INACTIVE)
  }

  lemma NotStartedIsInactive(p: Program, s: State, l: nat, k: nat)
    requires Inv(p, s) && l < |s.cells| && p.kinds[l].Loop? && s.cells[l].started <= s.cells[l].accepted
    requires k < |s.cells[l].accepted|
    ensures s.cells[l].accepted[k] < |s.cells|
    ensures s.cells[s.cells[l].accepted[k]].status == INACTIVE <==> |s.cells[l].started| <= k
    ensures |s.cells[l].started| <= k ==> s.cells[l].accepted[k] !in s.cells[l].handled
  {
    var o := s.cells[l];
    var c := o.accepted[k];
    assert CellShaped(p, o, l) && IsChild(p, l, c);
    assert ChildOk(p, s, c) && LoopOk(p, s, l);
    hide CellShaped, MessageShaped, MessageOk, QueueOk, ChildOk;
    assert c in o.accepted;
    if k < |o.started| {
      assert o.started[k] == c;
    }
  }

  /** What is left in the deque is what is left of the started commands, then all the others. */
  lemma MinusSplits(accepted: seq<nat>, n: nat, gone: seq<nat>)
    requires n <= |accepted| && forall k :: n <= k < |accepted| ==> accepted[k] !in gone
    ensures Minus(accepted, gone) == Minus(accepted[..n], gone) + accepted[n..]
    ensures forall c :: c in Minus(accepted[..n], gone) ==> c in accepted[..n]
  {
    assert accepted == accepted[..n] + accepted[n..];
    MinusConcat(accepted[..n], accepted[n..], gone);
    MinusNone(accepted[n..], gone);
    forall c | c in Minus(accepted[..n], gone) ensures c in accepted[..n] {
      MinusMembers(accepted[..n], gone, c);
    }
  }

  lemma StartedIsActive(p: Program, s: State, l: nat, c: nat)
    requires Inv(p, s) && l < |s.cells| && p.kinds[l].Loop? && s.cells[l].started <= s.cells[l].accepted
    requires c in s.cells[l].accepted[..|s.cells[l].started|]
    ensures c < |s.cells| && s.cells[c].status != INACTIVE
  {
    hide Inv;
    var k :| 0 <= k < |s.cells[l].started| && s.cells[l].accepted[..|s.cells[l].started|][k] == c;
    NotStartedIsInactive(p, s, l, k);
  }

  lemma DequeIsDue(p: Program, s: State, l: nat)
    requires Inv(p, s) && l < |s.cells| && p.kinds[l].Loop? && Ordered(s.cells[l]) && s.cells[l].open
    ensures Due(s, l, s.cells[l].deque)
  {
    hide Inv, Minus;
    var o := s.cells[l];
    var n := |o.started|;
    forall k | n <= k < |o.accepted|
      ensures o.accepted[k] < |s.cells| && s.cells[o.accepted[k]].status == INACTIVE && o.accepted[k] !in o.handled
    {
      NotStartedIsInactive(p, s, l, k);
    }
    MinusSplits(o.accepted, n, o.handled);
    var front := Minus(o.accepted[..n], o.handled);
    forall k | 0 <= k < |front| ensures front[k] < |s.cells| && s.cells[front[k]].status != INACTIVE {
      assert front[k] in front;
      StartedIsActive(p, s, l, front[k]);
    }
  }

  lemma DueNext(s: State, l: nat, cs: seq<nat>)
    requires l < |s.cells| && Due(s, l, cs) && cs != []
    ensures cs[0] < |s.cells|
    ensures s.cells[cs[0]].status == INACTIVE ==>
      |s.cells[l].started| < |s.cells[l].accepted| && cs[0] == s.cells[l].accepted[|s.cells[l].started|]
    ensures s.cells[cs[0]].status != INACTIVE ==> Due(s, l, cs[1..])
  {
    var o := s.cells[l];
    var due := o.accepted[|o.started|..];
    if |due| == |cs| {
      assert cs == due;
    } else {
      assert cs[1..][|cs| - 1 - |due|..] == due;
    }
  }

  lemma DueAfter(s: State, u: State, l: nat, cs: seq<nat>)
    requires l < |s.cells| == |u.cells| && Due(s, l, cs) && cs != [] && cs[0] < |s.cells|
    requires s.cells[cs[0]].status == INACTIVE && NoDup(s.cells[l].accepted)
    requires u.cells[l] == s.cells[l].(started := s.cells[l].started + [cs[0]])
    requires forall k :: 0 < k < |cs| && cs[k] < |s.cells| && s.cells[cs[k]].status == INACTIVE ==>
      u.cells[cs[k]] == s.cells[cs[k]]
    ensures Due(u, l, cs[1..])
  {
    var o := s.cells[l];
    var due := o.accepted[|o.started|..];
    assert |due| == |cs| && cs == due;
    assert u.cells[l].accepted[|u.cells[l].started|..] == cs[1..];
    assert forall k :: 0 <= k < |cs| - 1 ==> cs[1..][k] == due[k + 1];
  }

  // ---------------------------------------------------------------- nested starts

  /** What every start keeps of all this. */
  ghost predicate Orderly(p: Program, s: State, t: State)
    requires |s.cells| == |t.cells| == |p.kinds|
  {
    AllOrdered(p, t) && Prompt(p, t, -1) && Lazy(p, s, t)
  }

  lemma CompleteOrderly(p: Program, s: State, c: nat, r: CommandResult)
    requires Shaped(p, s) && c < |s.cells| && AllOrdered(p, s) && Prompt(p, s, c)
    requires s.cells[c].status == ACTIVE && p.kinds[c].Leaf?
    ensures |Complete(s, c, r).cells| == |s.cells|
    ensures p.kinds[c].immediate ==> Orderly(p, s, Complete(s, c, r))
    ensures AllOrdered(p, Complete(s, c, r)) && Prompt(p, Complete(s, c, r), -1)
  {
    assert CellShaped(p, s.cells[c], c);
    hide CellShaped, MessageShaped, Deliveries;
  }

  lemma FinishOrderly(p: Program, s: State, l: nat, r: CommandResult)
    requires Shaped(p, s) && l < |s.cells| && p.kinds[l].Loop? && AllOrdered(p, s) && Prompt(p, s, -1)
    ensures |FinishLoop(s, l, r).cells| == |s.cells| && Orderly(p, s, FinishLoop(s, l, r))
  {
    FinishEnds(p, s, l, r);
    hide CellShaped, MessageShaped, Deliveries, FinishLoop;
  }

  lemma PreparedOrdered(p: Program, s: State, l: nat, c: nat)
    requires Shaped(p, s) && IsChild(p, l, c) && s.cells[c].status == INACTIVE && AllOrdered(p, s) && Prompt(p, s, -1)
    requires |s.cells[l].started| < |s.cells[l].accepted| && c == s.cells[l].accepted[|s.cells[l].started|]
    ensures var u := Prepared(s, l, c);
      |u.cells| == |s.cells| && AllOrdered(p, u) && Prompt(p, u, c) && Lazy(p, s, u)
  {
    hide CellShaped, MessageShaped;
    assert s.cells[l].started + [c] <= s.cells[l].accepted;
  }

  lemma LazyReflexive(p: Program, s: State)
    requires Shaped(p, s)
    ensures Lazy(p, s, s)
  {
  }

  lemma LazyTransitive(p: Program, s: State, t: State, u: State)
    requires |s.cells| == |t.cells| == |u.cells| == |p.kinds| && Lazy(p, s, t) && Lazy(p, t, u)
    ensures Lazy(p, s, u)
  {
  }

  lemma {:induction false} BeginOrderly(p: Program, s: State, c: nat)
    requires Inv(p, s) && Begun(p, s, c) && AllOrdered(p, s) && Prompt(p, s, c)
    ensures Orderly(p, s, Begin(p, s, c))
    decreases |p.kinds| - c, 3, 0
  {
    hide ChildOk, LoopOk, MessageOk, QueueOk, CellShaped, MessageShaped, Complete, Next;
    match p.kinds[c]
    case Leaf(r, _) => CompleteOrderly(p, s, c, r);
    case Loop(_) => NextOrderly(p, s, c);
  }

  lemma {:induction false} NextOrderly(p: Program, s: State, l: nat)
    requires Inv(p, s) && Begun(p, s, l) && p.kinds[l].Loop? && AllOrdered(p, s) && Prompt(p, s, -1)
    ensures Orderly(p, s, Next(p, s, l))
    decreases |p.kinds| - l, 2, 0
  {
    assert CellShaped(p, s.cells[l], l);
    hide ChildOk, LoopOk, MessageOk, QueueOk, MessageShaped, LaunchAll, Launch, FinishLoop, Ordered, Untroubled;
    var o := s.cells[l];
    DequeIsDue(p, s, l);
    if o.deque != [] {
      InDeque(p, s, l);
      if p.kinds[l].mode.multiCommand {
        LaunchAllOrderly(p, s, l, o.deque);
      } else {
        DueNext(s, l, o.deque);
        if s.cells[o.deque[0]].status == INACTIVE {
          LaunchOrderly(p, s, l, o.deque[0]);
        }
      }
    } else {
      FinishOrderly(p, s, l, if o.status == ACTIVE then SUCCESS else ABORTED);
    }
  }

  lemma InDeque(p: Program, s: State, l: nat)
    requires Shaped(p, s) && l < |s.cells|
    ensures forall k :: 0 <= k < |s.cells[l].deque| ==>
      s.cells[l].deque[k] in s.cells[l].deque && IsChild(p, l, s.cells[l].deque[k])
  {
    assert CellShaped(p, s.cells[l], l);
  }

  lemma {:induction false} LaunchAllOrderly(p: Program, s: State, l: nat, cs: seq<nat>)
    requires Inv(p, s) && l < |s.cells| && p.kinds[l].Loop? && p.kinds[l].mode.multiCommand
    requires s.cells[l].status == ACTIVE && s.cells[l].open
    requires forall k :: 0 <= k < |cs| ==> cs[k] in s.cells[l].deque && IsChild(p, l, cs[k])
    requires Due(s, l, cs) && AllOrdered(p, s) && Prompt(p, s, -1)
    ensures Orderly(p, s, LaunchAll(p, s, l, cs))
    decreases |p.kinds| - l, 1, |cs|
  {
    hide Inv, CellShaped, MessageShaped, Due, Ordered, Launch, AllOrdered, Prompt, Lazy;
    ShapedToo(p, s);
    if cs == [] {
      LazyReflexive(p, s);
    } else {
      FirstStartable(p, s, l, cs);
      DueNext(s, l, cs);
      if s.cells[cs[0]].status == INACTIVE {
        var u := LaunchOneOrderly(p, s, l, cs);
        LaunchAllOrderly(p, u, l, cs[1..]);
        LazyTransitive(p, s, u, LaunchAll(p, u, l, cs[1..]));
      } else {
        LaunchAllOrderly(p, s, l, cs[1..]);
      }
    }
  }

  lemma ShapedToo(p: Program, s: State)
    requires Inv(p, s)
    ensures Shaped(p, s)
  {
  }

  lemma FirstStartable(p: Program, s: State, l: nat, cs: seq<nat>)
    requires Inv(p, s) && l < |s.cells| && p.kinds[l].Loop? && p.kinds[l].mode.multiCommand
    requires s.cells[l].status == ACTIVE && s.cells[l].open && cs != []
    requires forall k :: 0 <= k < |cs| ==> cs[k] in s.cells[l].deque && IsChild(p, l, cs[k])
    ensures Shaped(p, s) && IsChild(p, l, cs[0]) && cs[0] < |s.cells|
    ensures s.cells[cs[0]].status == INACTIVE ==> Startable(p, s, l, cs[0])
  {
    hide ChildOk, LoopOk, MessageOk, QueueOk, CellShaped, MessageShaped;
  }

  lemma {:induction false} LaunchOneOrderly(p: Program, s: State, l: nat, cs: seq<nat>) returns (u: State)
    requires Inv(p, s) && cs != [] && Startable(p, s, l, cs[0]) && p.kinds[l].Loop?
    requires forall k :: 0 <= k < |cs| ==> IsChild(p, l, cs[k])
    requires Due(s, l, cs) && AllOrdered(p, s) && Prompt(p, s, -1)
    ensures u == Launch(p, s, l, cs[0]) && Inv(p, u) && Orderly(p, s, u)
    ensures u.cells[l] == s.cells[l].(started := s.cells[l].started + [cs[0]]) && Due(u, l, cs[1..])
    decreases |p.kinds| - l, 0, 1
  {
    AcceptedOnce(p, s, l);
    DueNext(s, l, cs);
    hide Inv, Due, Ordered, Settled, Measure, Launch, NoDup, AllOrdered, Prompt, Lazy, CellShaped, MessageShaped;
    LaunchOrderly(p, s, l, cs[0]);
    u := LaunchKeeps(p, s, l, cs[0]);
    SiblingsStay(p, s, l, cs);
    DueAfter(s, u, l, cs);
  }

  lemma AcceptedOnce(p: Program, s: State, l: nat)
    requires Inv(p, s) && l < |s.cells| && p.kinds[l].Loop?
    ensures NoDup(s.cells[l].accepted)
  {
    assert LoopOk(p, s, l);
  }

  /** Starting one command leaves the other commands of the loop as they are. */
  lemma SiblingStays(p: Program, s: State, l: nat, c: nat, d: nat)
    requires Shaped(p, s) && IsChild(p, l, c) && s.cells[c].status == INACTIVE && s.cells[l].status == ACTIVE
    requires IsChild(p, l, d) && d != c
    ensures |Launch(p, s, l, c).cells| == |s.cells| && Launch(p, s, l, c).cells[d] == s.cells[d]
  {
    hide CellShaped, MessageShaped, Begin;
    var v := Prepared(s, l, c);
    PreparedShape(p, s, l, c);
    BeginFrame(p, v, c);
    assert !Hangs(p, v, c, d);
  }

  lemma SiblingsStay(p: Program, s: State, l: nat, cs: seq<nat>)
    requires Shaped(p, s) && cs != [] && IsChild(p, l, cs[0]) && s.cells[cs[0]].status == INACTIVE
    requires s.cells[l].status == ACTIVE
    requires forall k :: 0 <= k < |cs| ==> IsChild(p, l, cs[k])
    requires NoDup(s.cells[l].accepted) && Due(s, l, cs)
    ensures |Launch(p, s, l, cs[0]).cells| == |s.cells|
    ensures forall k :: 0 < k < |cs| && cs[k] < |s.cells| && s.cells[cs[k]].status == INACTIVE ==>
      Launch(p, s, l, cs[0]).cells[cs[k]] == s.cells[cs[k]]
  {
    var due := s.cells[l].accepted[|s.cells[l].started|..];
    assert |due| == |cs| && cs == due;
    hide Shaped, Due, Launch;
    forall k | 0 < k < |cs| ensures Launch(p, s, l, cs[0]).cells[cs[k]] == s.cells[cs[k]] {
      assert cs[k] == s.cells[l].accepted[|s.cells[l].started| + k];
      assert cs[0] == s.cells[l].accepted[|s.cells[l].started|];
      SiblingStays(p, s, l, cs[0], cs[k]);
    }
  }

  lemma {:induction false} LaunchOrderly(p: Program, s: State, l: nat, c: nat)
    requires Inv(p, s) && Startable(p, s, l, c) && AllOrdered(p, s) && Prompt(p, s, -1)
    requires |s.cells[l].started| < |s.cells[l].accepted| && c == s.cells[l].accepted[|s.cells[l].started|]
    ensures Orderly(p, s, Launch(p, s, l, c))
    decreases |p.kinds| - l, 0, 0
  {
    hide ChildOk, MessageOk, QueueOk, CellShaped, MessageShaped, Ordered, Settled, Measure, Begin;
    InactiveIsFresh(p, s, c);
    assert LoopOk(p, s, c);
    PreparedKeeps(p, s, l, c);
    PreparedShape(p, s, l, c);
    PreparedOrdered(p, s, l, c);
    var u := Prepared(s, l, c);
    BeginOrderly(p, u, c);
    LazyTransitive(p, s, u, Begin(p, u, c));
  }

  // ---------------------------------------------------------------- one step

  /** Only a leaf's own step finishes a leaf that does not finish inside its start. */
  ghost predicate LazyBut(p: Program, s: State, t: State, a: Action)
    requires |s.cells| == |t.cells| == |p.kinds|
  {
    forall i :: 0 <= i < |s.cells| && p.kinds[i].Leaf? && !p.kinds[i].immediate && t.cells[i].status == FINISHED ==>
      s.cells[i].status == FINISHED || a == FinishLeaf(i)
  }

  lemma StartOrderly(p: Program, s: State)
    requires Inv(p, s) && AllSettled(p, s) && s.queue != [] && s.queue[0].StartMessage?
    requires AllOrdered(p, s) && Prompt(p, s, -1)
    ensures Orderly(p, s, Apply(p, s, Deliver))
  {
    var l := s.queue[0].loop;
    assert MessageShaped(p, s.queue[0]) && MessageOk(p, s, s.queue[0]) && LoopOk(p, s, l);
    assert Settled(p, s, l);
    PoppedIsLast(p, s);
    var u := PopKeeps(p, s);
    hide ChildOk, LoopOk, MessageOk, QueueOk, CellShaped, Settled, Ordered;
    NextOrderly(p, u, l);
  }

  lemma ErasedOrdered(p: Program, s: State, l: nat, c: nat)
    requires Inv(p, s) && s.queue != [] && l < |s.cells| && ErasedIn(p, s, Erase(Popped(s), l, c), l, c)
    requires AllOrdered(p, s) && Prompt(p, s, -1) && p.kinds[l].Loop?
    ensures |Erase(Popped(s), l, c).cells| == |s.cells| && Orderly(p, s, Erase(Popped(s), l, c))
  {
    ErasedShape(p, s, Erase(Popped(s), l, c), l, c);
    AcceptedOnce(p, s, l);
    hide ChildOk, LoopOk, MessageOk, QueueOk, CellShaped, MessageShaped, Minus, Without;
    MinusOneMore(s.cells[l].accepted, s.cells[l].handled, c);
  }

  lemma ProceedOrderly(p: Program, u: State, l: nat, c: nat, r: CommandResult)
    requires Inv(p, u) && IsChild(p, l, c) && u.cells[l].status == ACTIVE && u.cells[l].open
    requires u.cells[l].handled != [] && u.cells[l].handled[|u.cells[l].handled| - 1] == c && u.cells[c].result == r
    requires !p.kinds[l].mode.continuous && p.kinds[l].mode.transaction ==>
      NoFailure(u, u.cells[l].handled[..|u.cells[l].handled| - 1])
    requires StartMessage(l) !in u.queue && AllOrdered(p, u) && Prompt(p, u, -1)
    ensures |Proceed(p, u, l, r).cells| == |u.cells| && Orderly(p, u, Proceed(p, u, l, r))
  {
    hide Inv, Begun, AllOrdered, Prompt, Lazy, Next, FinishLoop, CellShaped, MessageShaped;
    ShapedToo(p, u);
    LoopOwner(p, u, l, c);
    var mode := p.kinds[l].mode;
    if r == FAILED && !mode.continuous && mode.transaction {
      FinishOrderly(p, u, l, FAILED);
    } else {
      HandledUntroubled(p, u, l, c);
      NextOrderly(p, u, l);
    }
  }

  lemma ErasedHere(p: Program, s: State, l: nat, c: nat)
    requires s.queue != [] && s.queue[0].FinishMessage? && s.queue[0].loop == l && s.queue[0].command == c
    requires l < |s.cells| && s.cells[l].open
    ensures ErasedIn(p, s, Erase(Popped(s), l, c), l, c)
  {
  }

  lemma FinishOpenOrderly(p: Program, s: State, l: nat, c: nat, r: CommandResult)
    requires Inv(p, s) && AllSettled(p, s) && s.queue != [] && s.queue[0] == FinishMessage(l, c, r)
    requires l < |s.cells| && s.cells[l].open && AllOrdered(p, s) && Prompt(p, s, -1)
    ensures Orderly(p, s, Apply(p, s, Deliver))
  {
    hide Inv, AllSettled, CellShaped, AllOrdered, Prompt, Lazy, Measure, Steps, Next, FinishLoop, ErasedIn;
    ErasedSoFar(p, s, l, c);
    ErasedHere(p, s, l, c);
    ErasedOrdered(p, s, l, c);
    var u := EraseKeeps(p, s, l, c);
    ShapedToo(p, u);
    var h := s.cells[l].handled;
    assert (h + [c])[..|h|] == h;
    ProceedOrderly(p, u, l, c, r);
    LazyTransitive(p, s, u, Proceed(p, u, l, r));
  }

  lemma AcceptOrderly(p: Program, s: State, l: nat, c: nat)
    requires Inv(p, s) && Acceptable(p, s, l, c) && AllOrdered(p, s) && Prompt(p, s, -1)
    ensures |Accept(s, l, c).cells| == |s.cells| && Orderly(p, s, Accept(s, l, c))
  {
    assert ChildOk(p, s, c);
    AcceptSteps(p, s, l, c);
    hide ChildOk, LoopOk, MessageOk, QueueOk, CellShaped, MessageShaped;
    var o := s.cells[l];
    if o.open {
      assert (o.accepted + [c])[..|o.accepted|] == o.accepted;
    }
  }

  /** A command accepted by an ACTIVE loop may move it on at once. */
  lemma AcceptedBegun(p: Program, s: State, l: nat, c: nat)
    requires Inv(p, s) && AllSettled(p, s) && Acceptable(p, s, l, c) && Inv(p, Accept(s, l, c))
    requires Accept(s, l, c).cells[l].status == ACTIVE
    ensures Begun(p, Accept(s, l, c), l) && p.kinds[l].Loop?
  {
    AcceptSteps(p, s, l, c);
    assert Settled(p, s, l) && LoopOk(p, Accept(s, l, c), l);
    hide ChildOk, MessageOk, QueueOk, CellShaped, MessageShaped;
  }

  lemma PushTarget(p: Program, s: State, l: nat, c: nat)
    requires Inv(p, s) && Acceptable(p, s, l, c)
    ensures l < |s.cells| && p.kinds[l].Loop? && IsChild(p, l, c) && Shaped(p, s)
  {
  }

  lemma PushOrderly(p: Program, s: State, l: nat, c: nat)
    requires Inv(p, s) && AllSettled(p, s) && Acceptable(p, s, l, c) && AllOrdered(p, s) && Prompt(p, s, -1)
    ensures Orderly(p, s, PushBack(p, s, l, c))
  {
    hide Inv, AllSettled, CellShaped, AllOrdered, Prompt, Lazy, Begun, Accept, Measure, Acceptable;
    var u := AcceptKeeps(p, s, l, c);
    AcceptOrderly(p, s, l, c);
    PushTarget(p, s, l, c);
    if u.cells[l].status == ACTIVE && (|u.cells[l].deque| == 1 || p.kinds[l].mode.multiCommand) {
      AcceptedBegun(p, s, l, c);
      ShapedToo(p, u);
      NextOrderly(p, u, l);
      LazyTransitive(p, s, u, Next(p, u, l));
    }
  }

  lemma DeliverOrderly(p: Program, s: State)
    requires Inv(p, s) && AllSettled(p, s) && s.queue != [] && AllOrdered(p, s) && Prompt(p, s, -1)
    ensures Orderly(p, s, Apply(p, s, Deliver))
  {
    hide AllOrdered, Prompt, Lazy, QueueOk, ChildOk, LoopOk, Settled;
    match s.queue[0]
    case StartMessage(l) => StartOrderly(p, s);
    case FinishMessage(l, c, r) =>
      assert MessageShaped(p, s.queue[0]);
      if s.cells[l].open {
        FinishOpenOrderly(p, s, l, c, r);
      } else {
        SameCellsOrderly(p, s, Popped(s));
      }
    case PushMessage(l, c) =>
      assert MessageShaped(p, s.queue[0]) && MessageOk(p, s, s.queue[0]);
      PoppedIsLast(p, s);
      var u := PopKeeps(p, s);
      SameCellsOrderly(p, s, u);
      PushOrderly(p, u, l, c);
      LazyTransitive(p, s, u, PushBack(p, u, l, c));
  }

  lemma SameCellsOrderly(p: Program, s: State, t: State)
    requires Shaped(p, s) && t.cells == s.cells && AllOrdered(p, s) && Prompt(p, s, -1)
    ensures Orderly(p, s, t)
  {
  }

  lemma LeafOrderly(p: Program, s: State, c: nat)
    requires Inv(p, s) && Enabled(p, s, FinishLeaf(c)) && AllOrdered(p, s) && Prompt(p, s, -1)
    ensures var t := Apply(p, s, FinishLeaf(c));
      AllOrdered(p, t) && Prompt(p, t, -1) && LazyBut(p, s, t, FinishLeaf(c))
  {
    CompleteEnds(p, s, c, p.kinds[c].result);
    hide CellShaped, MessageShaped, Deliveries, Complete, ChildOk, LoopOk, MessageOk, QueueOk;
  }

  lemma ActivateOrderly(p: Program, s: State)
    requires Inv(p, s) && s.cells[0].status == INACTIVE && AllOrdered(p, s) && Prompt(p, s, -1)
    ensures var u := Activate(s, 0);
      |u.cells| == |s.cells| && AllOrdered(p, u) && Prompt(p, u, 0) && Lazy(p, s, u)
      && (p.kinds[0].Loop? ==> Prompt(p, u, -1))
  {
    hide CellShaped, MessageShaped, ChildOk, LoopOk, MessageOk, QueueOk;
  }

  lemma RootOrderly(p: Program, s: State, onThread: bool)
    requires Inv(p, s) && s.cells[0].status == INACTIVE && AllOrdered(p, s) && Prompt(p, s, -1)
    ensures Orderly(p, s, RootStarted(p, s, onThread))
  {
    ActivateOrderly(p, s);
    hide AllOrdered, Prompt, Lazy, ChildOk, LoopOk, MessageOk, QueueOk, CellShaped, Settled, Apart, Begun;
    var u := ActivateRootKeeps(p, s);
    if onThread || p.kinds[0].Leaf? {
      BeginOrderly(p, u, 0);
      LazyTransitive(p, s, u, Begin(p, u, 0));
    } else {
      SameCellsOrderly(p, u, u.Post(StartMessage(0)));
      LazyTransitive(p, s, u, u.Post(StartMessage(0)));
    }
  }

  lemma OfferOrderly(p: Program, s: State, l: nat, c: nat, onThread: bool)
    requires Inv(p, s) && AllSettled(p, s) && Enabled(p, s, Offer(l, c, onThread))
    requires AllOrdered(p, s) && Prompt(p, s, -1)
    ensures Orderly(p, s, Pushed(p, s, l, c, onThread))
  {
    hide AllOrdered, Prompt, Lazy, ChildOk, LoopOk, MessageOk, QueueOk, CellShaped, Settled;
    if s.cells[l].open && onThread {
      PushOrderly(p, s, l, c);
    } else {
      SameCellsOrderly(p, s, Pushed(p, s, l, c, onThread));
    }
  }

  lemma StepOrderly(p: Program, s: State, a: Action)
    requires Inv(p, s) && AllSettled(p, s) && Enabled(p, s, a) && AllOrdered(p, s) && Prompt(p, s, -1)
    ensures var t := Apply(p, s, a);
      AllOrdered(p, t) && Prompt(p, t, -1) && LazyBut(p, s, t, a)
  {
    hide AllOrdered, Prompt, ChildOk, LoopOk, MessageOk, QueueOk, CellShaped, MessageShaped, Settled;
    match a
    case Deliver => DeliverOrderly(p, s);
    case FinishLeaf(c) => LeafOrderly(p, s, c);
    case StartRoot(onThread) => RootOrderly(p, s, onThread);
    case Offer(l, c, onThread) => OfferOrderly(p, s, l, c, onThread);
  }

  // ---------------------------------------------------------------- closing

  lemma RunsShuts(p: Program, s: State, t: State, d: nat, i: nat)
    requires |s.cells| == |p.owner| && Runs(p, s, t, d) && i < |s.cells|
    ensures |t.cells| == |s.cells| && Shuts(s.cells[i], t.cells[i])
  {
    hide Hangs, FinishBelow, Deliveries;
  }

  lemma HandleShuts(p: Program, s: State, m: Message, i: nat)
    requires Shaped(p, s) && MessageShaped(p, m) && i < |s.cells| && s.cells[i].open
    ensures var t := Handle(p, s, m);
      |t.cells| == |s.cells| && (!t.cells[i].open ==> t.cells[i].deque == [])
  {
    hide Runs, CellShaped;
    match m
    case StartMessage(l) =>
      NextFrame(p, s, l);
      RunsShuts(p, s, Next(p, s, l), l, i);
    case FinishMessage(l, c, r) =>
      if s.cells[l].open {
        var u := Erase(s, l, c);
        EraseShaped(p, s, l, c);
        var mode := p.kinds[l].mode;
        if r == FAILED && !mode.continuous && mode.transaction {
          FinishShuts(p, u, l, FAILED, i);
        } else {
          NextFrame(p, u, l);
          RunsShuts(p, u, Next(p, u, l), l, i);
        }
      }
    case PushMessage(l, c) => PushShuts(p, s, l, c, i);
  }

  lemma FinishShuts(p: Program, s: State, l: nat, r: CommandResult, i: nat)
    requires Shaped(p, s) && l < |s.cells| && i < |s.cells|
    ensures |FinishLoop(s, l, r).cells| == |s.cells| && Shuts(s.cells[i], FinishLoop(s, l, r).cells[i])
  {
    FinishEnds(p, s, l, r);
    RunsShuts(p, s, FinishLoop(s, l, r), l, i);
  }

  lemma PushShuts(p: Program, s: State, l: nat, c: nat, i: nat)
    requires Shaped(p, s) && IsChild(p, l, c) && i < |s.cells| && s.cells[i].open
    ensures var t := PushBack(p, s, l, c);
      |t.cells| == |s.cells| && (!t.cells[i].open ==> t.cells[i].deque == [])
  {
    hide Runs, CellShaped;
    var u := Accept(s, l, c);
    AcceptShape(p, s, l, c);
    if u.cells[l].status == ACTIVE && (|u.cells[l].deque| == 1 || p.kinds[l].mode.multiCommand) {
      NextFrame(p, u, l);
      RunsShuts(p, u, Next(p, u, l), l, i);
    }
  }

  /** A loop that closes gives up every command it had: its deque is empty then, whatever made it close. */
  lemma ClosingEmptiesTheDeque(p: Program, s: State, a: Action, l: nat)
    requires Shaped(p, s) && Enabled(p, s, a) && l < |s.cells| && s.cells[l].open
    ensures var t := Apply(p, s, a);
      |t.cells| == |s.cells| && (!t.cells[l].open ==> t.cells[l].deque == [])
  {
    match a
    case Deliver =>
      PoppedShaped(p, s);
      HandleShuts(p, Popped(s), s.queue[0], l);
    case FinishLeaf(c) => CompleteEnds(p, s, c, p.kinds[c].result);
    case StartRoot(onThread) =>
      hide Runs, CellShaped;
      ActivatedShaped(p, s);
      var u := Activate(s, 0);
      BeginFrame(p, u, 0);
      RunsShuts(p, u, Begin(p, u, 0), 0, l);
    case Offer(m, c, _) => PushShuts(p, s, m, c, l);
  }

  // ---------------------------------------------------------------- whole runs

  lemma {:induction false} RunOrderly(p: Program, s: State, run: seq<Action>)
    requires Inv(p, s) && AllSettled(p, s) && AllOrdered(p, s) && Prompt(p, s, -1) && Legal(p, s, run)
    ensures var t := Execute(p, s, run);
      && AllOrdered(p, t) && Prompt(p, t, -1)
      && forall c: nat :: c < |s.cells| && p.kinds[c].Leaf? && !p.kinds[c].immediate ==>
           t.cells[c].status == FINISHED ==> s.cells[c].status == FINISHED || FinishLeaf(c) in run
    decreases |run|
  {
    hide AllOrdered, Prompt, ChildOk, LoopOk, MessageOk, QueueOk, CellShaped, MessageShaped, Settled, Apply, Enabled;
    if run != [] {
      StepOrderly(p, s, run[0]);
      var t := StepKeeps(p, s, run[0]);
      RunOrderly(p, t, run[1..]);
      assert run == [run[0]] + run[1..];
    }
  }

  lemma InitialOrderly(p: Program)
    requires p.WellFormed()
    ensures |Initial(p).cells| == |p.kinds| && AllOrdered(p, Initial(p)) && Prompt(p, Initial(p), -1)
  {
  }

  /** Whatever the mode, a loop starts its commands in the order in which it accepted them: the
      started ones are a prefix of the accepted ones. While it is open its deque holds exactly what
      is left of that order, first the commands under way and then those that wait. */
  lemma StartsFollowAcceptance(p: Program, s: State, l: nat)
    requires Reachable(p, s) && l < |s.cells| == |p.kinds| && p.kinds[l].Loop?
    ensures s.cells[l].started <= s.cells[l].accepted
    ensures s.cells[l].open ==> s.cells[l].deque == Minus(s.cells[l].accepted, s.cells[l].handled)
  {
    var run :| Legal(p, Initial(p), run) && Execute(p, Initial(p), run) == s;
    InitialKeeps(p);
    InitialOrderly(p);
    RunOrderly(p, Initial(p), run);
    assert Ordered(s.cells[l]);
  }

  /** A leaf that finishes inside its start is never seen ACTIVE, and any other one finishes only
      by a step of its own. */
  lemma LeavesFinishByThemselves(p: Program, run: seq<Action>, c: nat)
    requires p.WellFormed() && Shaped(p, Initial(p)) && Legal(p, Initial(p), run)
    requires c < |p.kinds| && p.kinds[c].Leaf?
    ensures var s := Execute(p, Initial(p), run);
      if p.kinds[c].immediate then s.cells[c].status != ACTIVE
      else s.cells[c].status == FINISHED ==> FinishLeaf(c) in run
  {
    InitialKeeps(p);
    InitialOrderly(p);
    RunOrderly(p, Initial(p), run);
  }

  // ---------------------------------------------------------------- other threads

  /** A call from another thread: it may post, and finish or start no more than its own command. */
  ghost predicate OffThread(p: Program, a: Action)
    requires 0 < |p.kinds|
  {
    match a
    case Deliver => false
    case FinishLeaf(_) => true
    case StartRoot(onThread) => !onThread && p.kinds[0].Loop?
    case Offer(_, _, onThread) => !onThread
  }

  /** What calls from other threads leave alone: every loop's bookkeeping, and what is queued. */
  ghost predicate Untouched(p: Program, s: State, t: State)
    requires |s.cells| == |p.kinds|
  {
    && |t.cells| == |s.cells| && s.queue <= t.queue
    && forall i :: 0 <= i < |s.cells| && p.kinds[i].Loop? ==>
         t.cells[i] == s.cells[i] || (i == 0 && t.cells[i] == s.cells[i].(status := ACTIVE))
  }

  lemma OneListener(p: Program, s: State)
    requires Inv(p, s)
    ensures forall i :: 0 <= i < |s.cells| ==> |s.cells[i].listeners| <= 1
    ensures p.kinds[0].Loop? && s.cells[0].status == INACTIVE ==> s.cells[0].open
  {
    forall i | 0 <= i < |s.cells| ensures |s.cells[i].listeners| <= 1 {
      assert 0 < i ==> ChildOk(p, s, i);
    }
    assert LoopOk(p, s, 0);
  }

  /** The call is waiting for the context, unless its loop had ended. */
  ghost predicate Waits(s: State, a: Action, q: seq<Message>) {
    match a
    case StartRoot(_) => StartMessage(0) in q
    case Offer(l, c, _) => l < |s.cells| && s.cells[l].open ==> PushMessage(l, c) in q
    case _ => true
  }

  lemma OffThreadStep(p: Program, s: State, a: Action)
    requires Inv(p, s) && Enabled(p, s, a) && OffThread(p, a)
    ensures var t := Apply(p, s, a);
      Untouched(p, s, t) && |t.queue| <= |s.queue| + 1 && Waits(s, a, t.queue)
  {
    OneListener(p, s);
    hide CellShaped, MessageShaped, ChildOk, LoopOk, MessageOk, QueueOk;
    if a.FinishLeaf? {
      CompleteEnds(p, s, a.command, p.kinds[a.command].result);
    }
  }

  lemma StillWaits(p: Program, s: State, u: State, a: Action, q: seq<Message>)
    requires Inv(p, s) && Untouched(p, s, u) && Waits(u, a, q)
    ensures Waits(s, a, q)
  {
    if a.Offer? && a.loop < |s.cells| {
      assert LoopOk(p, s, a.loop);
    }
  }

  /** Calls from other threads only post. Whatever other threads do, until the context takes a
      message no loop accepts, starts or processes a command or ends, what is queued stays queued,
      every call adds at most one message, and every push and start to an open loop is queued. */
  lemma {:induction false} OffThreadOnlyPosts(p: Program, s: State, run: seq<Action>)
    requires Inv(p, s) && AllSettled(p, s) && Legal(p, s, run)
    requires forall k :: 0 <= k < |run| ==> OffThread(p, run[k])
    ensures var t := Execute(p, s, run);
      && Untouched(p, s, t) && |t.queue| <= |s.queue| + |run|
      && forall a :: a in run ==> Waits(s, a, t.queue)
    decreases |run|
  {
    hide ChildOk, LoopOk, MessageOk, QueueOk, CellShaped, MessageShaped, Settled, Enabled, Apply;
    if run != [] {
      OffThreadStep(p, s, run[0]);
      var u := StepKeeps(p, s, run[0]);
      OffThreadOnlyPosts(p, u, run[1..]);
      var t := Execute(p, u, run[1..]);
      assert run == [run[0]] + run[1..];
      forall a | a in run ensures Waits(s, a, t.queue) {
        if a != run[0] {
          assert Waits(u, a, t.queue);
          StillWaits(p, s, u, a, t.queue);
        } else {
          assert t.queue == u.queue + t.queue[|u.queue|..];
        }
      }
    }
  }
}
