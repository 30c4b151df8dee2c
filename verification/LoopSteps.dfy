/** One step of a run: it keeps the invariant, sticks no loop, and uses up the measure. */
module LoopSteps {
  import opened CommandTypes
  import opened LoopMachine
  import opened LoopInvariant

  /** How commands change over steps: a finished command never changes again, except that its
      closed deque may receive commands that were queued for it before. */
  ghost predicate CellSteps(a: Cell, b: Cell) {
    && (a.status == FINISHED ==> b == a.(deque := b.deque) && a.deque <= b.deque)
    && (a.status != INACTIVE ==> b.status != INACTIVE)
    && a.accepted <= b.accepted && a.started <= b.started && a.handled <= b.handled
  }

  ghost predicate Steps(s: State, t: State) {
    |s.cells| == |t.cells| && forall i :: 0 <= i < |s.cells| ==> CellSteps(s.cells[i], t.cells[i])
  }

  lemma StepsTransitive(s: State, t: State, u: State)
    requires Steps(s, t) && Steps(t, u)
    ensures Steps(s, u)
  {
    forall i | 0 <= i < |s.cells| ensures CellSteps(s.cells[i], u.cells[i]) {
      assert CellSteps(s.cells[i], t.cells[i]) && CellSteps(t.cells[i], u.cells[i]);
    }
  }

  lemma GrowsSteps(s: State, t: State)
    requires Grows(s, t)
    ensures Steps(s, t)
  {
    forall i | 0 <= i < |s.cells| ensures CellSteps(s.cells[i], t.cells[i]) {
      assert CellGrows(s.cells[i], t.cells[i]);
    }
  }

  function Popped(s: State): State
    requires s.queue != []
  {
    s.(queue := s.queue[1..])
  }

  // ---------------------------------------------------------------- taking a message

  lemma PoppedShaped(p: Program, s: State)
    requires Shaped(p, s) && s.queue != []
    ensures Shaped(p, Popped(s)) && MessageShaped(p, s.queue[0])
  {
    hide CellShaped;
    forall k | 0 <= k < |s.queue[1..]| ensures MessageShaped(p, s.queue[1..][k]) {
      assert s.queue[1..][k] == s.queue[k + 1];
    }
  }

  lemma PoppedChild(p: Program, s: State, d: nat)
    requires Inv(p, s) && s.queue != [] && Shaped(p, Popped(s)) && 0 < d < |s.cells|
    requires s.queue[0].FinishMessage? ==> !s.cells[s.queue[0].loop].open
    ensures ChildOk(p, Popped(s), d)
  {
    assert ChildOk(p, s, d);
    hide LoopOk, MessageOk, QueueOk, CellShaped, MessageShaped;
    assert s.queue == [s.queue[0]] + s.queue[1..];
  }

  lemma PoppedInv(p: Program, s: State)
    requires Inv(p, s) && s.queue != []
    requires s.queue[0].FinishMessage? ==> !s.cells[s.queue[0].loop].open
    ensures Inv(p, Popped(s))
  {
    hide ChildOk, CellShaped, MessageShaped;
    var t := Popped(s);
    PoppedShaped(p, s);
    forall d | 0 < d < |t.cells| ensures ChildOk(p, t, d) {
      PoppedChild(p, s, d);
    }
    forall i | 0 <= i < |t.cells| ensures LoopOk(p, t, i) {
      assert LoopOk(p, s, i);
    }
    forall k | 0 <= k < |t.queue| ensures MessageOk(p, t, t.queue[k]) {
      assert MessageOk(p, s, s.queue[k + 1]);
    }
    forall i, j | 0 <= i < j < |t.queue| ensures Apart(t.queue[i], t.queue[j]) {
      assert Apart(s.queue[i + 1], s.queue[j + 1]);
    }
  }

  lemma PoppedSettled(p: Program, s: State, i: nat)
    requires Shaped(p, s) && s.queue != [] && Shaped(p, Popped(s)) && i < |s.cells|
    requires s.queue[0] != StartMessage(i) && Settled(p, s, i)
    ensures Settled(p, Popped(s), i)
  {
    hide CellShaped, MessageShaped;
    assert s.queue == [s.queue[0]] + s.queue[1..];
  }

  /** Any message may go, except a finish that an open loop still has to process. */
  lemma PopKeeps(p: Program, s: State) returns (t: State)
    requires Inv(p, s) && s.queue != []
    requires s.queue[0].FinishMessage? ==> !s.cells[s.queue[0].loop].open
    ensures t == Popped(s) && Inv(p, t) && Steps(s, t) && Measure(t) < Measure(s)
    ensures forall i :: 0 <= i < |s.cells| && s.queue[0] != StartMessage(i) && Settled(p, s, i) ==> Settled(p, t, i)
  {
    PoppedInv(p, s);
    assert Shaped(p, s) && Shaped(p, Popped(s));
    hide Inv, Shaped, Settled;
    t := Popped(s);
    forall i | 0 <= i < |s.cells| && s.queue[0] != StartMessage(i) && Settled(p, s, i) ensures Settled(p, t, i) {
      PoppedSettled(p, s, i);
    }
  }

  lemma PoppedIsLast(p: Program, s: State)
    requires Inv(p, s) && s.queue != []
    ensures match s.queue[0]
            case StartMessage(l) => StartMessage(l) !in s.queue[1..]
            case FinishMessage(l, _, _) => StartMessage(l) !in s.queue
            case PushMessage(l, c) => PushMessage(l, c) !in s.queue[1..]
  {
    forall k | 0 < k < |s.queue| ensures Apart(s.queue[0], s.queue[k]) {
    }
  }

  // ---------------------------------------------------------------- processing a finish

  ghost predicate ErasedIn(p: Program, s: State, t: State, l: nat, c: nat) {
    && l < |s.cells| && s.queue != [] && s.queue[0].FinishMessage?
    && s.queue[0].loop == l && s.queue[0].command == c
    && s.cells[l].open && t == Erase(Popped(s), l, c)
  }

  lemma {:induction false} WithoutNoDup(q: seq<nat>, c: nat)
    requires NoDup(q)
    ensures NoDup(Without(q, c)) && c !in Without(q, c)
    ensures q != [] && q[0] == c ==> Without(q, c) == q[1..]
  {
    if q != [] && q[0] != c {
      WithoutNoDup(q[1..], c);
      var r := Without(q[1..], c);
      forall k | 0 <= k < |r| ensures r[k] != q[0] {
        assert r[k] in q[1..];
      }
    }
  }

  lemma ErasedShape(p: Program, s: State, t: State, l: nat, c: nat)
    requires Inv(p, s) && ErasedIn(p, s, t, l, c)
    ensures IsChild(p, l, c) && Shaped(p, t) && s.cells[l].status == ACTIVE
    ensures c in s.cells[l].deque && c !in s.cells[l].handled && s.cells[c].status == FINISHED
    ensures s.cells[c].result == s.queue[0].result && NoDup(s.cells[l].deque)
  {
    assert MessageShaped(p, s.queue[0]) && MessageOk(p, s, s.queue[0]);
    assert ChildOk(p, s, c) && LoopOk(p, s, l);
    assert CellShaped(p, s.cells[l], l);
  }

  lemma ErasedChild(p: Program, s: State, t: State, l: nat, c: nat, d: nat)
    requires Inv(p, s) && ErasedIn(p, s, t, l, c) && 0 < d < |s.cells|
    ensures Shaped(p, t) && ChildOk(p, t, d)
  {
    hide LoopOk, MessageOk, CellShaped, MessageShaped;
    ErasedShape(p, s, t, l, c);
    WithoutNoDup(s.cells[l].deque, c);
    assert ChildOk(p, s, d) && ChildOk(p, s, c);
  }

  /** The loop itself, which loses the command it has just processed. */
  lemma ErasedOwnLoop(p: Program, s: State, t: State, l: nat, c: nat)
    requires Inv(p, s) && ErasedIn(p, s, t, l, c)
    ensures LoopOk(p, t, l)
    ensures p.kinds[l].Loop? && !p.kinds[l].mode.multiCommand ==> t.cells[l].started == t.cells[l].handled
  {
    hide MessageOk, CellShaped, MessageShaped, QueueOk;
    ErasedShape(p, s, t, l, c);
    assert LoopOk(p, s, l) && ChildOk(p, s, c);
    var o := s.cells[l];
    WithoutNoDup(o.deque, c);
    hide ChildOk;
    if !p.kinds[l].mode.multiCommand {
      assert c in o.started;
      assert o.started == o.handled + [o.deque[0]];
      assert o.started[|o.handled|] == o.deque[0] == c;
      assert o.accepted == (o.handled + [c]) + o.deque[1..];
    }
  }

  lemma ErasedLoop(p: Program, s: State, t: State, l: nat, c: nat, i: nat)
    requires Inv(p, s) && ErasedIn(p, s, t, l, c) && i < |s.cells|
    ensures LoopOk(p, t, i)
    ensures i == l && p.kinds[l].Loop? && !p.kinds[l].mode.multiCommand ==> t.cells[l].started == t.cells[l].handled
  {
    hide MessageOk, CellShaped, MessageShaped, QueueOk, ChildOk, Without;
    if i == l {
      ErasedOwnLoop(p, s, t, l, c);
    } else {
      assert LoopOk(p, s, i);
    }
  }

  lemma ErasedMessages(p: Program, s: State, t: State, l: nat, c: nat)
    requires Inv(p, s) && ErasedIn(p, s, t, l, c) && Shaped(p, t)
    ensures forall k :: 0 <= k < |t.queue| ==> MessageOk(p, t, t.queue[k])
  {
    hide LoopOk, ChildOk, CellShaped;
    WithoutKeeps(s.cells[l].deque, c);
    forall k | 0 <= k < |t.queue| ensures MessageOk(p, t, t.queue[k]) {
      assert MessageShaped(p, s.queue[k + 1]) && MessageOk(p, s, s.queue[k + 1]);
      assert Apart(s.queue[0], s.queue[k + 1]);
    }
  }

  lemma WithoutKeeps(q: seq<nat>, c: nat)
    ensures forall x :: x != c && x in q ==> x in Without(q, c)
  {
  }

  lemma ErasedSettled(p: Program, s: State, t: State, l: nat, c: nat, i: nat)
    requires Shaped(p, s) && Shaped(p, t) && ErasedIn(p, s, t, l, c)
    requires i < |s.cells| && i != l && Settled(p, s, i)
    ensures Settled(p, t, i)
  {
    assert s.queue == [s.queue[0]] + s.queue[1..];
  }

  lemma EraseKeeps(p: Program, s: State, l: nat, c: nat) returns (t: State)
    requires Inv(p, s) && s.queue != [] && s.queue[0].FinishMessage?
    requires s.queue[0].loop == l && s.queue[0].command == c && l < |s.cells| && s.cells[l].open
    ensures t == Erase(Popped(s), l, c) && Inv(p, t) && Steps(s, t) && Measure(t) < Measure(s)
    ensures t.cells[l].status == ACTIVE && t.cells[l].open && p.kinds[l].Loop? && IsChild(p, l, c)
    ensures StartMessage(l) !in t.queue
    ensures !p.kinds[l].mode.multiCommand ==> t.cells[l].started == t.cells[l].handled
    ensures t.cells[l].handled == s.cells[l].handled + [c] && t.cells[c].result == s.queue[0].result
    ensures forall d :: 0 <= d < |s.cells| ==> t.cells[d].result == s.cells[d].result
    ensures forall i :: 0 <= i < |s.cells| && i != l && Settled(p, s, i) ==> Settled(p, t, i)
  {
    hide LoopOk, ChildOk, MessageOk, CellShaped, MessageShaped;
    t := Erase(Popped(s), l, c);
    ErasedShape(p, s, t, l, c);
    PoppedIsLast(p, s);
    WorkUpdate(s.cells, l, t.cells[l]);
    forall d | 0 < d < |t.cells| ensures ChildOk(p, t, d) {
      ErasedChild(p, s, t, l, c, d);
    }
    forall i | 0 <= i < |t.cells| ensures LoopOk(p, t, i) {
      ErasedLoop(p, s, t, l, c, i);
    }
    ErasedMessages(p, s, t, l, c);
    ErasedLoop(p, s, t, l, c, l);
    forall i | 0 <= i < |s.cells| && i != l && Settled(p, s, i) ensures Settled(p, t, i) {
      ErasedSettled(p, s, t, l, c, i);
    }
  }

  // ---------------------------------------------------------------- accepting a command

  ghost predicate Acceptable(p: Program, s: State, l: nat, c: nat)
    requires Shaped(p, s)
  {
    IsChild(p, l, c) && (s.cells[l].open ==> c !in s.cells[l].accepted && PushMessage(l, c) !in s.queue)
  }

  lemma AcceptedChild(p: Program, s: State, l: nat, c: nat, d: nat)
    requires Inv(p, s) && Acceptable(p, s, l, c) && 0 < d < |s.cells|
    ensures ChildOk(p, Accept(s, l, c), d)
  {
    hide LoopOk, MessageOk, CellShaped, MessageShaped, QueueOk;
    assert ChildOk(p, s, d) && ChildOk(p, s, c);
  }

  lemma AcceptedLoop(p: Program, s: State, l: nat, c: nat, i: nat)
    requires Inv(p, s) && Acceptable(p, s, l, c) && i < |s.cells|
    ensures LoopOk(p, Accept(s, l, c), i)
  {
    hide MessageOk, CellShaped, MessageShaped, QueueOk;
    assert LoopOk(p, s, i) && ChildOk(p, s, c);
    var t := Accept(s, l, c);
    if i == l && s.cells[l].open && !p.kinds[l].mode.multiCommand {
      var o := s.cells[l];
      assert t.cells[l].accepted == o.handled + (o.deque + [c]);
    }
  }

  lemma AcceptShape(p: Program, s: State, l: nat, c: nat)
    requires Shaped(p, s) && IsChild(p, l, c)
    ensures Shaped(p, Accept(s, l, c)) && Measure(Accept(s, l, c)) == Measure(s)
  {
    assert CellShaped(p, s.cells[l], l);
    WorkUpdate(s.cells, l, Accept(s, l, c).cells[l]);
  }

  lemma AcceptSteps(p: Program, s: State, l: nat, c: nat)
    requires Inv(p, s) && Acceptable(p, s, l, c)
    ensures Steps(s, Accept(s, l, c))
    ensures s.cells[l].open ==> c !in s.cells[l].deque
  {
    assert ChildOk(p, s, c) && LoopOk(p, s, l);
    assert s.cells[l].open <==> s.cells[l].status != FINISHED by {
      ChildOwnerIsLoop(p, l, c);
    }
    hide LoopOk, ChildOk, MessageOk, QueueOk, MessageShaped, CellShaped;
  }

  lemma ChildOwnerIsLoop(p: Program, l: nat, c: nat)
    requires p.WellFormed() && IsChild(p, l, c)
    ensures l < |p.kinds| && p.kinds[l].Loop?
  {
  }

  lemma AcceptKeepsInv(p: Program, s: State, l: nat, c: nat)
    requires Inv(p, s) && Acceptable(p, s, l, c)
    ensures Inv(p, Accept(s, l, c))
  {
    hide LoopOk, ChildOk, CellShaped;
    var t := Accept(s, l, c);
    AcceptShape(p, s, l, c);
    AcceptSteps(p, s, l, c);
    forall d | 0 < d < |t.cells| ensures ChildOk(p, t, d) {
      AcceptedChild(p, s, l, c, d);
    }
    forall i | 0 <= i < |t.cells| ensures LoopOk(p, t, i) {
      AcceptedLoop(p, s, l, c, i);
    }
    forall k | 0 <= k < |t.queue| ensures MessageOk(p, t, t.queue[k]) {
      assert MessageShaped(p, s.queue[k]) && MessageOk(p, s, s.queue[k]);
    }
  }

  lemma AcceptedSettled(p: Program, s: State, l: nat, c: nat, i: nat)
    requires l < |s.cells| && Shaped(p, s) && Shaped(p, Accept(s, l, c))
    requires i < |s.cells| && i != l && Settled(p, s, i)
    ensures Settled(p, Accept(s, l, c), i)
  {
  }

  lemma AcceptKeeps(p: Program, s: State, l: nat, c: nat) returns (t: State)
    requires Inv(p, s) && Acceptable(p, s, l, c)
    ensures t == Accept(s, l, c) && Inv(p, t) && Steps(s, t) && Measure(t) == Measure(s)
    ensures forall i :: 0 <= i < |s.cells| && i != l && Settled(p, s, i) ==> Settled(p, t, i)
    ensures s.cells[l].open ==> t.cells[l].deque == s.cells[l].deque + [c]
  {
    hide LoopOk, ChildOk, MessageOk, QueueOk, CellShaped, MessageShaped;
    AcceptShape(p, s, l, c);
    AcceptSteps(p, s, l, c);
    AcceptKeepsInv(p, s, l, c);
    t := Accept(s, l, c);
    forall i | 0 <= i < |s.cells| && i != l && Settled(p, s, i) ensures Settled(p, t, i) {
      AcceptedSettled(p, s, l, c, i);
    }
  }

  // ---------------------------------------------------------------- one whole step

  lemma NextSettlesAll(p: Program, u: State, l: nat) returns (t: State)
    requires Inv(p, u) && Begun(p, u, l) && p.kinds[l].Loop?
    requires forall i :: 0 <= i < |u.cells| && i != l ==> Settled(p, u, i)
    ensures t == Next(p, u, l) && Inv(p, t) && AllSettled(p, t) && Steps(u, t) && Measure(t) <= Measure(u)
  {
    t := NextKeeps(p, u, l);
    hide ChildOk, LoopOk, MessageOk, QueueOk, CellShaped, MessageShaped, Settled;
    GrowsSteps(u, t);
  }

  lemma StartStep(p: Program, s: State) returns (t: State)
    requires Inv(p, s) && AllSettled(p, s) && s.queue != [] && s.queue[0].StartMessage?
    ensures Shaped(p, Popped(s)) && MessageShaped(p, s.queue[0]) && t == Handle(p, Popped(s), s.queue[0])
    ensures Inv(p, t) && AllSettled(p, t) && Steps(s, t) && Measure(t) < Measure(s)
  {
    var l := s.queue[0].loop;
    assert MessageShaped(p, s.queue[0]) && MessageOk(p, s, s.queue[0]) && LoopOk(p, s, l);
    assert Settled(p, s, l);
    PoppedIsLast(p, s);
    var u := PopKeeps(p, s);
    hide ChildOk, LoopOk, MessageOk, QueueOk, CellShaped, Settled;
    t := NextSettlesAll(p, u, l);
    StepsTransitive(s, u, t);
  }

  /** What `processEvent` does once the command is out of the deque. */
  ghost function Proceed(p: Program, u: State, l: nat, r: CommandResult): State
    requires Shaped(p, u) && l < |p.kinds| && p.kinds[l].Loop?
  {
    var mode := p.kinds[l].mode;
    if r == FAILED && !mode.continuous && mode.transaction then FinishLoop(u, l, FAILED) else Next(p, u, l)
  }

  /** A processed failure in a transaction is a reason to finish. */
  lemma FailureFinishable(p: Program, u: State, l: nat, c: nat)
    requires Inv(p, u) && IsChild(p, l, c) && u.cells[l].status == ACTIVE && u.cells[l].open
    requires c in u.cells[l].handled && u.cells[c].result == FAILED && StartMessage(l) !in u.queue
    requires !p.kinds[l].mode.continuous && p.kinds[l].mode.transaction
    requires !p.kinds[l].mode.multiCommand ==> u.cells[l].started == u.cells[l].handled
    ensures Finishable(p, u, l, FAILED)
  {
    hide ChildOk, LoopOk, MessageOk, QueueOk, CellShaped, MessageShaped;
  }

  lemma HandledUntroubled(p: Program, u: State, l: nat, c: nat)
    requires Inv(p, u) && IsChild(p, l, c) && u.cells[l].status == ACTIVE && u.cells[l].open
    requires u.cells[l].handled != [] && u.cells[l].handled[|u.cells[l].handled| - 1] == c
    requires !p.kinds[l].mode.continuous && p.kinds[l].mode.transaction ==>
      u.cells[c].result != FAILED && NoFailure(u, u.cells[l].handled[..|u.cells[l].handled| - 1])
    requires StartMessage(l) !in u.queue
    ensures Begun(p, u, l)
  {
    hide ChildOk, LoopOk, MessageOk, QueueOk, CellShaped, MessageShaped;
    var h := u.cells[l].handled;
    assert h == h[..|h| - 1] + [c];
  }

  lemma ProceedKeeps(p: Program, u: State, l: nat, c: nat, r: CommandResult) returns (t: State)
    requires Inv(p, u) && IsChild(p, l, c) && u.cells[l].status == ACTIVE && u.cells[l].open
    requires u.cells[l].handled != [] && u.cells[l].handled[|u.cells[l].handled| - 1] == c && u.cells[c].result == r
    requires !p.kinds[l].mode.continuous && p.kinds[l].mode.transaction ==>
      NoFailure(u, u.cells[l].handled[..|u.cells[l].handled| - 1])
    requires StartMessage(l) !in u.queue
    requires !p.kinds[l].mode.multiCommand ==> u.cells[l].started == u.cells[l].handled
    requires forall i :: 0 <= i < |u.cells| && i != l ==> Settled(p, u, i)
    ensures t == Proceed(p, u, l, r)
    ensures Inv(p, t) && AllSettled(p, t) && Steps(u, t) && Measure(t) <= Measure(u)
  {
    assert Shaped(p, u) && CellShaped(p, u.cells[l], l);
    hide Inv, Settled, Finishable, Begun, Measure, Next, FinishLoop, CellShaped, MessageShaped;
    LoopOwner(p, u, l, c);
    var mode := p.kinds[l].mode;
    if r == FAILED && !mode.continuous && mode.transaction {
      FailureFinishable(p, u, l, c);
      t := FailedFinishes(p, u, l);
      SettledWhenFinished(p, t, l);
    } else {
      HandledUntroubled(p, u, l, c);
      t := NextSettlesAll(p, u, l);
    }
  }

  lemma LoopOwner(p: Program, u: State, l: nat, c: nat)
    requires Shaped(p, u) && IsChild(p, l, c)
    ensures l < |p.kinds| && p.kinds[l].Loop?
  {
  }

  lemma FailedFinishes(p: Program, u: State, l: nat) returns (t: State)
    requires Inv(p, u) && Finishable(p, u, l, FAILED) && u.cells[l].open && CellShaped(p, u.cells[l], l)
    ensures t == FinishLoop(u, l, FAILED)
    ensures Inv(p, t) && Steps(u, t) && Measure(t) <= Measure(u) && t.cells[l].status == FINISHED
    ensures forall i :: 0 <= i < |u.cells| && Settled(p, u, i) ==> Settled(p, t, i)
  {
    assert Shaped(p, u);
    hide Inv, Settled, Finishable, Measure, Complete, Exit, MessageShaped;
    t := FinishKeeps(p, u, l, FAILED);
    GrowsSteps(u, t);
  }

  lemma FinishOpenStep(p: Program, s: State, l: nat, c: nat, r: CommandResult) returns (t: State)
    requires Inv(p, s) && AllSettled(p, s) && s.queue != [] && s.queue[0] == FinishMessage(l, c, r)
    requires l < |s.cells| && s.cells[l].open
    ensures Shaped(p, Erase(Popped(s), l, c)) && p.kinds[l].Loop? && t == Proceed(p, Erase(Popped(s), l, c), l, r)
    ensures Inv(p, t) && AllSettled(p, t) && Steps(s, t) && Measure(t) < Measure(s)
  {
    hide ChildOk, LoopOk, MessageOk, QueueOk, CellShaped, Settled;
    ErasedSoFar(p, s, l, c);
    var u := EraseKeeps(p, s, l, c);
    var h := s.cells[l].handled;
    assert (h + [c])[..|h|] == h;
    t := ProceedKeeps(p, u, l, c, r);
    StepsTransitive(s, u, t);
  }

  lemma FinishStep(p: Program, s: State) returns (t: State)
    requires Inv(p, s) && AllSettled(p, s) && s.queue != [] && s.queue[0].FinishMessage?
    ensures Shaped(p, Popped(s)) && MessageShaped(p, s.queue[0]) && t == Handle(p, Popped(s), s.queue[0])
    ensures Inv(p, t) && AllSettled(p, t) && Steps(s, t) && Measure(t) < Measure(s)
  {
    hide ChildOk, LoopOk, MessageOk, QueueOk, Settled;
    var FinishMessage(l, c, r) := s.queue[0];
    assert MessageShaped(p, s.queue[0]);
    if s.cells[l].open {
      t := FinishOpenStep(p, s, l, c, r);
    } else {
      t := PopKeeps(p, s);
    }
  }

  lemma SettledWhenFinished(p: Program, t: State, l: nat)
    requires Shaped(p, t) && l < |t.cells| && t.cells[l].status == FINISHED
    ensures Settled(p, t, l)
  {
  }

  lemma ErasedSoFar(p: Program, s: State, l: nat, c: nat)
    requires Inv(p, s) && AllSettled(p, s) && s.queue != [] && s.queue[0].FinishMessage?
    requires s.queue[0].loop == l && s.queue[0].command == c && l < |s.cells| && s.cells[l].open
    ensures p.kinds[l].Loop? && Untroubled(p, s, l)
  {
    ErasedShape(p, s, Erase(Popped(s), l, c), l, c);
    assert Settled(p, s, l);
  }

  lemma PushKeeps(p: Program, s: State, l: nat, c: nat) returns (t: State)
    requires Inv(p, s) && AllSettled(p, s) && Acceptable(p, s, l, c)
    ensures t == PushBack(p, s, l, c)
    ensures Inv(p, t) && AllSettled(p, t) && Steps(s, t) && Measure(t) <= Measure(s)
  {
    var u := AcceptKeeps(p, s, l, c);
    assert Settled(p, s, l) && LoopOk(p, u, l);
    var o := u.cells[l];
    if o.status == ACTIVE && (|o.deque| == 1 || p.kinds[l].mode.multiCommand) {
      hide ChildOk, MessageOk, QueueOk, CellShaped, Settled, Measure;
      t := NextSettlesAll(p, u, l);
      StepsTransitive(s, u, t);
    } else {
      t := u;
      AcceptedBehind(p, s, l, c);
    }
  }

  /** A command accepted behind others, or by a loop that is not ACTIVE, changes nothing yet. */
  lemma AcceptedBehind(p: Program, s: State, l: nat, c: nat)
    requires IsChild(p, l, c) && Shaped(p, s) && Shaped(p, Accept(s, l, c)) && Settled(p, s, l)
    requires var o := Accept(s, l, c).cells[l];
      o.status == ACTIVE ==> |o.deque| != 1 && !p.kinds[l].mode.multiCommand
    ensures Settled(p, Accept(s, l, c), l)
  {
  }

  lemma DeliverKeeps(p: Program, s: State) returns (t: State)
    requires Inv(p, s) && AllSettled(p, s) && s.queue != []
    ensures t == Apply(p, s, Deliver)
    ensures Inv(p, t) && AllSettled(p, t) && Steps(s, t) && Measure(t) < Measure(s)
  {
    match s.queue[0]
    case StartMessage(l) =>
      t := StartStep(p, s);
    case FinishMessage(l, c, r) =>
      t := FinishStep(p, s);
    case PushMessage(l, c) =>
      assert MessageShaped(p, s.queue[0]) && MessageOk(p, s, s.queue[0]);
      PoppedIsLast(p, s);
      var u := PopKeeps(p, s);
      t := PushKeeps(p, u, l, c);
      StepsTransitive(s, u, t);
  }

  lemma ActivatedMessage(p: Program, s: State, m: Message)
    requires Inv(p, s) && s.cells[0].status == INACTIVE && m in s.queue
    ensures Shaped(p, Activate(s, 0)) && MessageShaped(p, m) && MessageOk(p, Activate(s, 0), m)
    ensures Apart(m, StartMessage(0))
  {
    hide LoopOk;
    var k :| 0 <= k < |s.queue| && s.queue[k] == m;
    assert MessageShaped(p, s.queue[k]) && MessageOk(p, s, s.queue[k]);
    if m.FinishMessage? {
      assert ChildOk(p, s, m.command);
    }
    forall i | 0 <= i < |s.cells| ensures CellShaped(p, Activate(s, 0).cells[i], i) {
      assert CellShaped(p, s.cells[i], i);
    }
  }

  lemma ActivatedShaped(p: Program, s: State)
    requires Shaped(p, s)
    ensures Shaped(p, Activate(s, 0))
  {
    hide MessageShaped;
    forall i | 0 <= i < |s.cells| ensures CellShaped(p, Activate(s, 0).cells[i], i) {
      assert CellShaped(p, s.cells[i], i);
    }
  }

  lemma ActivatedLoop(p: Program, s: State, i: nat)
    requires Inv(p, s) && s.cells[0].status == INACTIVE && Shaped(p, Activate(s, 0)) && i < |s.cells|
    ensures LoopOk(p, Activate(s, 0), i)
  {
    assert LoopOk(p, s, i);
    hide ChildOk, MessageOk, QueueOk, CellShaped, MessageShaped;
  }

  lemma ActivatedChild(p: Program, s: State, d: nat)
    requires Inv(p, s) && s.cells[0].status == INACTIVE && Shaped(p, Activate(s, 0)) && 0 < d < |s.cells|
    ensures ChildOk(p, Activate(s, 0), d)
  {
    assert ChildOk(p, s, d);
    hide LoopOk, MessageOk, QueueOk, CellShaped, MessageShaped;
  }

  lemma ActivatedSettled(p: Program, s: State, i: nat)
    requires Shaped(p, s) && s.cells[0].status == INACTIVE && Shaped(p, Activate(s, 0))
    requires 0 < i < |s.cells| && Settled(p, s, i)
    ensures Settled(p, Activate(s, 0), i)
  {
    hide MessageShaped;
    assert CellShaped(p, s.cells[i], i);
  }

  lemma ActivatedCells(p: Program, s: State)
    requires Inv(p, s) && s.cells[0].status == INACTIVE
    ensures Shaped(p, Activate(s, 0))
    ensures forall d :: 0 < d < |s.cells| ==> ChildOk(p, Activate(s, 0), d)
    ensures forall i :: 0 <= i < |s.cells| ==> LoopOk(p, Activate(s, 0), i)
    ensures forall i :: 0 < i < |s.cells| && Settled(p, s, i) ==> Settled(p, Activate(s, 0), i)
  {
    assert Shaped(p, s);
    ActivatedShaped(p, s);
    hide Inv, ChildOk, LoopOk, Settled, CellShaped, MessageShaped;
    forall d | 0 < d < |s.cells| ensures ChildOk(p, Activate(s, 0), d) {
      ActivatedChild(p, s, d);
    }
    forall i | 0 <= i < |s.cells| ensures LoopOk(p, Activate(s, 0), i) {
      ActivatedLoop(p, s, i);
    }
    forall i | 0 < i < |s.cells| && Settled(p, s, i) ensures Settled(p, Activate(s, 0), i) {
      ActivatedSettled(p, s, i);
    }
  }

  lemma ActivatedInv(p: Program, s: State)
    requires Inv(p, s) && s.cells[0].status == INACTIVE
    ensures Inv(p, Activate(s, 0))
    ensures forall k :: 0 <= k < |s.queue| ==> Apart(s.queue[k], StartMessage(0))
  {
    hide LoopOk, ChildOk, MessageOk, Settled, CellShaped, MessageShaped, QueueOk, Apart;
    var t := Activate(s, 0);
    ActivatedCells(p, s);
    forall k | 0 <= k < |s.queue|
      ensures Apart(s.queue[k], StartMessage(0)) && MessageOk(p, t, s.queue[k])
    {
      ActivatedMessage(p, s, s.queue[k]);
    }
  }

  lemma ActivatedMeasure(p: Program, s: State)
    requires 0 < |s.cells| && s.cells[0].status == INACTIVE
    ensures Measure(Activate(s, 0)) + 1 < Measure(s) && Steps(s, Activate(s, 0))
  {
    WorkUpdate(s.cells, 0, Activate(s, 0).cells[0]);
  }

  lemma ActivatedBegun(p: Program, s: State)
    requires Inv(p, s) && s.cells[0].status == INACTIVE && Shaped(p, Activate(s, 0))
    ensures Begun(p, Activate(s, 0), 0)
  {
    assert LoopOk(p, s, 0);
    InactiveIsFresh(p, s, 0);
    hide LoopOk, ChildOk, MessageOk, CellShaped, MessageShaped, QueueOk;
  }

  lemma ActivateRootKeeps(p: Program, s: State) returns (t: State)
    requires Inv(p, s) && s.cells[0].status == INACTIVE
    ensures t == Activate(s, 0) && Inv(p, t) && Steps(s, t) && Measure(t) + 1 < Measure(s)
    ensures t.queue == s.queue && Begun(p, t, 0)
    ensures forall i :: 0 < i < |s.cells| && Settled(p, s, i) ==> Settled(p, t, i)
    ensures forall k :: 0 <= k < |s.queue| ==> Apart(s.queue[k], StartMessage(0))
  {
    ActivatedInv(p, s);
    hide LoopOk, ChildOk, MessageOk, Settled, CellShaped, MessageShaped, QueueOk, Apart, Begun, Measure, Steps;
    t := Activate(s, 0);
    ActivatedCells(p, s);
    ActivatedMeasure(p, s);
    ActivatedBegun(p, s);
  }

  lemma PostKeeps(p: Program, s: State, m: Message) returns (t: State)
    requires Inv(p, s) && MessageShaped(p, m) && MessageOk(p, s, m) && !m.FinishMessage?
    requires forall k :: 0 <= k < |s.queue| ==> Apart(s.queue[k], m)
    ensures t == s.Post(m) && Inv(p, t) && Steps(s, t) && Measure(t) == Measure(s) + 1
    ensures forall i ::
      0 <= i < |s.cells| && (if m == StartMessage(i) then Untroubled(p, s, i) else Settled(p, s, i)) ==>
        Settled(p, t, i)
  {
    t := s.Post(m);
    PostKeepsCells(p, s, m);
    hide ChildOk, LoopOk, Measure;
    forall k | 0 <= k < |t.queue| ensures MessageOk(p, t, t.queue[k]) {
      assert k < |s.queue| ==> MessageOk(p, s, s.queue[k]);
    }
    assert Measure(t) == Measure(s) + 1 by {
      PostMeasure(s, m);
    }
  }

  lemma PostMeasure(s: State, m: Message)
    ensures Measure(s.Post(m)) == Measure(s) + 1
  {
  }

  lemma PostKeepsCells(p: Program, s: State, m: Message)
    requires Inv(p, s) && MessageShaped(p, m)
    ensures Shaped(p, s.Post(m))
    ensures forall d :: 0 < d < |s.cells| ==> ChildOk(p, s.Post(m), d)
    ensures forall i :: 0 <= i < |s.cells| ==> LoopOk(p, s.Post(m), i)
  {
    hide MessageOk, QueueOk, CellShaped;
    var t := s.Post(m);
    forall d | 0 < d < |t.cells| ensures ChildOk(p, t, d) {
      assert ChildOk(p, s, d);
    }
    forall i | 0 <= i < |t.cells| ensures LoopOk(p, t, i) {
      assert LoopOk(p, s, i);
    }
  }

  lemma StartRootKeeps(p: Program, s: State, onThread: bool) returns (t: State)
    requires Inv(p, s) && AllSettled(p, s) && s.cells[0].status == INACTIVE
    ensures t == Apply(p, s, StartRoot(onThread))
    ensures Inv(p, t) && AllSettled(p, t) && Steps(s, t) && Measure(t) < Measure(s)
  {
    hide ChildOk, LoopOk, MessageOk, QueueOk, CellShaped, Settled, Measure, Apart, Begun;
    var u := ActivateRootKeeps(p, s);
    if onThread || p.kinds[0].Leaf? {
      t := BeginKeeps(p, u, 0);
      GrowsSteps(u, t);
    } else {
      RootStartMessage(p, u);
      t := PostKeeps(p, u, StartMessage(0));
    }
    StepsTransitive(s, u, t);
  }

  lemma RootStartMessage(p: Program, u: State)
    requires Inv(p, u) && Begun(p, u, 0) && p.kinds[0].Loop?
    ensures MessageShaped(p, StartMessage(0)) && MessageOk(p, u, StartMessage(0))
    ensures u.cells[0].open && Untroubled(p, u, 0)
  {
  }

  lemma OfferKeeps(p: Program, s: State, l: nat, c: nat, onThread: bool) returns (t: State)
    requires Inv(p, s) && AllSettled(p, s) && Enabled(p, s, Offer(l, c, onThread))
    ensures t == Apply(p, s, Offer(l, c, onThread))
    ensures Inv(p, t) && AllSettled(p, t) && Steps(s, t) && Measure(t) <= Measure(s) + 1
  {
    if !s.cells[l].open {
      t := s;
    } else if onThread {
      t := PushKeeps(p, s, l, c);
    } else {
      forall k | 0 <= k < |s.queue| ensures Apart(s.queue[k], PushMessage(l, c)) {
        assert MessageShaped(p, s.queue[k]);
      }
      t := PostKeeps(p, s, PushMessage(l, c));
    }
  }

  lemma LeafStep(p: Program, s: State, c: nat) returns (t: State)
    requires Inv(p, s) && AllSettled(p, s) && Enabled(p, s, FinishLeaf(c))
    ensures t == Apply(p, s, FinishLeaf(c))
    ensures Inv(p, t) && AllSettled(p, t) && Steps(s, t) && Measure(t) < Measure(s)
  {
    LeafFinishable(p, s, c);
    hide Inv, Finishable, Settled, CellShaped, MessageShaped, Complete, Measure;
    t := FinishKeeps(p, s, c, p.kinds[c].result);
    GrowsSteps(s, t);
  }

  /** Every step keeps the invariant and leaves no loop stuck; all but an offer use up the measure. */
  lemma StepKeeps(p: Program, s: State, a: Action) returns (t: State)
    requires Inv(p, s) && AllSettled(p, s) && Enabled(p, s, a)
    ensures t == Apply(p, s, a)
    ensures Inv(p, t) && AllSettled(p, t) && Steps(s, t)
    ensures if a.Offer? then Measure(t) <= Measure(s) + 1 else Measure(t) < Measure(s)
  {
    hide ChildOk, LoopOk, MessageOk, QueueOk, CellShaped, MessageShaped, Settled, Steps, Measure;
    match a
    case Deliver =>
      t := DeliverKeeps(p, s);
    case FinishLeaf(c) =>
      t := LeafStep(p, s, c);
    case StartRoot(onThread) =>
      t := StartRootKeeps(p, s, onThread);
    case Offer(l, c, onThread) =>
      t := OfferKeeps(p, s, l, c, onThread);
  }
}
