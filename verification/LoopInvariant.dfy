/** What every step of the command machine keeps. */
module LoopInvariant {
  import opened CommandTypes
  import opened LoopMachine

  ghost predicate NoDup(q: seq<nat>) {
    forall i, j :: 0 <= i < j < |q| ==> q[i] != q[j]
  }

  /** A command `c` as seen from its owner. */
  ghost predicate ChildOk(p: Program, s: State, c: nat)
    requires |s.cells| == |p.kinds| == |p.owner| && 0 < c < |p.kinds| && p.owner[c] < |p.kinds|
  {
    var l := p.owner[c];
    var o := s.cells[l];
    var k := s.cells[c];
    && k.listeners == (if k.status == INACTIVE then [] else [l])
    && (k.status != INACTIVE ==> c in o.accepted && o.status != INACTIVE)
    && (c in o.handled ==> c in o.accepted && k.status == FINISHED)
    && (o.open && c in o.accepted ==> (c in o.deque <==> c !in o.handled))
    && (o.open && c in o.deque ==> c in o.accepted)
    && (o.open && c in o.deque && k.status == FINISHED ==> FinishMessage(l, c, k.result) in s.queue)
    && (c in o.started <==> c in o.accepted && k.status != INACTIVE)
  }

  /** Why a finished loop has the result it has. */
  ghost predicate ResultOk(p: Program, s: State, l: nat)
    requires |s.cells| == |p.kinds| && l < |p.kinds| && p.kinds[l].Loop?
  {
    var o := s.cells[l];
    var mode := p.kinds[l].mode;
    && !mode.continuous
    && (match o.result
        case SUCCESS =>
          && (forall c :: c in o.accepted ==> c in o.handled)
          && (mode.transaction ==> NoFailure(s, o.handled))
        case FAILED => mode.transaction && !NoFailure(s, o.handled)
        case ABORTED => false)
  }

  ghost predicate NoFailure(s: State, cs: seq<nat>) {
    forall c :: c in cs && c < |s.cells| ==> s.cells[c].result != FAILED
  }

  /** Without MultiCommand, starts and finishes follow the order of acceptance. */
  ghost predicate InOrder(o: Cell) {
    && o.started <= o.accepted
    && o.handled <= o.accepted
    && (if o.open then
          && o.accepted == o.handled + o.deque
          && (o.started == o.handled || (o.deque != [] && o.started == o.handled + [o.deque[0]]))
        else o.started == o.handled)
  }

  ghost predicate LoopOk(p: Program, s: State, l: nat)
    requires |s.cells| == |p.kinds| && l < |p.kinds|
  {
    var o := s.cells[l];
    if p.kinds[l].Leaf? then
      !o.open && (o.status == FINISHED ==> o.result == p.kinds[l].result)
    else
      && NoDup(o.accepted) && NoDup(o.handled) && NoDup(o.started)
      && (o.open ==> NoDup(o.deque))
      && (o.open <==> o.status != FINISHED)
      && (o.status == FINISHED ==> ResultOk(p, s, l))
      && (!p.kinds[l].mode.multiCommand ==> InOrder(o))
  }

  ghost predicate MessageOk(p: Program, s: State, m: Message)
    requires Shaped(p, s) && MessageShaped(p, m)
  {
    match m
    case StartMessage(l) => l == 0 && s.cells[l].status == ACTIVE
    case FinishMessage(l, c, r) =>
      && s.cells[c].status == FINISHED && s.cells[c].result == r
      && c !in s.cells[l].handled && (s.cells[l].open ==> c in s.cells[l].deque)
    case PushMessage(l, c) => s.cells[l].open ==> c !in s.cells[l].accepted
  }

  /** What two queued messages, `a` before `b`, say about each other. */
  ghost predicate Apart(a: Message, b: Message) {
    && (a.FinishMessage? && b.FinishMessage? ==> a.command != b.command)
    && (a.PushMessage? && b.PushMessage? ==> a.command != b.command)
    && (b.StartMessage? ==> !a.StartMessage? && !(a.FinishMessage? && a.loop == b.loop))
  }

  ghost predicate QueueOk(q: seq<Message>) {
    forall i, j :: 0 <= i < j < |q| ==> Apart(q[i], q[j])
  }

  ghost predicate Inv(p: Program, s: State) {
    && Shaped(p, s)
    && s.cells[0].listeners == []
    && (forall c :: 0 < c < |s.cells| ==> ChildOk(p, s, c))
    && (forall l :: 0 <= l < |s.cells| ==> LoopOk(p, s, l))
    && (forall k :: 0 <= k < |s.queue| ==> MessageOk(p, s, s.queue[k]))
    && QueueOk(s.queue)
  }

  /** An ACTIVE loop is not stuck: its start is still queued, or its deque is under way. */
  ghost predicate Settled(p: Program, s: State, l: nat)
    requires Shaped(p, s) && l < |p.kinds|
  {
    var o := s.cells[l];
    p.kinds[l].Loop? && o.status == ACTIVE && o.open ==>
      && Untroubled(p, s, l)
      && (StartMessage(l) in s.queue || UnderWay(p, s, l))
  }

  /** No processed failure that should have closed the loop. */
  ghost predicate Untroubled(p: Program, s: State, l: nat)
    requires |s.cells| == |p.kinds| && l < |p.kinds| && p.kinds[l].Loop?
  {
    !p.kinds[l].mode.continuous && p.kinds[l].mode.transaction ==> NoFailure(s, s.cells[l].handled)
  }

  ghost predicate UnderWay(p: Program, s: State, l: nat)
    requires Shaped(p, s) && l < |p.kinds| && p.kinds[l].Loop?
  {
    var o := s.cells[l];
    if o.deque == [] then p.kinds[l].mode.continuous
    else if p.kinds[l].mode.multiCommand then
      forall k :: 0 <= k < |o.deque| ==> s.cells[o.deque[k]].status != INACTIVE
    else s.cells[o.deque[0]].status != INACTIVE
  }

  ghost predicate AllSettled(p: Program, s: State)
    requires Shaped(p, s)
  {
    forall l :: 0 <= l < |s.cells| ==> Settled(p, s, l)
  }

  // ---------------------------------------------------------------- the elementary changes

  /** How commands change while one message is handled. */
  ghost predicate Grows(s: State, t: State) {
    && |s.cells| == |t.cells|
    && s.queue <= t.queue
    && forall i :: 0 <= i < |s.cells| ==> CellGrows(s.cells[i], t.cells[i])
  }

  ghost predicate CellGrows(a: Cell, b: Cell) {
    && (a.status == FINISHED ==> b == a)
    && (a.status != INACTIVE ==> b.status != INACTIVE)
    && (b.status == FINISHED || (b.deque == a.deque && b.open == a.open))
    && b.accepted == a.accepted && b.handled == a.handled && a.started <= b.started
  }

  /** The lower-numbered commands a nested start leaves alone. */
  ghost predicate SameBelow(s: State, t: State, c: nat) {
    |s.cells| == |t.cells| && forall i :: 0 <= i < c && i < |s.cells| ==> t.cells[i] == s.cells[i]
  }

  lemma DeliveriesToOwner(cells: seq<Cell>, l: nat, c: nat, r: CommandResult)
    requires l < |cells|
    ensures Deliveries(cells, [l], c, r) == if cells[l].open then [FinishMessage(l, c, r)] else []
  {
    assert [l][..0] == [];
    assert Deliveries(cells, [], c, r) == [];
  }

  // ---------------------------------------------------------------- how much is left to do

  /** Four units per command not started, two per command under way (so that a finish pays for
      its message), and one per queued message. */
  ghost function Weight(o: Cell): nat {
    match o.status
    case INACTIVE => 4
    case FINISHED => 0
    case _ => 2
  }

  ghost function Work(cells: seq<Cell>): nat {
    if cells == [] then 0 else Work(cells[..|cells| - 1]) + Weight(cells[|cells| - 1])
  }

  ghost function Measure(s: State): nat {
    Work(s.cells) + |s.queue|
  }

  lemma {:induction false} WorkUpdate(cells: seq<Cell>, c: nat, o: Cell)
    requires c < |cells|
    ensures Work(cells[c := o]) + Weight(cells[c]) == Work(cells) + Weight(o)
  {
    var n := |cells| - 1;
    if c < n {
      WorkUpdate(cells[..n], c, o);
      assert cells[c := o][..n] == cells[..n][c := o];
    } else {
      assert cells[c := o][..n] == cells[..n];
    }
  }

  // ---------------------------------------------------------------- starting one command

  ghost predicate Startable(p: Program, s: State, l: nat, c: nat)
    requires Shaped(p, s)
  {
    && IsChild(p, l, c) && s.cells[c].status == INACTIVE
    && s.cells[l].status == ACTIVE && s.cells[l].open && c in s.cells[l].deque
    && (!p.kinds[l].mode.multiCommand ==> c == s.cells[l].deque[0])
  }

  /** `Prepared`, seen at once. */
  ghost predicate StartedIn(s: State, t: State, l: nat, c: nat) {
    && l < c < |s.cells| && t.queue == s.queue
    && t.cells == s.cells[l := s.cells[l].(started := s.cells[l].started + [c])]
                         [c := s.cells[c].(status := ACTIVE, listeners := s.cells[c].listeners + [l])]
  }

  lemma PreparedShape(p: Program, s: State, l: nat, c: nat)
    requires Shaped(p, s) && IsChild(p, l, c)
    ensures Shaped(p, Prepared(s, l, c)) && StartedIn(s, Prepared(s, l, c), l, c)
  {
  }

  lemma StartedMeasure(s: State, t: State, l: nat, c: nat)
    requires StartedIn(s, t, l, c) && s.cells[c].status == INACTIVE
    ensures Measure(t) == Measure(s) - 2
  {
    var o := s.cells[l].(started := s.cells[l].started + [c]);
    WorkUpdate(s.cells, l, o);
    WorkUpdate(s.cells[l := o], c, t.cells[c]);
  }

  lemma StartedChild(p: Program, s: State, t: State, l: nat, c: nat, d: nat)
    requires Shaped(p, s) && Shaped(p, t) && Startable(p, s, l, c) && StartedIn(s, t, l, c)
    requires 0 < d < |s.cells| && ChildOk(p, s, d) && ChildOk(p, s, c)
    ensures ChildOk(p, t, d)
  {
  }

  lemma StartedLoop(p: Program, s: State, t: State, l: nat, c: nat, i: nat)
    requires Shaped(p, s) && Shaped(p, t) && Startable(p, s, l, c) && StartedIn(s, t, l, c)
    requires i < |s.cells| && LoopOk(p, s, i) && ChildOk(p, s, c)
    ensures LoopOk(p, t, i)
  {
    if i == l {
      var o := s.cells[l];
      assert c !in o.started;
      if !p.kinds[l].mode.multiCommand {
        assert o.started != o.handled + [c] by {
          assert c in o.handled + [c];
        }
        assert t.cells[l].started == o.handled + [o.deque[0]] <= o.accepted;
      }
    }
  }

  lemma StartedMessage(p: Program, s: State, t: State, l: nat, c: nat, m: Message)
    requires Shaped(p, s) && Shaped(p, t) && Startable(p, s, l, c) && StartedIn(s, t, l, c)
    requires MessageShaped(p, m) && MessageOk(p, s, m)
    ensures MessageOk(p, t, m)
  {
  }

  lemma StartedSettled(p: Program, s: State, t: State, l: nat, c: nat, i: nat)
    requires Shaped(p, s) && Shaped(p, t) && Startable(p, s, l, c) && StartedIn(s, t, l, c)
    requires i < |s.cells| && i != c && Settled(p, s, i)
    ensures Settled(p, t, i)
  {
  }

  lemma PreparedKeeps(p: Program, s: State, l: nat, c: nat)
    requires Inv(p, s) && Startable(p, s, l, c)
    ensures Inv(p, Prepared(s, l, c))
    ensures Grows(s, Prepared(s, l, c)) && Measure(Prepared(s, l, c)) <= Measure(s)
    ensures forall i :: 0 <= i < |s.cells| && i != c && Settled(p, s, i) ==> Settled(p, Prepared(s, l, c), i)
  {
    hide CellShaped, MessageShaped, LoopOk, MessageOk, QueueOk, Settled;
    var t := Prepared(s, l, c);
    PreparedShape(p, s, l, c);
    StartedMeasure(s, t, l, c);
    assert ChildOk(p, s, c);
    forall d | 0 < d < |t.cells| ensures ChildOk(p, t, d) {
      StartedChild(p, s, t, l, c, d);
    }
    forall i | 0 <= i < |t.cells| ensures LoopOk(p, t, i) {
      StartedLoop(p, s, t, l, c, i);
    }
    forall k | 0 <= k < |t.queue| ensures MessageOk(p, t, t.queue[k]) {
      StartedMessage(p, s, t, l, c, t.queue[k]);
    }
    forall i | 0 <= i < |s.cells| && i != c && Settled(p, s, i) ensures Settled(p, t, i) {
      StartedSettled(p, s, t, l, c, i);
    }
  }

  // ---------------------------------------------------------------- finishing one command

  ghost predicate Finishable(p: Program, s: State, c: nat, r: CommandResult)
    requires Shaped(p, s)
  {
    && c < |s.cells| && s.cells[c].status == ACTIVE
    && match p.kinds[c]
       case Leaf(result, _) => r == result
       case Loop(mode) =>
         && s.cells[c].open && StartMessage(c) !in s.queue && !mode.continuous
         && (!mode.multiCommand ==> s.cells[c].started == s.cells[c].handled)
         && (match r
             case SUCCESS =>
               && (forall d :: d in s.cells[c].accepted ==> d in s.cells[c].handled)
               && (mode.transaction ==> NoFailure(s, s.cells[c].handled))
             case FAILED => mode.transaction && !NoFailure(s, s.cells[c].handled)
             case ABORTED => false)
  }

  /** The message a finish posts: to the owner, while its channel is open. */
  ghost function Notice(p: Program, s: State, c: nat, r: CommandResult): seq<Message>
    requires Shaped(p, s) && c < |s.cells|
  {
    if 0 < c && s.cells[p.owner[c]].open then [FinishMessage(p.owner[c], c, r)] else []
  }

  ghost predicate FinishedIn(p: Program, s: State, t: State, c: nat, r: CommandResult)
    requires Shaped(p, s)
  {
    && c < |s.cells|
    && t.queue == s.queue + Notice(p, s, c, r)
    && t.cells == s.cells[c := s.cells[c].(status := FINISHED, result := r, open := false,
                                           deque := if s.cells[c].open then [] else s.cells[c].deque)]
  }

  lemma CompleteExit(s: State, c: nat, r: CommandResult)
    requires c < |s.cells| && s.cells[c].status == ACTIVE
    requires forall k :: 0 <= k < |s.cells[c].listeners| ==> s.cells[c].listeners[k] < |s.cells|
    ensures var o := s.cells[c];
      var cells := s.cells[c := o.(status := FINISHED, result := r, open := false,
                                   deque := if o.open then [] else o.deque)];
      Complete(Exit(s, c), c, r) == State(cells, s.queue + Deliveries(cells, o.listeners, c, r))
  {
    hide Deliveries;
    var o := s.cells[c];
    var closed := o.(open := false, deque := if o.open then [] else o.deque);
    assert Exit(s, c).cells == s.cells[c := closed];
    assert s.cells[c := closed][c := closed.(status := FINISHED, result := r)]
        == s.cells[c := closed.(status := FINISHED, result := r)];
  }

  lemma NoDeliveries(cells: seq<Cell>, c: nat, r: CommandResult)
    ensures Deliveries(cells, [], c, r) == []
  {
  }

  lemma OwnerInRange(p: Program, s: State, c: nat)
    requires Shaped(p, s) && 0 < c < |s.cells|
    ensures c < |p.owner| && p.owner[c] < c
  {
    hide CellShaped, MessageShaped;
  }

  /** The event of a command reaches its owner, and only that. */
  lemma DeliveriesAreNotice(p: Program, s: State, c: nat, r: CommandResult, o: Cell)
    requires Shaped(p, s) && c < |s.cells|
    requires s.cells[c].listeners == if c == 0 then [] else [p.owner[c]]
    ensures (forall k :: 0 <= k < |s.cells[c].listeners| ==> s.cells[c].listeners[k] < |s.cells|)
    ensures Deliveries(s.cells[c := o], s.cells[c].listeners, c, r) == Notice(p, s, c, r)
  {
    hide Shaped, Deliveries;
    if 0 < c {
      OwnerInRange(p, s, c);
      DeliveriesToOwner(s.cells[c := o], p.owner[c], c, r);
    } else {
      NoDeliveries(s.cells[c := o], c, r);
    }
  }

  lemma CompleteShape(p: Program, s: State, c: nat, r: CommandResult)
    requires Shaped(p, s) && c < |s.cells| && s.cells[c].status == ACTIVE
    requires s.cells[c].listeners == if c == 0 then [] else [p.owner[c]]
    ensures FinishedIn(p, s, Complete(Exit(s, c), c, r), c, r)
  {
    hide Shaped, Deliveries, Complete, Exit, Notice;
    var o := s.cells[c];
    DeliveriesAreNotice(p, s, c, r, o.(status := FINISHED, result := r, open := false,
                                       deque := if o.open then [] else o.deque));
    CompleteExit(s, c, r);
  }

  lemma FinishedShaped(p: Program, s: State, t: State, c: nat, r: CommandResult)
    requires Shaped(p, s) && FinishedIn(p, s, t, c, r)
    ensures Shaped(p, t)
  {
    assert CellShaped(p, s.cells[c], c);
  }

  lemma FinishedGrows(p: Program, s: State, t: State, c: nat, r: CommandResult)
    requires Shaped(p, s) && FinishedIn(p, s, t, c, r) && s.cells[c].status == ACTIVE
    ensures Grows(s, t) && Measure(t) < Measure(s)
  {
    hide CellShaped, MessageShaped;
    WorkUpdate(s.cells, c, t.cells[c]);
  }

  lemma FinishedChild(p: Program, s: State, t: State, c: nat, r: CommandResult, d: nat)
    requires Shaped(p, s) && Shaped(p, t) && Finishable(p, s, c, r) && FinishedIn(p, s, t, c, r)
    requires 0 < d < |s.cells| && ChildOk(p, s, d)
    ensures ChildOk(p, t, d)
  {
  }

  lemma FinishedLoop(p: Program, s: State, t: State, c: nat, r: CommandResult, i: nat)
    requires Shaped(p, s) && Shaped(p, t) && Finishable(p, s, c, r) && FinishedIn(p, s, t, c, r)
    requires i < |s.cells| && LoopOk(p, s, i) && (0 < c ==> ChildOk(p, s, c))
    requires LoopOk(p, s, c)
    ensures LoopOk(p, t, i)
  {
    HandledElsewhere(p, s, c, i);
    if p.kinds[i].Loop? && s.cells[i].status == FINISHED {
      assert ResultOk(p, t, i);
    }
  }

  /** An unfinished command is in nobody's history of processed finishes. */
  lemma HandledElsewhere(p: Program, s: State, c: nat, i: nat)
    requires Shaped(p, s) && c < |s.cells| && i < |s.cells| && s.cells[c].status != FINISHED
    requires 0 < c ==> ChildOk(p, s, c)
    ensures c !in s.cells[i].handled
  {
    forall k | 0 <= k < |s.cells[i].handled| ensures s.cells[i].handled[k] != c {
      assert IsChild(p, i, s.cells[i].handled[k]);
    }
  }

  lemma FinishedMessage(p: Program, s: State, t: State, c: nat, r: CommandResult, m: Message)
    requires Shaped(p, s) && Shaped(p, t) && Finishable(p, s, c, r) && FinishedIn(p, s, t, c, r)
    requires MessageShaped(p, m) && MessageOk(p, s, m) && m in s.queue
    ensures MessageOk(p, t, m)
    ensures forall n :: n in Notice(p, s, c, r) ==> Apart(m, n)
  {
  }

  lemma FinishedSettled(p: Program, s: State, t: State, c: nat, r: CommandResult, i: nat)
    requires Shaped(p, s) && Shaped(p, t) && Finishable(p, s, c, r) && FinishedIn(p, s, t, c, r)
    requires i < |s.cells| && Settled(p, s, i) && (0 < c ==> ChildOk(p, s, c))
    ensures Settled(p, t, i)
  {
    HandledElsewhere(p, s, c, i);
  }

  lemma FinishKeepsInv(p: Program, s: State, t: State, c: nat, r: CommandResult)
    requires Inv(p, s) && Finishable(p, s, c, r) && FinishedIn(p, s, t, c, r) && Shaped(p, t)
    ensures Inv(p, t)
  {
    if 0 < c {
      assert ChildOk(p, s, c);
    }
    assert LoopOk(p, s, c);
    forall d | 0 < d < |t.cells| ensures ChildOk(p, t, d) {
      FinishedChild(p, s, t, c, r, d);
    }
    forall i | 0 <= i < |t.cells| ensures LoopOk(p, t, i) {
      FinishedLoop(p, s, t, c, r, i);
    }
    forall k | 0 <= k < |s.queue|
      ensures MessageOk(p, t, s.queue[k]) && forall n :: n in Notice(p, s, c, r) ==> Apart(s.queue[k], n)
    {
      FinishedMessage(p, s, t, c, r, s.queue[k]);
    }
  }

  lemma FinishKeeps(p: Program, s: State, c: nat, r: CommandResult) returns (t: State)
    requires Inv(p, s) && Finishable(p, s, c, r)
    ensures t == Complete(Exit(s, c), c, r)
    ensures Inv(p, t) && Grows(s, t) && FinishedIn(p, s, t, c, r) && Measure(t) < Measure(s)
    ensures forall i :: 0 <= i < |s.cells| && Settled(p, s, i) ==> Settled(p, t, i)
  {
    if 0 < c {
      assert ChildOk(p, s, c);
    }
    CompleteShape(p, s, c, r);
    t := Complete(Exit(s, c), c, r);
    FinishedShaped(p, s, t, c, r);
    FinishedGrows(p, s, t, c, r);
    FinishKeepsInv(p, s, t, c, r);
    forall i | 0 <= i < |s.cells| && Settled(p, s, i) ensures Settled(p, t, i) {
      FinishedSettled(p, s, t, c, r, i);
    }
  }

  // ---------------------------------------------------------------- nested starts

  ghost predicate KeepsSettled(p: Program, s: State, t: State)
    requires Shaped(p, s) && Shaped(p, t)
  {
    forall i :: 0 <= i < |s.cells| && Settled(p, s, i) ==> Settled(p, t, i)
  }

  lemma GrowsTransitive(s: State, t: State, u: State)
    requires Grows(s, t) && Grows(t, u)
    ensures Grows(s, u)
  {
    forall i | 0 <= i < |s.cells| ensures CellGrows(s.cells[i], u.cells[i]) {
      assert CellGrows(s.cells[i], t.cells[i]) && CellGrows(t.cells[i], u.cells[i]);
    }
  }

  lemma HandledMeansStarted(p: Program, s: State, c: nat)
    requires Inv(p, s) && c < |s.cells| && s.cells[c].handled != []
    ensures s.cells[c].status != INACTIVE
  {
    var d := s.cells[c].handled[0];
    assert CellShaped(p, s.cells[c], c);
    assert ChildOk(p, s, d);
  }

  /** Nothing that hangs off an INACTIVE loop has begun. */
  lemma InactiveIsFresh(p: Program, s: State, c: nat)
    requires Inv(p, s) && c < |s.cells| && s.cells[c].status == INACTIVE
    ensures s.cells[c].handled == [] && StartMessage(c) !in s.queue
  {
    if s.cells[c].handled != [] {
      HandledMeansStarted(p, s, c);
    }
    forall k | 0 <= k < |s.queue| ensures s.queue[k] != StartMessage(c) {
      assert MessageOk(p, s, s.queue[k]);
    }
  }

  lemma UntroubledKept(p: Program, s: State, t: State, l: nat)
    requires Inv(p, s) && Grows(s, t) && l < |p.kinds| && p.kinds[l].Loop? && Untroubled(p, s, l)
    ensures Untroubled(p, t, l)
  {
    forall c | c in t.cells[l].handled && c < |t.cells| ensures t.cells[c].result == s.cells[c].result {
      var k :| 0 <= k < |s.cells[l].handled| && s.cells[l].handled[k] == c;
      assert CellShaped(p, s.cells[l], l) && IsChild(p, l, s.cells[l].handled[k]);
      assert ChildOk(p, s, c) && CellGrows(s.cells[c], t.cells[c]);
    }
  }

  ghost predicate Begun(p: Program, s: State, c: nat)
    requires Shaped(p, s)
  {
    && c < |s.cells| && s.cells[c].status == ACTIVE
    && (s.cells[c].deque == [] ==> StartMessage(c) !in s.queue)
    && (p.kinds[c].Loop? ==> s.cells[c].open && Untroubled(p, s, c))
  }

  lemma LeafFinishable(p: Program, s: State, c: nat)
    requires Inv(p, s) && c < |s.cells| && s.cells[c].status == ACTIVE && p.kinds[c].Leaf?
    ensures Finishable(p, s, c, p.kinds[c].result) && !s.cells[c].open
  {
    assert LoopOk(p, s, c);
    hide ChildOk, MessageOk, QueueOk, CellShaped, MessageShaped;
  }

  lemma LeafBegins(p: Program, s: State, c: nat) returns (t: State)
    requires Inv(p, s) && Begun(p, s, c) && p.kinds[c].Leaf?
    ensures t == Begin(p, s, c)
    ensures Inv(p, t) && Grows(s, t) && SameBelow(s, t, c) && Measure(t) <= Measure(s)
    ensures KeepsSettled(p, s, t) && Settled(p, t, c)
  {
    LeafFinishable(p, s, c);
    hide Inv, ChildOk, CellShaped, MessageShaped, Finishable, Measure;
    if p.kinds[c].immediate {
      t := FinishKeeps(p, s, c, p.kinds[c].result);
    } else {
      t := s;
    }
  }

  lemma {:induction false} BeginKeeps(p: Program, s: State, c: nat) returns (t: State)
    requires Inv(p, s) && Begun(p, s, c)
    ensures t == Begin(p, s, c)
    ensures Inv(p, t) && Grows(s, t) && SameBelow(s, t, c) && Measure(t) <= Measure(s)
    ensures KeepsSettled(p, s, t) && Settled(p, t, c)
    decreases |p.kinds| - c, 3, 0
  {
    hide ChildOk, LoopOk, MessageOk, QueueOk, CellShaped, MessageShaped;
    hide Measure, Settled, Grows, SameBelow, KeepsSettled;
    match p.kinds[c]
    case Leaf(_, _) =>
      t := LeafBegins(p, s, c);
    case Loop(_) =>
      t := NextKeeps(p, s, c);
  }

  lemma {:induction false} NextKeeps(p: Program, s: State, l: nat) returns (t: State)
    requires Inv(p, s) && Begun(p, s, l) && p.kinds[l].Loop?
    ensures t == Next(p, s, l)
    ensures Inv(p, t) && Grows(s, t) && SameBelow(s, t, l) && Measure(t) <= Measure(s)
    ensures KeepsSettled(p, s, t) && Settled(p, t, l)
    decreases |p.kinds| - l, 2, 0
  {
    hide ChildOk, LoopOk, MessageOk, QueueOk;
    var o := s.cells[l];
    var mode := p.kinds[l].mode;
    assert CellShaped(p, o, l);
    if o.deque != [] {
      if mode.multiCommand {
        t := LaunchAllKeeps(p, s, l, o.deque);
      } else if s.cells[o.deque[0]].status == INACTIVE {
        t := LaunchKeeps(p, s, l, o.deque[0]);
      } else {
        t := s;
      }
      UntroubledKept(p, s, t, l);
    } else if !mode.continuous {
      forall d | d in o.accepted ensures d in o.handled {
        AcceptedThenHandled(p, s, l, d);
      }
      NothingUnderWay(p, s, l);
      t := FinishKeeps(p, s, l, SUCCESS);
    } else {
      t := s;
    }
  }

  lemma NothingUnderWay(p: Program, s: State, l: nat)
    requires Inv(p, s) && l < |s.cells| && s.cells[l].open && s.cells[l].deque == []
    ensures p.kinds[l].Loop? && (!p.kinds[l].mode.multiCommand ==> s.cells[l].started == s.cells[l].handled)
  {
    assert LoopOk(p, s, l);
  }

  lemma AcceptedThenHandled(p: Program, s: State, l: nat, d: nat)
    requires Inv(p, s) && l < |s.cells| && s.cells[l].open && s.cells[l].deque == []
    requires d in s.cells[l].accepted
    ensures d in s.cells[l].handled
  {
    assert CellShaped(p, s.cells[l], l);
    var k :| 0 <= k < |s.cells[l].accepted| && s.cells[l].accepted[k] == d;
    assert ChildOk(p, s, d);
  }

  lemma {:induction false} LaunchAllKeeps(p: Program, s: State, l: nat, cs: seq<nat>) returns (t: State)
    requires Inv(p, s) && l < |s.cells| && p.kinds[l].Loop? && p.kinds[l].mode.multiCommand
    requires s.cells[l].status == ACTIVE && s.cells[l].open
    requires forall k :: 0 <= k < |cs| ==> cs[k] in s.cells[l].deque && IsChild(p, l, cs[k])
    ensures t == LaunchAll(p, s, l, cs)
    ensures Inv(p, t) && Grows(s, t) && SameBelow(s, t, l) && Measure(t) <= Measure(s)
    ensures KeepsSettled(p, s, t)
    ensures t.cells[l] == s.cells[l].(started := t.cells[l].started)
    ensures forall k :: 0 <= k < |cs| ==> t.cells[cs[k]].status != INACTIVE
    decreases |p.kinds| - l, 1, |cs|
  {
    hide CellShaped, MessageShaped, ChildOk, LoopOk, MessageOk, QueueOk, Settled, Measure;
    if cs == [] {
      t := s;
    } else {
      assert cs[0] in s.cells[l].deque && IsChild(p, l, cs[0]);
      var u := s;
      if s.cells[cs[0]].status == INACTIVE {
        u := LaunchKeeps(p, s, l, cs[0]);
      }
      t := LaunchAllKeeps(p, u, l, cs[1..]);
      GrowsTransitive(s, u, t);
    }
  }

  lemma {:induction false} LaunchKeeps(p: Program, s: State, l: nat, c: nat) returns (t: State)
    requires Inv(p, s) && Startable(p, s, l, c)
    ensures t == Launch(p, s, l, c)
    ensures Inv(p, t) && Grows(s, t) && SameBelow(s, t, l) && Measure(t) <= Measure(s)
    ensures KeepsSettled(p, s, t)
    ensures t.cells[l] == s.cells[l].(started := s.cells[l].started + [c])
    ensures t.cells[c].status != INACTIVE
    decreases |p.kinds| - l, 0, 0
  {
    hide CellShaped, MessageShaped, ChildOk, MessageOk, QueueOk, Settled, Measure;
    InactiveIsFresh(p, s, c);
    assert LoopOk(p, s, c);
    PreparedKeeps(p, s, l, c);
    PreparedShape(p, s, l, c);
    var u := Prepared(s, l, c);
    t := BeginKeeps(p, u, c);
    GrowsTransitive(s, u, t);
  }
}
