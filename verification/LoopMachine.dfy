/**
 Command loops that share one FIFO context, as a state machine over command identities.

 A program is a finite tree: command 0 is the root and every other command is owned by exactly
 one loop with a smaller number. A cell holds the fields of one command; `accepted`, `started`
 and `handled` are histories: the commands a loop took into its deque, the ones it
 started and the ones whose finish it processed, in order.
 */
module LoopMachine {
  import opened CommandTypes

  /** A leaf finishes with a fixed result: inside `processStartCommand` when it is immediate,
      otherwise at any later step. */
  datatype Kind = Leaf(result: CommandResult, immediate: bool) | Loop(mode: LoopMode)

  datatype Program = Program(kinds: seq<Kind>, owner: seq<nat>) {
    ghost predicate WellFormed() {
      && 0 < |kinds| == |owner|
      && forall c :: 0 < c < |kinds| ==> owner[c] < c && kinds[owner[c]].Loop?
    }
  }

  datatype Message =
    | StartMessage(loop: nat)
    | FinishMessage(loop: nat, command: nat, result: CommandResult)
    | PushMessage(loop: nat, command: nat)

  datatype Cell = Cell(
    status: Status, result: CommandResult, listeners: seq<nat>,
    open: bool, deque: seq<nat>,
    accepted: seq<nat>, started: seq<nat>, handled: seq<nat>)

  datatype State = State(cells: seq<Cell>, queue: seq<Message>) {
    function Set(c: nat, cell: Cell): State
      requires c < |cells|
    {
      this.(cells := cells[c := cell])
    }

    function Post(m: Message): State {
      this.(queue := queue + [m])
    }
  }

  ghost predicate IsChild(p: Program, l: nat, c: nat) {
    0 < c < |p.kinds| && c < |p.owner| && p.owner[c] == l
  }

  ghost predicate Shaped(p: Program, s: State) {
    && p.WellFormed()
    && |s.cells| == |p.kinds|
    && (forall l :: 0 <= l < |s.cells| ==> CellShaped(p, s.cells[l], l))
    && (forall k :: 0 <= k < |s.queue| ==> MessageShaped(p, s.queue[k]))
  }

  ghost predicate CellShaped(p: Program, o: Cell, l: nat) {
    && o.status != SUSPENDED
    && (forall k :: 0 <= k < |o.deque| ==> IsChild(p, l, o.deque[k]))
    && (forall k :: 0 <= k < |o.accepted| ==> IsChild(p, l, o.accepted[k]))
    && (forall k :: 0 <= k < |o.started| ==> IsChild(p, l, o.started[k]))
    && (forall k :: 0 <= k < |o.handled| ==> IsChild(p, l, o.handled[k]))
    && (forall k :: 0 <= k < |o.listeners| ==> IsChild(p, o.listeners[k], l))
  }

  ghost predicate MessageShaped(p: Program, m: Message) {
    match m
    case StartMessage(l) => l < |p.kinds| && p.kinds[l].Loop?
    case FinishMessage(l, c, _) => IsChild(p, l, c)
    case PushMessage(l, c) => IsChild(p, l, c)
  }

  /** The posts of one fired event: one per listener whose channel is still open. */
  function Deliveries(cells: seq<Cell>, listeners: seq<nat>, c: nat, r: CommandResult): (ms: seq<Message>)
    requires forall k :: 0 <= k < |listeners| ==> listeners[k] < |cells|
    ensures forall k :: 0 <= k < |ms| ==>
      ms[k].FinishMessage? && ms[k].command == c && ms[k].result == r && ms[k].loop in listeners
    ensures |ms| <= |listeners|
  {
    if listeners == [] then []
    else
      var last := listeners[|listeners| - 1];
      Deliveries(cells, listeners[..|listeners| - 1], c, r)
      + if cells[last].open then [FinishMessage(last, c, r)] else []
  }

  /** How many of the listeners can still be reached. */
  function Reached(cells: seq<Cell>, listeners: seq<nat>): nat
    requires forall k :: 0 <= k < |listeners| ==> listeners[k] < |cells|
  {
    if listeners == [] then 0
    else Reached(cells, listeners[..|listeners| - 1]) + if cells[listeners[|listeners| - 1]].open then 1 else 0
  }

  /** A fired event becomes exactly one message per subscription whose channel is open, in the
      order of the subscriptions: the one for subscription `k` is behind those before it. */
  lemma {:induction false} OneDeliveryPerListener(cells: seq<Cell>, listeners: seq<nat>, c: nat, r: CommandResult,
                                                  k: nat)
    requires forall i :: 0 <= i < |listeners| ==> listeners[i] < |cells|
    requires k < |listeners|
    ensures |Deliveries(cells, listeners, c, r)| == Reached(cells, listeners)
    ensures Reached(cells, listeners[..k]) + (if cells[listeners[k]].open then 1 else 0) <= Reached(cells, listeners)
    ensures cells[listeners[k]].open ==>
      Deliveries(cells, listeners, c, r)[Reached(cells, listeners[..k])] == FinishMessage(listeners[k], c, r)
  {
    var n := |listeners| - 1;
    var front := listeners[..n];
    if n > 0 {
      OneDeliveryPerListener(cells, front, c, r, if k < n then k else 0);
      assert k < n ==> listeners[..k] == front[..k] && listeners[k] == front[k];
    }
  }

  /** `ICommand::finished`: only the step from ACTIVE to FINISHED fires the event. */
  function Complete(s: State, c: nat, r: CommandResult): State
    requires c < |s.cells|
    requires forall k :: 0 <= k < |s.cells[c].listeners| ==> s.cells[c].listeners[k] < |s.cells|
  {
    if s.cells[c].status == ACTIVE then
      var t := s.Set(c, s.cells[c].(status := FINISHED, result := r));
      t.(queue := t.queue + Deliveries(t.cells, t.cells[c].listeners, c, r))
    else s
  }

  /** `CommandLoop::exit`: drop the commands and the channel. */
  function Exit(s: State, l: nat): State
    requires l < |s.cells|
  {
    if s.cells[l].open then s.Set(l, s.cells[l].(deque := [], open := false)) else s
  }

  /** `CommandLoop::finished`: a no-op once the channel is gone. */
  function FinishLoop(s: State, l: nat, r: CommandResult): State
    requires l < |s.cells|
    requires forall k :: 0 <= k < |s.cells[l].listeners| ==> s.cells[l].listeners[k] < |s.cells|
  {
    if s.cells[l].open then Complete(Exit(s, l), l, r) else s
  }

  function Subscribe(s: State, c: nat, listener: nat): State
    requires c < |s.cells|
  {
    s.Set(c, s.cells[c].(listeners := s.cells[c].listeners + [listener]))
  }

  /** The compare-and-swap of `startCommand`, from INACTIVE to ACTIVE. */
  function Activate(s: State, c: nat): State
    requires c < |s.cells|
  {
    s.Set(c, s.cells[c].(status := ACTIVE))
  }

  function RecordStart(s: State, l: nat, c: nat): State
    requires l < |s.cells|
  {
    s.Set(l, s.cells[l].(started := s.cells[l].started + [c]))
  }

  /** What a loop does to one of its INACTIVE commands: subscribe, then start it. */
  function Prepared(s: State, l: nat, c: nat): State
    requires l < |s.cells| && c < |s.cells|
  {
    Activate(Subscribe(RecordStart(s, l, c), c, l), c)
  }

  /** `processStartCommand` on the context's own thread. */
  ghost function Begin(p: Program, s: State, c: nat): (t: State)
    requires Shaped(p, s) && c < |s.cells|
    ensures Shaped(p, t)
    decreases |p.kinds| - c, 3, 0
  {
    match p.kinds[c]
    case Leaf(r, immediate) => if immediate then Complete(s, c, r) else s
    case Loop(_) => if s.cells[c].open then Next(p, s, c) else s
  }

  /** `CommandLoop::nextCommand`. */
  ghost function Next(p: Program, s: State, l: nat): (t: State)
    requires Shaped(p, s) && l < |s.cells| && p.kinds[l].Loop?
    ensures Shaped(p, t)
    decreases |p.kinds| - l, 2, 0
  {
    var o := s.cells[l];
    var mode := p.kinds[l].mode;
    if o.deque != [] then
      if !mode.multiCommand then
        if s.cells[o.deque[0]].status == INACTIVE then Launch(p, s, l, o.deque[0]) else s
      else
        LaunchAll(p, s, l, o.deque)
    else if !mode.continuous then
      FinishLoop(s, l, if o.status == ACTIVE then SUCCESS else ABORTED)
    else s
  }

  /** The loop over the deque in MultiCommand mode. */
  ghost function LaunchAll(p: Program, s: State, l: nat, cs: seq<nat>): (t: State)
    requires Shaped(p, s) && l < |s.cells|
    requires forall k :: 0 <= k < |cs| ==> IsChild(p, l, cs[k])
    ensures Shaped(p, t)
    decreases |p.kinds| - l, 1, |cs|
  {
    if cs == [] then s
    else
      assert IsChild(p, l, cs[0]);
      var t := if s.cells[cs[0]].status == INACTIVE then Launch(p, s, l, cs[0]) else s;
      LaunchAll(p, t, l, cs[1..])
  }

  ghost function Launch(p: Program, s: State, l: nat, c: nat): (t: State)
    requires Shaped(p, s) && IsChild(p, l, c)
    ensures Shaped(p, t)
    decreases |p.kinds| - l, 0, 0
  {
    Begin(p, Prepared(s, l, c), c)
  }

  /** `std::find` then `erase` on the deque. */
  function Without(q: seq<nat>, c: nat): (r: seq<nat>)
    ensures forall k :: 0 <= k < |r| ==> r[k] in q
    ensures c !in q ==> r == q
    ensures forall x :: x in q && x != c ==> x in r
  {
    if q == [] then []
    else if q[0] == c then q[1..]
    else [q[0]] + Without(q[1..], c)
  }

  function Erase(s: State, l: nat, c: nat): State
    requires l < |s.cells|
  {
    s.Set(l, s.cells[l].(deque := Without(s.cells[l].deque, c), handled := s.cells[l].handled + [c]))
  }

  lemma EraseShaped(p: Program, s: State, l: nat, c: nat)
    requires Shaped(p, s) && IsChild(p, l, c)
    ensures Shaped(p, Erase(s, l, c))
  {
    assert CellShaped(p, s.cells[l], l);
    forall k | 0 <= k < |Without(s.cells[l].deque, c)| ensures IsChild(p, l, Without(s.cells[l].deque, c)[k]) {
      assert Without(s.cells[l].deque, c)[k] in s.cells[l].deque;
    }
  }

  lemma CompleteShaped(p: Program, s: State, c: nat, r: CommandResult)
    requires Shaped(p, s) && c < |s.cells|
    ensures Shaped(p, Complete(s, c, r))
  {
    assert CellShaped(p, s.cells[c], c);
  }

  lemma FinishShaped(p: Program, s: State, c: nat, r: CommandResult)
    requires Shaped(p, s) && c < |s.cells|
    ensures Shaped(p, FinishLoop(s, c, r))
  {
    assert CellShaped(p, s.cells[c], c);
    assert Shaped(p, Exit(s, c));
    CompleteShaped(p, Exit(s, c), c, r);
  }

  /** `CommandLoop::processEvent`: ignored when the channel is gone. */
  ghost function ProcessEvent(p: Program, s: State, l: nat, c: nat, r: CommandResult): (t: State)
    requires Shaped(p, s) && IsChild(p, l, c)
    ensures Shaped(p, t)
  {
    if !s.cells[l].open then s
    else
      var t := Erase(s, l, c);
      EraseShaped(p, s, l, c);
      FinishShaped(p, t, l, FAILED);
      var mode := p.kinds[l].mode;
      if r == FAILED && !mode.continuous && mode.transaction then FinishLoop(t, l, FAILED)
      else Next(p, t, l)
  }

  /** The insertion of `pushBack`. A command queued before the loop exited still lands in the
      deque of the closed loop, but it is not accepted there. */
  function Accept(s: State, l: nat, c: nat): State
    requires l < |s.cells|
  {
    var o := s.cells[l];
    if c in o.deque then s
    else s.Set(l, o.(deque := o.deque + [c],
                     accepted := if o.open then o.accepted + [c] else o.accepted))
  }

  /** The body that `CommandLoop::pushBack` hands to its context. */
  ghost function PushBack(p: Program, s: State, l: nat, c: nat): (t: State)
    requires Shaped(p, s) && IsChild(p, l, c)
    ensures Shaped(p, t)
  {
    var t := Accept(s, l, c);
    if t.cells[l].status == ACTIVE && (|t.cells[l].deque| == 1 || p.kinds[l].mode.multiCommand)
    then Next(p, t, l)
    else t
  }

  ghost function Handle(p: Program, s: State, m: Message): (t: State)
    requires Shaped(p, s) && MessageShaped(p, m)
    ensures Shaped(p, t)
  {
    match m
    case StartMessage(l) => Next(p, s, l)
    case FinishMessage(l, c, r) => ProcessEvent(p, s, l, c, r)
    case PushMessage(l, c) => PushBack(p, s, l, c)
  }

  /** One step of a run. `onThread` says whether the caller is the context's own thread, where
      `invoke` runs its action inline instead of queueing it. */
  datatype Action =
    | Deliver
    | FinishLeaf(command: nat)
    | StartRoot(onThread: bool)
    | Offer(loop: nat, command: nat, onThread: bool)

  ghost predicate Enabled(p: Program, s: State, a: Action)
    requires Shaped(p, s)
  {
    match a
    case Deliver => s.queue != []
    case FinishLeaf(c) => c < |s.cells| && p.kinds[c].Leaf? && s.cells[c].status == ACTIVE
    case StartRoot(_) => s.cells[0].status == INACTIVE
    case Offer(l, c, _) =>
      && IsChild(p, l, c) && c !in s.cells[l].accepted
      && (s.cells[l].open ==> PushMessage(l, c) !in s.queue)
  }

  /** `startCommand` of the root. */
  ghost function RootStarted(p: Program, s: State, onThread: bool): (t: State)
    requires Shaped(p, s)
    ensures Shaped(p, t)
  {
    var t := Activate(s, 0);
    assert CellShaped(p, s.cells[0], 0);
    assert Shaped(p, t);
    if onThread || p.kinds[0].Leaf? then Begin(p, t, 0)
    else if t.cells[0].open then t.Post(StartMessage(0))
    else t
  }

  /** `CommandLoop::pushBack`: inline on the context's thread, queued from any other, dropped
      without a channel. */
  ghost function Pushed(p: Program, s: State, l: nat, c: nat, onThread: bool): (t: State)
    requires Shaped(p, s) && IsChild(p, l, c)
    ensures Shaped(p, t)
  {
    if !s.cells[l].open then s
    else if onThread then PushBack(p, s, l, c)
    else s.Post(PushMessage(l, c))
  }

  ghost function Apply(p: Program, s: State, a: Action): (t: State)
    requires Shaped(p, s) && Enabled(p, s, a)
    ensures Shaped(p, t)
  {
    match a
    case Deliver => Handle(p, s.(queue := s.queue[1..]), s.queue[0])
    case FinishLeaf(c) => CompleteShaped(p, s, c, p.kinds[c].result); Complete(s, c, p.kinds[c].result)
    case StartRoot(onThread) => RootStarted(p, s, onThread)
    case Offer(l, c, onThread) => Pushed(p, s, l, c, onThread)
  }

  function Initial(p: Program): State {
    State(seq(|p.kinds|, i requires 0 <= i < |p.kinds| =>
      Cell(INACTIVE, SUCCESS, [], p.kinds[i].Loop?, [], [], [], [])), [])
  }

  /** A run: every action is enabled where it is taken. */
  ghost predicate Legal(p: Program, s: State, run: seq<Action>)
    requires Shaped(p, s)
    decreases |run|
  {
    run != [] ==> Enabled(p, s, run[0]) && Legal(p, Apply(p, s, run[0]), run[1..])
  }

  ghost function Execute(p: Program, s: State, run: seq<Action>): (t: State)
    requires Shaped(p, s) && Legal(p, s, run)
    ensures Shaped(p, t)
    decreases |run|
  {
    if run == [] then s else Execute(p, Apply(p, s, run[0]), run[1..])
  }
}
