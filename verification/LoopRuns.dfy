/** Two runs of a plain loop over two leaves: one that stalls for good, one that parks a late push. */
module LoopRuns {
  import opened CommandTypes
  import opened LoopMachine
  import opened LoopInvariant
  import opened LoopSteps
  import opened LoopTheorems
  import opened LoopLatePush

  /** A plain loop over two leaves. */
  function TwoLeaves(): Program {
    Program([Loop(LoopMode(false, false, false)), Leaf(SUCCESS, false), Leaf(SUCCESS, false)], [0, 0, 0])
  }

  function LeafCell(status: Status): Cell {
    Cell(status, SUCCESS, if status == INACTIVE then [] else [0], false, [], [], [], [])
  }

  /** The loop and its leaves. */
  function At(root: Status, deque: seq<nat>, accepted: seq<nat>, started: seq<nat>, handled: seq<nat>,
              a: Status, b: Status, queue: seq<Message>): State {
    State([Cell(root, SUCCESS, [], true, deque, accepted, started, handled), LeafCell(a), LeafCell(b)], queue)
  }

  lemma PushedOne(s: State, t: State, q: seq<nat>, c: nat)
    requires s == At(INACTIVE, q, q, [], [], INACTIVE, INACTIVE, []) && Shaped(TwoLeaves(), s)
    requires c in {1, 2} && c !in q && t == At(INACTIVE, q + [c], q + [c], [], [], INACTIVE, INACTIVE, [])
    ensures Enabled(TwoLeaves(), s, Offer(0, c, true)) && Apply(TwoLeaves(), s, Offer(0, c, true)) == t
  {
    assert Accept(s, 0, c).cells == t.cells;
  }

  lemma FirstPrepared(s: State, t: State, q: seq<nat>)
    requires s == At(ACTIVE, q, q, [], [], INACTIVE, INACTIVE, [])
    requires t == At(ACTIVE, q, q, [1], [], ACTIVE, INACTIVE, [])
    ensures Prepared(s, 0, 1) == t
  {
    assert [] + [1] == [1] && [] + [0] == [0];
    assert Prepared(s, 0, 1).cells == t.cells;
  }

  lemma RootBegun(s: State, t: State, q: seq<nat>)
    requires q != [] && q[0] == 1
    requires s == At(INACTIVE, q, q, [], [], INACTIVE, INACTIVE, []) && Shaped(TwoLeaves(), s)
    requires t == At(ACTIVE, q, q, [1], [], ACTIVE, INACTIVE, [])
    ensures Enabled(TwoLeaves(), s, StartRoot(true)) && Apply(TwoLeaves(), s, StartRoot(true)) == t
  {
    var u := Activate(s, 0);
    assert CellShaped(TwoLeaves(), s.cells[0], 0);
    assert Shaped(TwoLeaves(), u);
    hide CellShaped, MessageShaped, Prepared;
    FirstPrepared(u, t, q);
    assert Launch(TwoLeaves(), u, 0, 1) == t;
    assert Next(TwoLeaves(), u, 0) == t;
  }

  lemma LeafDone(s: State, t: State, c: nat)
    requires Shaped(TwoLeaves(), s) && c in {1, 2} && s.cells[c].status == ACTIVE && s.cells[c].listeners == [0]
    requires s.cells[0].open && s.queue == []
    requires t.cells == s.cells[c := s.cells[c].(status := FINISHED, result := SUCCESS)]
    requires t.queue == [FinishMessage(0, c, SUCCESS)]
    ensures Enabled(TwoLeaves(), s, FinishLeaf(c)) && Apply(TwoLeaves(), s, FinishLeaf(c)) == t
  {
    hide CellShaped, MessageShaped, Deliveries;
    DeliveriesToOwner(t.cells, 0, c, SUCCESS);
    assert [] + [FinishMessage(0, c, SUCCESS)] == t.queue;
  }

  lemma ErasedCells(s: State, t: State, c: nat, q: seq<nat>, acc: seq<nat>, started: seq<nat>, h: seq<nat>, b: Status)
    requires s == At(ACTIVE, [c] + q, acc, started, h, FINISHED, b, [FinishMessage(0, c, SUCCESS)])
    requires t == At(ACTIVE, q, acc, started, h + [c], FINISHED, b, [])
    ensures Erase(Popped(s), 0, c) == t
  {
    assert ([c] + q)[1..] == q;
    assert Erase(Popped(s), 0, c).cells == t.cells;
  }

  lemma Erased(s: State, t: State, c: nat, q: seq<nat>, acc: seq<nat>, started: seq<nat>, h: seq<nat>, b: Status)
    requires Shaped(TwoLeaves(), s) && c in {1, 2} && b != ACTIVE && q != [] && q[0] in {1, 2}
    requires s == At(ACTIVE, [c] + q, acc, started, h, FINISHED, b, [FinishMessage(0, c, SUCCESS)])
    requires t == At(ACTIVE, q, acc, started, h + [c], FINISHED, b, [])
    ensures Shaped(TwoLeaves(), t) && Apply(TwoLeaves(), s, Deliver) == Next(TwoLeaves(), t, 0)
  {
    ErasedCells(s, t, c, q, acc, started, h, b);
    PoppedShaped(TwoLeaves(), s);
    ChildrenOfRoot(c);
    EraseShaped(TwoLeaves(), Popped(s), 0, c);
    hide Shaped, MessageShaped, Erase;
    assert Popped(s).cells == s.cells;
  }

  lemma ChildrenOfRoot(c: nat)
    requires c in {1, 2}
    ensures IsChild(TwoLeaves(), 0, c)
  {
  }

  lemma SecondPrepared(s: State, t: State)
    requires s == At(ACTIVE, [2], [1, 2], [1], [1], FINISHED, INACTIVE, [])
    requires t == At(ACTIVE, [2], [1, 2], [1, 2], [1], FINISHED, ACTIVE, [])
    ensures Prepared(s, 0, 2) == t
  {
    assert [1] + [2] == [1, 2] && [] + [0] == [0];
    assert Prepared(s, 0, 2).cells == t.cells;
  }

  lemma SecondBegun(s: State, t: State)
    requires s == At(ACTIVE, [2], [1, 2], [1], [1], FINISHED, INACTIVE, []) && Shaped(TwoLeaves(), s)
    requires t == At(ACTIVE, [2], [1, 2], [1, 2], [1], FINISHED, ACTIVE, [])
    ensures Next(TwoLeaves(), s, 0) == t
  {
    SecondPrepared(s, t);
    ChildrenOfRoot(2);
    hide CellShaped, MessageShaped, Prepared;
    assert Launch(TwoLeaves(), s, 0, 2) == t;
  }

  /** The first command is processed, the second under way. */
  function FirstProcessed(): State {
    At(ACTIVE, [2], [1, 2], [1, 2], [1], FINISHED, ACTIVE, [])
  }

  lemma ReachFirstProcessed()
    ensures Reachable(TwoLeaves(), FirstProcessed()) && Shaped(TwoLeaves(), FirstProcessed())
  {
    var p := TwoLeaves();
    var s0 := At(INACTIVE, [], [], [], [], INACTIVE, INACTIVE, []);
    var s1 := At(INACTIVE, [1], [1], [], [], INACTIVE, INACTIVE, []);
    var s2 := At(INACTIVE, [1, 2], [1, 2], [], [], INACTIVE, INACTIVE, []);
    var s3 := At(ACTIVE, [1, 2], [1, 2], [1], [], ACTIVE, INACTIVE, []);
    var s4 := At(ACTIVE, [1, 2], [1, 2], [1], [], FINISHED, INACTIVE, [FinishMessage(0, 1, SUCCESS)]);
    var s5 := At(ACTIVE, [2], [1, 2], [1], [1], FINISHED, INACTIVE, []);
    InitialReached();
    assert [] + [1] == [1] && [1] + [2] == [1, 2];
    assert s4.cells == s3.cells[1 := s3.cells[1].(status := FINISHED, result := SUCCESS)];
    hide Shaped, Enabled, Apply, Reachable, Prepared, Next;
    PushedOne(s0, s1, [], 1);
    ReachableStep(p, s0, Offer(0, 1, true));
    PushedOne(s1, s2, [1], 2);
    ReachableStep(p, s1, Offer(0, 2, true));
    RootBegun(s2, s3, [1, 2]);
    ReachableStep(p, s2, StartRoot(true));
    LeafDone(s3, s4, 1);
    ReachableStep(p, s3, FinishLeaf(1));
    Erased(s4, s5, 1, [2], [1, 2], [1], [], INACTIVE);
    SecondBegun(s5, FirstProcessed());
    DeliverEnabled(p, s4);
    ReachableStep(p, s4, Deliver);
  }

  lemma DeliverEnabled(p: Program, s: State)
    requires Shaped(p, s) && s.queue != []
    ensures Enabled(p, s, Deliver)
  {
  }

  lemma InitialReached()
    ensures Shaped(TwoLeaves(), Initial(TwoLeaves())) && Reachable(TwoLeaves(), Initial(TwoLeaves()))
    ensures Initial(TwoLeaves()) == At(INACTIVE, [], [], [], [], INACTIVE, INACTIVE, [])
  {
    var p := TwoLeaves();
    InitialKeeps(p);
    assert Legal(p, Initial(p), []) && Execute(p, Initial(p), []) == Initial(p);
    assert Initial(p).cells == At(INACTIVE, [], [], [], [], INACTIVE, INACTIVE, []).cells;
  }

  lemma PushedAgain()
    ensures Shaped(TwoLeaves(), FirstProcessed())
    ensures PushBack(TwoLeaves(), FirstProcessed(), 0, 1)
         == At(ACTIVE, [2, 1], [1, 2, 1], [1, 2], [1], FINISHED, ACTIVE, [])
  {
    ReachFirstProcessed();
    var s := FirstProcessed();
    hide CellShaped, MessageShaped, Next;
    assert [2] + [1] == [2, 1] && [1, 2] + [1] == [1, 2, 1];
    assert Accept(s, 0, 1).cells == At(ACTIVE, [2, 1], [1, 2, 1], [1, 2], [1], FINISHED, ACTIVE, []).cells;
  }

  /** Push two commands, start the loop, let the first one finish, push it again, let the second one
      finish: nothing is queued and no leaf is under way, the loop is not Continuous, and it is still
      ACTIVE with the first command in its deque. */
  lemma RepushStalls() returns (t: State)
    ensures Reachable(TwoLeaves(), FirstProcessed()) && Shaped(TwoLeaves(), FirstProcessed())
    ensures 1 in FirstProcessed().cells[0].handled
    ensures Legal(TwoLeaves(), PushBack(TwoLeaves(), FirstProcessed(), 0, 1), [FinishLeaf(2), Deliver])
    ensures t == Execute(TwoLeaves(), PushBack(TwoLeaves(), FirstProcessed(), 0, 1), [FinishLeaf(2), Deliver])
    ensures Quiet(TwoLeaves(), t) && |t.cells| == 3 && t.cells[0].status == ACTIVE && t.cells[0].deque == [1]
  {
    var p := TwoLeaves();
    var s := At(ACTIVE, [2, 1], [1, 2, 1], [1, 2], [1], FINISHED, ACTIVE, []);
    var u := At(ACTIVE, [2, 1], [1, 2, 1], [1, 2], [1], FINISHED, FINISHED, [FinishMessage(0, 2, SUCCESS)]);
    t := At(ACTIVE, [1], [1, 2, 1], [1, 2], [1, 2], FINISHED, FINISHED, []);
    ReachFirstProcessed();
    PushedAgain();
    assert u.cells == s.cells[2 := s.cells[2].(status := FINISHED, result := SUCCESS)];
    assert [2] + [1] == [2, 1] && [1] + [2] == [1, 2];
    StillFront(t);
    hide Shaped, Enabled, Apply, Reachable, Next, PushBack, Legal, Execute, Quiet;
    LeafDone(s, u, 2);
    Erased(u, t, 2, [1], [1, 2, 1], [1, 2], [1], FINISHED);
    DeliverEnabled(p, u);
    TwoSteps(p, s, FinishLeaf(2), u, Deliver, t);
  }

  lemma TwoSteps(p: Program, s: State, a: Action, u: State, b: Action, t: State)
    requires Shaped(p, s) && Enabled(p, s, a) && Apply(p, s, a) == u && Enabled(p, u, b) && Apply(p, u, b) == t
    ensures Legal(p, s, [a, b]) && Execute(p, s, [a, b]) == t
  {
    hide Shaped, Enabled, Apply;
    assert Legal(p, t, []) && Execute(p, t, []) == t;
    Prefixed(p, u, b, []);
    assert [b] + [] == [b];
    Prefixed(p, s, a, [b]);
    assert [a] + [b] == [a, b];
  }

  lemma StillFront(t: State)
    requires t == At(ACTIVE, [1], [1, 2, 1], [1, 2], [1, 2], FINISHED, FINISHED, [])
    ensures Shaped(TwoLeaves(), t) ==> Next(TwoLeaves(), t, 0) == t && Quiet(TwoLeaves(), t)
  {
  }

  // ---------------------------------------------------------------- a late push

  /** The loop has ended with its first command; the push of the second one is still queued. */
  function EndedBeforePush(): State {
    State([Cell(FINISHED, SUCCESS, [], false, [], [1], [1], [1]), LeafCell(FINISHED), LeafCell(INACTIVE)],
          [PushMessage(0, 2)])
  }

  lemma LatePushPosted(s: State, t: State)
    requires Shaped(TwoLeaves(), s)
    requires s == At(ACTIVE, [1], [1], [1], [], FINISHED, INACTIVE, [FinishMessage(0, 1, SUCCESS)])
    requires t == At(ACTIVE, [1], [1], [1], [], FINISHED, INACTIVE, [FinishMessage(0, 1, SUCCESS), PushMessage(0, 2)])
    ensures Enabled(TwoLeaves(), s, Offer(0, 2, false)) && Apply(TwoLeaves(), s, Offer(0, 2, false)) == t
  {
    assert s.Post(PushMessage(0, 2)).queue == t.queue;
  }

  lemma LoopEnds(s: State)
    requires Shaped(TwoLeaves(), s)
    requires s == At(ACTIVE, [1], [1], [1], [], FINISHED, INACTIVE, [FinishMessage(0, 1, SUCCESS), PushMessage(0, 2)])
    ensures Apply(TwoLeaves(), s, Deliver) == EndedBeforePush()
  {
    var u := Popped(s);
    var e := At(ACTIVE, [], [1], [1], [1], FINISHED, INACTIVE, [PushMessage(0, 2)]);
    PoppedShaped(TwoLeaves(), s);
    EraseShaped(TwoLeaves(), u, 0, 1);
    hide CellShaped, MessageShaped;
    assert [1][1..] == [] && [] + [1] == [1];
    assert Erase(u, 0, 1).cells == e.cells;
    assert Erase(u, 0, 1) == e;
    LastErased(e);
  }

  lemma LastErased(e: State)
    requires e == At(ACTIVE, [], [1], [1], [1], FINISHED, INACTIVE, [PushMessage(0, 2)]) && Shaped(TwoLeaves(), e)
    ensures Next(TwoLeaves(), e, 0) == EndedBeforePush()
  {
    var x := Exit(e, 0);
    assert x.cells[0] == e.cells[0].(open := false);
    NoDeliveries(x.cells[0 := x.cells[0].(status := FINISHED, result := SUCCESS)], 0, SUCCESS);
    assert Complete(x, 0, SUCCESS).queue == x.queue + [] == [PushMessage(0, 2)];
    assert Complete(x, 0, SUCCESS).cells == EndedBeforePush().cells;
  }

  lemma ReachEnded()
    ensures Reachable(TwoLeaves(), EndedBeforePush()) && Shaped(TwoLeaves(), EndedBeforePush())
  {
    var p := TwoLeaves();
    var s0 := At(INACTIVE, [], [], [], [], INACTIVE, INACTIVE, []);
    var s1 := At(INACTIVE, [1], [1], [], [], INACTIVE, INACTIVE, []);
    var s2 := At(ACTIVE, [1], [1], [1], [], ACTIVE, INACTIVE, []);
    var s3 := At(ACTIVE, [1], [1], [1], [], FINISHED, INACTIVE, [FinishMessage(0, 1, SUCCESS)]);
    var s4 := At(ACTIVE, [1], [1], [1], [], FINISHED, INACTIVE, [FinishMessage(0, 1, SUCCESS), PushMessage(0, 2)]);
    InitialReached();
    assert [] + [1] == [1];
    assert s3.cells == s2.cells[1 := s2.cells[1].(status := FINISHED, result := SUCCESS)];
    hide Shaped, Enabled, Apply, Reachable, Prepared, Next;
    PushedOne(s0, s1, [], 1);
    ReachableStep(p, s0, Offer(0, 1, true));
    RootBegun(s1, s2, [1]);
    ReachableStep(p, s1, StartRoot(true));
    LeafDone(s2, s3, 1);
    ReachableStep(p, s2, FinishLeaf(1));
    LatePushPosted(s3, s4);
    ReachableStep(p, s3, Offer(0, 2, false));
    LoopEnds(s4);
    DeliverEnabled(p, s4);
    ReachableStep(p, s4, Deliver);
  }

  /** Push one command, start the loop, let the command finish, push another one from a second thread:
      the loop ends with that push still queued. Over every continuation the command is in the closed
      deque or on its way there, and it is never started. */
  lemma LatePushIsNeverStarted(run: seq<Action>)
    requires Shaped(TwoLeaves(), EndedBeforePush()) && Legal(TwoLeaves(), EndedBeforePush(), run)
    ensures Reachable(TwoLeaves(), EndedBeforePush()) && Pending(EndedBeforePush().queue, 0) == [2]
    ensures var t := Execute(TwoLeaves(), EndedBeforePush(), run);
      |t.cells| == 3 && t.cells[0].deque + Pending(t.queue, 0) == [2] && t.cells[2].status == INACTIVE
  {
    var p, s := TwoLeaves(), EndedBeforePush();
    ReachEnded();
    assert [PushMessage(0, 2)][1..] == [] && Pending(s.queue, 0) == [2] + [] == [2];
    assert s.cells[0].deque + Pending(s.queue, 0) == [2];
    hide Reachable, Legal, Execute, Pending;
    LatePushesAreParked(p, s, run, 0);
    FinishedNeverStarts(p, s, run, 0, 2);
  }
}
