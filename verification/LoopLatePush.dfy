/** What becomes of the pushes that are still queued when their loop closes. */
module LoopLatePush {
  import opened CommandTypes
  import opened LoopMachine
  import opened LoopFrame
  import opened LoopInvariant
  import opened LoopSteps
  import opened LoopTheorems

  /** The commands whose push to the loop is queued, in order. */
  function Pending(q: seq<Message>, l: nat): seq<nat> {
    if q == [] then []
    else (if q[0].PushMessage? && q[0].loop == l then [q[0].command] else []) + Pending(q[1..], l)
  }

  /** What the closed loop holds and will be handed. */
  function Late(s: State, l: nat): seq<nat>
    requires l < |s.cells|
  {
    s.cells[l].deque + Pending(s.queue, l)
  }

  lemma {:induction false} PendingConcat(a: seq<Message>, b: seq<Message>, l: nat)
    ensures Pending(a + b, l) == Pending(a, l) + Pending(b, l)
  {
    if a == [] {
      assert a + b == b;
    } else {
      assert (a + b)[1..] == a[1..] + b;
      PendingConcat(a[1..], b, l);
    }
  }

  lemma {:induction false} NonePending(q: seq<Message>, l: nat)
    requires forall k :: 0 <= k < |q| ==> !(q[k].PushMessage? && q[k].loop == l)
    ensures Pending(q, l) == []
  {
    if q != [] {
      NonePending(q[1..], l);
    }
  }

  lemma {:induction false} PendingDistinct(q: seq<Message>, l: nat)
    requires QueueOk(q)
    ensures NoDup(Pending(q, l))
    ensures forall c :: c in Pending(q, l) ==> PushMessage(l, c) in q
  {
    if q != [] {
      forall i, j | 0 <= i < j < |q| - 1 ensures Apart(q[1..][i], q[1..][j]) {
        assert Apart(q[i + 1], q[j + 1]);
      }
      PendingDistinct(q[1..], l);
      forall k | 0 < k < |q| ensures Apart(q[0], q[k]) {
      }
    }
  }

  // ---------------------------------------------------------------- steps that do not concern the loop

  /** Nothing is taken from or added to what the loop holds; if it closes, its deque is empty. */
  ghost predicate Passes(s: State, t: State, l: nat) {
    && l < |s.cells| == |t.cells|
    && Shuts(s.cells[l], t.cells[l])
    && Pending(t.queue, l) == Pending(s.queue, l)
    && (s.cells[l].status == FINISHED && !s.cells[l].open ==> t.cells[l] == s.cells[l])
  }

  lemma EndsPasses(p: Program, s: State, t: State, d: nat, l: nat)
    requires Shaped(p, s) && Ends(s, t, d) && l < |s.cells|
    ensures Passes(s, t, l)
  {
    hide CellShaped, MessageShaped;
    var more := t.queue[|s.queue|..];
    NonePending(more, l);
    assert t.queue == s.queue + more;
    PendingConcat(s.queue, more, l);
    assert Pending(s.queue, l) + [] == Pending(s.queue, l);
  }

  lemma BelowPasses(p: Program, s: State, t: State, d: nat, l: nat)
    requires Shaped(p, s) && Below(p, s, t, d) && l < |s.cells|
    requires d == l && s.cells[l].status == FINISHED ==> s.cells[l].open
    ensures Passes(s, t, l)
  {
    hide CellShaped, MessageShaped;
    var more := t.queue[|s.queue|..];
    forall k | 0 <= k < |more| ensures more[k].FinishMessage? {
      assert FinishBelow(p, s, d, t.queue[|s.queue| + k]);
    }
    NonePending(more, l);
    assert t.queue == s.queue + more;
    PendingConcat(s.queue, more, l);
    assert Pending(s.queue, l) + [] == Pending(s.queue, l);
  }

  lemma RunsPasses(p: Program, s: State, t: State, d: nat, l: nat)
    requires Shaped(p, s) && Runs(p, s, t, d) && l < |s.cells|
    requires d == l && s.cells[l].status == FINISHED ==> s.cells[l].open
    ensures Passes(s, t, l)
  {
    hide Below, Ends, Passes, CellShaped, MessageShaped;
    if Below(p, s, t, d) {
      BelowPasses(p, s, t, d, l);
    } else {
      EndsPasses(p, s, t, d, l);
    }
  }

  lemma NextPasses(p: Program, s: State, q: nat, l: nat)
    requires Shaped(p, s) && q < |s.cells| && p.kinds[q].Loop? && l < |s.cells|
    requires q == l && s.cells[l].status == FINISHED ==> s.cells[l].open
    ensures Passes(s, Next(p, s, q), l)
  {
    hide Passes, Runs, Next;
    NextFrame(p, s, q);
    RunsPasses(p, s, Next(p, s, q), q, l);
  }

  // ---------------------------------------------------------------- one step

  /** Over one step a closed loop holds and awaits the same; a loop that closes has an empty deque. */
  ghost predicate Parks(s: State, t: State, l: nat) {
    && l < |s.cells| == |t.cells|
    && (!s.cells[l].open ==> Late(t, l) == Late(s, l) && !t.cells[l].open)
    && (s.cells[l].open && !t.cells[l].open ==> t.cells[l].deque == [])
  }

  lemma PushParks(p: Program, s: State, q: nat, e: nat, l: nat)
    requires Shaped(p, s) && IsChild(p, q, e) && l < |s.cells| && p.kinds[l].Loop?
    requires s.cells[l].open <==> s.cells[l].status != FINISHED
    requires q == l ==> s.cells[l].open
    ensures Parks(s, PushBack(p, s, q, e), l)
  {
    hide CellShaped, MessageShaped, Next;
    var u := Accept(s, q, e);
    AcceptShape(p, s, q, e);
    if u.cells[q].status == ACTIVE && (|u.cells[q].deque| == 1 || p.kinds[q].mode.multiCommand) {
      NextPasses(p, u, q, l);
    }
  }

  lemma ProcessParks(p: Program, s: State, q: nat, e: nat, r: CommandResult, l: nat)
    requires Shaped(p, s) && IsChild(p, q, e) && l < |s.cells| && p.kinds[l].Loop?
    requires s.cells[l].open <==> s.cells[l].status != FINISHED
    ensures Parks(s, ProcessEvent(p, s, q, e, r), l)
  {
    if s.cells[q].open {
      EraseShaped(p, s, q, e);
      var u := Erase(s, q, e);
      FinishEnds(p, u, q, FAILED);
      hide CellShaped, MessageShaped, Ends, Next, FinishLoop;
      EndsPasses(p, u, FinishLoop(u, q, FAILED), q, l);
      NextPasses(p, u, q, l);
      assert Passes(u, ProcessEvent(p, s, q, e, r), l);
    }
  }

  /** A push that was queued before the loop closed: it lands in the deque. */
  lemma LatePushLands(p: Program, s: State, l: nat)
    requires Shaped(p, s) && l < |s.cells| && !s.cells[l].open && s.cells[l].status == FINISHED
    requires s.queue != [] && s.queue[0].PushMessage? && s.queue[0].loop == l && NoDup(Late(s, l))
    ensures Shaped(p, Popped(s)) && MessageShaped(p, s.queue[0])
    ensures Parks(s, PushBack(p, Popped(s), l, s.queue[0].command), l)
  {
    PoppedShaped(p, s);
    hide CellShaped;
    var c, o := s.queue[0].command, s.cells[l];
    assert Late(s, l)[|o.deque|] == c;
    forall j | 0 <= j < |o.deque| ensures o.deque[j] != c {
      assert Late(s, l)[j] == o.deque[j];
    }
    assert (o.deque + [c]) + Pending(s.queue[1..], l) == o.deque + Pending(s.queue, l);
  }

  lemma DeliverParks(p: Program, s: State, l: nat)
    requires Inv(p, s) && s.queue != [] && l < |s.cells| && p.kinds[l].Loop?
    requires !s.cells[l].open ==> NoDup(Late(s, l))
    ensures Parks(s, Apply(p, s, Deliver), l)
  {
    assert LoopOk(p, s, l) && MessageShaped(p, s.queue[0]) && MessageOk(p, s, s.queue[0]);
    hide Inv, LoopOk, CellShaped, MessageOk, QueueOk, ChildOk, Next, ProcessEvent, PushBack;
    PoppedShaped(p, s);
    var u := Popped(s);
    if s.queue[0].PushMessage? && s.queue[0].loop == l && !s.cells[l].open {
      LatePushLands(p, s, l);
    } else {
      assert !s.cells[l].open ==> Late(u, l) == Late(s, l);
      match s.queue[0] {
        case StartMessage(q) => StartParks(p, s, q, l);
        case FinishMessage(q, e, r) => ProcessParks(p, u, q, e, r, l);
        case PushMessage(q, e) => PushParks(p, u, q, e, l);
      }
    }
  }

  lemma StartParks(p: Program, s: State, q: nat, l: nat)
    requires Shaped(p, s) && s.queue != [] && s.queue[0] == StartMessage(q) && l < |s.cells|
    requires q < |s.cells| && p.kinds[q].Loop? && Shaped(p, Popped(s)) && s.cells[q].status == ACTIVE
    requires s.cells[l].open <==> s.cells[l].status != FINISHED
    ensures Parks(s, Next(p, Popped(s), q), l)
  {
    hide CellShaped, MessageShaped, Next;
    NextPasses(p, Popped(s), q, l);
  }

  lemma RootParks(p: Program, s: State, onThread: bool, l: nat)
    requires Shaped(p, s) && s.cells[0].status == INACTIVE && l < |s.cells|
    requires s.cells[l].open <==> s.cells[l].status != FINISHED
    requires l == 0 ==> s.cells[0].open
    ensures Parks(s, RootStarted(p, s, onThread), l)
  {
    var u := Activate(s, 0);
    assert CellShaped(p, s.cells[0], 0);
    assert Shaped(p, u);
    hide CellShaped, MessageShaped, Begin, Runs;
    BeginFrame(p, u, 0);
    RunsPasses(p, u, Begin(p, u, 0), 0, l);
    PendingConcat(s.queue, [StartMessage(0)], l);
    assert [StartMessage(0)][1..] == [] && Pending(s.queue, l) + [] == Pending(s.queue, l);
  }

  lemma OfferParks(p: Program, s: State, q: nat, e: nat, onThread: bool, l: nat)
    requires Shaped(p, s) && IsChild(p, q, e) && l < |s.cells| && p.kinds[l].Loop?
    requires s.cells[l].open <==> s.cells[l].status != FINISHED
    ensures Parks(s, Pushed(p, s, q, e, onThread), l)
  {
    hide CellShaped, MessageShaped, PushBack;
    if s.cells[q].open {
      if onThread {
        PushParks(p, s, q, e, l);
      } else {
        PendingConcat(s.queue, [PushMessage(q, e)], l);
        assert q != l ==> Pending([PushMessage(q, e)], l) == [] by {
          if q != l {
            NonePending([PushMessage(q, e)], l);
          }
        }
        assert Pending(s.queue, l) + [] == Pending(s.queue, l);
      }
    }
  }

  lemma StepParks(p: Program, s: State, a: Action, l: nat)
    requires Inv(p, s) && Enabled(p, s, a) && l < |s.cells| && p.kinds[l].Loop?
    requires !s.cells[l].open ==> NoDup(Late(s, l))
    ensures Parks(s, Apply(p, s, a), l)
  {
    assert LoopOk(p, s, l);
    match a
    case Deliver => DeliverParks(p, s, l);
    case FinishLeaf(e) =>
      CompleteEnds(p, s, e, p.kinds[e].result);
      EndsPasses(p, s, Complete(s, e, p.kinds[e].result), e, l);
    case StartRoot(onThread) => RootParks(p, s, onThread, l);
    case Offer(q, e, onThread) => OfferParks(p, s, q, e, onThread, l);
  }

  // ---------------------------------------------------------------- runs

  /** A closed loop holds and awaits no command twice. */
  ghost predicate Tidied(s: State, l: nat)
    requires l < |s.cells|
  {
    !s.cells[l].open ==> NoDup(Late(s, l))
  }

  lemma ParkedTidied(p: Program, s: State, t: State, l: nat)
    requires Inv(p, t) && Parks(s, t, l) && Tidied(s, l)
    ensures Tidied(t, l)
  {
    hide Shaped, ChildOk, LoopOk, MessageOk;
    if s.cells[l].open && !t.cells[l].open {
      PendingDistinct(t.queue, l);
      assert [] + Pending(t.queue, l) == Pending(t.queue, l);
    }
  }

  lemma {:induction false} RunParks(p: Program, s: State, run: seq<Action>, l: nat)
    requires Inv(p, s) && AllSettled(p, s) && Legal(p, s, run) && l < |s.cells| && p.kinds[l].Loop? && Tidied(s, l)
    ensures var t := Execute(p, s, run);
      l < |t.cells| && Tidied(t, l) && (!s.cells[l].open ==> Late(t, l) == Late(s, l))
    decreases |run|
  {
    hide Shaped, ChildOk, LoopOk, MessageOk, QueueOk, Apply, Enabled, Late, NoDup, AllSettled;
    if run != [] {
      var t := StepKeeps(p, s, run[0]);
      StepParks(p, s, run[0], l);
      ParkedTidied(p, s, t, l);
      RunParks(p, t, run[1..], l);
    }
  }

  /** A push queued before its loop closed still reaches the deque of the closed loop, because the
      queued action does not look at the channel. Over every continuation of a run the deque of a
      finished loop grows by exactly the pushes that were queued for it, in their order: what it
      holds together with what is still queued for it never changes. A loop closes empty-handed. */
  lemma LatePushesAreParked(p: Program, s: State, run: seq<Action>, l: nat)
    requires Reachable(p, s) && Shaped(p, s) && Legal(p, s, run) && l < |s.cells| && p.kinds[l].Loop?
    ensures l < |Execute(p, s, run).cells|
    ensures s.cells[l].status == FINISHED ==>
      Execute(p, s, run).cells[l].deque + Pending(Execute(p, s, run).queue, l) == s.cells[l].deque + Pending(s.queue, l)
    ensures run != [] && s.cells[l].status != FINISHED && Apply(p, s, run[0]).cells[l].status == FINISHED ==>
      Apply(p, s, run[0]).cells[l].deque == []
  {
    var first :| Legal(p, Initial(p), first) && Execute(p, Initial(p), first) == s;
    InitialKeeps(p);
    RunParks(p, Initial(p), first, l);
    ReachableKeeps(p, s);
    RunParks(p, s, run, l);
    assert LoopOk(p, s, l);
    if run != [] {
      var t := StepKeeps(p, s, run[0]);
      StepParks(p, s, run[0], l);
      assert LoopOk(p, t, l);
    }
  }
}
