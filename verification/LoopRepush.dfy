/** What becomes of a loop when a command is pushed to it again. */
module LoopRepush {
  import opened CommandTypes
  import opened LoopMachine
  import opened LoopFrame
  import opened LoopInvariant
  import opened LoopSteps
  import opened LoopTheorems
  import opened LoopComplete

  // ---------------------------------------------------------------- a command that never ends again

  /** The loop waits for a command whose finish it has processed before: that will not come again.
      Only a failure in a transaction can still close the loop. */
  ghost predicate Kept(p: Program, s: State, l: nat, c: nat)
    requires Shaped(p, s)
  {
    && IsChild(p, l, c) && s.cells[c].status == FINISHED
    && (forall k :: 0 <= k < |s.queue| && s.queue[k].FinishMessage? ==> s.queue[k].command != c)
    && if s.cells[l].open then s.cells[l].status == ACTIVE && c in s.cells[l].deque
       else s.cells[l].status == FINISHED && s.cells[l].result == FAILED
            && p.kinds[l].mode.transaction && !p.kinds[l].mode.continuous
  }

  lemma KeptBelow(p: Program, s: State, t: State, d: nat, l: nat, c: nat)
    requires Shaped(p, s) && Shaped(p, t) && Kept(p, s, l, c) && Below(p, s, t, d)
    ensures Kept(p, t, l, c)
  {
    hide CellShaped, MessageShaped;
  }

  lemma KeptEnds(p: Program, s: State, t: State, d: nat, l: nat, c: nat)
    requires Shaped(p, s) && Shaped(p, t) && Kept(p, s, l, c) && Ends(s, t, d) && d != l
    ensures Kept(p, t, l, c)
  {
    hide CellShaped, MessageShaped;
  }

  lemma KeptNext(p: Program, s: State, q: nat, l: nat, c: nat)
    requires Shaped(p, s) && Kept(p, s, l, c) && q < |s.cells| && p.kinds[q].Loop?
    ensures Kept(p, Next(p, s, q), l, c)
  {
    NextFrame(p, s, q);
    hide CellShaped, MessageShaped, Below, Ends;
    var t := Next(p, s, q);
    if Below(p, s, t, q) {
      KeptBelow(p, s, t, q, l, c);
    } else if q != l {
      KeptEnds(p, s, t, q, l, c);
    }
  }

  lemma KeptErased(p: Program, s: State, q: nat, e: nat, l: nat, c: nat)
    requires Shaped(p, s) && Kept(p, s, l, c) && IsChild(p, q, e) && e != c
    ensures Shaped(p, Erase(s, q, e)) && Kept(p, Erase(s, q, e), l, c)
  {
    EraseShaped(p, s, q, e);
    hide CellShaped, MessageShaped;
  }

  lemma KeptProcess(p: Program, s: State, q: nat, e: nat, r: CommandResult, l: nat, c: nat)
    requires Shaped(p, s) && Kept(p, s, l, c) && IsChild(p, q, e) && e != c
    ensures Kept(p, ProcessEvent(p, s, q, e, r), l, c)
  {
    if s.cells[q].open {
      KeptErased(p, s, q, e, l, c);
      var u := Erase(s, q, e);
      FinishShaped(p, u, q, FAILED);
      FinishEnds(p, u, q, FAILED);
      hide CellShaped, MessageShaped, Ends;
      if r == FAILED && !p.kinds[q].mode.continuous && p.kinds[q].mode.transaction {
        if q == l {
          ClosedIsKept(p, u, l, c);
        } else {
          KeptEnds(p, u, FinishLoop(u, q, FAILED), q, l, c);
        }
      } else {
        KeptNext(p, u, q, l, c);
      }
    }
  }

  /** A failure closes the loop although it still waits. */
  lemma ClosedIsKept(p: Program, u: State, l: nat, c: nat)
    requires Shaped(p, u) && Kept(p, u, l, c) && u.cells[l].open
    requires p.kinds[l].mode.transaction && !p.kinds[l].mode.continuous
    requires Shaped(p, FinishLoop(u, l, FAILED)) && Ends(u, FinishLoop(u, l, FAILED), l)
    ensures Kept(p, FinishLoop(u, l, FAILED), l, c)
  {
    hide CellShaped, MessageShaped;
  }

  lemma KeptPush(p: Program, s: State, q: nat, e: nat, l: nat, c: nat)
    requires Shaped(p, s) && Kept(p, s, l, c) && IsChild(p, q, e)
    ensures Kept(p, PushBack(p, s, q, e), l, c)
  {
    hide CellShaped, MessageShaped;
    AcceptShape(p, s, q, e);
    var u := Accept(s, q, e);
    assert Kept(p, u, l, c);
    if u.cells[q].status == ACTIVE && (|u.cells[q].deque| == 1 || p.kinds[q].mode.multiCommand) {
      KeptNext(p, u, q, l, c);
    }
  }

  lemma KeptPopped(p: Program, s: State, l: nat, c: nat)
    requires Shaped(p, s) && Kept(p, s, l, c) && s.queue != []
    ensures Shaped(p, Popped(s)) && MessageShaped(p, s.queue[0]) && Kept(p, Popped(s), l, c)
    ensures s.queue[0].FinishMessage? ==> s.queue[0].command != c
  {
    PoppedShaped(p, s);
    hide CellShaped, MessageShaped;
  }

  lemma KeptRoot(p: Program, s: State, onThread: bool, l: nat, c: nat)
    requires Shaped(p, s) && Kept(p, s, l, c) && s.cells[0].status == INACTIVE
    ensures Kept(p, RootStarted(p, s, onThread), l, c)
  {
    assert CellShaped(p, s.cells[0], 0);
    hide CellShaped, MessageShaped;
    var u := Activate(s, 0);
    assert Shaped(p, u) && Kept(p, u, l, c);
    BeginFrame(p, u, 0);
    if Below(p, u, Begin(p, u, 0), 0) {
      KeptBelow(p, u, Begin(p, u, 0), 0, l, c);
    } else {
      KeptEnds(p, u, Begin(p, u, 0), 0, l, c);
    }
  }

  lemma KeptStep(p: Program, s: State, a: Action, l: nat, c: nat)
    requires Shaped(p, s) && Kept(p, s, l, c) && Enabled(p, s, a)
    ensures Kept(p, Apply(p, s, a), l, c)
  {
    hide CellShaped, Kept;
    match a
    case Deliver =>
      KeptPopped(p, s, l, c);
      var u := Popped(s);
      match s.queue[0] {
        case StartMessage(q) => KeptNext(p, u, q, l, c);
        case FinishMessage(q, e, r) => KeptProcess(p, u, q, e, r, l, c);
        case PushMessage(q, e) => KeptPush(p, u, q, e, l, c);
      }
    case FinishLeaf(e) =>
      CompleteShaped(p, s, e, p.kinds[e].result);
      CompleteEnds(p, s, e, p.kinds[e].result);
      KeptLeaf(p, s, l, c);
      KeptEnds(p, s, Complete(s, e, p.kinds[e].result), e, l, c);
    case StartRoot(onThread) => KeptRoot(p, s, onThread, l, c);
    case Offer(q, e, onThread) =>
      if s.cells[q].open {
        if onThread {
          KeptPush(p, s, q, e, l, c);
        } else {
          KeptPost(p, s, PushMessage(q, e), l, c);
        }
      }
  }

  lemma KeptLeaf(p: Program, s: State, l: nat, c: nat)
    requires Shaped(p, s) && Kept(p, s, l, c)
    ensures l < |p.kinds| && p.kinds[l].Loop?
  {
  }

  lemma KeptPost(p: Program, s: State, m: Message, l: nat, c: nat)
    requires Shaped(p, s) && Kept(p, s, l, c) && MessageShaped(p, m) && !m.FinishMessage?
    ensures Shaped(p, s.Post(m)) && Kept(p, s.Post(m), l, c)
  {
    hide CellShaped;
  }

  lemma {:induction false} KeptRun(p: Program, s: State, run: seq<Action>, l: nat, c: nat)
    requires Shaped(p, s) && Kept(p, s, l, c) && Legal(p, s, run)
    ensures Kept(p, Execute(p, s, run), l, c)
    decreases |run|
  {
    hide Shaped, Kept, Apply, Enabled;
    if run != [] {
      KeptStep(p, s, run[0], l, c);
      KeptRun(p, Apply(p, s, run[0]), run[1..], l, c);
    }
  }

  // ---------------------------------------------------------------- one at a time, whatever was pushed

  ghost predicate AtFront(s: State, l: nat, e: nat)
    requires l < |s.cells|
  {
    s.cells[l].deque != [] && s.cells[l].deque[0] == e
  }

  ghost predicate ChildTidy(s: State, l: nat, e: nat)
    requires l < |s.cells| && e < |s.cells|
  {
    && (s.cells[e].status == ACTIVE ==> AtFront(s, l, e) && s.cells[e].listeners == [l])
    && (s.cells[e].status == INACTIVE ==> s.cells[e].listeners == [])
  }

  /** What is left of sequential order in a single-command loop after any pushes: only the front of
      the deque can be under way, or its finish be queued, and not both. */
  ghost predicate Tidy(p: Program, s: State, l: nat)
    requires Shaped(p, s)
  {
    && l < |s.cells| && s.cells[l].status != INACTIVE
    && p.kinds[l].Loop? && !p.kinds[l].mode.multiCommand
    && (s.cells[l].open ==>
          && s.cells[l].status == ACTIVE
          && (forall e :: IsChild(p, l, e) ==> ChildTidy(s, l, e))
          && (forall k :: 0 <= k < |s.queue| && Finishes(s.queue[k], l) ==>
                IsChild(p, l, s.queue[k].command)
                && AtFront(s, l, s.queue[k].command) && s.cells[s.queue[k].command].status == FINISHED)
          && (forall i, j :: 0 <= i < j < |s.queue| && Finishes(s.queue[i], l) ==> !Finishes(s.queue[j], l)))
  }

  predicate Finishes(m: Message, l: nat) {
    m.FinishMessage? && m.loop == l
  }

  lemma TidyBelow(p: Program, s: State, t: State, d: nat, l: nat)
    requires Shaped(p, s) && Shaped(p, t) && Tidy(p, s, l) && Below(p, s, t, d) && d != l
    ensures Tidy(p, t, l)
  {
    hide CellShaped;
    forall k | |s.queue| <= k < |t.queue| ensures !Finishes(t.queue[k], l) {
      assert MessageShaped(p, t.queue[k]) && FinishBelow(p, s, d, t.queue[k]);
    }
    if s.cells[l].open {
      forall e | IsChild(p, l, e) ensures ChildTidy(t, l, e) {
        assert ChildTidy(s, l, e);
      }
    }
  }

  /** The messages of the command that ended: one if it belongs to the loop, none otherwise. */
  lemma EndsMessages(p: Program, s: State, t: State, d: nat, l: nat)
    requires Shaped(p, s) && Shaped(p, t) && Tidy(p, s, l) && s.cells[l].open && Ends(s, t, d) && d != l
    ensures t.cells[l] == s.cells[l]
    ensures IsChild(p, l, d) && t.cells[d].status != s.cells[d].status ==>
      s.cells[d].status == ACTIVE && t.cells[d].status == FINISHED
      && t.queue == s.queue + [FinishMessage(l, d, t.cells[d].result)]
    ensures IsChild(p, l, d) && t.cells[d].status == s.cells[d].status ==> t.queue == s.queue
    ensures !IsChild(p, l, d) ==>
      s.queue <= t.queue && forall k :: |s.queue| <= k < |t.queue| ==> !Finishes(t.queue[k], l)
  {
    hide CellShaped;
    if IsChild(p, l, d) {
      assert ChildTidy(s, l, d);
      DeliveriesToOwner(t.cells, l, d, t.cells[d].result);
    } else {
      forall k | |s.queue| <= k < |t.queue| ensures !Finishes(t.queue[k], l) {
        assert MessageShaped(p, t.queue[k]);
      }
    }
  }

  lemma EndsChildren(p: Program, s: State, t: State, d: nat, l: nat, e: nat)
    requires Shaped(p, s) && Shaped(p, t) && Tidy(p, s, l) && s.cells[l].open && Ends(s, t, d) && d != l
    requires IsChild(p, l, e)
    ensures ChildTidy(t, l, e)
  {
    assert ChildTidy(s, l, e);
    hide CellShaped, MessageShaped, Deliveries;
  }

  lemma TidyEnds(p: Program, s: State, t: State, d: nat, l: nat)
    requires Shaped(p, s) && Shaped(p, t) && Tidy(p, s, l) && Ends(s, t, d) && d != l
    ensures Tidy(p, t, l)
  {
    if s.cells[l].open {
      EndsMessages(p, s, t, d, l);
      forall e | IsChild(p, l, e) ensures ChildTidy(t, l, e) {
        EndsChildren(p, s, t, d, l, e);
      }
      if IsChild(p, l, d) {
        assert ChildTidy(s, l, d);
      }
    }
    hide CellShaped, MessageShaped, ChildTidy, Deliveries;
  }

  lemma TidyRuns(p: Program, s: State, t: State, d: nat, l: nat)
    requires Shaped(p, s) && Shaped(p, t) && Tidy(p, s, l) && Runs(p, s, t, d) && d != l
    ensures Tidy(p, t, l)
  {
    hide Tidy, Below, Ends, CellShaped, MessageShaped;
    if Below(p, s, t, d) {
      TidyBelow(p, s, t, d, l);
    } else {
      TidyEnds(p, s, t, d, l);
    }
  }

  /** No finish of a command of the loop is queued and none of them is under way. */
  ghost predicate Idle(p: Program, s: State, l: nat)
    requires Shaped(p, s)
  {
    && (forall e: nat :: IsChild(p, l, e) ==> s.cells[e].status != ACTIVE)
    && (forall k :: 0 <= k < |s.queue| ==> !Finishes(s.queue[k], l))
  }

  lemma FrontSaysIdle(p: Program, s: State, l: nat)
    requires Shaped(p, s) && Tidy(p, s, l) && s.cells[l].open
    requires s.cells[l].deque != [] ==>
      s.cells[l].deque[0] < |s.cells| && s.cells[s.cells[l].deque[0]].status == INACTIVE
    ensures Idle(p, s, l)
  {
    forall e: nat | IsChild(p, l, e) ensures s.cells[e].status != ACTIVE {
      assert ChildTidy(s, l, e);
    }
  }

  lemma TidyPrepared(p: Program, s: State, l: nat, f: nat)
    requires Shaped(p, s) && Tidy(p, s, l) && Idle(p, s, l) && s.cells[l].open
    requires IsChild(p, l, f) && AtFront(s, l, f) && s.cells[f].status == INACTIVE
    ensures Shaped(p, Prepared(s, l, f)) && Tidy(p, Prepared(s, l, f), l)
  {
    PreparedShape(p, s, l, f);
    hide CellShaped, MessageShaped;
    assert ChildTidy(s, l, f);
    forall e | IsChild(p, l, e) ensures ChildTidy(Prepared(s, l, f), l, e) {
      assert ChildTidy(s, l, e);
    }
  }

  lemma TidyLaunch(p: Program, s: State, l: nat, f: nat)
    requires Shaped(p, s) && Tidy(p, s, l) && s.cells[l].open
    requires IsChild(p, l, f) && AtFront(s, l, f) && s.cells[f].status == INACTIVE
    ensures Tidy(p, Launch(p, s, l, f), l)
  {
    hide Tidy, CellShaped, MessageShaped;
    FrontSaysIdle(p, s, l);
    TidyPrepared(p, s, l, f);
    var u := Prepared(s, l, f);
    BeginFrame(p, u, f);
    TidyRuns(p, u, Begin(p, u, f), f, l);
  }

  lemma TidyNext(p: Program, s: State, q: nat, l: nat)
    requires Shaped(p, s) && Tidy(p, s, l) && q < |s.cells| && p.kinds[q].Loop?
    ensures Tidy(p, Next(p, s, q), l)
  {
    NextFrame(p, s, q);
    if q != l {
      TidyRuns(p, s, Next(p, s, q), q, l);
    } else if s.cells[l].open && s.cells[l].deque != [] {
      assert CellShaped(p, s.cells[l], l) && IsChild(p, l, s.cells[l].deque[0]);
      if s.cells[s.cells[l].deque[0]].status == INACTIVE {
        TidyLaunch(p, s, l, s.cells[l].deque[0]);
      }
    } else {
      hide CellShaped, MessageShaped, ChildTidy;
    }
  }

  lemma TidyErased(p: Program, s: State, l: nat)
    requires Shaped(p, s) && Tidy(p, s, l) && s.cells[l].open && s.queue != [] && Finishes(s.queue[0], l)
    ensures IsChild(p, l, s.queue[0].command) && Shaped(p, Popped(s))
    ensures Shaped(p, Erase(Popped(s), l, s.queue[0].command))
    ensures Tidy(p, Erase(Popped(s), l, s.queue[0].command), l)
  {
    var e := s.queue[0].command;
    assert AtFront(s, l, e) && MessageShaped(p, s.queue[0]);
    var u := Popped(s);
    PoppedShaped(p, s);
    EraseShaped(p, u, l, e);
    hide CellShaped, MessageShaped;
    var t := Erase(u, l, e);
    assert forall k :: 0 <= k < |t.queue| ==> !Finishes(t.queue[k], l);
    forall f | IsChild(p, l, f) ensures ChildTidy(t, l, f) {
      assert ChildTidy(s, l, f);
    }
  }

  lemma TidyPopped(p: Program, s: State, l: nat)
    requires Shaped(p, s) && Tidy(p, s, l) && s.queue != []
    ensures Shaped(p, Popped(s)) && MessageShaped(p, s.queue[0]) && Tidy(p, Popped(s), l)
  {
    PoppedShaped(p, s);
    hide CellShaped, MessageShaped;
    var t := Popped(s);
    if s.cells[l].open {
      forall f | IsChild(p, l, f) ensures ChildTidy(t, l, f) {
        assert ChildTidy(s, l, f);
      }
    }
  }

  lemma TidyElsewhere(p: Program, s: State, q: nat, e: nat, l: nat)
    requires Shaped(p, s) && Tidy(p, s, l) && IsChild(p, q, e) && q != l
    ensures Shaped(p, Erase(s, q, e)) && Tidy(p, Erase(s, q, e), l)
  {
    EraseShaped(p, s, q, e);
    hide CellShaped, MessageShaped;
    if s.cells[l].open {
      forall f | IsChild(p, l, f) ensures ChildTidy(Erase(s, q, e), l, f) {
        assert ChildTidy(s, l, f);
      }
    }
  }

  /** What `processEvent` does behind the erasing, to the loop itself or to another one. */
  lemma TidyProceed(p: Program, u: State, q: nat, r: CommandResult, l: nat)
    requires Shaped(p, u) && Tidy(p, u, l) && q < |p.kinds| && p.kinds[q].Loop?
    ensures Shaped(p, Proceed(p, u, q, r)) && Tidy(p, Proceed(p, u, q, r), l)
  {
    FinishShaped(p, u, q, FAILED);
    FinishEnds(p, u, q, FAILED);
    hide CellShaped, MessageShaped, Ends;
    if r == FAILED && !p.kinds[q].mode.continuous && p.kinds[q].mode.transaction {
      if q == l {
        TidyClosed(p, u, l);
      } else {
        TidyEnds(p, u, FinishLoop(u, q, FAILED), q, l);
      }
    } else {
      TidyNext(p, u, q, l);
    }
  }

  lemma TidyClosed(p: Program, u: State, l: nat)
    requires Shaped(p, u) && Tidy(p, u, l)
    requires Shaped(p, FinishLoop(u, l, FAILED)) && Ends(u, FinishLoop(u, l, FAILED), l)
    ensures Tidy(p, FinishLoop(u, l, FAILED), l)
  {
    hide CellShaped, MessageShaped, ChildTidy;
  }

  lemma TidyProcess(p: Program, s: State, l: nat)
    requires Shaped(p, s) && Tidy(p, s, l) && s.queue != [] && s.queue[0].FinishMessage?
    ensures Shaped(p, Popped(s)) && MessageShaped(p, s.queue[0]) && Tidy(p, Handle(p, Popped(s), s.queue[0]), l)
  {
    TidyPopped(p, s, l);
    hide CellShaped, Tidy, Erase, Next;
    var FinishMessage(q, e, r) := s.queue[0];
    var u := Popped(s);
    if u.cells[q].open {
      if q == l {
        TidyErased(p, s, l);
      } else {
        TidyElsewhere(p, u, q, e, l);
      }
      TidyProceed(p, Erase(u, q, e), q, r, l);
    }
  }

  lemma TidyAccepted(p: Program, s: State, q: nat, e: nat, l: nat)
    requires Shaped(p, s) && Tidy(p, s, l) && IsChild(p, q, e)
    ensures Shaped(p, Accept(s, q, e)) && Tidy(p, Accept(s, q, e), l)
  {
    hide CellShaped, MessageShaped;
    AcceptShape(p, s, q, e);
    var t := Accept(s, q, e);
    if s.cells[l].open {
      forall f | IsChild(p, l, f) ensures ChildTidy(t, l, f) {
        assert ChildTidy(s, l, f);
      }
    }
  }

  lemma TidyPush(p: Program, s: State, q: nat, e: nat, l: nat)
    requires Shaped(p, s) && Tidy(p, s, l) && IsChild(p, q, e)
    ensures Tidy(p, PushBack(p, s, q, e), l)
  {
    hide CellShaped, MessageShaped, Tidy;
    TidyAccepted(p, s, q, e, l);
    var u := Accept(s, q, e);
    if u.cells[q].status == ACTIVE && (|u.cells[q].deque| == 1 || p.kinds[q].mode.multiCommand) {
      TidyNext(p, u, q, l);
    }
  }

  lemma TidyActivated(p: Program, s: State, l: nat)
    requires Shaped(p, s) && Tidy(p, s, l) && s.cells[0].status == INACTIVE
    ensures Shaped(p, Activate(s, 0)) && Tidy(p, Activate(s, 0), l)
  {
    assert CellShaped(p, s.cells[0], 0);
    hide CellShaped, MessageShaped;
    if s.cells[l].open {
      forall f | IsChild(p, l, f) ensures ChildTidy(Activate(s, 0), l, f) {
        assert ChildTidy(s, l, f);
      }
    }
  }

  lemma TidyRoot(p: Program, s: State, onThread: bool, l: nat)
    requires Shaped(p, s) && Tidy(p, s, l) && s.cells[0].status == INACTIVE
    ensures Tidy(p, RootStarted(p, s, onThread), l)
  {
    TidyIsLoop(p, s, l);
    TidyActivated(p, s, l);
    var u := Activate(s, 0);
    BeginFrame(p, u, 0);
    hide CellShaped, Tidy, Runs, Begin;
    if onThread || p.kinds[0].Leaf? {
      TidyRuns(p, u, Begin(p, u, 0), 0, l);
    } else if u.cells[0].open {
      TidyPost(p, u, StartMessage(0), l);
    }
  }

  lemma TidyPost(p: Program, s: State, m: Message, l: nat)
    requires Shaped(p, s) && Tidy(p, s, l) && MessageShaped(p, m) && !m.FinishMessage?
    ensures Shaped(p, s.Post(m)) && Tidy(p, s.Post(m), l)
  {
    hide CellShaped;
    if s.cells[l].open {
      forall f | IsChild(p, l, f) ensures ChildTidy(s.Post(m), l, f) {
        assert ChildTidy(s, l, f);
      }
    }
  }

  lemma TidyStep(p: Program, s: State, a: Action, l: nat)
    requires Shaped(p, s) && Tidy(p, s, l) && Enabled(p, s, a)
    ensures Tidy(p, Apply(p, s, a), l)
  {
    hide CellShaped, Tidy;
    match a
    case Deliver =>
      TidyPopped(p, s, l);
      var u := Popped(s);
      match s.queue[0] {
        case StartMessage(q) => TidyNext(p, u, q, l);
        case FinishMessage(_, _, _) => TidyProcess(p, s, l);
        case PushMessage(q, e) => TidyPush(p, u, q, e, l);
      }
    case FinishLeaf(e) =>
      CompleteShaped(p, s, e, p.kinds[e].result);
      CompleteEnds(p, s, e, p.kinds[e].result);
      TidyIsLoop(p, s, l);
      TidyEnds(p, s, Complete(s, e, p.kinds[e].result), e, l);
    case StartRoot(onThread) => TidyRoot(p, s, onThread, l);
    case Offer(q, e, onThread) =>
      if s.cells[q].open {
        if onThread {
          TidyPush(p, s, q, e, l);
        } else {
          TidyPost(p, s, PushMessage(q, e), l);
        }
      }
  }

  lemma TidyIsLoop(p: Program, s: State, l: nat)
    requires Shaped(p, s) && Tidy(p, s, l)
    ensures p.kinds[l].Loop? && s.cells[l].status != INACTIVE
  {
  }

  lemma {:induction false} TidyRun(p: Program, s: State, run: seq<Action>, l: nat)
    requires Shaped(p, s) && Tidy(p, s, l) && Legal(p, s, run)
    ensures Tidy(p, Execute(p, s, run), l)
    decreases |run|
  {
    hide Shaped, Tidy, Apply, Enabled;
    if run != [] {
      TidyStep(p, s, run[0], l);
      TidyRun(p, Apply(p, s, run[0]), run[1..], l);
    }
  }

  // ---------------------------------------------------------------- blocked for good

  /** The single-command loop has come to the command it keeps. */
  ghost predicate Blocked(p: Program, s: State, l: nat, c: nat)
    requires Shaped(p, s)
  {
    Kept(p, s, l, c) && Tidy(p, s, l) && s.cells[l].open && AtFront(s, l, c)
  }

  lemma BlockedIsIdle(p: Program, s: State, l: nat, c: nat)
    requires Shaped(p, s) && Blocked(p, s, l, c)
    ensures Idle(p, s, l)
  {
    forall e: nat | IsChild(p, l, e) ensures s.cells[e].status != ACTIVE {
      assert ChildTidy(s, l, e);
    }
  }

  /** The loop's own cell, but for what is pushed behind the front. */
  ghost predicate Stands(s: State, t: State, l: nat) {
    && l < |s.cells| == |t.cells|
    && t.cells[l] == s.cells[l].(deque := t.cells[l].deque, accepted := t.cells[l].accepted)
    && s.cells[l].deque <= t.cells[l].deque
  }

  lemma RunsStands(p: Program, s: State, t: State, d: nat, l: nat)
    requires Shaped(p, s) && Runs(p, s, t, d) && l < |s.cells| && l != d && s.cells[l].status != INACTIVE
    ensures t.cells[l] == s.cells[l]
  {
    hide CellShaped, MessageShaped;
  }

  lemma BlockedNext(p: Program, s: State, q: nat, l: nat, c: nat)
    requires Shaped(p, s) && Blocked(p, s, l, c) && q < |s.cells| && p.kinds[q].Loop?
    ensures Next(p, s, q).cells[l] == s.cells[l]
  {
    if q != l {
      NextFrame(p, s, q);
      RunsStands(p, s, Next(p, s, q), q, l);
    }
  }

  lemma BlockedPush(p: Program, s: State, q: nat, e: nat, l: nat, c: nat)
    requires Shaped(p, s) && Blocked(p, s, l, c) && IsChild(p, q, e)
    ensures Stands(s, PushBack(p, s, q, e), l)
  {
    hide CellShaped, MessageShaped, Tidy;
    TidyAccepted(p, s, q, e, l);
    var u := Accept(s, q, e);
    assert Blocked(p, u, l, c);
    if u.cells[q].status == ACTIVE && (|u.cells[q].deque| == 1 || p.kinds[q].mode.multiCommand) {
      BlockedNext(p, u, q, l, c);
    }
  }

  /** The finish of a command of another loop. */
  lemma BlockedProcess(p: Program, s: State, q: nat, e: nat, r: CommandResult, l: nat, c: nat)
    requires Shaped(p, s) && Blocked(p, s, l, c) && IsChild(p, q, e) && q != l
    ensures Stands(s, ProcessEvent(p, s, q, e, r), l)
  {
    if s.cells[q].open {
      EraseShaped(p, s, q, e);
      var u := Erase(s, q, e);
      FinishShaped(p, u, q, FAILED);
      FinishEnds(p, u, q, FAILED);
      NextFrame(p, u, q);
      hide CellShaped, MessageShaped, Tidy, Below, Ends;
      var t := ProcessEvent(p, s, q, e, r);
      assert Runs(p, u, t, q);
      RunsStands(p, u, t, q, l);
    }
  }

  lemma BlockedStep(p: Program, s: State, a: Action, l: nat, c: nat)
    requires Shaped(p, s) && Blocked(p, s, l, c) && Enabled(p, s, a)
    ensures Stands(s, Apply(p, s, a), l)
  {
    hide CellShaped, Tidy, AtFront;
    match a
    case Deliver =>
      KeptPopped(p, s, l, c);
      TidyPopped(p, s, l);
      BlockedIsIdle(p, s, l, c);
      var u := Popped(s);
      assert Blocked(p, u, l, c) by { FrontStays(s, u, l, c); }
      match s.queue[0] {
        case StartMessage(q) => BlockedNext(p, u, q, l, c);
        case FinishMessage(q, e, r) => BlockedProcess(p, u, q, e, r, l, c);
        case PushMessage(q, e) => BlockedPush(p, u, q, e, l, c);
      }
    case FinishLeaf(e) =>
      KeptLeaf(p, s, l, c);
    case StartRoot(onThread) =>
      BlockedRoot(p, s, onThread, l, c);
    case Offer(q, e, onThread) =>
      if s.cells[q].open && onThread {
        BlockedPush(p, s, q, e, l, c);
      }
  }

  lemma FrontStays(s: State, u: State, l: nat, c: nat)
    requires l < |s.cells| == |u.cells| && AtFront(s, l, c) && s.cells[l].deque <= u.cells[l].deque
    ensures AtFront(u, l, c)
  {
  }

  lemma BlockedRoot(p: Program, s: State, onThread: bool, l: nat, c: nat)
    requires Shaped(p, s) && Blocked(p, s, l, c) && s.cells[0].status == INACTIVE
    ensures Stands(s, RootStarted(p, s, onThread), l)
  {
    assert CellShaped(p, s.cells[0], 0);
    hide CellShaped, MessageShaped, Tidy;
    var u := Activate(s, 0);
    assert Shaped(p, u);
    BeginFrame(p, u, 0);
    RunsStands(p, u, Begin(p, u, 0), 0, l);
  }

  lemma {:induction false} BlockedRun(p: Program, s: State, run: seq<Action>, l: nat, c: nat)
    requires Shaped(p, s) && Blocked(p, s, l, c) && Legal(p, s, run)
    ensures Stands(s, Execute(p, s, run), l) && Blocked(p, Execute(p, s, run), l, c)
    decreases |run|
  {
    KeptLeaf(p, s, l, c);
    assert Stands(s, s, l);
    hide Shaped, Tidy, Apply, Enabled, AtFront, Kept;
    if run != [] {
      var t := Apply(p, s, run[0]);
      KeptStep(p, s, run[0], l, c);
      TidyStep(p, s, run[0], l);
      BlockedStep(p, s, run[0], l, c);
      FrontStays(s, t, l, c);
      BlockedRun(p, t, run[1..], l, c);
    }
  }

  // ---------------------------------------------------------------- the second push

  lemma RepushKept(p: Program, s: State, l: nat, c: nat)
    requires Inv(p, s) && IsChild(p, l, c) && s.cells[l].open && c in s.cells[l].handled
    ensures s.cells[l].status == ACTIVE && Kept(p, PushBack(p, s, l, c), l, c)
  {
    assert ChildOk(p, s, c) && LoopOk(p, s, l) && CellShaped(p, s.cells[l], l);
    HandledMeansStarted(p, s, l);
    forall k | 0 <= k < |s.queue| && s.queue[k].FinishMessage? ensures s.queue[k].command != c {
      assert MessageShaped(p, s.queue[k]) && MessageOk(p, s, s.queue[k]);
    }
    AcceptShape(p, s, l, c);
    var u := Accept(s, l, c);
    hide CellShaped, MessageShaped, ChildOk, LoopOk, MessageOk, QueueOk;
    assert Kept(p, u, l, c);
    KeptNext(p, u, l, l, c);
  }

  lemma InvChildTidy(p: Program, s: State, l: nat, e: nat)
    requires Inv(p, s) && IsChild(p, l, e) && s.cells[l].open && !p.kinds[l].mode.multiCommand
    ensures ChildTidy(s, l, e)
  {
    hide CellShaped, MessageShaped, MessageOk, QueueOk;
    assert ChildOk(p, s, e) && LoopOk(p, s, l);
    var o := s.cells[l];
    if s.cells[e].status == ACTIVE {
      assert e in o.started && e !in o.handled;
      assert o.started == o.handled + [o.deque[0]];
    }
  }

  lemma InvFinishTidy(p: Program, s: State, l: nat, m: Message)
    requires Inv(p, s) && m in s.queue && Finishes(m, l) && l < |s.cells| && s.cells[l].open
    requires p.kinds[l].Loop? && !p.kinds[l].mode.multiCommand
    ensures IsChild(p, l, m.command) && AtFront(s, l, m.command) && s.cells[m.command].status == FINISHED
  {
    hide CellShaped;
    var k :| 0 <= k < |s.queue| && s.queue[k] == m;
    assert MessageShaped(p, s.queue[k]) && MessageOk(p, s, s.queue[k]);
    var o, e := s.cells[l], m.command;
    assert ChildOk(p, s, e) && LoopOk(p, s, l);
    assert e in o.started && e !in o.handled;
    assert o.started == o.handled + [o.deque[0]];
  }

  lemma InvTidy(p: Program, s: State, l: nat)
    requires Inv(p, s) && l < |s.cells| && p.kinds[l].Loop? && !p.kinds[l].mode.multiCommand
    requires s.cells[l].status == ACTIVE
    ensures Tidy(p, s, l)
  {
    hide CellShaped, MessageShaped, ChildOk, MessageOk, LoopOk, ChildTidy, AtFront;
    if s.cells[l].open {
      forall e | IsChild(p, l, e) ensures ChildTidy(s, l, e) {
        InvChildTidy(p, s, l, e);
      }
      forall k | 0 <= k < |s.queue| && Finishes(s.queue[k], l)
        ensures IsChild(p, l, s.queue[k].command)
        ensures AtFront(s, l, s.queue[k].command) && s.cells[s.queue[k].command].status == FINISHED
      {
        InvFinishTidy(p, s, l, s.queue[k]);
      }
      forall i, j | 0 <= i < j < |s.queue| && Finishes(s.queue[i], l) ensures !Finishes(s.queue[j], l) {
        if Finishes(s.queue[j], l) {
          OnlyFront(s, l, s.queue[i].command, s.queue[j].command);
          assert false by { TwoFinishes(p, s, i, j); }
        }
      }
    }
  }

  lemma TwoFinishes(p: Program, s: State, i: nat, j: nat)
    requires Inv(p, s) && i < j < |s.queue| && s.queue[i].FinishMessage? && s.queue[j].FinishMessage?
    ensures s.queue[i].command != s.queue[j].command
  {
    assert Apart(s.queue[i], s.queue[j]);
  }

  lemma OnlyFront(s: State, l: nat, d: nat, e: nat)
    requires l < |s.cells| && AtFront(s, l, d) && AtFront(s, l, e)
    ensures d == e
  {
  }

  /** Commands must be pushed fresh. When a single-command loop is pushed a command it has processed
      before, it may go on with what was pushed earlier; but once that command has come to the front,
      over every continuation the loop stays ACTIVE with it at the front: no command of it is under
      way and no finish is queued for it, it starts nothing and processes nothing any more. */
  lemma RepushedCommandBlocks(p: Program, s: State, l: nat, c: nat, run: seq<Action>, more: seq<Action>)
    requires Reachable(p, s) && Shaped(p, s) && IsChild(p, l, c) && s.cells[l].open && c in s.cells[l].handled
    requires !p.kinds[l].mode.multiCommand && Legal(p, PushBack(p, s, l, c), run)
    requires var u := Execute(p, PushBack(p, s, l, c), run);
      u.cells[l].open && u.cells[l].deque != [] && u.cells[l].deque[0] == c && Legal(p, u, more)
    ensures var u := Execute(p, PushBack(p, s, l, c), run);
      var v := Execute(p, u, more);
      && v.cells[l] == u.cells[l].(deque := v.cells[l].deque, accepted := v.cells[l].accepted)
      && v.cells[l].status == ACTIVE && v.cells[l].deque != [] && v.cells[l].deque[0] == c
      && Shaped(p, v) && Idle(p, v, l)
  {
    ReachableKeeps(p, s);
    RepushKept(p, s, l, c);
    InvTidy(p, s, l);
    TidyPush(p, s, l, c, l);
    BlocksFrom(p, PushBack(p, s, l, c), run, more, l, c);
  }

  lemma BlocksFrom(p: Program, t: State, run: seq<Action>, more: seq<Action>, l: nat, c: nat)
    requires Shaped(p, t) && Kept(p, t, l, c) && Tidy(p, t, l) && Legal(p, t, run)
    requires var u := Execute(p, t, run);
      l < |u.cells| && u.cells[l].open && AtFront(u, l, c) && Legal(p, u, more)
    ensures var v := Execute(p, Execute(p, t, run), more);
      Stands(Execute(p, t, run), v, l) && Idle(p, v, l) && v.cells[l].status == ACTIVE && AtFront(v, l, c)
  {
    hide Shaped, Legal, Execute, Idle;
    KeptRun(p, t, run, l, c);
    TidyRun(p, t, run, l);
    var u := Execute(p, t, run);
    BlockedRun(p, u, more, l, c);
    BlockedIsIdle(p, Execute(p, u, more), l, c);
  }

  /** Pushing again a command that is still in the deque changes nothing that matters. */
  lemma RepushQueuedKeeps(p: Program, s: State, l: nat, c: nat)
    requires Inv(p, s) && AllSettled(p, s) && IsChild(p, l, c) && s.cells[l].open && c in s.cells[l].deque
    ensures var t := PushBack(p, s, l, c); Inv(p, t) && AllSettled(p, t) && Steps(s, t)
  {
    assert LoopOk(p, s, l) && Settled(p, s, l);
    assert Accept(s, l, c) == s;
    hide ChildOk, LoopOk, MessageOk, QueueOk, CellShaped, MessageShaped, Settled;
    if s.cells[l].status == ACTIVE && (|s.cells[l].deque| == 1 || p.kinds[l].mode.multiCommand) {
      var t := NextSettlesAll(p, s, l);
    } else {
      assert Steps(s, s);
    }
  }

  /** A push keeps the invariant unless the command was processed before. */
  lemma PushUnlessHandled(p: Program, s: State, l: nat, c: nat)
    requires Inv(p, s) && AllSettled(p, s) && IsChild(p, l, c) && s.cells[l].open
    requires c !in s.cells[l].handled && PushMessage(l, c) !in s.queue
    ensures var t := PushBack(p, s, l, c); Inv(p, t) && AllSettled(p, t) && Steps(s, t)
  {
    assert ChildOk(p, s, c);
    hide ChildOk, LoopOk, MessageOk, QueueOk, CellShaped, MessageShaped, Settled;
    if c in s.cells[l].accepted {
      RepushQueuedKeeps(p, s, l, c);
    } else {
      var t := PushKeeps(p, s, l, c);
    }
  }

  ghost predicate IsFinished(s: State, l: nat) {
    l < |s.cells| && s.cells[l].status == FINISHED
  }

  /** Some run brings the loop to its end. */
  ghost predicate CanFinish(p: Program, t: State, l: nat)
    requires Shaped(p, t)
  {
    exists run :: Legal(p, t, run) && IsFinished(Execute(p, t, run), l)
  }

  lemma FinishesAtRest(p: Program, t: State, run: seq<Action>, l: nat)
    requires Inv(p, t) && AllSettled(p, t) && l < |t.cells| && t.cells[l].status != INACTIVE
    requires forall i :: 0 <= i < |p.kinds| && p.kinds[i].Loop? ==> !p.kinds[i].mode.continuous
    requires Legal(p, t, run) && Quiet(p, Execute(p, t, run))
    ensures IsFinished(Execute(p, t, run), l)
  {
    RunKeeps(p, t, run);
    var u := Execute(p, t, run);
    assert CellSteps(t.cells[l], u.cells[l]);
    QuietFinished(p, u, l);
  }

  /** Every run that comes to rest has finished the loop, and there is one. */
  ghost predicate EndsByItself(p: Program, t: State, l: nat)
    requires Shaped(p, t)
  {
    && CanFinish(p, t, l)
    && forall run :: Legal(p, t, run) && Quiet(p, Execute(p, t, run)) ==> IsFinished(Execute(p, t, run), l)
  }

  /** No run whatever ends the loop successfully. */
  ghost predicate NeverSucceeds(p: Program, t: State, l: nat)
    requires Shaped(p, t)
  {
    forall run :: Legal(p, t, run) && IsFinished(Execute(p, t, run), l) ==> Execute(p, t, run).cells[l].result == FAILED
  }

  lemma HandledNeverSucceeds(p: Program, s: State, l: nat, c: nat)
    requires Inv(p, s) && IsChild(p, l, c) && s.cells[l].open && c in s.cells[l].handled
    ensures NeverSucceeds(p, PushBack(p, s, l, c), l)
    ensures !p.kinds[l].mode.transaction ==> !CanFinish(p, PushBack(p, s, l, c), l)
  {
    RepushKept(p, s, l, c);
    var t := PushBack(p, s, l, c);
    hide Inv, Legal, Execute, PushBack, Shaped;
    forall run | Legal(p, t, run)
      ensures IsFinished(Execute(p, t, run), l) ==>
        Execute(p, t, run).cells[l].result == FAILED && p.kinds[l].mode.transaction
    {
      KeptRun(p, t, run, l, c);
    }
  }

  lemma FreshEndsByItself(p: Program, s: State, l: nat, c: nat)
    requires Inv(p, s) && AllSettled(p, s) && IsChild(p, l, c) && s.cells[l].open && s.cells[l].status == ACTIVE
    requires c !in s.cells[l].handled && PushMessage(l, c) !in s.queue
    requires forall i :: 0 <= i < |p.kinds| && p.kinds[i].Loop? ==> !p.kinds[i].mode.continuous
    ensures EndsByItself(p, PushBack(p, s, l, c), l)
  {
    var t := PushBack(p, s, l, c);
    hide Inv, AllSettled, Legal, Execute, Quiet, PushBack, Shaped;
    PushUnlessHandled(p, s, l, c);
    assert CellSteps(s.cells[l], t.cells[l]);
    forall run | Legal(p, t, run) && Quiet(p, Execute(p, t, run)) ensures IsFinished(Execute(p, t, run), l) {
      FinishesAtRest(p, t, run, l);
    }
    var run := ComesToRest(p, t);
  }

  /** Exactly when a second push is harmless: when the command was not processed before. Then every run
      that comes to rest has finished the loop, and there is such a run. Otherwise no run whatever ends
      the loop successfully, and without Transaction none ends it at all. */
  lemma RepushIsHarmlessIffNotHandled(p: Program, s: State, l: nat, c: nat)
    requires Reachable(p, s) && Shaped(p, s) && IsChild(p, l, c) && s.cells[l].status == ACTIVE
    requires PushMessage(l, c) !in s.queue
    requires forall i :: 0 <= i < |p.kinds| && p.kinds[i].Loop? ==> !p.kinds[i].mode.continuous
    ensures c !in s.cells[l].handled ==> EndsByItself(p, PushBack(p, s, l, c), l)
    ensures c in s.cells[l].handled ==> NeverSucceeds(p, PushBack(p, s, l, c), l)
    ensures !p.kinds[l].mode.transaction ==>
      (CanFinish(p, PushBack(p, s, l, c), l) <==> c !in s.cells[l].handled)
  {
    ReachableKeeps(p, s);
    assert LoopOk(p, s, l);
    hide Inv, AllSettled, PushBack, Shaped, NeverSucceeds;
    if c in s.cells[l].handled {
      HandledNeverSucceeds(p, s, l, c);
    } else {
      FreshEndsByItself(p, s, l, c);
    }
  }
}
