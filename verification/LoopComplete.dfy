/** Complete runs exist: every finite tree without Continuous loops can be run to its result. */
module LoopComplete {
  import opened CommandTypes
  import opened LoopMachine
  import opened LoopFrame
  import opened LoopInvariant
  import opened LoopSteps
  import opened LoopTheorems

  /** Without new offers a run comes to an end by itself, within the measure. */
  lemma {:induction false} ComesToRest(p: Program, s: State) returns (run: seq<Action>)
    requires Inv(p, s) && AllSettled(p, s)
    ensures Legal(p, s, run) && Quiet(p, Execute(p, s, run))
    ensures Offers(run) == 0 && |run| <= Measure(s)
    decreases Measure(s)
  {
    assert Shaped(p, s);
    hide Inv, AllSettled, Shaped, Apply, Enabled, Measure;
    if Quiet(p, s) {
      run := [];
    } else {
      Progress(p, s);
      var a :| Enabled(p, s, a) && !a.Offer?;
      var t := StepKeeps(p, s, a);
      var rest := ComesToRest(p, t);
      Prefixed(p, s, a, rest);
      run := [a] + rest;
      assert run[1..] == rest;
    }
  }

  lemma {:induction false} ReachableRun(p: Program, s: State, run: seq<Action>)
    requires Reachable(p, s) && Shaped(p, s) && Legal(p, s, run)
    ensures Reachable(p, Execute(p, s, run))
    decreases |run|
  {
    hide Reachable, Shaped, Apply, Enabled;
    if run != [] {
      ReachableStep(p, s, run[0]);
      ReachableRun(p, Apply(p, s, run[0]), run[1..]);
    }
  }

  // ---------------------------------------------------------------- push everything, then start

  /** Nothing has been started, and every command below `k` has been pushed. */
  ghost predicate PushedBelow(p: Program, s: State, k: nat)
    requires Shaped(p, s)
  {
    && s.queue == []
    && (forall i :: 0 <= i < |s.cells| ==> s.cells[i].status == INACTIVE && (p.kinds[i].Loop? ==> s.cells[i].open))
    && (forall c :: 0 < c < |p.kinds| ==> (c in s.cells[p.owner[c]].accepted <==> c < k))
  }

  lemma NotYetPushed(p: Program, s: State, k: nat)
    requires Inv(p, s) && 0 < k < |p.kinds| && PushedBelow(p, s, k)
    ensures IsChild(p, p.owner[k], k) && s.cells[p.owner[k]].open && k !in s.cells[p.owner[k]].deque
    ensures Enabled(p, s, Offer(p.owner[k], k, true))
  {
    assert ChildOk(p, s, k);
    hide ChildOk, LoopOk, MessageOk, CellShaped, MessageShaped;
  }

  /** A loop that is not ACTIVE only takes the command into its deque. */
  lemma PushIsAccept(p: Program, s: State, l: nat, k: nat)
    requires Shaped(p, s) && IsChild(p, l, k) && s.cells[l].open && s.cells[l].status == INACTIVE
    ensures Pushed(p, s, l, k, true) == Accept(s, l, k)
  {
    hide CellShaped, MessageShaped, Next;
  }

  lemma AcceptPushedBelow(p: Program, s: State, l: nat, k: nat)
    requires Shaped(p, s) && PushedBelow(p, s, k) && IsChild(p, l, k) && Shaped(p, Accept(s, l, k))
    requires s.cells[l].open && k !in s.cells[l].deque
    ensures PushedBelow(p, Accept(s, l, k), k + 1)
  {
    hide CellShaped, MessageShaped;
    var t := Accept(s, l, k);
    forall c | 0 < c < |p.kinds| ensures c in t.cells[p.owner[c]].accepted <==> c < k + 1 {
      if p.owner[c] == l {
        assert t.cells[l].accepted == s.cells[l].accepted + [k];
      } else {
        assert t.cells[p.owner[c]] == s.cells[p.owner[c]];
      }
    }
  }

  lemma PushNext(p: Program, s: State, k: nat) returns (t: State)
    requires Reachable(p, s) && Shaped(p, s) && 0 < k < |p.kinds| && PushedBelow(p, s, k)
    ensures Reachable(p, t) && Shaped(p, t) && PushedBelow(p, t, k + 1)
  {
    var l := p.owner[k];
    ReachableKeeps(p, s);
    NotYetPushed(p, s, k);
    ReachableStep(p, s, Offer(l, k, true));
    PushIsAccept(p, s, l, k);
    hide Inv, Reachable, Shaped, Enabled, Accept, Pushed;
    t := Apply(p, s, Offer(l, k, true));
    AcceptPushedBelow(p, s, l, k);
  }

  lemma {:induction false} PushAll(p: Program, s: State, k: nat) returns (t: State)
    requires Reachable(p, s) && Shaped(p, s) && 0 < k <= |p.kinds| && PushedBelow(p, s, k)
    ensures Reachable(p, t) && Shaped(p, t) && PushedBelow(p, t, |p.kinds|)
    decreases |p.kinds| - k
  {
    hide Reachable, Shaped, PushedBelow;
    t := s;
    if k < |p.kinds| {
      t := PushNext(p, s, k);
      t := PushAll(p, t, k + 1);
    }
  }

  lemma InitialPushed(p: Program)
    requires p.WellFormed()
    ensures Shaped(p, Initial(p)) && Reachable(p, Initial(p)) && PushedBelow(p, Initial(p), 1)
  {
    InitialKeeps(p);
    assert Legal(p, Initial(p), []) && Execute(p, Initial(p), []) == Initial(p);
  }

  lemma RootUnderWay(p: Program, s: State) returns (t: State)
    requires Reachable(p, s) && Shaped(p, s) && PushedBelow(p, s, |p.kinds|)
    ensures Reachable(p, t) && Shaped(p, t) && Full(p, t) && t.cells[0].status != INACTIVE
  {
    ReachableKeeps(p, s);
    t := Apply(p, s, StartRoot(true));
    ReachableStep(p, s, StartRoot(true));
    var u := StepKeeps(p, s, StartRoot(true));
    RootActive(p, s);
    hide Reachable, Inv, CellShaped, MessageShaped, Apply;
    forall c | 0 < c < |p.kinds| ensures c in t.cells[p.owner[c]].accepted {
      assert CellSteps(s.cells[p.owner[c]], t.cells[p.owner[c]]);
    }
  }

  lemma RootActive(p: Program, s: State)
    requires Shaped(p, s) && s.cells[0].status == INACTIVE
    ensures RootStarted(p, s, true).cells[0].status != INACTIVE
  {
    assert CellShaped(p, s.cells[0], 0);
    hide CellShaped, MessageShaped;
    assert Shaped(p, Activate(s, 0));
    BeginFrame(p, Activate(s, 0), 0);
  }

  /** Every task has a complete run: push every command to its owner, start the root, and let the
      context and the leaves go on until nothing is left to happen. */
  lemma CompleteRunExists(p: Program) returns (s: State)
    requires p.WellFormed()
    requires forall l :: 0 <= l < |p.kinds| && p.kinds[l].Loop? ==> !p.kinds[l].mode.continuous
    ensures CompleteRun(p, s)
  {
    hide Reachable, Shaped, PushedBelow, Full, Quiet;
    InitialPushed(p);
    s := PushAll(p, Initial(p), 1);
    s := RootUnderWay(p, s);
    ReachableKeeps(p, s);
    var run := ComesToRest(p, s);
    ReachableRun(p, s, run);
    FullStays(p, s, run);
    StillStarted(p, s, run);
    s := Execute(p, s, run);
  }

  lemma StillStarted(p: Program, s: State, run: seq<Action>)
    requires Inv(p, s) && AllSettled(p, s) && Legal(p, s, run) && s.cells[0].status != INACTIVE
    ensures Shaped(p, Execute(p, s, run)) && Execute(p, s, run).cells[0].status != INACTIVE
  {
    RunKeeps(p, s, run);
    assert CellSteps(s.cells[0], Execute(p, s, run).cells[0]);
  }

  /** So every finite tree without Continuous loops has one result: complete runs of it exist, and all
      of them, of it or of the same task in other modes, finish the root with what the evaluator says. */
  lemma EveryTaskHasOneResult(p: Program)
    requires p.WellFormed()
    requires forall l :: 0 <= l < |p.kinds| && p.kinds[l].Loop? ==> !p.kinds[l].mode.continuous
    ensures exists s :: CompleteRun(p, s)
    ensures forall q, t :: CompleteRun(q, t) && SameTask(p, q) ==>
      t.cells[0].status == FINISHED && t.cells[0].result == EvalTree(p, 0)
  {
    var s := CompleteRunExists(p);
    forall q, t | CompleteRun(q, t) && SameTask(p, q)
      ensures t.cells[0].status == FINISHED && t.cells[0].result == EvalTree(p, 0)
    {
      ResultIsDetermined(p, s, q, t);
    }
  }
}
