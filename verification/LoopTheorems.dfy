/** The main results about command loops, over every run from the initial state. */
module LoopTheorems {
  import opened CommandTypes
  import opened LoopMachine
  import opened LoopInvariant
  import opened LoopSteps

  lemma InitialKeeps(p: Program)
    requires p.WellFormed()
    ensures Inv(p, Initial(p)) && AllSettled(p, Initial(p))
  {
    var s := Initial(p);
    forall i | 0 <= i < |s.cells| ensures LoopOk(p, s, i) && CellShaped(p, s.cells[i], i) {
    }
    forall c | 0 < c < |s.cells| ensures ChildOk(p, s, c) {
    }
  }

  ghost function Offers(run: seq<Action>): nat {
    if run == [] then 0 else (if run[0].Offer? then 1 else 0) + Offers(run[1..])
  }

  /** The invariant holds in every reachable state, and a run without new offers is never longer
      than the measure of the state it starts in. */
  lemma {:induction false} RunKeeps(p: Program, s: State, run: seq<Action>)
    requires Inv(p, s) && AllSettled(p, s) && Legal(p, s, run)
    ensures var t := Execute(p, s, run);
      && Inv(p, t) && AllSettled(p, t) && Steps(s, t)
      && Measure(t) + |run| <= Measure(s) + 2 * Offers(run)
    decreases |run|
  {
    if run != [] {
      var t := StepKeeps(p, s, run[0]);
      RunKeeps(p, t, run[1..]);
      StepsTransitive(s, t, Execute(p, t, run[1..]));
    }
  }

  /** Every run of a finite tree is finite: `n` commands and `k` offers allow at most 4n + 2k steps. */
  lemma Termination(p: Program, run: seq<Action>)
    requires p.WellFormed() && Shaped(p, Initial(p)) && Legal(p, Initial(p), run)
    ensures |run| <= 4 * |p.kinds| + 2 * Offers(run)
  {
    InitialKeeps(p);
    RunKeeps(p, Initial(p), run);
    WorkBound(Initial(p).cells);
  }

  lemma {:induction false} WorkBound(cells: seq<Cell>)
    ensures Work(cells) <= 4 * |cells|
  {
    if cells != [] {
      WorkBound(cells[..|cells| - 1]);
    }
  }

  // ---------------------------------------------------------------- no stall

  /** A state some run reaches. */
  ghost predicate Reachable(p: Program, s: State) {
    p.WellFormed() && Shaped(p, Initial(p)) &&
    exists run :: Legal(p, Initial(p), run) && Execute(p, Initial(p), run) == s
  }

  lemma ReachableKeeps(p: Program, s: State)
    requires Reachable(p, s)
    ensures Inv(p, s) && AllSettled(p, s)
  {
    var run :| Legal(p, Initial(p), run) && Execute(p, Initial(p), run) == s;
    InitialKeeps(p);
    RunKeeps(p, Initial(p), run);
  }

  lemma Prefixed(p: Program, s: State, a: Action, rest: seq<Action>)
    requires Shaped(p, s) && Enabled(p, s, a) && Legal(p, Apply(p, s, a), rest)
    ensures Legal(p, s, [a] + rest) && Execute(p, s, [a] + rest) == Execute(p, Apply(p, s, a), rest)
  {
    assert ([a] + rest)[1..] == rest;
  }

  lemma {:induction false} LegalAppend(p: Program, s: State, run: seq<Action>, a: Action)
    requires Shaped(p, s) && Legal(p, s, run) && Enabled(p, Execute(p, s, run), a)
    ensures Legal(p, s, run + [a]) && Execute(p, s, run + [a]) == Apply(p, Execute(p, s, run), a)
    decreases |run|
  {
    hide Shaped, Enabled, Apply;
    if run == [] {
      assert run + [a] == [a] && [a][1..] == [];
      assert Execute(p, Apply(p, s, a), []) == Apply(p, s, a);
    } else {
      assert (run + [a])[1..] == run[1..] + [a];
      LegalAppend(p, Apply(p, s, run[0]), run[1..], a);
    }
  }

  lemma ReachableStep(p: Program, s: State, a: Action)
    requires Reachable(p, s) && Shaped(p, s) && Enabled(p, s, a)
    ensures Reachable(p, Apply(p, s, a))
  {
    hide Shaped, Enabled, Apply, Legal, Execute;
    var run :| Legal(p, Initial(p), run) && Execute(p, Initial(p), run) == s;
    LegalAppend(p, Initial(p), run, a);
  }

  /** A loop has a message of its own: its start, or the finish of a command still in its deque. */
  ghost predicate HasMessage(s: State, l: nat)
    requires l < |s.cells|
  {
    || StartMessage(l) in s.queue
    || (exists c: nat :: c in s.cells[l].deque && c < |s.cells|
         && s.cells[c].status == FINISHED && FinishMessage(l, c, s.cells[c].result) in s.queue)
  }

  ghost predicate HasActiveChild(p: Program, s: State, l: nat)
    requires l < |s.cells|
  {
    exists c: nat :: c in s.cells[l].deque && IsChild(p, l, c) && c < |s.cells| && s.cells[c].status == ACTIVE
  }

  /** No stall: an ACTIVE, non-Continuous loop always has something that moves it on; and in
      MultiCommand mode, once its start has run, every command in its deque has been started. */
  lemma NoStall(p: Program, s: State, l: nat)
    requires Reachable(p, s) && l < |s.cells| && p.kinds[l].Loop? && s.cells[l].status == ACTIVE
    ensures !p.kinds[l].mode.continuous ==> HasMessage(s, l) || HasActiveChild(p, s, l)
    ensures p.kinds[l].mode.multiCommand && StartMessage(l) !in s.queue ==>
      forall c :: c in s.cells[l].deque && c < |s.cells| ==> s.cells[c].status != INACTIVE
  {
    ReachableKeeps(p, s);
    assert LoopOk(p, s, l) && Settled(p, s, l);
    var o := s.cells[l];
    if StartMessage(l) !in s.queue && o.deque != [] {
      var c := o.deque[0];
      assert CellShaped(p, o, l) && IsChild(p, l, c);
      assert ChildOk(p, s, c) && c in o.deque;
      assert s.cells[c].status != INACTIVE;
      assert CellShaped(p, s.cells[c], c);
    }
  }

  // ---------------------------------------------------------------- what a loop computes

  /** The recursive evaluator over the commands each loop accepted. */
  ghost function Eval(p: Program, accepted: seq<seq<nat>>, i: nat): (r: CommandResult)
    requires p.WellFormed() && |accepted| == |p.kinds| && i < |p.kinds|
    requires forall l, c :: 0 <= l < |accepted| && c in accepted[l] ==> IsChild(p, l, c)
    decreases |p.kinds| - i
  {
    match p.kinds[i]
    case Leaf(r, _) => r
    case Loop(mode) =>
      if mode.transaction && exists c :: c in accepted[i] && IsChild(p, i, c) && Eval(p, accepted, c) == FAILED
      then FAILED else SUCCESS
  }

  ghost function Accepted(s: State): seq<seq<nat>> {
    seq(|s.cells|, i requires 0 <= i < |s.cells| => s.cells[i].accepted)
  }

  lemma AcceptedShaped(p: Program, s: State)
    requires Shaped(p, s)
    ensures forall l, c :: 0 <= l < |s.cells| && c in Accepted(s)[l] ==> IsChild(p, l, c)
  {
    forall l, c | 0 <= l < |s.cells| && c in Accepted(s)[l] ensures IsChild(p, l, c) {
      assert CellShaped(p, s.cells[l], l);
    }
  }

  /** A finished command has the result the evaluator gives it. */
  lemma {:induction false} FinishedResult(p: Program, s: State, i: nat)
    requires Inv(p, s) && i < |s.cells| && s.cells[i].status == FINISHED
    requires forall l, c :: 0 <= l < |s.cells| && c in Accepted(s)[l] ==> IsChild(p, l, c)
    ensures s.cells[i].result == Eval(p, Accepted(s), i)
    decreases |p.kinds| - i
  {
    assert LoopOk(p, s, i);
    var o := s.cells[i];
    if p.kinds[i].Loop? && p.kinds[i].mode.transaction {
      forall c | c in o.handled
        ensures c in Accepted(s)[i] && IsChild(p, i, c) && s.cells[c].result == Eval(p, Accepted(s), c)
      {
        assert CellShaped(p, o, i);
        var k :| 0 <= k < |o.handled| && o.handled[k] == c;
        assert IsChild(p, i, o.handled[k]) && ChildOk(p, s, c);
        FinishedResult(p, s, c);
      }
    }
  }

  /** Nothing is left to happen but new offers: no message is queued and no leaf is under way. */
  ghost predicate Quiet(p: Program, s: State)
    requires Shaped(p, s)
  {
    s.queue == [] && forall c :: 0 <= c < |s.cells| && p.kinds[c].Leaf? ==> s.cells[c].status != ACTIVE
  }

  /** A run that is not quiet can go on by itself. */
  lemma Progress(p: Program, s: State)
    requires Shaped(p, s) && !Quiet(p, s)
    ensures exists a :: Enabled(p, s, a) && !a.Offer?
  {
    if s.queue != [] {
      assert Enabled(p, s, Deliver);
    } else {
      var c :| 0 <= c < |s.cells| && p.kinds[c].Leaf? && s.cells[c].status == ACTIVE;
      assert Enabled(p, s, FinishLeaf(c));
    }
  }

  lemma {:induction false} QuietFinished(p: Program, s: State, i: nat)
    requires Inv(p, s) && AllSettled(p, s) && Quiet(p, s) && i < |s.cells|
    requires forall l :: 0 <= l < |p.kinds| && p.kinds[l].Loop? ==> !p.kinds[l].mode.continuous
    requires s.cells[i].status != INACTIVE
    ensures s.cells[i].status == FINISHED
    decreases |p.kinds| - i
  {
    assert LoopOk(p, s, i) && Settled(p, s, i) && CellShaped(p, s.cells[i], i);
    if s.cells[i].status == ACTIVE {
      var c := s.cells[i].deque[0];
      assert IsChild(p, i, c) && ChildOk(p, s, c) && c in s.cells[i].deque;
      QuietFinished(p, s, c);
    }
  }

  /** Evaluator refinement: whatever the interleaving, a finished command has the result of the
      evaluator, and when nothing is left to happen a started root has finished. */
  lemma RunsComputeEval(p: Program, s: State)
    requires Reachable(p, s)
    ensures Shaped(p, s) && forall l, c :: 0 <= l < |s.cells| && c in Accepted(s)[l] ==> IsChild(p, l, c)
    ensures forall i :: 0 <= i < |s.cells| && s.cells[i].status == FINISHED ==>
      s.cells[i].result == Eval(p, Accepted(s), i)
    ensures Quiet(p, s) && s.cells[0].status != INACTIVE
            && (forall l :: 0 <= l < |p.kinds| && p.kinds[l].Loop? ==> !p.kinds[l].mode.continuous) ==>
      s.cells[0].status == FINISHED && s.cells[0].result == Eval(p, Accepted(s), 0)
  {
    ReachableKeeps(p, s);
    AcceptedShaped(p, s);
    forall i | 0 <= i < |s.cells| && s.cells[i].status == FINISHED
      ensures s.cells[i].result == Eval(p, Accepted(s), i)
    {
      FinishedResult(p, s, i);
    }
    if Quiet(p, s) && s.cells[0].status != INACTIVE
       && forall l :: 0 <= l < |p.kinds| && p.kinds[l].Loop? ==> !p.kinds[l].mode.continuous {
      QuietFinished(p, s, 0);
    }
  }

  // ---------------------------------------------------------------- the whole tree

  /** The evaluator over the tree itself. */
  ghost function EvalTree(p: Program, i: nat): (r: CommandResult)
    requires p.WellFormed() && i < |p.kinds|
    decreases |p.kinds| - i
  {
    match p.kinds[i]
    case Leaf(r, _) => r
    case Loop(mode) =>
      if mode.transaction && exists c :: IsChild(p, i, c) && EvalTree(p, c) == FAILED
      then FAILED else SUCCESS
  }

  /** Every command was accepted by its owner: true once all pushes came before the start. */
  ghost predicate Full(p: Program, s: State)
    requires Shaped(p, s)
  {
    forall c :: 0 < c < |p.kinds| ==> c in s.cells[p.owner[c]].accepted
  }

  lemma FullStays(p: Program, s: State, run: seq<Action>)
    requires Reachable(p, s) && Full(p, s) && Legal(p, s, run)
    ensures Full(p, Execute(p, s, run))
  {
    ReachableKeeps(p, s);
    RunKeeps(p, s, run);
    var t := Execute(p, s, run);
    forall c | 0 < c < |p.kinds| ensures c in t.cells[p.owner[c]].accepted {
      assert CellSteps(s.cells[p.owner[c]], t.cells[p.owner[c]]);
    }
  }

  lemma {:induction false} EvalOfFull(p: Program, s: State, i: nat)
    requires Shaped(p, s) && Full(p, s) && i < |p.kinds|
    requires forall l, c :: 0 <= l < |s.cells| && c in Accepted(s)[l] ==> IsChild(p, l, c)
    ensures Eval(p, Accepted(s), i) == EvalTree(p, i)
    decreases |p.kinds| - i
  {
    forall c | IsChild(p, i, c) ensures c in Accepted(s)[i] && Eval(p, Accepted(s), c) == EvalTree(p, c) {
      EvalOfFull(p, s, c);
    }
  }

  /** Two trees that differ only in MultiCommand bits and in when leaves finish. */
  ghost predicate SameTask(p: Program, q: Program) {
    && p.owner == q.owner && |p.kinds| == |q.kinds|
    && forall i :: 0 <= i < |p.kinds| ==>
         match (p.kinds[i], q.kinds[i])
         case (Leaf(r, _), Leaf(r', _)) => r == r'
         case (Loop(m), Loop(m')) => m.transaction == m'.transaction
         case _ => false
  }

  lemma {:induction false} SameTaskSameEval(p: Program, q: Program, i: nat)
    requires p.WellFormed() && q.WellFormed() && SameTask(p, q) && i < |p.kinds|
    ensures EvalTree(p, i) == EvalTree(q, i)
    decreases |p.kinds| - i
  {
    forall c | IsChild(p, i, c) || IsChild(q, i, c) ensures EvalTree(p, c) == EvalTree(q, c) {
      SameTaskSameEval(p, q, c);
    }
  }

  ghost predicate CompleteRun(p: Program, s: State) {
    && Reachable(p, s) && Shaped(p, s) && Quiet(p, s) && Full(p, s) && s.cells[0].status != INACTIVE
    && forall l :: 0 <= l < |p.kinds| && p.kinds[l].Loop? ==> !p.kinds[l].mode.continuous
  }

  /** The result of a complete run depends neither on single or MultiCommand mode nor on any
      ordering: not of the pushes, not of the finishes, not of the threads. */
  lemma ResultIsDetermined(p: Program, s: State, q: Program, t: State)
    requires CompleteRun(p, s) && CompleteRun(q, t) && SameTask(p, q)
    ensures s.cells[0].status == t.cells[0].status == FINISHED
    ensures s.cells[0].result == t.cells[0].result == EvalTree(p, 0)
  {
    RunsComputeEval(p, s);
    RunsComputeEval(q, t);
    EvalOfFull(p, s, 0);
    EvalOfFull(q, t, 0);
    SameTaskSameEval(p, q, 0);
  }

  // ---------------------------------------------------------------- order and multiplicity

  /** Without MultiCommand a loop is sequential: commands start in the order they were accepted,
      one is processed before the next starts, and only the front of the deque can be ACTIVE. */
  lemma SingleCommandIsSequential(p: Program, s: State, l: nat)
    requires Reachable(p, s) && l < |s.cells| && p.kinds[l].Loop? && !p.kinds[l].mode.multiCommand
    ensures s.cells[l].started <= s.cells[l].accepted && s.cells[l].handled <= s.cells[l].started
    ensures |s.cells[l].started| <= |s.cells[l].handled| + 1
    ensures forall c :: c in s.cells[l].accepted && c < |s.cells| && s.cells[c].status == ACTIVE ==>
      s.cells[l].open && s.cells[l].deque != [] && c == s.cells[l].deque[0]
    ensures s.cells[l].open ==>
      forall k :: 0 < k < |s.cells[l].deque| && s.cells[l].deque[k] < |s.cells| ==>
        s.cells[s.cells[l].deque[k]].status == INACTIVE
  {
    ReachableKeeps(p, s);
    var o := s.cells[l];
    assert LoopOk(p, s, l) && CellShaped(p, o, l);
    forall c | c in o.accepted && c < |s.cells| && s.cells[c].status == ACTIVE
      ensures o.open && o.deque != [] && c == o.deque[0]
    {
      var k :| 0 <= k < |o.accepted| && o.accepted[k] == c;
      assert IsChild(p, l, o.accepted[k]) && ChildOk(p, s, c);
      assert c in o.started && c !in o.handled;
    }
    if o.open {
      forall k | 0 < k < |o.deque| && o.deque[k] < |s.cells|
        ensures s.cells[o.deque[k]].status == INACTIVE
      {
        var c := o.deque[k];
        assert IsChild(p, l, c) && ChildOk(p, s, c) && c in o.deque;
        assert c !in o.started;
        assert CellShaped(p, s.cells[c], c);
      }
    }
  }

  /** Exactly once: a started command has its owner as its only listener, at most one finish of
      it is ever queued, and none is queued once its owner has processed one. */
  lemma FinishesOnce(p: Program, s: State, c: nat)
    requires Reachable(p, s) && 0 < c < |s.cells|
    ensures c < |p.owner| && p.owner[c] < |s.cells|
    ensures s.cells[c].listeners == if s.cells[c].status == INACTIVE then [] else [p.owner[c]]
    ensures forall i, j :: 0 <= i < j < |s.queue| && s.queue[i].FinishMessage? && s.queue[j].FinishMessage? ==>
      s.queue[i].command != s.queue[j].command
    ensures forall m :: m in s.queue && m.FinishMessage? && m.command == c ==>
      m.loop == p.owner[c] && s.cells[c].status == FINISHED && m.result == s.cells[c].result
      && c !in s.cells[p.owner[c]].handled
    ensures NoDup(s.cells[p.owner[c]].started) && NoDup(s.cells[p.owner[c]].handled)
  {
    ReachableKeeps(p, s);
    assert ChildOk(p, s, c) && LoopOk(p, s, p.owner[c]);
    forall i, j | 0 <= i < j < |s.queue| && s.queue[i].FinishMessage? && s.queue[j].FinishMessage?
      ensures s.queue[i].command != s.queue[j].command
    {
      assert Apart(s.queue[i], s.queue[j]);
    }
    forall k | 0 <= k < |s.queue| && s.queue[k].FinishMessage? && s.queue[k].command == c
      ensures s.queue[k].loop == p.owner[c] && s.cells[c].status == FINISHED
              && s.queue[k].result == s.cells[c].result && c !in s.cells[p.owner[c]].handled
    {
      assert MessageShaped(p, s.queue[k]) && MessageOk(p, s, s.queue[k]);
    }
  }

  /** A finished command is closed: over every continuation of the run it keeps its result, starts
      nothing, accepts nothing and processes no finish. Only commands queued for it before it
      closed may still pile up in its deque. */
  lemma FinishedIsClosed(p: Program, s: State, run: seq<Action>, i: nat)
    requires Reachable(p, s) && Legal(p, s, run) && i < |s.cells| && s.cells[i].status == FINISHED
    ensures var t := Execute(p, s, run);
      i < |t.cells| && t.cells[i] == s.cells[i].(deque := t.cells[i].deque)
  {
    ReachableKeeps(p, s);
    RunKeeps(p, s, run);
    assert CellSteps(s.cells[i], Execute(p, s, run).cells[i]);
  }

  /** So what a finished loop has not started is never started any more. */
  lemma FinishedNeverStarts(p: Program, s: State, run: seq<Action>, l: nat, c: nat)
    requires Reachable(p, s) && Shaped(p, s) && Legal(p, s, run) && IsChild(p, l, c)
    requires s.cells[l].status == FINISHED && s.cells[c].status == INACTIVE
    ensures c < |Execute(p, s, run).cells| && Execute(p, s, run).cells[c].status == INACTIVE
  {
    FinishedIsClosed(p, s, run, l);
    ReachableKeeps(p, s);
    RunKeeps(p, s, run);
    assert ChildOk(p, s, c) && ChildOk(p, Execute(p, s, run), c);
  }
}
