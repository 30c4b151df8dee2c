/** How far one call of a command reaches: nested starts touch only what was not started before. */
module LoopFrame {
  import opened CommandTypes
  import opened LoopMachine

  /** Commands that hang, not started, off `d` or off another command that is not started. */
  ghost predicate Hangs(p: Program, s: State, d: nat, i: nat)
    requires |s.cells| == |p.owner|
  {
    && 0 < i < |s.cells| && p.owner[i] < |s.cells| && s.cells[i].status == INACTIVE
    && (p.owner[i] == d || s.cells[p.owner[i]].status == INACTIVE)
  }

  ghost predicate FinishBelow(p: Program, s: State, d: nat, m: Message)
    requires |s.cells| == |p.owner|
  {
    m.FinishMessage? && d < m.command && Hangs(p, s, d, m.command)
  }

  /** A deque changes here only by being emptied when its loop closes. */
  ghost predicate Shuts(a: Cell, b: Cell) {
    (b.open == a.open && b.deque == a.deque) || (a.open && !b.open && b.deque == [])
  }

  /** From `s` to `t` loop `d` only starts commands: it keeps its own fields but the history, other
      changes and all new messages are about higher commands that were not started in `s`. */
  ghost predicate Below(p: Program, s: State, t: State, d: nat)
    requires |s.cells| == |p.owner|
  {
    && |t.cells| == |s.cells| && d < |s.cells|
    && t.cells[d] == s.cells[d].(started := t.cells[d].started)
    && (forall i :: 0 <= i < |s.cells| && i != d && !(d < i && Hangs(p, s, d, i)) ==> t.cells[i] == s.cells[i])
    && (forall i :: 0 <= i < |s.cells| && s.cells[i].status != INACTIVE ==> t.cells[i].status != INACTIVE)
    && (forall i :: 0 <= i < |s.cells| ==> Shuts(s.cells[i], t.cells[i]))
    && s.queue <= t.queue
    && (forall k :: |s.queue| <= k < |t.queue| ==> FinishBelow(p, s, d, t.queue[k]))
  }

  /** From `s` to `t` command `d` ends, or stays as it is: nothing else changes, and the messages
      are those of its event. */
  ghost predicate Ends(s: State, t: State, d: nat) {
    && |t.cells| == |s.cells| && d < |s.cells|
    && t.cells == s.cells[d := t.cells[d]]
    && t.cells[d] == s.cells[d].(status := t.cells[d].status, result := t.cells[d].result,
                                 open := t.cells[d].open, deque := t.cells[d].deque)
    && Shuts(s.cells[d], t.cells[d])
    && (forall k :: 0 <= k < |s.cells[d].listeners| ==> s.cells[d].listeners[k] < |s.cells|)
    && if t.cells[d].status == s.cells[d].status then t.queue == s.queue && t.cells[d].result == s.cells[d].result
       else s.cells[d].status == ACTIVE && t.cells[d].status == FINISHED
            && t.queue == s.queue + Deliveries(t.cells, s.cells[d].listeners, d, t.cells[d].result)
  }

  ghost predicate Runs(p: Program, s: State, t: State, d: nat)
    requires |s.cells| == |p.owner|
  {
    Below(p, s, t, d) || Ends(s, t, d)
  }

  lemma CompleteEnds(p: Program, s: State, c: nat, r: CommandResult)
    requires Shaped(p, s) && c < |s.cells|
    ensures Ends(s, Complete(s, c, r), c)
  {
    assert CellShaped(p, s.cells[c], c);
  }

  lemma FinishEnds(p: Program, s: State, l: nat, r: CommandResult)
    requires Shaped(p, s) && l < |s.cells|
    ensures Ends(s, FinishLoop(s, l, r), l)
  {
    assert CellShaped(p, s.cells[l], l);
  }

  lemma BelowTransitive(p: Program, s: State, u: State, t: State, d: nat)
    requires |s.cells| == |p.owner| && Below(p, s, u, d) && Below(p, u, t, d)
    ensures Below(p, s, t, d)
  {
  }

  lemma PreparedRuns(p: Program, s: State, t: State, l: nat, c: nat)
    requires Shaped(p, s) && IsChild(p, l, c) && s.cells[c].status == INACTIVE
    requires Shaped(p, Prepared(s, l, c)) && Runs(p, Prepared(s, l, c), t, c)
    ensures Below(p, s, t, l)
    ensures t.cells[l] == s.cells[l].(started := s.cells[l].started + [c])
  {
    hide CellShaped, MessageShaped;
  }

  lemma {:induction false} BeginFrame(p: Program, s: State, c: nat)
    requires Shaped(p, s) && c < |s.cells|
    ensures Runs(p, s, Begin(p, s, c), c)
    decreases |p.kinds| - c, 3, 0
  {
    match p.kinds[c]
    case Leaf(r, _) => CompleteEnds(p, s, c, r);
    case Loop(_) =>
      if s.cells[c].open {
        NextFrame(p, s, c);
      }
  }

  /** `nextCommand` either starts commands or ends the loop. */
  lemma {:induction false} NextFrame(p: Program, s: State, l: nat)
    requires Shaped(p, s) && l < |s.cells| && p.kinds[l].Loop?
    ensures Runs(p, s, Next(p, s, l), l)
    ensures s.cells[l].deque != [] ==> Below(p, s, Next(p, s, l), l)
    decreases |p.kinds| - l, 2, 0
  {
    hide Hangs, FinishBelow, MessageShaped;
    var o := s.cells[l];
    assert CellShaped(p, o, l);
    if o.deque != [] {
      if p.kinds[l].mode.multiCommand {
        LaunchAllFrame(p, s, l, o.deque);
      } else if s.cells[o.deque[0]].status == INACTIVE {
        LaunchFrame(p, s, l, o.deque[0]);
      }
    } else {
      FinishEnds(p, s, l, if o.status == ACTIVE then SUCCESS else ABORTED);
    }
  }

  lemma {:induction false} LaunchAllFrame(p: Program, s: State, l: nat, cs: seq<nat>)
    requires Shaped(p, s) && l < |s.cells|
    requires forall k :: 0 <= k < |cs| ==> IsChild(p, l, cs[k])
    ensures Below(p, s, LaunchAll(p, s, l, cs), l)
    decreases |p.kinds| - l, 1, |cs|
  {
    hide Hangs, FinishBelow, CellShaped, MessageShaped;
    if cs != [] {
      assert IsChild(p, l, cs[0]);
      if s.cells[cs[0]].status == INACTIVE {
        LaunchFrame(p, s, l, cs[0]);
        var u := Launch(p, s, l, cs[0]);
        LaunchAllFrame(p, u, l, cs[1..]);
        BelowTransitive(p, s, u, LaunchAll(p, u, l, cs[1..]), l);
      } else {
        LaunchAllFrame(p, s, l, cs[1..]);
      }
    }
  }

  /** A nested start changes nothing of the loop that makes it but the history, and nothing that was
      started before: in particular not the deque that is being iterated. */
  lemma {:induction false} LaunchFrame(p: Program, s: State, l: nat, c: nat)
    requires Shaped(p, s) && IsChild(p, l, c) && s.cells[c].status == INACTIVE
    ensures Below(p, s, Launch(p, s, l, c), l)
    ensures Launch(p, s, l, c).cells[l] == s.cells[l].(started := s.cells[l].started + [c])
    decreases |p.kinds| - l, 0, 0
  {
    BeginFrame(p, Prepared(s, l, c), c);
    PreparedRuns(p, s, Launch(p, s, l, c), l, c);
  }
}
