/** One command on its own: four states, every operation a compare-and-swap followed by a hook. */
module SingleCommand {
  import opened CommandTypes

  /** What `processStartCommand` and its companions do: perhaps call `finished`. */
  datatype Hook = Nothing | Finishes(result: CommandResult)

  datatype Operation =
    | Start(hook: Hook) | Resume(hook: Hook) | Suspend(hook: Hook) | Stop(hook: Hook)
    | Finish(result: CommandResult)

  /** The state of a command and the events it has fired. */
  datatype Life = Life(state: Status, fired: seq<CommandResult>)

  function Fresh(): Life {
    Life(INACTIVE, [])
  }

  function Finished(l: Life, r: CommandResult): Life {
    if l.state == ACTIVE then Life(FINISHED, l.fired + [r]) else l
  }

  function Exchange(l: Life, expected: Status, desired: Status, hook: Hook): Life {
    if l.state != expected then l
    else if hook.Finishes? then Finished(l.(state := desired), hook.result)
    else l.(state := desired)
  }

  function Perform(l: Life, op: Operation): Life {
    match op
    case Start(h) => Exchange(l, INACTIVE, ACTIVE, h)
    case Resume(h) => Exchange(l, SUSPENDED, ACTIVE, h)
    case Suspend(h) => Exchange(l, ACTIVE, SUSPENDED, h)
    case Stop(h) => Exchange(l, ACTIVE, INACTIVE, h)
    case Finish(r) => Finished(l, r)
  }

  function PerformAll(l: Life, ops: seq<Operation>): Life
    decreases |ops|
  {
    if ops == [] then l else PerformAll(Perform(l, ops[0]), ops[1..])
  }

  ghost predicate Consistent(l: Life) {
    |l.fired| == if l.state == FINISHED then 1 else 0
  }

  /** Over any interleaving of operations FINISHED is absorbing, and the event is fired exactly
      once, by the operation that reaches it. */
  lemma {:induction false} FiresExactlyOnce(l: Life, ops: seq<Operation>)
    requires Consistent(l)
    ensures Consistent(PerformAll(l, ops))
    ensures l.state == FINISHED ==> PerformAll(l, ops) == l
    decreases |ops|
  {
    if ops != [] {
      FiresExactlyOnce(Perform(l, ops[0]), ops[1..]);
    }
  }

  /** Exactly which operations notify the listeners, and of what: never a suspend and never a stop,
      whatever their hooks do. */
  lemma WhoNotifies(l: Life, op: Operation)
    ensures Perform(l, op).fired != l.fired <==>
      || (op.Start? && l.state == INACTIVE && op.hook.Finishes?)
      || (op.Resume? && l.state == SUSPENDED && op.hook.Finishes?)
      || (op.Finish? && l.state == ACTIVE)
    ensures Perform(l, op).fired != l.fired ==>
      && Perform(l, op).state == FINISHED
      && Perform(l, op).fired == l.fired + [if op.Finish? then op.result else op.hook.result]
    ensures Perform(l, op).fired == l.fired ==> (Perform(l, op).state == FINISHED <==> l.state == FINISHED)
  {
    if Perform(l, op).state == FINISHED && l.state != FINISHED {
      assert |Perform(l, op).fired| == |l.fired| + 1;
    }
  }

  /** Where the operations lead: a command is SUSPENDED exactly from a suspend of an ACTIVE command to the
      next resume, and INACTIVE exactly until a start, or again from a stop to the next start. */
  lemma WhereOperationsLead(l: Life, op: Operation)
    ensures Perform(l, op).state == SUSPENDED <==>
      (l.state == SUSPENDED && !op.Resume?) || (l.state == ACTIVE && op.Suspend?)
    ensures Perform(l, op).state == INACTIVE <==>
      (l.state == INACTIVE && !op.Start?) || (l.state == ACTIVE && op.Stop?)
    ensures Perform(l, op).state == FINISHED <==>
      l.state == FINISHED || Perform(l, op).fired != l.fired
  {
    WhoNotifies(l, op);
  }

  /** What undoes what: a resume continues what a suspend has interrupted, a start what a stop has, as if
      neither had happened; and whatever comes in between but these two is refused or does nothing. */
  lemma ResumeUndoesSuspend(l: Life, hook: Hook, between: seq<Operation>)
    requires l.state == ACTIVE
    ensures (forall i :: 0 <= i < |between| ==> !between[i].Resume?) ==>
      Perform(PerformAll(Perform(l, Suspend(hook)), between), Resume(Nothing)) == l
    ensures (forall i :: 0 <= i < |between| ==> !between[i].Start?) ==>
      Perform(PerformAll(Perform(l, Stop(hook)), between), Start(Nothing)) == l
  {
    if forall i :: 0 <= i < |between| ==> !between[i].Resume? {
      Refused(l.(state := SUSPENDED), between);
    }
    if forall i :: 0 <= i < |between| ==> !between[i].Start? {
      Refused(l.(state := INACTIVE), between);
    }
  }

  lemma {:induction false} Refused(l: Life, ops: seq<Operation>)
    requires (l.state == SUSPENDED && forall i :: 0 <= i < |ops| ==> !ops[i].Resume?)
          || (l.state == INACTIVE && forall i :: 0 <= i < |ops| ==> !ops[i].Start?)
    ensures PerformAll(l, ops) == l
    decreases |ops|
  {
    if ops != [] {
      assert Perform(l, ops[0]) == l;
      Refused(l, ops[1..]);
    }
  }

  class Command {
    var state: Status
    var fired: seq<CommandResult>

    ghost function View(): Life
      reads this
    {
      Life(state, fired)
    }

    constructor ()
      ensures View() == Fresh()
    {
      state := INACTIVE;
      fired := [];
    }

    method CompareExchange(expected: Status, desired: Status) returns (swapped: bool)
      modifies this`state
      ensures swapped == (old(state) == expected)
      ensures state == if swapped then desired else old(state)
    {
      swapped := state == expected;
      if swapped {
        state := desired;
      }
    }

    method FinishedWith(r: CommandResult)
      modifies this
      ensures View() == Finished(old(View()), r)
    {
      var swapped := CompareExchange(ACTIVE, FINISHED);
      if swapped {
        fired := fired + [r];
      }
    }

    method Process(hook: Hook)
      modifies this
      ensures View() == if hook.Finishes? then Finished(old(View()), hook.result) else old(View())
    {
      match hook
      case Nothing =>
      case Finishes(r) => FinishedWith(r);
    }

    /** Any of the public operations; `threw` stands for `CommandStateAssert`. */
    method Run(op: Operation) returns (threw: bool)
      modifies this
      ensures View() == Perform(old(View()), op)
      ensures threw <==> match op
                         case Start(_) => old(state) != INACTIVE
                         case Resume(_) => old(state) != SUSPENDED
                         case Suspend(_) => old(state) != ACTIVE
                         case Stop(_) => old(state) != ACTIVE
                         case Finish(_) => false
    {
      threw := false;
      match op {
        case Start(h) =>
          var swapped := CompareExchange(INACTIVE, ACTIVE);
          if swapped { Process(h); } else { threw := true; }
        case Resume(h) =>
          var swapped := CompareExchange(SUSPENDED, ACTIVE);
          if swapped { Process(h); } else { threw := true; }
        case Suspend(h) =>
          var swapped := CompareExchange(ACTIVE, SUSPENDED);
          if swapped { Process(h); } else { threw := true; }
        case Stop(h) =>
          var swapped := CompareExchange(ACTIVE, INACTIVE);
          if swapped { Process(h); } else { threw := true; }
        case Finish(r) =>
          FinishedWith(r);
      }
    }
  }
}
