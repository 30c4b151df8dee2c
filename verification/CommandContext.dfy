/**
 The commands of one context as the program runs them: fields updated in place, loops over the
 deque, nested calls for nested starts. Every method computes exactly its function in LoopMachine.
 */
module CommandContext {
  import opened CommandTypes
  import opened LoopMachine
  import opened LoopFrame

  class Commands {
    const p: Program
    var cells: seq<Cell>
    var queue: seq<Message>

    ghost function View(): State
      reads this
    {
      State(cells, queue)
    }

    ghost predicate Valid()
      reads this
    {
      Shaped(p, View())
    }

    constructor (p: Program)
      requires p.WellFormed()
      ensures this.p == p && View() == Initial(p) && Valid()
    {
      this.p := p;
      cells := Initial(p).cells;
      queue := [];
    }

    /** `Event::operator()`: one push per listener that still has a channel. */
    method Fire(c: nat, r: CommandResult)
      requires c < |cells|
      requires forall k :: 0 <= k < |cells[c].listeners| ==> cells[c].listeners[k] < |cells|
      modifies this`queue
      ensures queue == old(queue) + Deliveries(cells, cells[c].listeners, c, r)
    {
      var listeners := cells[c].listeners;
      for k := 0 to |listeners|
        invariant queue == old(queue) + Deliveries(cells, listeners[..k], c, r)
      {
        assert listeners[..k + 1][..k] == listeners[..k];
        if cells[listeners[k]].open {
          queue := queue + [FinishMessage(listeners[k], c, r)];
        }
      }
      assert listeners[..|listeners|] == listeners;
    }

    /** `ICommand::finished`. */
    method CommandFinished(c: nat, r: CommandResult)
      requires c < |cells|
      requires forall k :: 0 <= k < |cells[c].listeners| ==> cells[c].listeners[k] < |cells|
      modifies this
      ensures View() == Complete(old(View()), c, r)
    {
      if cells[c].status == ACTIVE {
        cells := cells[c := cells[c].(status := FINISHED, result := r)];
        Fire(c, r);
      }
    }

    /** `CommandLoop::exit`: empty the deque, then drop the channel. */
    method ExitLoop(l: nat)
      requires l < |cells|
      modifies this`cells
      ensures View() == Exit(old(View()), l)
    {
      if cells[l].open {
        while cells[l].deque != []
          invariant |cells| == |old(cells)| && cells == old(cells)[l := old(cells)[l].(deque := cells[l].deque)]
          decreases |cells[l].deque|
        {
          cells := cells[l := cells[l].(deque := cells[l].deque[1..])];
        }
        cells := cells[l := cells[l].(open := false)];
      }
    }

    /** `CommandLoop::finished`. */
    method LoopFinished(l: nat, r: CommandResult)
      requires l < |cells|
      requires forall k :: 0 <= k < |cells[l].listeners| ==> cells[l].listeners[k] < |cells|
      modifies this
      ensures View() == FinishLoop(old(View()), l, r)
    {
      if cells[l].open {
        ExitLoop(l);
        CommandFinished(l, r);
      }
    }

    method SubscribeTo(c: nat, listener: nat)
      requires c < |cells|
      modifies this`cells
      ensures View() == Subscribe(old(View()), c, listener)
    {
      cells := cells[c := cells[c].(listeners := cells[c].listeners + [listener])];
    }

    /** `startCommand` on the context's thread; `false` stands for the exception it throws when
        the command is not INACTIVE. */
    method StartCommand(c: nat) returns (started: bool)
      requires Valid() && c < |cells|
      modifies this
      ensures started == (old(cells)[c].status == INACTIVE)
      ensures started ==> Shaped(p, Activate(old(View()), c)) && View() == Begin(p, Activate(old(View()), c), c)
      ensures !started ==> View() == old(View())
      ensures Valid() && |cells| == |old(cells)|
      decreases |p.kinds| - c, 3
    {
      started := cells[c].status == INACTIVE;
      if started {
        cells := cells[c := cells[c].(status := ACTIVE)];
        assert View() == Activate(old(View()), c);
        assert Valid();
        match p.kinds[c]
        case Leaf(r, immediate) =>
          if immediate {
            CommandFinished(c, r);
          }
        case Loop(_) =>
          if cells[c].open {
            NextCommand(c);
          }
      }
    }

    /** Subscribe to a command and start it. */
    method LaunchCommand(l: nat, c: nat)
      requires Valid() && IsChild(p, l, c) && cells[c].status == INACTIVE
      modifies this
      ensures View() == Launch(p, old(View()), l, c)
      ensures Valid() && |cells| == |old(cells)|
      decreases |p.kinds| - l, 0
    {
      cells := cells[l := cells[l].(started := cells[l].started + [c])];
      SubscribeTo(c, l);
      assert View() == Subscribe(RecordStart(old(View()), l, c), c, l);
      var started := StartCommand(c);
    }

    /** `CommandLoop::nextCommand`. */
    method NextCommand(l: nat)
      requires Valid() && l < |cells| && p.kinds[l].Loop?
      modifies this
      ensures View() == Next(p, old(View()), l)
      ensures Valid() && |cells| == |old(cells)|
      decreases |p.kinds| - l, 2
    {
      if cells[l].deque != [] {
        if !p.kinds[l].mode.multiCommand {
          var command := cells[l].deque[0];
          assert IsChild(p, l, command);
          if cells[command].status == INACTIVE {
            LaunchCommand(l, command);
          }
        } else {
          StartAll(l);
        }
      } else if !p.kinds[l].mode.continuous {
        LoopFinished(l, if cells[l].status == ACTIVE then SUCCESS else ABORTED);
      }
    }

    /** The MultiCommand branch: the loop runs over the live deque. */
    method StartAll(l: nat)
      requires Valid() && l < |cells| && p.kinds[l].Loop?
      modifies this
      ensures View() == LaunchAll(p, old(View()), l, old(cells)[l].deque)
      ensures Valid() && |cells| == |old(cells)|
      decreases |p.kinds| - l, 1
    {
      ghost var cs := cells[l].deque;
      var k := 0;
      while k < |cells[l].deque|
        invariant Valid() && |cells| == |old(cells)| && cells[l].deque == cs && k <= |cs|
        invariant LaunchAll(p, View(), l, cs[k..]) == LaunchAll(p, old(View()), l, cs)
      {
        var command := cells[l].deque[k];
        assert IsChild(p, l, command);
        assert cs[k..][0] == command && cs[k..][1..] == cs[k + 1..];
        if cells[command].status == INACTIVE {
          LaunchFrame(p, View(), l, command);
          LaunchCommand(l, command);
        }
        k := k + 1;
      }
    }

    /** `CommandLoop::processEvent`. */
    method ProcessFinish(l: nat, c: nat, r: CommandResult)
      requires Valid() && IsChild(p, l, c)
      modifies this
      ensures View() == ProcessEvent(p, old(View()), l, c, r) && Valid()
    {
      if cells[l].open {
        EraseShaped(p, View(), l, c);
        cells := cells[l := cells[l].(deque := Without(cells[l].deque, c), handled := cells[l].handled + [c])];
        assert View() == Erase(old(View()), l, c);
        if r == FAILED && !p.kinds[l].mode.continuous && p.kinds[l].mode.transaction {
          LoopFinished(l, FAILED);
        } else {
          NextCommand(l);
        }
      }
    }

    /** The action of `CommandLoop::pushBack`. */
    method PushBackAction(l: nat, c: nat)
      requires Valid() && IsChild(p, l, c)
      modifies this
      ensures View() == PushBack(p, old(View()), l, c) && Valid()
    {
      var o := cells[l];
      if c !in o.deque {
        cells := cells[l := o.(deque := o.deque + [c], accepted := if o.open then o.accepted + [c] else o.accepted)];
      }
      assert View() == Accept(old(View()), l, c);
      if cells[l].status == ACTIVE && (|cells[l].deque| == 1 || p.kinds[l].mode.multiCommand) {
        NextCommand(l);
      }
    }

    /** The context takes one action from its queue and runs it. */
    method RunOne()
      requires Valid() && queue != []
      modifies this
      ensures View() == Apply(p, old(View()), Deliver) && Valid()
    {
      var m := queue[0];
      queue := queue[1..];
      match m
      case StartMessage(l) => NextCommand(l);
      case FinishMessage(l, c, r) => ProcessFinish(l, c, r);
      case PushMessage(l, c) => PushBackAction(l, c);
    }

    /** `startCommand` of the root, from the context's thread or from another one. */
    method StartRootCommand(onThread: bool)
      requires Valid() && cells[0].status == INACTIVE
      modifies this
      ensures View() == Apply(p, old(View()), StartRoot(onThread)) && Valid()
    {
      if onThread || p.kinds[0].Leaf? {
        var started := StartCommand(0);
      } else {
        cells := cells[0 := cells[0].(status := ACTIVE)];
        assert View() == Activate(old(View()), 0);
        if cells[0].open {
          queue := queue + [StartMessage(0)];
        }
      }
    }

    /** `CommandLoop::pushBack`: inline on the context's thread, queued from any other. */
    method PushBackCommand(l: nat, c: nat, onThread: bool)
      requires Valid() && IsChild(p, l, c)
      modifies this
      ensures View() == Pushed(p, old(View()), l, c, onThread) && Valid()
      ensures old(Enabled(p, View(), Offer(l, c, onThread))) ==>
        View() == Apply(p, old(View()), Offer(l, c, onThread))
    {
      if cells[l].open {
        if onThread {
          PushBackAction(l, c);
        } else {
          queue := queue + [PushMessage(l, c)];
        }
      }
    }
  }
}
