/**
 The Posix receive handlers of all sockets of a process: what is being collected is kept in one
 variable that every socket shares, and every handler leaves it empty for the next one.
 */
module PosixReceive {
  import opened SocketTypes
  import R = ReceiveQueue

  /** `chunk` of every socket stays empty, the shared variable stands for it. */
  datatype Net = Net(sockets: seq<R.State>, chunk: seq<Byte>)

  datatype NetEvent =
    | Async(socket: nat)
    | DataAvailable(socket: nat)
    | SetBlocking(socket: nat, blocking: bool)

  /** Socket `i` with the shared variable as its own. */
  function View(n: Net, i: nat): R.State
    requires i < |n.sockets|
  {
    n.sockets[i].(chunk := n.chunk)
  }

  function Put(n: Net, i: nat, s: R.State): Net
    requires i < |n.sockets|
  {
    Net(n.sockets[i := s.(chunk := [])], s.chunk)
  }

  function Handled(e: NetEvent): R.Event {
    match e
    case Async(_) => R.Async
    case DataAvailable(_) => R.DataAvailable
    case SetBlocking(_, blocking) => R.SetBlocking(blocking)
  }

  function Happen(n: Net, e: NetEvent): (m: Net)
    requires e.socket < |n.sockets|
    ensures |m.sockets| == |n.sockets|
  {
    Put(n, e.socket, R.Handle(Posix, View(n, e.socket), Handled(e)))
  }

  ghost predicate Addressed(n: Net, events: seq<NetEvent>) {
    forall k :: 0 <= k < |events| ==> events[k].socket < |n.sockets|
  }

  function HappenAll(n: Net, events: seq<NetEvent>): (m: Net)
    requires Addressed(n, events)
    ensures |m.sockets| == |n.sockets|
    decreases |events|
  {
    if events == [] then n
    else
      var m := Happen(n, events[0]);
      assert Addressed(m, events[1..]);
      HappenAll(m, events[1..])
  }

  /** The shared variable is empty and every socket's account is settled. */
  ghost predicate Calm(n: Net) {
    n.chunk == [] && forall i :: 0 <= i < |n.sockets| ==> n.sockets[i].chunk == [] && R.Balanced(n.sockets[i])
  }

  /** The events of socket `i`, in order. */
  function EventsOf(events: seq<NetEvent>, i: nat): seq<R.Event> {
    if events == [] then []
    else (if events[0].socket == i then [Handled(events[0])] else []) + EventsOf(events[1..], i)
  }

  lemma EventKeepsCalm(n: Net, e: NetEvent, i: nat)
    requires Calm(n) && e.socket < |n.sockets| && i < |n.sockets|
    ensures Calm(Happen(n, e))
    ensures Happen(n, e).sockets[i] ==
      if e.socket == i then R.Handle(Posix, n.sockets[i], Handled(e)) else n.sockets[i]
  {
    hide R.Handle, R.Balanced;
    assert View(n, e.socket) == n.sockets[e.socket];
    R.HandleBalances(Posix, n.sockets[e.socket], Handled(e));
  }

  lemma {:induction false} RunIsOwn(n: Net, events: seq<NetEvent>, i: nat)
    requires Calm(n) && Addressed(n, events) && i < |n.sockets|
    ensures HappenAll(n, events).chunk == []
    ensures HappenAll(n, events).sockets[i] == R.HandleAll(Posix, n.sockets[i], EventsOf(events, i))
    decreases |events|
  {
    hide Happen, R.Handle, R.Balanced;
    if events != [] {
      EventKeepsCalm(n, events[0], i);
      RunIsOwn(Happen(n, events[0]), events[1..], i);
      assert events[0].socket == i ==> EventsOf(events, i)[1..] == EventsOf(events[1..], i);
      assert events[0].socket != i ==> EventsOf(events, i) == EventsOf(events[1..], i);
    }
  }

  /** Sharing the variable does no harm, blocking or not: over every run of events on any sockets it is
      empty between handlers, and each socket ends as if it had been alone with its own events. So the
      bytes it received are exactly the chunks delivered to its own requests and what those of its
      requests that failed have lost, in order. */
  lemma ReceiversDoNotInterfere(n: Net, events: seq<NetEvent>)
    requires Calm(n) && Addressed(n, events)
    ensures var m := HappenAll(n, events);
      forall i :: 0 <= i < |m.sockets| ==>
        && m.chunk == []
        && m.sockets[i] == R.HandleAll(Posix, n.sockets[i], EventsOf(events, i))
        && m.sockets[i].received == R.Flatten(m.sockets[i].settled)
        && |m.sockets[i].settled| + |m.sockets[i].requests| == m.sockets[i].issued
  {
    var m := HappenAll(n, events);
    forall i | 0 <= i < |m.sockets|
      ensures m.chunk == [] && m.sockets[i] == R.HandleAll(Posix, n.sockets[i], EventsOf(events, i))
      ensures m.sockets[i].received == R.Flatten(m.sockets[i].settled)
      ensures |m.sockets[i].settled| + |m.sockets[i].requests| == m.sockets[i].issued
    {
      RunIsOwn(n, events, i);
      R.ReceiveConservation(Posix, n.sockets[i], EventsOf(events, i));
    }
  }
}
