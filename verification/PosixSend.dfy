/**
 The Posix send handler: the queue holds whole chunks, and how much of the front chunk is out is
 kept in one variable that every socket shares. It refines the handler of SendQueue.
 */
module PosixSend {
  import opened SocketTypes
  import opened SendQueue
  import opened SendPlatforms

  /** A socket as Posix keeps it: `sent` of every chunk stays 0, the shared offset stands for it. */
  ghost predicate Unmarked(s: State) {
    forall i :: 0 <= i < |s.queue| ==> s.queue[i].sent == 0
  }

  ghost predicate Fits(s: State, offset: nat) {
    s.queue != [] ==> offset <= |s.queue[0].data|
  }

  /** The socket and the shared offset, read as a socket that marks its own front chunk. */
  function Marked(s: State, offset: nat): State {
    if s.queue == [] then s else s.(queue := [s.queue[0].(sent := offset)] + s.queue[1..])
  }

  /** One system call on the front chunk. */
  function Call(s: State, offset: nat): (r: (State, nat, Reading))
    requires Unmarked(s) && s.queue != [] && offset <= |s.queue[0].data|
    ensures r.0.queue == s.queue && r.1 <= |s.queue[0].data| && r.0.blocking == s.blocking
    ensures r.0.script == Rest(s).script && (r.2.Sent? ==> s.script != [])
  {
    var data := s.queue[0].data;
    var reading := Read(Posix, |data| - offset, NextAnswer(s));
    match reading
    case Sent(k) => (Rest(s).(wire := s.wire + data[offset..offset + k]), offset + k, reading)
    case Nothing => (Rest(s).(available := false), offset, reading)
    case Failed(_) => (Rest(s), offset, reading)
  }

  function Transmit(s: State, offset: nat): (r: (State, nat, Reading))
    requires Unmarked(s) && s.queue != [] && offset <= |s.queue[0].data|
    ensures r.0.queue == s.queue && r.1 <= |s.queue[0].data|
    ensures r.0.blocking == s.blocking && |r.0.script| <= |s.script|
    ensures s.script != [] ==> |r.0.script| < |s.script|
    decreases |s.script|
  {
    var (t, sent, reading) := Call(s, offset);
    if reading.Sent? && !t.blocking && sent < |t.queue[0].data| then Transmit(t, sent)
    else (t, sent, reading)
  }

  function SendFront(s: State, offset: nat): (r: (State, nat))
    requires Unmarked(s) && s.queue != [] && offset <= |s.queue[0].data|
    ensures Unmarked(r.0) && Fits(r.0, r.1)
    ensures r.0.blocking == s.blocking && |r.0.script| <= |s.script|
    ensures s.script != [] ==> |r.0.script| < |s.script|
    ensures r.0.queue == [] ==> r.1 == 0
  {
    var (t, sent, end) := Transmit(s, offset);
    var c := t.queue[0];
    if end.Failed? then
      (t.(queue := t.queue[1..], settled := t.settled + [Settled(c.promise, c.data, sent, Error(end.error))]), 0)
    else if sent == |c.data| then
      (t.(queue := t.queue[1..], settled := t.settled + [Settled(c.promise, c.data, sent, Success)]), 0)
    else (t, sent)
  }

  function SendAll(s: State, offset: nat): (r: (State, nat))
    requires Unmarked(s) && Fits(s, offset)
    ensures Unmarked(r.0) && Fits(r.0, r.1) && r.0.blocking == s.blocking
    ensures r.0.queue == [] && s.queue != [] ==> r.1 == 0
    ensures s.queue == [] ==> r == (s, offset)
    decreases |s.script|
  {
    if s.queue == [] then (s, offset)
    else
      var (t, sent) := SendFront(s, offset);
      if s.blocking || s.script == [] then (t, sent) else SendAll(t, sent)
  }

  /** `onSocketBufferAvailable`. */
  function OnBufferAvailable(s: State, offset: nat): (r: (State, nat))
    requires Unmarked(s) && Fits(s, offset)
    ensures Unmarked(r.0) && Fits(r.0, r.1)
  {
    SendAll(s.(available := true), offset)
  }

  // ---------------------------------------------------------------- refinement

  lemma CallRefines(s: State, offset: nat)
    requires Unmarked(s) && s.queue != [] && offset <= |s.queue[0].data|
    ensures Valid(Marked(s, offset))
    ensures var (t, sent, reading) := Call(s, offset);
      SendQueue.Call(Posix, Marked(s, offset)) == (Marked(t, sent), reading)
  {
  }

  lemma {:induction false} TransmitRefines(s: State, offset: nat)
    requires Unmarked(s) && s.queue != [] && offset <= |s.queue[0].data|
    ensures Valid(Marked(s, offset))
    ensures var (t, sent, reading) := Transmit(s, offset);
      SendQueue.Transmit(Posix, Marked(s, offset)) == (Marked(t, sent), reading)
    decreases |s.script|
  {
    CallRefines(s, offset);
    var (t, sent, reading) := Call(s, offset);
    if reading.Sent? && !t.blocking && sent < |t.queue[0].data| {
      TransmitRefines(t, sent);
    }
  }

  lemma SendFrontRefines(s: State, offset: nat)
    requires Unmarked(s) && s.queue != [] && offset <= |s.queue[0].data|
    ensures Valid(Marked(s, offset))
    ensures var (t, sent) := SendFront(s, offset);
      SendQueue.SendFront(Posix, Marked(s, offset)) == Marked(t, sent)
  {
    hide Transmit, SendQueue.Transmit, Call, SendQueue.Call, Conserved;
    TransmitRefines(s, offset);
    var (t, sent, end) := Transmit(s, offset);
    assert Marked(t, sent).queue[1..] == t.queue[1..];
    var u := SendFront(s, offset).0;
    if |u.queue| < |s.queue| && u.queue != [] {
      assert [u.queue[0].(sent := 0)] + u.queue[1..] == u.queue;
    }
  }

  lemma {:induction false} SendAllRefines(s: State, offset: nat)
    requires Unmarked(s) && Fits(s, offset)
    ensures Valid(Marked(s, offset))
    ensures var (t, sent) := SendAll(s, offset);
      SendQueue.SendAll(Posix, Marked(s, offset)) == Marked(t, sent)
    decreases |s.script|
  {
    if s.queue != [] {
      SendFrontRefines(s, offset);
      if !s.blocking && s.script != [] {
        var (t, sent) := SendFront(s, offset);
        SendAllRefines(t, sent);
      }
    }
  }

  lemma HandlerRefines(s: State, offset: nat)
    requires Unmarked(s) && Fits(s, offset)
    ensures Valid(Marked(s, offset))
    ensures var (t, sent) := OnBufferAvailable(s, offset);
      SendQueue.OnBufferAvailable(Posix, Marked(s, offset)) == Marked(t, sent) && |t.script| <= |s.script|
  {
    hide SendAll, SendQueue.SendAll;
    SendAllRefines(s.(available := true), offset);
    assert Marked(s.(available := true), offset) == Marked(s, offset).(available := true);
  }

  /** Posix and Windows: from the same queue, progress and script the two handlers leave the same
      bytes on the wire, the same promises settled in the same order with the same outcome, the same
      chunks waiting and the same progress of the front chunk, exactly when no failure that Posix
      meets hides behind a zero length output. */
  lemma HandlersAgree(s: State, offset: nat)
    requires Unmarked(s) && Fits(s, offset)
    ensures Valid(Marked(s, offset)) && |OnBufferAvailable(s, offset).0.script| <= |s.script|
    ensures var (t, sent) := OnBufferAvailable(s, offset);
      SendQueue.OnBufferAvailable(Windows, Marked(s, offset)) == Marked(t, sent) <==> Frank(Used(s.script, t.script))
  {
    hide SendAll, SendQueue.SendAll, Frank;
    HandlerRefines(s, offset);
    AgreeIffFrank(Marked(s, offset).(available := true));
  }

  // ---------------------------------------------------------------- many sockets, one offset

  /** All sockets of a process: their queues, and the one variable they share. */
  datatype Net = Net(sockets: seq<State>, offset: nat)

  datatype NetEvent =
    | Async(socket: nat, data: seq<Byte>)
    | BufferAvailable(socket: nat)
    | SetBlocking(socket: nat, blocking: bool)

  ghost predicate NetValid(n: Net) {
    forall i :: 0 <= i < |n.sockets| ==> Unmarked(n.sockets[i])
  }

  /** A handler sends what is behind the shared offset, which has to lie within the chunk at the front:
      beyond its end the source computes a negative length in an unsigned type. */
  ghost predicate Runnable(n: Net, e: NetEvent) {
    match e
    case Async(i, _) => i < |n.sockets|
    case BufferAvailable(i) => i < |n.sockets| && Fits(n.sockets[i], n.offset)
    case SetBlocking(i, _) => i < |n.sockets|
  }

  function Happen(n: Net, e: NetEvent): (m: Net)
    requires NetValid(n) && Runnable(n, e)
    ensures NetValid(m) && |m.sockets| == |n.sockets|
  {
    match e
    case Async(i, data) =>
      var s := n.sockets[i];
      n.(sockets := n.sockets[i := s.(queue := s.queue + [Chunk(data, s.issued, 0)], issued := s.issued + 1)])
    case BufferAvailable(i) =>
      var (t, sent) := OnBufferAvailable(n.sockets[i], n.offset);
      Net(n.sockets[i := t], sent)
    case SetBlocking(i, blocking) =>
      n.(sockets := n.sockets[i := n.sockets[i].(blocking := blocking)])
  }

  /** Every handler of a non-blocking socket returned by itself: its queue is empty, its script did
      not cut it short. */
  ghost predicate Returns(n: Net, events: seq<NetEvent>)
    requires NetValid(n)
    decreases |events|
  {
    events != [] ==>
      && events[0].socket < |n.sockets|
      && (Runnable(n, events[0]) ==>
            var m := Happen(n, events[0]);
            && (events[0].BufferAvailable? && !n.sockets[events[0].socket].blocking ==>
                  m.sockets[events[0].socket].queue == [])
            && Returns(m, events[1..]))
  }

  /** The shared offset is 0 whenever no handler runs. */
  ghost predicate Undisturbed(n: Net, events: seq<NetEvent>)
    requires NetValid(n)
    decreases |events|
  {
    && n.offset == 0
    && (events != [] ==> Runnable(n, events[0]) && Undisturbed(Happen(n, events[0]), events[1..]))
  }

  function HappenAll(n: Net, events: seq<NetEvent>): (m: Net)
    requires NetValid(n) && Undisturbed(n, events)
    ensures m.offset == 0 && |m.sockets| == |n.sockets|
    decreases |events|
  {
    if events == [] then n else HappenAll(Happen(n, events[0]), events[1..])
  }

  lemma MarkedZero(s: State)
    requires Unmarked(s)
    ensures Marked(s, 0) == s && Valid(s)
  {
    if s.queue != [] {
      assert [s.queue[0].(sent := 0)] + s.queue[1..] == s.queue;
    }
  }

  /** What one write of a blocking socket must do to its front chunk to leave no progress behind:
      take all of it, fail, or take nothing. */
  predicate TakesWhole(s: State, offset: nat)
    requires Fits(s, offset)
  {
    if s.queue == [] then offset == 0
    else
      match Read(Posix, |s.queue[0].data| - offset, NextAnswer(s))
      case Sent(k) => offset + k == |s.queue[0].data|
      case Failed(_) => true
      case Nothing => offset == 0 || offset == |s.queue[0].data|
  }

  /** Exactly when the handler of a blocking socket leaves the shared variable at 0, in terms of
      what it finds: its front chunk, the offset and the answer of the system. */
  lemma OffsetAfterHandler(s: State, offset: nat)
    requires Unmarked(s) && Fits(s, offset) && s.blocking
    ensures OnBufferAvailable(s, offset).1 == 0 <==> TakesWhole(s, offset)
  {
    var u := s.(available := true);
    if u.queue != [] {
      var data := u.queue[0].data;
      var (t, sent, reading) := Call(u, offset);
      assert reading == Read(Posix, |data| - offset, NextAnswer(s));
      assert Transmit(u, offset) == (t, sent, reading);
    }
  }

  /** Every write of a blocking socket takes the whole chunk, fails, or takes nothing. */
  ghost predicate WholeWrites(n: Net, events: seq<NetEvent>)
    requires NetValid(n)
    decreases |events|
  {
    events != [] ==>
      && (events[0].BufferAvailable? && events[0].socket < |n.sockets| && n.sockets[events[0].socket].blocking ==>
            TakesWhole(n.sockets[events[0].socket], 0))
      && (Runnable(n, events[0]) ==> WholeWrites(Happen(n, events[0]), events[1..]))
  }

  /** The offset after one event, seen from before it. */
  lemma EventOffset(n: Net, e: NetEvent)
    requires NetValid(n) && n.offset == 0 && e.socket < |n.sockets|
    requires e.BufferAvailable? && !n.sockets[e.socket].blocking ==> Happen(n, e).sockets[e.socket].queue == []
    ensures Happen(n, e).offset == 0 <==>
      (e.BufferAvailable? && n.sockets[e.socket].blocking ==> TakesWhole(n.sockets[e.socket], 0))
  {
    hide SendAll;
    if e.BufferAvailable? && n.sockets[e.socket].blocking {
      OffsetAfterHandler(n.sockets[e.socket], 0);
    }
  }

  /** With one event-loop thread the shared offset is 0 between handlers all along exactly when the
      blocking sockets, if there are any, write whole chunks. */
  lemma {:induction false} UndisturbedIffWholeWrites(n: Net, events: seq<NetEvent>)
    requires NetValid(n) && n.offset == 0 && Returns(n, events)
    ensures Undisturbed(n, events) <==> WholeWrites(n, events)
    decreases |events|
  {
    hide OnBufferAvailable, Happen;
    if events != [] {
      EventOffset(n, events[0]);
      var m := Happen(n, events[0]);
      if m.offset == 0 {
        UndisturbedIffWholeWrites(m, events[1..]);
      }
    }
  }

  /** An event as its own socket sees it. */
  function Own(e: NetEvent): SendQueue.Event {
    match e
    case Async(_, data) => SendQueue.Async(data)
    case BufferAvailable(_) => SendQueue.BufferAvailable
    case SetBlocking(_, blocking) => SendQueue.SetBlocking(blocking)
  }

  /** The events of socket `i`, in order. */
  function EventsOf(events: seq<NetEvent>, i: nat): seq<SendQueue.Event> {
    if events == [] then []
    else (if events[0].socket == i then [Own(events[0])] else []) + EventsOf(events[1..], i)
  }

  lemma EventIsOwn(n: Net, e: NetEvent, i: nat)
    requires NetValid(n) && n.offset == 0 && Runnable(n, e) && Happen(n, e).offset == 0 && i < |n.sockets|
    ensures Valid(n.sockets[i])
    ensures Happen(n, e).sockets[i] ==
      if e.socket == i then SendQueue.Handle(Posix, n.sockets[i], Own(e)) else n.sockets[i]
  {
    hide SendAll, SendQueue.SendAll;
    MarkedZero(n.sockets[i]);
    if e.BufferAvailable? && e.socket == i {
      HandlerRefines(n.sockets[i], 0);
      MarkedZero(OnBufferAvailable(n.sockets[i], 0).0);
    }
  }

  /** While the shared offset is 0 between handlers, every socket is as if it were alone. */
  lemma {:induction false} RunIsOwn(n: Net, events: seq<NetEvent>, i: nat)
    requires NetValid(n) && Undisturbed(n, events) && i < |n.sockets|
    ensures Valid(n.sockets[i])
    ensures HappenAll(n, events).sockets[i] == HandleAll(Posix, n.sockets[i], EventsOf(events, i))
    decreases |events|
  {
    hide Happen, Runnable, Valid, SendQueue.Handle;
    MarkedZero(n.sockets[i]);
    if events != [] {
      EventIsOwn(n, events[0], i);
      RunIsOwn(Happen(n, events[0]), events[1..], i);
      OwnFirst(events, i);
    }
  }

  lemma OwnFirst(events: seq<NetEvent>, i: nat)
    requires events != []
    ensures EventsOf(events, i) ==
      if events[0].socket == i then [Own(events[0])] + EventsOf(events[1..], i) else EventsOf(events[1..], i)
    ensures events[0].socket == i ==> EventsOf(events, i)[1..] == EventsOf(events[1..], i)
  {
  }

  /** No socket blocks, and none is made to. */
  ghost predicate NeverBlocks(n: Net, events: seq<NetEvent>) {
    && (forall i :: 0 <= i < |n.sockets| ==> !n.sockets[i].blocking)
    && (forall k :: 0 <= k < |events| && events[k].SetBlocking? ==> !events[k].blocking)
  }

  lemma StaysNonBlocking(n: Net, events: seq<NetEvent>)
    requires NetValid(n) && NeverBlocks(n, events) && events != [] && Runnable(n, events[0])
    ensures NeverBlocks(Happen(n, events[0]), events[1..])
  {
    assert forall k :: 0 <= k < |events| - 1 ==> events[1..][k] == events[k + 1];
  }

  lemma {:induction false} NonBlockingWrites(n: Net, events: seq<NetEvent>)
    requires NetValid(n) && NeverBlocks(n, events)
    ensures WholeWrites(n, events)
    decreases |events|
  {
    if events != [] && Runnable(n, events[0]) {
      StaysNonBlocking(n, events);
      NonBlockingWrites(Happen(n, events[0]), events[1..]);
    }
  }

  /** So no socket ever sees another one's progress: with blocking sockets that write whole chunks, and with
      sockets that never block always, each socket ends as if it had been alone with its own events, with
      the handler that keeps its progress in the chunk. What it accepted is therefore conserved. */
  lemma SocketsDoNotInterfere(n: Net, events: seq<NetEvent>)
    requires NetValid(n) && n.offset == 0 && Returns(n, events)
    requires WholeWrites(n, events) || NeverBlocks(n, events)
    ensures Undisturbed(n, events)
    ensures HappenAll(n, events).offset == 0
    ensures forall i :: 0 <= i < |n.sockets| ==>
      && Valid(n.sockets[i])
      && HappenAll(n, events).sockets[i] == HandleAll(Posix, n.sockets[i], EventsOf(events, i))
      && (Conserved(n.sockets[i]) ==> Conserved(HappenAll(n, events).sockets[i]))
  {
    if NeverBlocks(n, events) {
      NonBlockingWrites(n, events);
    }
    UndisturbedIffWholeWrites(n, events);
    forall i | 0 <= i < |n.sockets|
      ensures Valid(n.sockets[i])
      ensures HappenAll(n, events).sockets[i] == HandleAll(Posix, n.sockets[i], EventsOf(events, i))
      ensures Conserved(n.sockets[i]) ==> Conserved(HappenAll(n, events).sockets[i])
    {
      RunIsOwn(n, events, i);
      if Conserved(n.sockets[i]) {
        RunConserves(Posix, n.sockets[i], EventsOf(events, i));
      }
    }
  }

  /** One handler run of a blocking socket that can write some, but not all, of its front chunk,
      or exactly the rest of it. */
  lemma BlockingWrite(s: State, offset: nat, k: nat)
    requires Unmarked(s) && s.queue != [] && s.blocking && s.script == [Grants(k)]
    requires 0 < k <= |s.queue[0].data| - offset
    ensures var c := s.queue[0];
      var t := s.(available := true, script := [], wire := s.wire + c.data[offset..offset + k]);
      OnBufferAvailable(s, offset) ==
        if offset + k < |c.data| then (t, offset + k)
        else (t.(queue := s.queue[1..], settled := s.settled + [Settled(c.promise, c.data, offset + k, Success)]), 0)
  {
    var c := s.queue[0];
    var u := s.(available := true);
    assert Read(Posix, |c.data| - offset, NextAnswer(u)) == Sent(k);
    assert Rest(u).script == [];
    assert Call(u, offset) == (u.(script := [], wire := s.wire + c.data[offset..offset + k]), offset + k, Sent(k));
  }

  /** A handler that finds the offset at the end of its front chunk asks for 0 bytes, and settles the
      promise with success unless the system fails. */
  lemma NothingLeftToWrite(s: State)
    requires Unmarked(s) && s.queue != [] && s.blocking && !NextAnswer(s).Fails?
    ensures var c := s.queue[0]; var t := OnBufferAvailable(s, |c.data|).0;
      t.wire == s.wire && t.settled == s.settled + [Settled(c.promise, c.data, |c.data|, Success)]
  {
    var u := s.(available := true);
    assert Call(u, |s.queue[0].data|).2 == Nothing;
  }

  /** What a blocking socket `i` does to the next one, `j`, when it writes `k` bytes of a longer
      chunk. The handler of `j` starts `k` bytes into its front chunk. If that has more than `k` bytes,
      its first `k` are never sent, and its promise succeeds as if they were; if it has exactly `k`,
      nothing of it is sent, with the same success. If it is shorter, the handler is not runnable: the
      source sends from beyond its end. */
  lemma BlockingSocketsInterfere(n: Net, i: nat, j: nat, k: nat)
    requires NetValid(n) && n.offset == 0 && i < |n.sockets| && j < |n.sockets| && i != j
    requires n.sockets[i].blocking && n.sockets[i].queue != [] && n.sockets[j].queue != []
    requires 0 < k < |n.sockets[i].queue[0].data| && n.sockets[i].script == [Grants(k)]
    ensures Runnable(n, NetEvent.BufferAvailable(i))
    ensures var m := Happen(n, NetEvent.BufferAvailable(i));
      && m.offset == k
      && (Runnable(m, NetEvent.BufferAvailable(j)) <==> k <= |n.sockets[j].queue[0].data|)
      && var c := n.sockets[j].queue[0];
         k <= |c.data| && n.sockets[j].blocking && n.sockets[j].script == [Grants(|c.data| - k)] ==>
           var t := Happen(m, NetEvent.BufferAvailable(j)).sockets[j];
           && t.settled == n.sockets[j].settled + [Settled(c.promise, c.data, |c.data|, Success)]
           && t.wire == n.sockets[j].wire + c.data[k..]
  {
    hide OnBufferAvailable;
    BlockingWrite(n.sockets[i], 0, k);
    var m := Happen(n, NetEvent.BufferAvailable(i));
    var s, c := n.sockets[j], n.sockets[j].queue[0];
    assert m.sockets[j] == s;
    if k <= |c.data| && s.blocking && s.script == [Grants(|c.data| - k)] {
      if k < |c.data| {
        BlockingWrite(s, k, |c.data| - k);
        assert c.data[k..|c.data|] == c.data[k..];
      } else {
        NothingLeftToWrite(s);
        assert s.wire + c.data[k..] == s.wire;
      }
    }
  }
}
