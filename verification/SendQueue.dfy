/**
 The send side of a socket: chunks with promises, partial writes, and the operating system as an
 arbitrary script of outcomes. A script that has run out answers "would block".
 */
module SendQueue {
  import opened SocketTypes

  /** An answer as the handler reads it. */
  datatype Reading = Sent(count: nat) | Nothing | Failed(error: ErrorCode)

  /** A chunk waiting to be sent; `sent` bytes of it are already out. */
  datatype Chunk = Chunk(data: seq<Byte>, promise: nat, sent: nat)

  datatype Outcome = Success | Error(error: ErrorCode)

  /** A settled promise, with the chunk it was for and how much of it the system accepted. */
  datatype Settled = Settled(promise: nat, data: seq<Byte>, sent: nat, outcome: Outcome)

  /** `script`, `wire`, `settled` and `issued` (the number of promises handed out) belong to the
      surroundings of the socket; the rest are its fields. */
  datatype State = State(
    queue: seq<Chunk>, available: bool, blocking: bool,
    script: seq<Answer<nat>>, wire: seq<Byte>, settled: seq<Settled>, issued: nat)

  function Min(a: nat, b: nat): nat {
    if a < b then a else b
  }

  /** `WSASend` and `send` on `remaining` bytes: the system takes as many as it grants. */
  function Read(platform: Platform, remaining: nat, a: Answer<nat>): Reading {
    match a
    case Grants(limit) => if Min(limit, remaining) > 0 then Sent(Min(limit, remaining)) else Nothing
    case WouldBlock => Nothing
    case Fails(error, _) => if ReadsAsFailure(platform, a) then Failed(error) else Nothing
  }

  function NextAnswer(s: State): Answer<nat> {
    if s.script == [] then WouldBlock else s.script[0]
  }

  function Rest(s: State): State {
    s.(script := if s.script == [] then [] else s.script[1..])
  }

  ghost predicate Valid(s: State) {
    && (forall i :: 0 <= i < |s.queue| ==> s.queue[i].sent <= |s.queue[i].data|)
    && (forall i :: 0 < i < |s.queue| ==> s.queue[i].sent == 0)
  }

  /** The operating system accepts `k` bytes of the front chunk. */
  function Advance(s: State, k: nat): State
    requires s.queue != [] && s.queue[0].sent + k <= |s.queue[0].data|
  {
    var c := s.queue[0];
    s.(queue := [c.(sent := c.sent + k)] + s.queue[1..],
       wire := s.wire + c.data[c.sent..c.sent + k])
  }

  /** One system call on the front chunk. */
  function Call(platform: Platform, s: State): (r: (State, Reading))
    requires Valid(s) && s.queue != []
    ensures Valid(r.0) && |r.0.queue| == |s.queue| && r.0.blocking == s.blocking
    ensures r.0.script == Rest(s).script && (r.1.Sent? ==> s.script != [])
  {
    var c := s.queue[0];
    var reading := Read(platform, |c.data| - c.sent, NextAnswer(s));
    match reading
    case Sent(k) => (Advance(Rest(s), k), reading)
    case Nothing => (Rest(s).(available := false), reading)
    case Failed(_) => (Rest(s), reading)
  }

  /** The send loop on the front chunk, and how its last call ended. */
  function Transmit(platform: Platform, s: State): (r: (State, Reading))
    requires Valid(s) && s.queue != []
    ensures Valid(r.0) && |r.0.queue| == |s.queue| && |r.0.script| <= |s.script|
    ensures s.script != [] ==> |r.0.script| < |s.script|
    ensures r.0.blocking == s.blocking
    decreases |s.script|
  {
    var (t, reading) := Call(platform, s);
    if reading.Sent? && !t.blocking && t.queue[0].sent < |t.queue[0].data| then Transmit(platform, t)
    else (t, reading)
  }

  function Settle(s: State, outcome: Outcome): State
    requires s.queue != []
  {
    var c := s.queue[0];
    s.(queue := s.queue[1..], settled := s.settled + [Settled(c.promise, c.data, c.sent, outcome)])
  }

  /** `sendDataTo`: one send loop, then settle the front promise if it failed or is complete. */
  function SendFront(platform: Platform, s: State): (t: State)
    requires Valid(s) && s.queue != []
    ensures Valid(t) && |t.script| <= |s.script| && t.blocking == s.blocking
    ensures s.script != [] ==> |t.script| < |s.script|
  {
    var (t, end) := Transmit(platform, s);
    if end.Failed? then Settle(t, Error(end.error))
    else if t.queue[0].sent == |t.queue[0].data| then Settle(t, Success)
    else t
  }

  /** The loop of `onSocketBufferAvailable`. Without blocking it retries until the queue is empty;
      it is cut where the script has run out. */
  function SendAll(platform: Platform, s: State): (t: State)
    requires Valid(s)
    ensures Valid(t) && t.blocking == s.blocking && |t.script| <= |s.script|
    decreases |s.script|
  {
    if s.queue == [] then s
    else
      var t := SendFront(platform, s);
      if s.blocking || s.script == [] then t else SendAll(platform, t)
  }

  function OnBufferAvailable(platform: Platform, s: State): (t: State)
    requires Valid(s)
    ensures Valid(t)
  {
    SendAll(platform, s.(available := true))
  }

  function Enqueue(s: State, data: seq<Byte>): (t: State)
    requires Valid(s)
    ensures Valid(t) && t.queue != []
  {
    s.(queue := s.queue + [Chunk(data, s.issued, 0)], issued := s.issued + 1)
  }

  /** `sendAsync`: Windows tries to send at once when the buffer is known to be available. */
  function SendAsync(platform: Platform, s: State, data: seq<Byte>): (t: State)
    requires Valid(s)
    ensures Valid(t)
  {
    var t := Enqueue(s, data);
    if platform == Windows && t.available then SendFront(platform, t) else t
  }

  // ---------------------------------------------------------------- conservation

  /** What the settled promises put on the wire, in order. */
  function Flatten(settled: seq<Settled>): seq<Byte> {
    if settled == [] then []
    else Flatten(settled[..|settled| - 1]) + Accepted(settled[|settled| - 1])
  }

  function Accepted(d: Settled): seq<Byte> {
    d.data[..Min(d.sent, |d.data|)]
  }

  function UnderWay(s: State): seq<Byte> {
    if s.queue == [] then [] else s.queue[0].data[..Min(s.queue[0].sent, |s.queue[0].data|)]
  }

  ghost predicate SettledOk(d: Settled) {
    d.sent <= |d.data| && (d.outcome.Success? ==> d.sent == |d.data|)
  }

  /** Promise number `i` is settled in place `i`, or waits in the queue in place `i`. */
  ghost predicate PromisesOk(s: State) {
    && |s.settled| + |s.queue| == s.issued
    && (forall i :: 0 <= i < |s.settled| ==> s.settled[i].promise == i)
    && (forall i :: 0 <= i < |s.queue| ==> s.queue[i].promise == |s.settled| + i)
  }

  ghost predicate Conserved(s: State) {
    && Valid(s) && PromisesOk(s)
    && (forall i :: 0 <= i < |s.settled| ==> SettledOk(s.settled[i]))
    && s.wire == Flatten(s.settled) + UnderWay(s)
  }

  lemma SliceJoins(d: seq<Byte>, i: nat, k: nat)
    requires i + k <= |d|
    ensures d[..i] + d[i..i + k] == d[..i + k]
  {
  }

  lemma ConcatAssociates(a: seq<Byte>, b: seq<Byte>, c: seq<Byte>)
    ensures (a + b) + c == a + (b + c)
  {
  }

  lemma AdvanceUnderWay(s: State, k: nat)
    requires s.queue != [] && s.queue[0].sent + k <= |s.queue[0].data|
    ensures var c := s.queue[0];
      UnderWay(Advance(s, k)) == UnderWay(s) + c.data[c.sent..c.sent + k]
  {
    var c := s.queue[0];
    SliceJoins(c.data, c.sent, k);
    assert Advance(s, k).queue[0] == c.(sent := c.sent + k);
  }

  lemma AdvanceWire(s: State, k: nat)
    requires s.queue != [] && s.queue[0].sent + k <= |s.queue[0].data|
    requires s.wire == Flatten(s.settled) + UnderWay(s)
    ensures Advance(s, k).wire == Flatten(s.settled) + UnderWay(Advance(s, k))
  {
    hide Flatten, Accepted, UnderWay;
    var c := s.queue[0];
    AdvanceUnderWay(s, k);
    ConcatAssociates(Flatten(s.settled), UnderWay(s), c.data[c.sent..c.sent + k]);
  }

  lemma AdvanceConserves(s: State, k: nat)
    requires Conserved(s) && s.queue != [] && s.queue[0].sent + k <= |s.queue[0].data|
    ensures Conserved(Advance(s, k))
  {
    hide Flatten, Accepted, UnderWay;
    AdvanceWire(s, k);
  }

  lemma SettleConserves(s: State, outcome: Outcome)
    requires Conserved(s) && s.queue != []
    requires outcome == Success ==> s.queue[0].sent == |s.queue[0].data|
    ensures Conserved(Settle(s, outcome))
  {
    var c := s.queue[0];
    var d := Settled(c.promise, c.data, c.sent, outcome);
    assert (s.settled + [d])[..|s.settled|] == s.settled;
    assert Accepted(d) == UnderWay(s);
    assert UnderWay(Settle(s, outcome)) == [];
  }

  lemma CallConserves(platform: Platform, s: State)
    requires Conserved(s) && s.queue != []
    ensures Conserved(Call(platform, s).0)
  {
    assert UnderWay(Rest(s)) == UnderWay(s) == UnderWay(Rest(s).(available := false));
    hide Flatten, Accepted, UnderWay, Advance;
    assert Conserved(Rest(s)) && Conserved(Rest(s).(available := false));
    var c := s.queue[0];
    var reading := Read(platform, |c.data| - c.sent, NextAnswer(s));
    hide Conserved;
    if reading.Sent? {
      AdvanceConserves(Rest(s), reading.count);
    }
  }

  lemma {:induction false} TransmitConserves(platform: Platform, s: State)
    requires Conserved(s) && s.queue != []
    ensures Conserved(Transmit(platform, s).0)
    decreases |s.script|
  {
    CallConserves(platform, s);
    var (t, reading) := Call(platform, s);
    if reading.Sent? && !t.blocking && t.queue[0].sent < |t.queue[0].data| {
      TransmitConserves(platform, t);
    }
  }

  lemma SendFrontConserves(platform: Platform, s: State)
    requires Conserved(s) && s.queue != []
    ensures Conserved(SendFront(platform, s))
  {
    TransmitConserves(platform, s);
    var (t, end) := Transmit(platform, s);
    if end.Failed? {
      SettleConserves(t, Error(end.error));
    } else if t.queue[0].sent == |t.queue[0].data| {
      SettleConserves(t, Success);
    }
  }

  lemma {:induction false} SendAllConserves(platform: Platform, s: State)
    requires Conserved(s)
    ensures Conserved(SendAll(platform, s))
    decreases |s.script|
  {
    if s.queue != [] {
      SendFrontConserves(platform, s);
      if !s.blocking && s.script != [] {
        SendAllConserves(platform, SendFront(platform, s));
      }
    }
  }

  datatype Event = Async(data: seq<Byte>) | BufferAvailable | SetBlocking(blocking: bool)

  function Handle(platform: Platform, s: State, e: Event): (t: State)
    requires Valid(s)
    ensures Valid(t)
  {
    match e
    case Async(data) => SendAsync(platform, s, data)
    case BufferAvailable => OnBufferAvailable(platform, s)
    case SetBlocking(blocking) => s.(blocking := blocking)
  }

  function HandleAll(platform: Platform, s: State, events: seq<Event>): (t: State)
    requires Valid(s)
    ensures Valid(t)
    decreases |events|
  {
    if events == [] then s else HandleAll(platform, Handle(platform, s, events[0]), events[1..])
  }

  lemma HandleConserves(platform: Platform, s: State, e: Event)
    requires Conserved(s)
    ensures Conserved(Handle(platform, s, e))
  {
    match e
    case Async(data) =>
      var t := Enqueue(s, data);
      assert UnderWay(t) == UnderWay(s);
      assert Conserved(t);
      if platform == Windows && t.available {
        SendFrontConserves(platform, t);
      }
    case BufferAvailable =>
      SendAllConserves(platform, s.(available := true));
    case SetBlocking(blocking) =>
      assert UnderWay(s.(blocking := blocking)) == UnderWay(s);
  }

  lemma {:induction false} RunConserves(platform: Platform, s: State, events: seq<Event>)
    requires Conserved(s)
    ensures Conserved(HandleAll(platform, s, events))
    decreases |events|
  {
    hide Handle;
    if events != [] {
      HandleConserves(platform, s, events[0]);
      RunConserves(platform, Handle(platform, s, events[0]), events[1..]);
    }
  }

  /** Send conservation: for every sequence of `sendAsync` calls, mode changes and system answers, the accepted
      bytes are the accepted parts of the settled chunks in order, then the sent part of the front
      chunk; promises settle once each, in the order they were handed out, and succeed only when
      every byte was accepted. */
  lemma SendConservation(platform: Platform, s: State, events: seq<Event>)
    requires Conserved(s)
    ensures var t := HandleAll(platform, s, events);
      && t.wire == Flatten(t.settled) + UnderWay(t)
      && (forall i :: 0 <= i < |t.settled| ==>
            && t.settled[i].promise == i && t.settled[i].sent <= |t.settled[i].data|
            && (t.settled[i].outcome.Success? ==> t.settled[i].sent == |t.settled[i].data|))
      && (forall i :: 0 <= i < |t.queue| ==> t.queue[i].promise == |t.settled| + i)
      && |t.settled| + |t.queue| == t.issued
  {
    RunConserves(platform, s, events);
    var t := HandleAll(platform, s, events);
    forall i | 0 <= i < |t.settled| ensures SettledOk(t.settled[i]) {
    }
  }

  // ---------------------------------------------------------------- whose bytes they are

  /** A socket nobody has sent anything through yet. */
  ghost predicate Opened(s: State) {
    s.queue == [] && s.wire == [] && s.settled == [] && s.issued == 0
  }

  function Data(queue: seq<Chunk>): seq<seq<Byte>> {
    seq(|queue|, i requires 0 <= i < |queue| => queue[i].data)
  }

  function SettledData(settled: seq<Settled>): seq<seq<Byte>> {
    seq(|settled|, i requires 0 <= i < |settled| => settled[i].data)
  }

  /** The chunks handed to the socket, in the order of their promises. */
  function Given(s: State): seq<seq<Byte>> {
    SettledData(s.settled) + Data(s.queue)
  }

  /** What the events hand to `sendAsync`. */
  function Payloads(events: seq<Event>): seq<seq<Byte>> {
    if events == [] then []
    else (if events[0].Async? then [events[0].data] else []) + Payloads(events[1..])
  }

  function Concat(chunks: seq<seq<Byte>>): seq<Byte> {
    if chunks == [] then [] else Concat(chunks[..|chunks| - 1]) + chunks[|chunks| - 1]
  }

  lemma SettleKeepsGiven(s: State, outcome: Outcome)
    requires s.queue != []
    ensures Given(Settle(s, outcome)) == Given(s)
  {
    var t := Settle(s, outcome);
    assert SettledData(t.settled) == SettledData(s.settled) + [s.queue[0].data];
    assert Data(s.queue) == [s.queue[0].data] + Data(t.queue);
  }

  lemma {:induction false} TransmitKeepsGiven(platform: Platform, s: State)
    requires Valid(s) && s.queue != []
    ensures Given(Transmit(platform, s).0) == Given(s)
    decreases |s.script|
  {
    var (t, reading) := Call(platform, s);
    assert Data(t.queue) == Data(s.queue) && t.settled == s.settled;
    if reading.Sent? && !t.blocking && t.queue[0].sent < |t.queue[0].data| {
      TransmitKeepsGiven(platform, t);
    }
  }

  lemma SendFrontKeepsGiven(platform: Platform, s: State)
    requires Valid(s) && s.queue != []
    ensures Given(SendFront(platform, s)) == Given(s)
  {
    hide Given;
    TransmitKeepsGiven(platform, s);
    var (t, end) := Transmit(platform, s);
    if end.Failed? {
      SettleKeepsGiven(t, Error(end.error));
    } else if t.queue[0].sent == |t.queue[0].data| {
      SettleKeepsGiven(t, Success);
    }
  }

  lemma {:induction false} SendAllKeepsGiven(platform: Platform, s: State)
    requires Valid(s)
    ensures Given(SendAll(platform, s)) == Given(s)
    decreases |s.script|
  {
    hide Given;
    if s.queue != [] {
      SendFrontKeepsGiven(platform, s);
      if !s.blocking && s.script != [] {
        SendAllKeepsGiven(platform, SendFront(platform, s));
      }
    }
  }

  lemma HandleAddsPayload(platform: Platform, s: State, e: Event)
    requires Valid(s)
    ensures Given(Handle(platform, s, e)) == Given(s) + if e.Async? then [e.data] else []
  {
    match e
    case Async(data) =>
      var t := Enqueue(s, data);
      assert Data(t.queue) == Data(s.queue) + [data];
      if platform == Windows && t.available {
        SendFrontKeepsGiven(platform, t);
      }
    case BufferAvailable =>
      SendAllKeepsGiven(platform, s.(available := true));
    case SetBlocking(_) =>
  }

  lemma {:induction false} RunAddsPayloads(platform: Platform, s: State, events: seq<Event>)
    requires Valid(s)
    ensures Given(HandleAll(platform, s, events)) == Given(s) + Payloads(events)
    decreases |events|
  {
    hide Given, Handle, Valid;
    if events == [] {
      assert Given(s) + [] == Given(s);
    } else {
      var e, t := events[0], Handle(platform, s, events[0]);
      var first := if e.Async? then [e.data] else [];
      HandleAddsPayload(platform, s, e);
      RunAddsPayloads(platform, t, events[1..]);
      assert (Given(s) + first) + Payloads(events[1..]) == Given(s) + (first + Payloads(events[1..]));
    }
  }

  lemma {:induction false} AllAccepted(settled: seq<Settled>)
    requires forall i :: 0 <= i < |settled| ==> settled[i].sent == |settled[i].data|
    ensures Flatten(settled) == Concat(SettledData(settled))
  {
    if settled != [] {
      var n := |settled| - 1;
      AllAccepted(settled[..n]);
      assert SettledData(settled)[..n] == SettledData(settled[..n]);
      assert Accepted(settled[n]) == settled[n].data;
    }
  }

  lemma WholeWire(t: State, payloads: seq<seq<Byte>>)
    requires t.queue == [] && t.wire == Flatten(t.settled) + UnderWay(t) && Given(t) == payloads
    requires forall i :: 0 <= i < |t.settled| ==> t.settled[i].sent == |t.settled[i].data|
    ensures t.wire == Concat(payloads)
  {
    AllAccepted(t.settled);
    assert Data(t.queue) == [] && SettledData(t.settled) + [] == SettledData(t.settled);
    assert Flatten(t.settled) + [] == Flatten(t.settled);
  }

  /** A socket from its opening: the promises, settled and waiting, are for exactly the chunks handed
      to `sendAsync`, in that order; and once nothing waits and every promise has succeeded, the
      wire carries exactly their concatenation. */
  lemma OpenedSocketDelivers(platform: Platform, s: State, events: seq<Event>)
    requires Opened(s)
    ensures var t := HandleAll(platform, s, events);
      && Given(t) == Payloads(events) && t.issued == |Payloads(events)|
      && t.wire == Flatten(t.settled) + UnderWay(t)
      && (t.queue == [] && (forall i :: 0 <= i < |t.settled| ==> t.settled[i].outcome.Success?) ==>
            t.wire == Concat(Payloads(events)))
  {
    assert Given(s) == [] && [] + Payloads(events) == Payloads(events);
    assert Valid(s) && Conserved(s);
    hide HandleAll, Accepted, UnderWay, Flatten, Concat, Payloads, Conserved, Valid;
    SendConservation(platform, s, events);
    RunAddsPayloads(platform, s, events);
    var t := HandleAll(platform, s, events);
    assert |Given(t)| == |t.settled| + |t.queue|;
    if t.queue == [] && forall i :: 0 <= i < |t.settled| ==> t.settled[i].outcome.Success? {
      WholeWire(t, Payloads(events));
    }
  }

  // ---------------------------------------------------------------- how far a handler goes

  /** The mode the last of the events sets. */
  function ModeAfter(blocking: bool, events: seq<Event>): bool
    decreases |events|
  {
    if events == [] then blocking
    else ModeAfter(if events[0].SetBlocking? then events[0].blocking else blocking, events[1..])
  }

  lemma {:induction false} OnlySetBlockingSetsTheMode(platform: Platform, s: State, events: seq<Event>)
    requires Valid(s)
    ensures HandleAll(platform, s, events).blocking == ModeAfter(s.blocking, events)
    decreases |events|
  {
    if events != [] {
      OnlySetBlockingSetsTheMode(platform, Handle(platform, s, events[0]), events[1..]);
    }
  }

  /** The send loop goes on while the system takes bytes and some are left; a blocking socket makes one
      call. The buffer counts as available afterwards unless the last call would have blocked. */
  lemma {:induction false} TransmitGoesOn(platform: Platform, s: State)
    requires Valid(s) && s.queue != []
    ensures var (t, end) := Transmit(platform, s);
      && (!s.blocking && end.Sent? ==> t.queue[0].sent == |t.queue[0].data|)
      && (s.blocking ==> t.script == Rest(s).script)
      && (t.available <==> s.available && !end.Nothing?) && t.settled == s.settled
    decreases |s.script|
  {
    var (t, reading) := Call(platform, s);
    if reading.Sent? && !t.blocking && t.queue[0].sent < |t.queue[0].data| {
      TransmitGoesOn(platform, t);
    }
  }

  lemma {:induction false} SendAllGoesOn(platform: Platform, s: State)
    requires Valid(s) && !s.blocking
    ensures SendAll(platform, s).queue == [] || SendAll(platform, s).script == []
    decreases |s.script|
  {
    if s.queue != [] && s.script != [] {
      SendAllGoesOn(platform, SendFront(platform, s));
    }
  }

  /** A handler without blocking stops only when nothing is left to send or the script is used up; a
      blocking one makes exactly one call. */
  lemma HandlerGoesOn(platform: Platform, s: State)
    requires Valid(s)
    ensures var t := OnBufferAvailable(platform, s);
      && (!s.blocking ==> t.queue == [] || t.script == [])
      && (s.blocking && s.queue != [] ==> t.script == Rest(s).script)
      && (s.queue == [] ==> t == s.(available := true))
  {
    var u := s.(available := true);
    if !s.blocking {
      SendAllGoesOn(platform, u);
    } else if s.queue != [] {
      TransmitGoesOn(platform, u);
    }
  }

  /** `sendAsync` calls the system at once exactly on Windows, with the buffer known to be available. */
  lemma WhoSendsAtOnce(platform: Platform, s: State, data: seq<Byte>)
    requires Valid(s) && s.script != []
    ensures SendAsync(platform, s, data).script != s.script <==> platform == Windows && s.available
    ensures platform == Windows && s.available && !s.blocking ==>
      var t := SendAsync(platform, s, data);
      !t.available || |t.settled| > |s.settled|
  {
    var u := Enqueue(s, data);
    if platform == Windows && s.available {
      TransmitGoesOn(platform, u);
    }
  }

  /** A chunk that is fully out is settled in the same call, unless there was nothing of it to send. */
  ghost predicate NoneLeftOver(s: State) {
    s.queue != [] && s.queue[0].sent > 0 ==> s.queue[0].sent < |s.queue[0].data|
  }

  lemma SendFrontSettles(platform: Platform, s: State)
    requires Valid(s) && s.queue != []
    ensures NoneLeftOver(SendFront(platform, s))
  {
  }

  lemma {:induction false} SendAllSettles(platform: Platform, s: State)
    requires Valid(s) && NoneLeftOver(s)
    ensures NoneLeftOver(SendAll(platform, s))
    decreases |s.script|
  {
    if s.queue != [] {
      SendFrontSettles(platform, s);
      if !s.blocking && s.script != [] {
        SendAllSettles(platform, SendFront(platform, s));
      }
    }
  }

  /** Over every sequence of events no chunk that is fully out waits for its promise to be settled. */
  lemma {:induction false} FullyOutIsSettled(platform: Platform, s: State, events: seq<Event>)
    requires Valid(s) && NoneLeftOver(s)
    ensures NoneLeftOver(HandleAll(platform, s, events))
    decreases |events|
  {
    if events != [] {
      match events[0] {
        case Async(data) =>
          if platform == Windows && s.available {
            SendFrontSettles(platform, Enqueue(s, data));
          }
        case BufferAvailable => SendAllSettles(platform, s.(available := true));
        case SetBlocking(_) =>
      }
      FullyOutIsSettled(platform, Handle(platform, s, events[0]), events[1..]);
    }
  }
}
