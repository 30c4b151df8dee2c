/**
 The receive side of a socket: read requests with promises, one buffer for the chunk being
 collected, and the operating system as an arbitrary script. A script that has run out answers
 "would block". Windows keeps the buffer in the socket, Posix in one variable all sockets share.
 */
module ReceiveQueue {
  import opened SocketTypes

  const RECEIVE_BUFFER_SIZE: nat := 4096

  type Packet = b: seq<Byte> | |b| <= RECEIVE_BUFFER_SIZE

  datatype Reading = Received(bytes: seq<Byte>) | Nothing | Failed(error: ErrorCode)

  /** A settled request. An error loses what the failing call had read before it. */
  datatype Settled = Value(promise: nat, bytes: seq<Byte>) | Error(promise: nat, error: ErrorCode, lost: seq<Byte>)

  /** `requests` are the promises waiting. `script`, `received`, `settled` and `issued` belong to
      the surroundings of the socket. */
  datatype State = State(
    requests: seq<nat>, chunk: seq<Byte>, available: bool, blocking: bool,
    script: seq<Answer<Packet>>, received: seq<Byte>, settled: seq<Settled>, issued: nat)

  function Read(platform: Platform, a: Answer<Packet>): Reading {
    match a
    case Grants(bytes) => if |bytes| > 0 then Received(bytes) else Nothing
    case WouldBlock => Nothing
    case Fails(error, _) => if ReadsAsFailure(platform, a) then Failed(error) else Nothing
  }

  /** One system call. */
  function Call(platform: Platform, s: State): (r: (State, Reading))
    ensures r.0.blocking == s.blocking && r.0.requests == s.requests && r.0.settled == s.settled
    ensures r.0.issued == s.issued
    ensures r.0.script == (if s.script == [] then [] else s.script[1..]) && (r.1.Received? ==> s.script != [])
  {
    var reading := Read(platform, if s.script == [] then WouldBlock else s.script[0]);
    var t := s.(script := if s.script == [] then [] else s.script[1..]);
    match reading
    case Received(bytes) => (t.(chunk := t.chunk + bytes, received := t.received + bytes), reading)
    case Nothing => (t.(available := false), reading)
    case Failed(_) => (t, reading)
  }

  /** The receive loop, and how its last call ended. */
  function Collect(platform: Platform, s: State): (r: (State, Reading))
    ensures r.0.blocking == s.blocking && r.0.requests == s.requests && r.0.settled == s.settled
    ensures r.0.issued == s.issued
    ensures |r.0.script| <= |s.script| && (s.script != [] ==> |r.0.script| < |s.script|)
    decreases |s.script|
  {
    var (t, reading) := Call(platform, s);
    if reading.Received? && !t.blocking then Collect(platform, t) else (t, reading)
  }

  /** `readDataFrom`: collect, then settle the front request with an error or with the chunk. */
  function ReadFront(platform: Platform, s: State): (t: State)
    requires s.requests != []
    ensures t.blocking == s.blocking && |t.script| <= |s.script| && (s.script != [] ==> |t.script| < |s.script|)
  {
    var (t, end) := Collect(platform, s);
    if end.Failed? then
      t.(requests := t.requests[1..], chunk := [], settled := t.settled + [Error(t.requests[0], end.error, t.chunk)])
    else if t.chunk != [] then
      t.(requests := t.requests[1..], chunk := [], settled := t.settled + [Value(t.requests[0], t.chunk)])
    else t
  }

  /** The loop of `onSocketDataAvailable`, cut where the script has run out. */
  function ReadAll(platform: Platform, s: State): (t: State)
    ensures |t.script| <= |s.script| && t.blocking == s.blocking
    decreases |s.script|
  {
    if s.requests == [] then s
    else
      var t := ReadFront(platform, s);
      if s.blocking || s.script == [] then t else ReadAll(platform, t)
  }

  function Enqueue(s: State): State {
    s.(requests := s.requests + [s.issued], issued := s.issued + 1)
  }

  datatype Event = Async | DataAvailable | SetBlocking(blocking: bool)

  /** `receiveAsync`, which on Windows reads at once when data is known to be there, and
      `onSocketDataAvailable`. */
  function Handle(platform: Platform, s: State, e: Event): State {
    match e
    case Async =>
      var t := Enqueue(s);
      if platform == Windows && t.available then ReadFront(platform, t) else t
    case DataAvailable => ReadAll(platform, s.(available := true))
    case SetBlocking(blocking) => s.(blocking := blocking)
  }

  function HandleAll(platform: Platform, s: State, events: seq<Event>): State
    decreases |events|
  {
    if events == [] then s else HandleAll(platform, Handle(platform, s, events[0]), events[1..])
  }

  // ---------------------------------------------------------------- conservation

  function Bytes(d: Settled): seq<Byte> {
    match d
    case Value(_, bytes) => bytes
    case Error(_, _, lost) => lost
  }

  /** Everything the settled requests were given or lost, in request order. */
  function Flatten(settled: seq<Settled>): seq<Byte> {
    if settled == [] then [] else Flatten(settled[..|settled| - 1]) + Bytes(settled[|settled| - 1])
  }

  ghost predicate SettledOk(d: Settled, i: nat) {
    d.promise == i && (d.Value? ==> d.bytes != [])
  }

  ghost predicate Balanced(s: State) {
    && s.received == Flatten(s.settled) + s.chunk
    && (forall i :: 0 <= i < |s.settled| ==> SettledOk(s.settled[i], i))
    && (forall i :: 0 <= i < |s.requests| ==> s.requests[i] == |s.settled| + i)
    && |s.settled| + |s.requests| == s.issued
  }

  lemma {:induction false} CollectBalances(platform: Platform, s: State)
    requires Balanced(s)
    ensures Balanced(Collect(platform, s).0)
    decreases |s.script|
  {
    var (t, reading) := Call(platform, s);
    if reading.Received? {
      assert t.received == Flatten(t.settled) + t.chunk;
      if !t.blocking {
        CollectBalances(platform, t);
      }
    }
  }

  lemma SettleBalances(s: State, d: Settled)
    requires Balanced(s) && s.requests != [] && SettledOk(d, s.requests[0]) && Bytes(d) == s.chunk
    ensures Balanced(s.(requests := s.requests[1..], chunk := [], settled := s.settled + [d]))
  {
    assert (s.settled + [d])[..|s.settled|] == s.settled;
    assert Flatten(s.settled + [d]) + [] == s.received;
  }

  lemma ReadFrontBalances(platform: Platform, s: State)
    requires Balanced(s) && s.requests != []
    ensures Balanced(ReadFront(platform, s)) && ReadFront(platform, s).chunk == []
  {
    CollectBalances(platform, s);
    var (t, end) := Collect(platform, s);
    if end.Failed? {
      SettleBalances(t, Error(t.requests[0], end.error, t.chunk));
    } else if t.chunk != [] {
      SettleBalances(t, Value(t.requests[0], t.chunk));
    }
  }

  lemma {:induction false} ReadAllBalances(platform: Platform, s: State)
    requires Balanced(s) && s.chunk == []
    ensures Balanced(ReadAll(platform, s)) && ReadAll(platform, s).chunk == []
    decreases |s.script|
  {
    if s.requests != [] {
      ReadFrontBalances(platform, s);
      if !s.blocking && s.script != [] {
        ReadAllBalances(platform, ReadFront(platform, s));
      }
    }
  }

  lemma HandleBalances(platform: Platform, s: State, e: Event)
    requires Balanced(s) && s.chunk == []
    ensures Balanced(Handle(platform, s, e)) && Handle(platform, s, e).chunk == []
  {
    match e
    case Async =>
      assert Balanced(Enqueue(s));
      if platform == Windows && s.available {
        ReadFrontBalances(platform, Enqueue(s));
      }
    case DataAvailable =>
      ReadAllBalances(platform, s.(available := true));
    case SetBlocking(_) =>
  }

  /** Receive conservation: for every sequence of requests, mode changes and system answers, the bytes
      received are, in request order, the delivered chunks and what the failed requests lost; every
      delivered chunk is non-empty; requests settle once each, in order; and the collecting buffer is
      empty whenever the read lock is free, blocking or not. */
  lemma {:induction false} ReceiveConservation(platform: Platform, s: State, events: seq<Event>)
    requires Balanced(s) && s.chunk == []
    ensures var t := HandleAll(platform, s, events);
      && t.received == Flatten(t.settled) && t.chunk == []
      && (forall i :: 0 <= i < |t.settled| ==>
            t.settled[i].promise == i && (t.settled[i].Value? ==> t.settled[i].bytes != []))
      && (forall i :: 0 <= i < |t.requests| ==> t.requests[i] == |t.settled| + i)
      && |t.settled| + |t.requests| == t.issued
    decreases |events|
  {
    hide Flatten, Handle;
    if events == [] {
      assert s.received == Flatten(s.settled) + [];
      forall i | 0 <= i < |s.settled| ensures SettledOk(s.settled[i], i) {
      }
    } else {
      HandleBalances(platform, s, events[0]);
      ReceiveConservation(platform, Handle(platform, s, events[0]), events[1..]);
    }
  }

  // ---------------------------------------------------------------- how far a handler goes

  /** The mode the last of the events sets. */
  function ModeAfter(blocking: bool, events: seq<Event>): bool
    decreases |events|
  {
    if events == [] then blocking
    else ModeAfter(if events[0].SetBlocking? then events[0].blocking else blocking, events[1..])
  }

  lemma {:induction false} OnlySetBlockingSetsTheMode(platform: Platform, s: State, events: seq<Event>)
    ensures HandleAll(platform, s, events).blocking == ModeAfter(s.blocking, events)
    decreases |events|
  {
    if events != [] {
      OnlySetBlockingSetsTheMode(platform, Handle(platform, s, events[0]), events[1..]);
    }
  }

  /** The receive loop goes on while data comes; a blocking socket makes one call. Data counts as
      available afterwards unless the last call would have blocked. */
  lemma {:induction false} CollectGoesOn(platform: Platform, s: State)
    ensures var (t, end) := Collect(platform, s);
      && (!s.blocking ==> !end.Received?)
      && (s.blocking ==> t.script == if s.script == [] then [] else s.script[1..])
      && (t.available <==> s.available && !end.Nothing?)
    decreases |s.script|
  {
    var (t, reading) := Call(platform, s);
    if reading.Received? && !t.blocking {
      CollectGoesOn(platform, t);
    }
  }

  lemma {:induction false} ReadAllGoesOn(platform: Platform, s: State)
    requires !s.blocking
    ensures ReadAll(platform, s).requests == [] || ReadAll(platform, s).script == []
    decreases |s.script|
  {
    if s.requests != [] && s.script != [] {
      ReadAllGoesOn(platform, ReadFront(platform, s));
    }
  }

  /** A handler without blocking stops only when no request is left or the script is used up; a
      blocking one makes exactly one call. */
  lemma HandlerGoesOn(platform: Platform, s: State)
    ensures var t := Handle(platform, s, DataAvailable);
      && (!s.blocking ==> t.requests == [] || t.script == [])
      && (s.blocking && s.requests != [] ==> t.script == if s.script == [] then [] else s.script[1..])
      && (s.requests == [] ==> t == s.(available := true))
  {
    var u := s.(available := true);
    CollectGoesOn(platform, u);
    if !s.blocking {
      ReadAllGoesOn(platform, u);
    }
  }

  /** `receiveAsync` calls the system at once exactly on Windows, with data known to be there. */
  lemma WhoReadsAtOnce(platform: Platform, s: State)
    requires s.script != []
    ensures Handle(platform, s, Async).script != s.script <==> platform == Windows && s.available
  {
  }
}
