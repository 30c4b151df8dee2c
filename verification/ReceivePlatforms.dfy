/** Where the receive handlers of the two platforms agree: as for sending, up to hidden failures. */
module ReceivePlatforms {
  import opened SocketTypes
  import opened ReceiveQueue

  // ---------------------------------------------------------------- reporting failures

  /** The errors requests were settled with, in order. */
  function Errors(settled: seq<Settled>): seq<ErrorCode> {
    if settled == [] then [] else Errors(settled[..|settled| - 1]) + ErrorOf(settled[|settled| - 1])
  }

  function ErrorOf(d: Settled): seq<ErrorCode> {
    if d.Error? then [d.error] else []
  }

  function FailureOf(reading: Reading): seq<ErrorCode> {
    if reading.Failed? then [reading.error] else []
  }

  lemma ErrorsAppend(settled: seq<Settled>, d: Settled)
    ensures Errors(settled + [d]) == Errors(settled) + ErrorOf(d)
  {
    assert (settled + [d])[..|settled|] == settled;
  }

  /** The bytes the answers grant, in order. */
  function Granted(answers: seq<Answer<Packet>>): seq<Byte> {
    if answers == [] then [] else GrantOf(answers[0]) + Granted(answers[1..])
  }

  function GrantOf(a: Answer<Packet>): seq<Byte> {
    if a.Grants? then a.grant else []
  }

  lemma {:induction false} GrantedConcat(a: seq<Answer<Packet>>, b: seq<Answer<Packet>>)
    ensures Granted(a + b) == Granted(a) + Granted(b)
  {
    if a == [] {
      assert a + b == b;
    } else {
      assert (a + b)[1..] == a[1..] + b;
      GrantedConcat(a[1..], b);
    }
  }

  /** From `s` to `t` everything granted in the answers used is received, and exactly the failures read in
      them, which are `codes`, were met. */
  ghost predicate Meets(platform: Platform, s: State, t: State, codes: seq<ErrorCode>) {
    && IsRest(t.script, s.script)
    && t.received == s.received + Granted(Used(s.script, t.script))
    && Failures(platform, Used(s.script, t.script)) == codes
  }

  lemma MeetsNothing(platform: Platform, s: State, t: State)
    requires t.script == s.script && t.received == s.received
    ensures Meets(platform, s, t, [])
  {
    assert Used(s.script, t.script) == [] && s.received + [] == s.received;
  }

  lemma MeetsTransitive(platform: Platform, s: State, t: State, u: State, a: seq<ErrorCode>, b: seq<ErrorCode>)
    requires Meets(platform, s, t, a) && Meets(platform, t, u, b)
    ensures Meets(platform, s, u, a + b)
  {
    hide Failures, Granted;
    UsedConcat(s.script, t.script, u.script);
    FailuresConcat(platform, Used(s.script, t.script), Used(t.script, u.script));
    GrantedConcat(Used(s.script, t.script), Used(t.script, u.script));
    hide Used, IsRest;
    assert s.received + (Granted(Used(s.script, t.script)) + Granted(Used(t.script, u.script))) == u.received;
  }

  lemma CallMeets(platform: Platform, s: State)
    ensures var (t, reading) := Call(platform, s); Meets(platform, s, t, FailureOf(reading))
  {
    var t := Call(platform, s).0;
    if s.script == [] {
      MeetsNothing(platform, s, t);
    } else {
      var a := s.script[0];
      OneFailure<Packet>(platform, a);
      assert Used(s.script, t.script) == [a] && [a][1..] == [];
      assert Granted([a]) == GrantOf(a) + [] == GrantOf(a);
      hide Failures, Granted;
      assert s.received + [] == s.received;
    }
  }

  lemma {:induction false} CollectMeets(platform: Platform, s: State)
    ensures var (t, end) := Collect(platform, s); Meets(platform, s, t, FailureOf(end))
    decreases |s.script|
  {
    hide Meets, Read;
    CallMeets(platform, s);
    var (t, reading) := Call(platform, s);
    if reading.Received? && !t.blocking {
      CollectMeets(platform, t);
      var (u, end) := Collect(platform, t);
      MeetsTransitive(platform, s, t, u, [], FailureOf(end));
      assert [] + FailureOf(end) == FailureOf(end);
    }
  }

  /** Besides, requests are settled with exactly these failures. */
  ghost predicate Reports(platform: Platform, s: State, t: State) {
    exists codes :: Meets(platform, s, t, codes) && Errors(t.settled) == Errors(s.settled) + codes
  }

  lemma ReportsNothing(platform: Platform, s: State, t: State)
    requires t.script == s.script && t.received == s.received && t.settled == s.settled
    ensures Reports(platform, s, t)
  {
    MeetsNothing(platform, s, t);
    assert Errors(s.settled) + [] == Errors(s.settled);
  }

  lemma ReportsTransitive(platform: Platform, s: State, t: State, u: State)
    requires Reports(platform, s, t) && Reports(platform, t, u)
    ensures Reports(platform, s, u)
  {
    hide Meets, Errors;
    var a :| Meets(platform, s, t, a) && Errors(t.settled) == Errors(s.settled) + a;
    var b :| Meets(platform, t, u, b) && Errors(u.settled) == Errors(t.settled) + b;
    MeetsTransitive(platform, s, t, u, a, b);
    assert Errors(s.settled) + (a + b) == Errors(u.settled);
  }

  lemma ReadFrontReports(platform: Platform, s: State)
    requires s.requests != []
    ensures Reports(platform, s, ReadFront(platform, s))
  {
    hide Collect, Errors, Failures, Granted;
    CollectMeets(platform, s);
    var (t, end) := Collect(platform, s);
    if end.Failed? {
      ErrorsAppend(s.settled, Error(t.requests[0], end.error, t.chunk));
    } else {
      ErrorsAppend(s.settled, Value(t.requests[0], t.chunk));
      assert Errors(s.settled) + [] == Errors(s.settled);
    }
    assert Meets(platform, s, ReadFront(platform, s), FailureOf(end));
  }

  lemma {:induction false} ReadAllReports(platform: Platform, s: State)
    ensures Reports(platform, s, ReadAll(platform, s))
    decreases |s.script|
  {
    hide Reports, ReadFront;
    if s.requests == [] {
      ReportsNothing(platform, s, s);
    } else {
      ReadFrontReports(platform, s);
      if !s.blocking && s.script != [] {
        var t := ReadFront(platform, s);
        ReadAllReports(platform, t);
        ReportsTransitive(platform, s, t, ReadAll(platform, t));
      }
    }
  }

  lemma {:induction false} RunReports(platform: Platform, s: State, events: seq<Event>)
    ensures Reports(platform, s, HandleAll(platform, s, events))
    decreases |events|
  {
    hide Reports, ReadFront, ReadAll;
    if events == [] {
      ReportsNothing(platform, s, s);
    } else {
      var t := Handle(platform, s, events[0]);
      match events[0] {
        case Async =>
          var u := Enqueue(s);
          ReportsNothing(platform, s, u);
          if platform == Windows && u.available {
            ReadFrontReports(platform, u);
            ReportsTransitive(platform, s, u, t);
          }
        case DataAvailable =>
          var u := s.(available := true);
          ReportsNothing(platform, s, u);
          ReadAllReports(platform, u);
          ReportsTransitive(platform, s, u, t);
        case SetBlocking(_) =>
          ReportsNothing(platform, s, t);
      }
      RunReports(platform, t, events[1..]);
      ReportsTransitive(platform, s, t, HandleAll(platform, t, events[1..]));
    }
  }

  /** Over every sequence of events the bytes received are exactly those the system granted, and the requests
      settled with errors are exactly the failures the platform reads in the answers it used: none is lost or
      invented, each keeps its code, and the order is kept. */
  lemma EveryAnswerIsHeeded(platform: Platform, s: State, events: seq<Event>)
    ensures var t := HandleAll(platform, s, events);
      && IsRest(t.script, s.script)
      && t.received == s.received + Granted(Used(s.script, t.script))
      && Errors(t.settled) == Errors(s.settled) + Failures(platform, Used(s.script, t.script))
  {
    hide Failures, Granted, Errors, HandleAll;
    RunReports(platform, s, events);
  }

  // ---------------------------------------------------------------- agreeing

  lemma SameReading(s: State)
    requires s.script == [] || Read(Windows, s.script[0]) == Read(Posix, s.script[0])
    ensures Call(Windows, s) == Call(Posix, s)
  {
    assert Read(Windows, WouldBlock) == Read(Posix, WouldBlock);
    hide Read;
  }

  lemma CallsAlike(s: State)
    ensures IsRest(Call(Posix, s).0.script, s.script)
    ensures Frank(Used(s.script, Call(Posix, s).0.script)) ==> Call(Windows, s) == Call(Posix, s)
  {
    hide Failures, Call;
    CallMeets(Posix, s);
    if Frank(Used(s.script, Call(Posix, s).0.script)) {
      if s.script != [] {
        assert Used(s.script, Call(Posix, s).0.script)[0] == s.script[0];
      }
      SameReading(s);
    }
  }

  lemma {:induction false} CollectAlike(s: State)
    requires Frank(Used(s.script, Collect(Posix, s).0.script))
    ensures Collect(Windows, s) == Collect(Posix, s)
    decreases |s.script|
  {
    hide Call, Frank;
    CallsAlike(s);
    var (t, reading) := Call(Posix, s);
    if reading.Received? && !t.blocking {
      var u := Collect(Posix, t).0;
      CollectMeets(Posix, t);
      UsedConcat(s.script, t.script, u.script);
      FrankParts(Used(s.script, t.script), Used(t.script, u.script));
      CollectAlike(t);
    }
  }

  lemma ReadFrontAlike(s: State)
    requires s.requests != [] && Frank(Used(s.script, ReadFront(Posix, s).script))
    ensures ReadFront(Windows, s) == ReadFront(Posix, s)
  {
    hide Frank, Collect;
    CollectAlike(s);
  }

  lemma {:induction false} ReadAllAlike(s: State)
    requires Frank(Used(s.script, ReadAll(Posix, s).script))
    ensures ReadAll(Windows, s) == ReadAll(Posix, s)
    decreases |s.script|
  {
    hide Frank, ReadFront, Used, IsRest, Failures, Errors;
    if s.requests != [] {
      var t, u := ReadFront(Posix, s), ReadAll(Posix, s);
      ReadFrontReports(Posix, s);
      if !s.blocking && s.script != [] {
        ReadAllReports(Posix, t);
        UsedConcat(s.script, t.script, u.script);
        FrankParts(Used(s.script, t.script), Used(t.script, u.script));
        ReadFrontAlike(s);
        ReadAllAlike(t);
      } else {
        ReadFrontAlike(s);
      }
    }
  }

  /** The two receive handlers leave the same requests, settled values, buffer and flags exactly when
      no failure that Posix meets on its way hides behind a zero length output. */
  lemma HandlersAgree(s: State)
    ensures |Handle(Posix, s, DataAvailable).script| <= |s.script|
    ensures Handle(Windows, s, DataAvailable) == Handle(Posix, s, DataAvailable)
       <==> Frank(Used(s.script, Handle(Posix, s, DataAvailable).script))
  {
    var u := s.(available := true);
    ReadAllReports(Windows, u);
    ReadAllReports(Posix, u);
    if ReadAll(Windows, u) == ReadAll(Posix, u) {
      SameFailures(Used(u.script, ReadAll(Posix, u).script));
    }
    if Frank(Used(u.script, ReadAll(Posix, u).script)) {
      ReadAllAlike(u);
    }
  }

  /** Such a failure behind some data: Posix settles the request with the error and loses the data,
      Windows delivers the data as if nothing more had come. */
  lemma FailureReadAsDry(s: State, bytes: Packet, e: ErrorCode)
    requires |s.requests| == 1 && s.chunk == [] && !s.blocking && bytes != []
    requires s.script == [Grants(bytes), Fails(e, 0)]
    ensures Handle(Posix, s, DataAvailable).settled == s.settled + [Error(s.requests[0], e, bytes)]
    ensures Handle(Windows, s, DataAvailable).settled == s.settled + [Value(s.requests[0], bytes)]
    ensures Handle(Posix, s, DataAvailable).requests == Handle(Windows, s, DataAvailable).requests == []
  {
    var u := s.(available := true);
    var v := u.(script := [Fails(e, 0)], chunk := bytes, received := s.received + bytes);
    assert s.script[1..] == [Fails(e, 0)] && v.script[1..] == [] && [] + bytes == bytes;
    assert Call(Posix, u) == Call(Windows, u) == (v, Received(bytes));
    assert Collect(Posix, u) == Collect(Posix, v) == (v.(script := []), Failed(e));
    assert Collect(Windows, u) == Collect(Windows, v) == (v.(script := [], available := false), Nothing);
    assert s.requests[1..] == [];
    var w, x := ReadFront(Posix, u), ReadFront(Windows, u);
    assert ReadAll(Posix, u) == ReadAll(Posix, w) == w && ReadAll(Windows, u) == ReadAll(Windows, x) == x;
  }
}
