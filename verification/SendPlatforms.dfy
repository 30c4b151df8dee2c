/**
 Where the send handlers of the two platforms agree. They read one kind of answer differently: a
 failure that leaves its length output at 0 is "would block" on Windows and an error on Posix.
 */
module SendPlatforms {
  import opened SocketTypes
  import opened SendQueue

  // ---------------------------------------------------------------- reporting failures

  /** The errors promises were settled with, in order. */
  function Errors(settled: seq<Settled>): seq<ErrorCode> {
    if settled == [] then [] else Errors(settled[..|settled| - 1]) + ErrorOf(settled[|settled| - 1].outcome)
  }

  function ErrorOf(outcome: Outcome): seq<ErrorCode> {
    if outcome.Error? then [outcome.error] else []
  }

  function FailureOf(reading: Reading): seq<ErrorCode> {
    if reading.Failed? then [reading.error] else []
  }

  lemma ErrorsAppend(settled: seq<Settled>, d: Settled)
    ensures Errors(settled + [d]) == Errors(settled) + ErrorOf(d.outcome)
  {
    assert (settled + [d])[..|settled|] == settled;
  }

  lemma CallReports(platform: Platform, s: State)
    requires Valid(s) && s.queue != []
    ensures var (t, reading) := Call(platform, s);
      && IsRest(t.script, s.script) && t.settled == s.settled
      && Failures(platform, Used(s.script, t.script)) == FailureOf(reading)
  {
    hide Failures;
    var t := Call(platform, s).0;
    OneFailure<nat>(platform, NextAnswer(s));
    if s.script != [] {
      assert Used(s.script, t.script) == [s.script[0]];
    } else {
      NoFailures(platform);
    }
  }

  lemma NoFailures(platform: Platform)
    ensures Failures<nat>(platform, []) == []
  {
  }

  /** From `s` to `t` exactly the failures read in the answers used are reported, in order. */
  ghost predicate Reports(platform: Platform, s: State, t: State) {
    && IsRest(t.script, s.script)
    && Errors(t.settled) == Errors(s.settled) + Failures(platform, Used(s.script, t.script))
  }

  lemma ReportsNothing(platform: Platform, s: State, t: State)
    requires t.script == s.script && t.settled == s.settled
    ensures Reports(platform, s, t)
  {
    assert Used(s.script, t.script) == [] && Errors(s.settled) + [] == Errors(s.settled);
  }

  lemma ReportsTransitive(platform: Platform, s: State, t: State, u: State)
    requires Reports(platform, s, t) && Reports(platform, t, u)
    ensures Reports(platform, s, u)
  {
    hide Failures, Errors;
    UsedConcat(s.script, t.script, u.script);
    FailuresConcat(platform, Used(s.script, t.script), Used(t.script, u.script));
    hide Used, IsRest;
    assert Errors(s.settled)
           + (Failures(platform, Used(s.script, t.script)) + Failures(platform, Used(t.script, u.script)))
        == Errors(u.settled);
  }

  lemma {:induction false} TransmitReports(platform: Platform, s: State)
    requires Valid(s) && s.queue != []
    ensures var (t, end) := Transmit(platform, s);
      && IsRest(t.script, s.script) && t.settled == s.settled
      && Failures(platform, Used(s.script, t.script)) == FailureOf(end)
    decreases |s.script|
  {
    hide Failures;
    CallReports(platform, s);
    var (t, reading) := Call(platform, s);
    if reading.Sent? && !t.blocking && t.queue[0].sent < |t.queue[0].data| {
      TransmitReports(platform, t);
      var u := Transmit(platform, t).0;
      UsedConcat(s.script, t.script, u.script);
      FailuresConcat(platform, Used(s.script, t.script), Used(t.script, u.script));
    }
  }

  lemma SettledErrors(t: State, outcome: Outcome)
    requires t.queue != []
    ensures Errors(Settle(t, outcome).settled) == Errors(t.settled) + ErrorOf(outcome)
    ensures Settle(t, outcome).script == t.script
  {
    ErrorsAppend(t.settled, Settled(t.queue[0].promise, t.queue[0].data, t.queue[0].sent, outcome));
  }

  lemma SendFrontReports(platform: Platform, s: State)
    requires Valid(s) && s.queue != []
    ensures Reports(platform, s, SendFront(platform, s))
  {
    hide Transmit, Failures, Errors, Settle, Valid;
    TransmitReports(platform, s);
    var (t, end) := Transmit(platform, s);
    if end.Failed? {
      SettledErrors(t, Error(end.error));
    } else if t.queue[0].sent == |t.queue[0].data| {
      SettledErrors(t, Success);
    }
    assert Errors(s.settled) + [] == Errors(s.settled);
  }

  lemma {:induction false} SendAllReports(platform: Platform, s: State)
    requires Valid(s)
    ensures Reports(platform, s, SendAll(platform, s))
    decreases |s.script|
  {
    hide Reports, SendFront;
    if s.queue == [] {
      ReportsNothing(platform, s, s);
    } else {
      SendFrontReports(platform, s);
      if !s.blocking && s.script != [] {
        var t := SendFront(platform, s);
        SendAllReports(platform, t);
        ReportsTransitive(platform, s, t, SendAll(platform, t));
      }
    }
  }

  /** Over every sequence of events the promises settled with errors are exactly the failures the platform
      reads in the answers it used: none is lost or invented, each keeps its code, and the order is kept. */
  lemma {:induction false} EveryFailureIsReported(platform: Platform, s: State, events: seq<Event>)
    requires Valid(s)
    ensures Reports(platform, s, HandleAll(platform, s, events))
    decreases |events|
  {
    hide Reports, SendFront, SendAll, Valid;
    if events == [] {
      ReportsNothing(platform, s, s);
    } else {
      var t := Handle(platform, s, events[0]);
      match events[0] {
        case Async(data) =>
          var u := Enqueue(s, data);
          ReportsNothing(platform, s, u);
          if platform == Windows && u.available {
            SendFrontReports(platform, u);
            ReportsTransitive(platform, s, u, t);
          }
        case BufferAvailable =>
          var u := s.(available := true);
          ReportsNothing(platform, s, u);
          OnlyAvailable(s);
          SendAllReports(platform, u);
          ReportsTransitive(platform, s, u, t);
        case SetBlocking(_) =>
          ReportsNothing(platform, s, t);
      }
      EveryFailureIsReported(platform, t, events[1..]);
      ReportsTransitive(platform, s, t, HandleAll(platform, t, events[1..]));
    }
  }

  lemma OnlyAvailable(s: State)
    requires Valid(s)
    ensures Valid(s.(available := true))
  {
  }

  // ---------------------------------------------------------------- agreeing

  lemma CallsAlike(s: State)
    requires Valid(s) && s.queue != []
    ensures IsRest(Call(Posix, s).0.script, s.script)
    ensures Frank(Used(s.script, Call(Posix, s).0.script)) ==> Call(Windows, s) == Call(Posix, s)
  {
    CallReports(Posix, s);
    if s.script != [] {
      assert Used(s.script, Call(Posix, s).0.script) == [s.script[0]];
      assert [s.script[0]][0] == s.script[0];
    }
  }

  lemma {:induction false} TransmitAlike(s: State)
    requires Valid(s) && s.queue != [] && Frank(Used(s.script, Transmit(Posix, s).0.script))
    ensures Transmit(Windows, s) == Transmit(Posix, s)
    decreases |s.script|
  {
    hide Call, Frank;
    CallsAlike(s);
    var (t, reading) := Call(Posix, s);
    if reading.Sent? && !t.blocking && t.queue[0].sent < |t.queue[0].data| {
      var u := Transmit(Posix, t).0;
      TransmitReports(Posix, t);
      UsedConcat(s.script, t.script, u.script);
      FrankParts(Used(s.script, t.script), Used(t.script, u.script));
      TransmitAlike(t);
    }
  }

  lemma SendFrontAlike(s: State)
    requires Valid(s) && s.queue != [] && Frank(Used(s.script, SendFront(Posix, s).script))
    ensures SendFront(Windows, s) == SendFront(Posix, s)
  {
    hide Frank, Transmit, Errors, Failures;
    TransmitAlike(s);
  }

  lemma {:induction false} SendAllAlike(s: State)
    requires Valid(s) && Frank(Used(s.script, SendAll(Posix, s).script))
    ensures SendAll(Windows, s) == SendAll(Posix, s)
    decreases |s.script|
  {
    hide Frank, SendFront, Used, Valid, Failures, Errors;
    if s.queue != [] {
      var t, u := SendFront(Posix, s), SendAll(Posix, s);
      SendFrontReports(Posix, s);
      if !s.blocking && s.script != [] {
        SendAllReports(Posix, t);
        UsedConcat(s.script, t.script, u.script);
        FrankParts(Used(s.script, t.script), Used(t.script, u.script));
        SendFrontAlike(s);
        SendAllAlike(t);
      } else {
        SendFrontAlike(s);
      }
    }
  }

  /** The two readings of the per-chunk handler come out the same (wire, promises, queue, progress
      and what is left of the script) exactly when no failure the Posix reading meets on its way
      hides behind a zero length output. */
  lemma AgreeIffFrank(s: State)
    requires Valid(s)
    ensures |SendAll(Posix, s).script| <= |s.script|
    ensures SendAll(Windows, s) == SendAll(Posix, s) <==> Frank(Used(s.script, SendAll(Posix, s).script))
  {
    SendAllReports(Windows, s);
    SendAllReports(Posix, s);
    if SendAll(Windows, s) == SendAll(Posix, s) {
      SameFailures(Used(s.script, SendAll(Posix, s).script));
    }
    if Frank(Used(s.script, SendAll(Posix, s).script)) {
      SendAllAlike(s);
    }
  }

  lemma RefusedCall(s: State)
    requires Valid(s) && s.queue != [] && s.queue[0].sent < |s.queue[0].data| && s.script == []
    ensures SendFront(Windows, s) == s.(available := false)
  {
    assert NextAnswer(s) == WouldBlock && Call(Windows, s) == (s.(available := false), Nothing);
  }

  lemma FailedCall(s: State, e: ErrorCode)
    requires Valid(s) && s.queue != [] && s.queue[0].sent < |s.queue[0].data| && s.script == [Fails(e, 0)]
    ensures SendFront(Posix, s) == Settle(s.(script := []), Error(e))
    ensures SendFront(Windows, s) == s.(script := [], available := false)
  {
    assert Rest(s) == s.(script := []);
    assert Call(Posix, s) == (Rest(s), Failed(e));
    assert Call(Windows, s) == (Rest(s).(available := false), Nothing);
  }

  /** Such a failure, met with one chunk waiting: Posix settles its promise with the error, Windows
      leaves the chunk waiting as if the buffer were full. */
  lemma FailureReadAsFull(s: State, e: ErrorCode)
    requires Valid(s) && |s.queue| == 1 && s.queue[0].sent < |s.queue[0].data| && s.script == [Fails(e, 0)]
    ensures var c := s.queue[0];
      && SendAll(Posix, s) == s.(script := [], queue := [],
                                 settled := s.settled + [Settled(c.promise, c.data, c.sent, Error(e))])
      && SendAll(Windows, s) == s.(script := [], available := false)
  {
    hide SendFront, Failures, Errors;
    FailedCall(s, e);
    assert s.queue[1..] == [];
    RefusedCall(SendFront(Windows, s));
  }
}
