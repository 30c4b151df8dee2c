/**
 Events and attributes: listeners that learn about a field only through their own queues.
 A connection may be repeated; a listener that no longer exists is skipped and forgotten.
 */
module Attribute {

  /** A queued delivery: a value sent by the event, or the read that a subscription asks for, done
      when it is taken from the queue. */
  datatype Delivery = Value(value: int) | ReadCurrent

  datatype Client = Client(alive: bool, queue: seq<Delivery>, seen: seq<int>)

  /** `notified` is the history of the values the event was fired with. */
  datatype State = State(field: int, listeners: seq<nat>, clients: seq<Client>, notified: seq<int>)

  ghost predicate Valid(s: State) {
    forall i :: 0 <= i < |s.listeners| ==> s.listeners[i] < |s.clients|
  }

  /** Push a value to one connection's client. */
  function Post(clients: seq<Client>, c: nat, v: int): (r: seq<Client>)
    requires c < |clients|
    ensures |r| == |clients|
  {
    if clients[c].alive then clients[c := clients[c].(queue := clients[c].queue + [Value(v)])] else clients
  }

  /** One push per connection, in the order of the connections. */
  function PostAll(clients: seq<Client>, listeners: seq<nat>, v: int): (r: seq<Client>)
    requires forall i :: 0 <= i < |listeners| ==> listeners[i] < |clients|
    ensures |r| == |clients|
  {
    if listeners == [] then clients
    else Post(PostAll(clients, listeners[..|listeners| - 1], v), listeners[|listeners| - 1], v)
  }

  /** `clearExpiredClient`. */
  function Live(clients: seq<Client>, listeners: seq<nat>): (r: seq<nat>)
    requires forall i :: 0 <= i < |listeners| ==> listeners[i] < |clients|
    ensures forall i :: 0 <= i < |r| ==> r[i] < |clients|
  {
    if listeners == [] then []
    else
      var last := listeners[|listeners| - 1];
      Live(clients, listeners[..|listeners| - 1]) + if clients[last].alive then [last] else []
  }

  /** Exactly the live connections survive. */
  lemma {:induction false} LiveMembers(clients: seq<Client>, listeners: seq<nat>, c: nat)
    requires forall i :: 0 <= i < |listeners| ==> listeners[i] < |clients|
    ensures c in Live(clients, listeners) <==> c in listeners && clients[c].alive
  {
    if listeners != [] {
      var front := listeners[..|listeners| - 1];
      LiveMembers(clients, front, c);
      assert listeners == front + [listeners[|listeners| - 1]];
    }
  }

  lemma LiveAppend(clients: seq<Client>, q: seq<nat>, c: nat)
    requires c < |clients| && forall i :: 0 <= i < |q| ==> q[i] < |clients|
    ensures Live(clients, q + [c]) == Live(clients, q) + if clients[c].alive then [c] else []
  {
    assert (q + [c])[..|q|] == q;
  }

  lemma {:induction false} LiveConcat(clients: seq<Client>, a: seq<nat>, b: seq<nat>)
    requires forall i :: 0 <= i < |a| ==> a[i] < |clients|
    requires forall i :: 0 <= i < |b| ==> b[i] < |clients|
    ensures Live(clients, a + b) == Live(clients, a) + Live(clients, b)
  {
    hide Live;
    if b == [] {
      NoneLive(clients);
      assert a + b == a;
    } else {
      var front, last := b[..|b| - 1], b[|b| - 1];
      assert b == front + [last] && a + b == (a + front) + [last];
      LiveConcat(clients, a, front);
      LiveAppend(clients, front, last);
      LiveAppend(clients, a + front, last);
    }
  }

  lemma NoneLive(clients: seq<Client>)
    ensures Live(clients, []) == []
  {
  }

  lemma LiveSkips(clients: seq<Client>, front: seq<nat>, c: nat)
    requires forall i :: 0 <= i < |front| ==> front[i] < |clients|
    requires c < |clients| && !clients[c].alive
    ensures Live(clients, front + [c]) == Live(clients, front)
  {
    LiveAppend(clients, front, c);
  }

  /** Erasing an expired connection keeps the live ones, in order. */
  lemma LiveErase(clients: seq<Client>, front: seq<nat>, c: nat, rest: seq<nat>)
    requires forall i :: 0 <= i < |front| ==> front[i] < |clients|
    requires forall i :: 0 <= i < |rest| ==> rest[i] < |clients|
    requires c < |clients| && !clients[c].alive
    ensures Live(clients, front + rest) == Live(clients, front + [c] + rest)
  {
    hide Live;
    LiveConcat(clients, front, rest);
    LiveConcat(clients, front + [c], rest);
    LiveSkips(clients, front, c);
  }

  function EraseAt(s: seq<nat>, k: nat): seq<nat>
    requires k < |s|
  {
    s[..k] + s[k + 1..]
  }

  lemma EraseAtPlaces(s: seq<nat>, k: nat)
    requires k < |s|
    ensures var r := EraseAt(s, k);
      |r| == |s| - 1 && forall i :: 0 <= i < |r| ==> r[i] == if i < k then s[i] else s[i + 1]
  {
  }

  lemma LiveEraseAt(clients: seq<Client>, listeners: seq<nat>, k: nat)
    requires k < |listeners| && forall i :: 0 <= i < |listeners| ==> listeners[i] < |clients|
    requires !clients[listeners[k]].alive
    ensures var r := EraseAt(listeners, k);
      && |r| == |listeners| - 1
      && (forall i :: 0 <= i < |r| ==> r[i] == if i < k then listeners[i] else listeners[i + 1])
      && (forall i :: 0 <= i < |r| ==> r[i] < |clients|)
      && Live(clients, r) == Live(clients, listeners)
  {
    hide Live;
    EraseAtPlaces(listeners, k);
    assert listeners == listeners[..k] + [listeners[k]] + listeners[k + 1..];
    LiveErase(clients, listeners[..k], listeners[k], listeners[k + 1..]);
  }

  lemma {:induction false} LiveAll(clients: seq<Client>, listeners: seq<nat>)
    requires forall i :: 0 <= i < |listeners| ==> listeners[i] < |clients| && clients[listeners[i]].alive
    ensures Live(clients, listeners) == listeners
  {
    if listeners != [] {
      LiveAll(clients, listeners[..|listeners| - 1]);
    }
  }

  /** `disconnect` of one client: every connection of it, and every expired one. */
  function Without(clients: seq<Client>, listeners: seq<nat>, c: nat): (r: seq<nat>)
    requires forall i :: 0 <= i < |listeners| ==> listeners[i] < |clients|
    ensures forall i :: 0 <= i < |r| ==> r[i] in listeners && r[i] != c && r[i] < |clients| && clients[r[i]].alive
    ensures forall d :: d in listeners && d != c && clients[d].alive ==> d in r
  {
    if listeners == [] then []
    else
      var last := listeners[|listeners| - 1];
      Without(clients, listeners[..|listeners| - 1], c)
      + if clients[last].alive && last != c then [last] else []
  }

  /** `Event::operator()`. */
  function Fire(s: State, v: int): (t: State)
    requires Valid(s)
    ensures Valid(t)
  {
    var clients := PostAll(s.clients, s.listeners, v);
    AliveUnchanged(s.clients, s.listeners, v);
    s.(clients := clients, listeners := Live(clients, s.listeners), notified := s.notified + [v])
  }

  datatype Action =
    | SetValue(value: int)
    | Subscribe(client: nat)
    | Unsubscribe(client: nat)
    | Deliver(client: nat)
    | Expire(client: nat)

  /** A queued read keeps its client alive; a queued value does not. */
  predicate Enabled(s: State, a: Action) {
    match a
    case SetValue(_) => true
    case Subscribe(c) => c < |s.clients| && s.clients[c].alive
    case Unsubscribe(c) => c < |s.clients| && s.clients[c].alive
    case Deliver(c) => c < |s.clients| && s.clients[c].queue != []
    case Expire(c) => c < |s.clients| && ReadCurrent !in s.clients[c].queue
  }

  function Take(k: Client, field: int): Client
    requires k.queue != []
  {
    var rest := k.(queue := k.queue[1..]);
    match k.queue[0]
    case Value(v) => if k.alive then rest.(seen := rest.seen + [v]) else rest
    case ReadCurrent => rest.(seen := rest.seen + [field])
  }

  function Apply(s: State, a: Action): (t: State)
    requires Valid(s) && Enabled(s, a)
    ensures Valid(t)
  {
    match a
    case SetValue(v) => if s.field == v then s else Fire(s.(field := v), v)
    case Subscribe(c) =>
      var k := s.clients[c];
      s.(listeners := s.listeners + [c], clients := s.clients[c := k.(queue := k.queue + [ReadCurrent])])
    case Unsubscribe(c) => s.(listeners := Without(s.clients, s.listeners, c))
    case Deliver(c) => s.(clients := s.clients[c := Take(s.clients[c], s.field)])
    case Expire(c) => s.(clients := s.clients[c := s.clients[c].(alive := false)])
  }

  // ---------------------------------------------------------------- what a firing does

  lemma {:induction false} AliveUnchanged(clients: seq<Client>, listeners: seq<nat>, v: int)
    requires forall i :: 0 <= i < |listeners| ==> listeners[i] < |clients|
    ensures forall c :: 0 <= c < |clients| ==> PostAll(clients, listeners, v)[c].alive == clients[c].alive
  {
    if listeners != [] {
      AliveUnchanged(clients, listeners[..|listeners| - 1], v);
    }
  }

  function Times(listeners: seq<nat>, c: nat): nat {
    if listeners == [] then 0
    else Times(listeners[..|listeners| - 1], c) + if listeners[|listeners| - 1] == c then 1 else 0
  }

  /** A firing adds to the queue of a live client one value per connection it has, and changes
      nothing else of any client. */
  lemma {:induction false} OncePerConnection(clients: seq<Client>, listeners: seq<nat>, v: int, c: nat)
    requires forall i :: 0 <= i < |listeners| ==> listeners[i] < |clients|
    requires c < |clients|
    ensures PostAll(clients, listeners, v)[c] ==
      clients[c].(queue := clients[c].queue
                           + if clients[c].alive then seq(Times(listeners, c), _ => Value(v)) else [])
  {
    if listeners == [] {
      assert clients[c].queue + [] == clients[c].queue;
    } else {
      var front := listeners[..|listeners| - 1];
      OncePerConnection(clients, front, v, c);
      AliveUnchanged(clients, front, v);
      if listeners[|listeners| - 1] == c && clients[c].alive {
        assert seq(Times(front, c), _ => Value(v)) + [Value(v)] == seq(Times(listeners, c), _ => Value(v));
        assert clients[c].queue + seq(Times(front, c), _ => Value(v)) + [Value(v)]
            == clients[c].queue + seq(Times(listeners, c), _ => Value(v));
      }
    }
  }

  lemma {:induction false} TimesIn(listeners: seq<nat>, c: nat)
    ensures Times(listeners, c) > 0 <==> c in listeners
  {
    if listeners != [] {
      TimesIn(listeners[..|listeners| - 1], c);
      assert listeners == listeners[..|listeners| - 1] + [listeners[|listeners| - 1]];
    }
  }

  // ---------------------------------------------------------------- convergence

  function Last<T>(s: seq<T>): T
    requires s != []
  {
    s[|s| - 1]
  }

  /** What a connected client will have seen last once its queue is drained is the field. */
  ghost predicate UpToDate(s: State, c: nat)
    requires c < |s.clients|
  {
    var k := s.clients[c];
    if k.queue == [] then k.seen != [] && Last(k.seen) == s.field
    else Last(k.queue) in {ReadCurrent, Value(s.field)}
  }

  ghost predicate Converged(s: State) {
    && Valid(s)
    && (forall c :: 0 <= c < |s.clients| && c in s.listeners && s.clients[c].alive ==> UpToDate(s, c))
    && (s.notified != [] ==> Last(s.notified) == s.field)
    && (forall i :: 0 <= i < |s.notified| - 1 ==> s.notified[i] != s.notified[i + 1])
  }

  lemma FireConverges(s: State, v: int)
    requires Converged(s) && s.field != v
    ensures Converged(Fire(s.(field := v), v))
  {
    var t := Fire(s.(field := v), v);
    forall c | 0 <= c < |t.clients| && c in t.listeners && t.clients[c].alive ensures UpToDate(t, c) {
      OncePerConnection(s.clients, s.listeners, v, c);
      LiveMembers(PostAll(s.clients, s.listeners, v), s.listeners, c);
      TimesIn(s.listeners, c);
    }
  }

  lemma StepConverges(s: State, a: Action)
    requires Converged(s) && Enabled(s, a)
    ensures Converged(Apply(s, a))
  {
    var t := Apply(s, a);
    if a.SetValue? {
      if s.field != a.value {
        FireConverges(s, a.value);
      }
    } else {
      forall c | 0 <= c < |t.clients| && c in t.listeners && t.clients[c].alive ensures UpToDate(t, c) {
        assert c in s.listeners && s.clients[c].alive ==> UpToDate(s, c);
        if a.Deliver? && a.client == c {
          assert Last(s.clients[c].queue) == if |s.clients[c].queue| == 1 then s.clients[c].queue[0]
                                             else Last(s.clients[c].queue[1..]);
        }
      }
    }
  }

  ghost predicate Legal(s: State, run: seq<Action>)
    requires Valid(s)
    decreases |run|
  {
    run != [] ==> Enabled(s, run[0]) && Legal(Apply(s, run[0]), run[1..])
  }

  function Execute(s: State, run: seq<Action>): State
    requires Valid(s) && Legal(s, run)
    decreases |run|
  {
    if run == [] then s else Execute(Apply(s, run[0]), run[1..])
  }

  /** Attribute convergence: over any interleaving of `setValue`, subscriptions and client steps,
      a connected client with a drained queue has seen the current value last; and consecutive
      notifications always carry different values, the last one the current value. */
  lemma {:induction false} AttributeConverges(s: State, run: seq<Action>)
    requires Converged(s) && Legal(s, run)
    ensures var t := Execute(s, run);
      && (forall c :: 0 <= c < |t.clients| && c in t.listeners && t.clients[c].alive && t.clients[c].queue == [] ==>
            t.clients[c].seen != [] && Last(t.clients[c].seen) == t.field)
      && (t.notified != [] ==> Last(t.notified) == t.field)
      && (forall i :: 0 <= i < |t.notified| - 1 ==> t.notified[i] != t.notified[i + 1])
    decreases |run|
  {
    if run != [] {
      StepConverges(s, run[0]);
      AttributeConverges(Apply(s, run[0]), run[1..]);
    } else {
      forall c | 0 <= c < |s.clients| && c in s.listeners && s.clients[c].alive && s.clients[c].queue == []
        ensures s.clients[c].seen != [] && Last(s.clients[c].seen) == s.field
      {
        assert UpToDate(s, c);
      }
    }
  }

  // ---------------------------------------------------------------- what a subscription may show

  /** Deliveries the client takes over the run. */
  function Taken(run: seq<Action>, c: nat): nat {
    if run == [] then 0 else (if run[0] == Deliver(c) then 1 else 0) + Taken(run[1..], c)
  }

  /** The values the field changes to over the run while the client is connected. */
  function Sent(s: State, run: seq<Action>, c: nat): seq<int>
    requires Valid(s) && Legal(s, run)
    decreases |run|
  {
    if run == [] then []
    else SentBy(s, run[0], c) + Sent(Apply(s, run[0]), run[1..], c)
  }

  function SentBy(s: State, a: Action, c: nat): seq<int> {
    if a.SetValue? && s.field != a.value && c in s.listeners then [a.value] else []
  }

  /** The read of a subscription waits in place `k`; behind it are exactly the values `sent`. */
  ghost predicate AwaitsIn(q: seq<Delivery>, k: nat, sent: seq<int>) {
    k < |q| && q[k] == ReadCurrent && forall v :: Value(v) in q[k + 1..] <==> v in sent
  }

  ghost predicate Awaits(s: State, c: nat, k: nat, sent: seq<int>) {
    c < |s.clients| && s.clients[c].alive && AwaitsIn(s.clients[c].queue, k, sent)
  }

  lemma SubscribeAwaits(s: State, c: nat)
    requires Valid(s) && Enabled(s, Subscribe(c))
    ensures Awaits(Apply(s, Subscribe(c)), c, |s.clients[c].queue|, [])
    ensures c in Apply(s, Subscribe(c)).listeners
  {
    assert (s.listeners + [c])[|s.listeners|] == c;
  }

  lemma BehindValues(q: seq<Delivery>, k: nat, sent: seq<int>, v: int, n: nat)
    requires AwaitsIn(q, k, sent)
    ensures AwaitsIn(q + seq(n, _ => Value(v)), k, sent + if n > 0 then [v] else [])
  {
    var more := seq(n, _ => Value(v));
    assert (q + more)[k + 1..] == q[k + 1..] + more;
    assert n > 0 ==> more[0] == Value(v);
  }

  lemma BehindRead(q: seq<Delivery>, k: nat, sent: seq<int>)
    requires AwaitsIn(q, k, sent)
    ensures AwaitsIn(q + [ReadCurrent], k, sent)
  {
    assert (q + [ReadCurrent])[k + 1..] == q[k + 1..] + [ReadCurrent];
  }

  lemma BehindTaken(q: seq<Delivery>, k: nat, sent: seq<int>)
    requires AwaitsIn(q, k, sent) && k > 0
    ensures AwaitsIn(q[1..], k - 1, sent)
  {
    assert q[1..][k..] == q[k + 1..];
  }

  lemma StepAwaits(s: State, a: Action, c: nat, k: nat, sent: seq<int>)
    requires Valid(s) && Enabled(s, a) && Awaits(s, c, k, sent) && (a == Deliver(c) ==> k > 0)
    ensures Awaits(Apply(s, a), c, if a == Deliver(c) then k - 1 else k, sent + SentBy(s, a, c))
  {
    hide AwaitsIn;
    var q := s.clients[c].queue;
    assert sent + [] == sent;
    match a
    case SetValue(v) =>
      if s.field != v {
        OncePerConnection(s.clients, s.listeners, v, c);
        TimesIn(s.listeners, c);
        BehindValues(q, k, sent, v, Times(s.listeners, c));
      }
    case Subscribe(_) => BehindRead(q, k, sent);
    case Deliver(d) =>
      if d == c {
        BehindTaken(q, k, sent);
      }
    case Expire(_) => ReadIsQueued(q, k, sent);
    case _ =>
  }

  lemma ReadIsQueued(q: seq<Delivery>, k: nat, sent: seq<int>)
    requires AwaitsIn(q, k, sent)
    ensures k < |q| && q[k] == ReadCurrent && ReadCurrent in q
  {
  }

  lemma {:induction false} RunAwaits(s: State, run: seq<Action>, c: nat, k: nat, sent: seq<int>)
    requires Valid(s) && Legal(s, run) && Awaits(s, c, k, sent) && Taken(run, c) <= k
    ensures Awaits(Execute(s, run), c, k - Taken(run, c), sent + Sent(s, run, c))
    decreases |run|
  {
    hide Apply, Enabled, AwaitsIn, SentBy;
    if run == [] {
      assert sent + [] == sent;
    } else {
      var a := run[0];
      StepAwaits(s, a, c, k, sent);
      RunAwaits(Apply(s, a), run[1..], c, if a == Deliver(c) then k - 1 else k, sent + SentBy(s, a, c));
      assert sent + SentBy(s, a, c) + Sent(Apply(s, a), run[1..], c) == sent + Sent(s, run, c);
    }
  }

  lemma StepStaysConnected(s: State, a: Action, c: nat)
    requires Valid(s) && Enabled(s, a) && c in s.listeners && s.clients[c].alive && a != Unsubscribe(c)
    ensures c in Apply(s, a).listeners
    ensures Apply(s, a).notified == s.notified + SentBy(s, a, c)
  {
    if a.SetValue? && s.field != a.value {
      AliveUnchanged(s.clients, s.listeners, a.value);
      LiveMembers(PostAll(s.clients, s.listeners, a.value), s.listeners, c);
    }
    assert s.notified + [] == s.notified;
  }

  /** As long as the client stays connected, it is sent every notification. */
  lemma {:induction false} ConnectedIsSentAll(s: State, run: seq<Action>, c: nat, k: nat, sent: seq<int>)
    requires Valid(s) && Legal(s, run) && Awaits(s, c, k, sent) && Taken(run, c) <= k
    requires c in s.listeners && Unsubscribe(c) !in run
    ensures Execute(s, run).notified == s.notified + Sent(s, run, c)
    decreases |run|
  {
    hide Apply, Enabled, AwaitsIn, SentBy;
    if run == [] {
      assert s.notified + [] == s.notified;
    } else {
      var a, t := run[0], Apply(s, run[0]);
      StepAwaits(s, a, c, k, sent);
      StepStaysConnected(s, a, c);
      ConnectedIsSentAll(t, run[1..], c, if a == Deliver(c) then k - 1 else k, sent + SentBy(s, a, c));
      assert s.notified + SentBy(s, a, c) + Sent(t, run[1..], c) == s.notified + Sent(s, run, c);
    }
  }

  /** The read at the front of the queue will show a value before another one that led to it. */
  predicate Overtakes(s: State, c: nat)
    requires c < |s.clients| && s.clients[c].queue != []
  {
    s.clients[c].queue[0] == ReadCurrent
    && exists i :: 0 < i < |s.clients[c].queue|
                   && s.clients[c].queue[i].Value? && s.clients[c].queue[i].value != s.field
  }

  /** Subscribe, then run until everything queued before the subscription's read is taken, so that
      the read is next. It will overtake another value exactly when, while the client was connected,
      the field was set to some value it does not have any more. */
  lemma ReadOvertakes(s: State, c: nat, run: seq<Action>)
    requires Valid(s) && Enabled(s, Subscribe(c)) && Legal(Apply(s, Subscribe(c)), run)
    requires Taken(run, c) == |s.clients[c].queue|
    ensures var t := Execute(Apply(s, Subscribe(c)), run);
      && c < |t.clients| && t.clients[c].queue != [] && t.clients[c].queue[0] == ReadCurrent
      && (Overtakes(t, c) <==> exists v :: v in Sent(Apply(s, Subscribe(c)), run, c) && v != t.field)
  {
    hide Apply, SentBy, Legal, Execute;
    var u := Apply(s, Subscribe(c));
    SubscribeAwaits(s, c);
    RunAwaits(u, run, c, |s.clients[c].queue|, []);
    var t, sent := Execute(u, run), Sent(u, run, c);
    assert [] + sent == sent;
    OvertakenBehind(t, c, sent);
  }

  lemma OvertakenBehind(t: State, c: nat, sent: seq<int>)
    requires Awaits(t, c, 0, sent)
    ensures Overtakes(t, c) <==> exists v :: v in sent && v != t.field
  {
    var q := t.clients[c].queue;
    if v :| v in sent && v != t.field {
      assert Value(v) in q[1..];
      var i :| 0 <= i < |q[1..]| && q[1..][i] == Value(v);
      assert q[i + 1] == Value(v);
    }
    if Overtakes(t, c) {
      var i :| 0 < i < |q| && q[i].Value? && q[i].value != t.field;
      assert q[1..][i - 1] == Value(q[i].value);
    }
  }

  /** For a client that stays connected: exactly when the field changed at least twice since it
      subscribed. One change is read as what it is; the second makes the first one come late. */
  lemma ReadOvertakesAfterTwoChanges(s: State, c: nat, run: seq<Action>)
    requires Converged(s) && Enabled(s, Subscribe(c)) && Legal(Apply(s, Subscribe(c)), run)
    requires Taken(run, c) == |s.clients[c].queue| && Unsubscribe(c) !in run
    ensures var t := Execute(Apply(s, Subscribe(c)), run);
      && c < |t.clients| && t.clients[c].queue != []
      && (Overtakes(t, c) <==> |t.notified| >= |s.notified| + 2)
  {
    hide Sent, Awaits, PostAll, Live, Without;
    var u := Apply(s, Subscribe(c));
    SubscribeAwaits(s, c);
    ReadOvertakes(s, c, run);
    ConnectedIsSentAll(u, run, c, |s.clients[c].queue|, []);
    StepConverges(s, Subscribe(c));
    AttributeConverges(u, run);
    StaleAmong(s.notified, Sent(u, run, c), Execute(u, run).notified, Execute(u, run).field);
  }

  /** Of notifications that never repeat, all but the last may be stale, and the last one is not. */
  lemma StaleAmong(before: seq<int>, sent: seq<int>, all: seq<int>, current: int)
    requires all == before + sent && (all != [] ==> Last(all) == current)
    requires forall i :: 0 <= i < |all| - 1 ==> all[i] != all[i + 1]
    ensures (exists v :: v in sent && v != current) <==> |sent| >= 2
  {
    var n := |sent|;
    if n >= 2 {
      assert all[|all| - 2] == sent[n - 2] && sent[n - 2] in sent;
    } else if n == 1 {
      assert all[|all| - 1] == sent[0];
    }
  }

  lemma TimesAppend(q: seq<nat>, d: nat, c: nat)
    ensures Times(q + [d], c) == Times(q, c) + if d == c then 1 else 0
  {
    assert (q + [d])[..|q|] == q;
  }

  lemma {:induction false} TimesLive(clients: seq<Client>, listeners: seq<nat>, c: nat)
    requires forall i :: 0 <= i < |listeners| ==> listeners[i] < |clients|
    requires c < |clients| && clients[c].alive
    ensures Times(Live(clients, listeners), c) == Times(listeners, c)
  {
    if listeners != [] {
      var front, last := listeners[..|listeners| - 1], listeners[|listeners| - 1];
      TimesLive(clients, front, c);
      TimesAppend(Live(clients, front), last, c);
      assert Live(clients, front) + [] == Live(clients, front);
    }
  }

  lemma ChangeReachesOnce(s: State, c: nat, v: int)
    requires Valid(s) && c < |s.clients| && s.clients[c].alive && Times(s.listeners, c) == 1 && s.field != v
    ensures var t := Apply(s, SetValue(v));
      && |t.clients| == |s.clients| && t.field == v && Times(t.listeners, c) == 1
      && t.clients[c] == s.clients[c].(queue := s.clients[c].queue + [Value(v)])
  {
    OncePerConnection(s.clients, s.listeners, v, c);
    AliveUnchanged(s.clients, s.listeners, v);
    TimesLive(PostAll(s.clients, s.listeners, v), s.listeners, c);
    assert seq(1, _ => Value(v)) == [Value(v)];
  }

  lemma DrainedInOrder(s: State, c: nat, a: int, b: int)
    requires Valid(s) && c < |s.clients| && s.clients[c].alive && s.field == b
    requires s.clients[c].queue == [ReadCurrent, Value(a), Value(b)]
    ensures Legal(s, [Deliver(c), Deliver(c), Deliver(c)])
    ensures var t := Execute(s, [Deliver(c), Deliver(c), Deliver(c)]);
      c < |t.clients| && t.clients[c].seen == s.clients[c].seen + [b, a, b]
  {
    var s1 := Apply(s, Deliver(c));
    var s2 := Apply(s1, Deliver(c));
    var s3 := Apply(s2, Deliver(c));
    assert s1.clients[c].queue == [Value(a), Value(b)] && s2.clients[c].queue == [Value(b)];
    Prefixed(s2, Deliver(c), []);
    Prefixed(s1, Deliver(c), [Deliver(c)]);
    Prefixed(s, Deliver(c), [Deliver(c), Deliver(c)]);
    assert s3.clients[c].seen == s.clients[c].seen + [b, a, b];
  }

  lemma Prefixed(s: State, a: Action, rest: seq<Action>)
    requires Valid(s) && Enabled(s, a) && Legal(Apply(s, a), rest)
    ensures Legal(s, [a] + rest) && Execute(s, [a] + rest) == Execute(Apply(s, a), rest)
  {
    assert ([a] + rest)[1..] == rest;
  }

  /** Such a run: subscribe, two changes, and the client sees the last value, the one before it,
      and the last one again. */
  lemma ReadOvertakesValues(s: State, c: nat, a: int, b: int)
    requires Valid(s) && Enabled(s, Subscribe(c)) && c !in s.listeners && s.clients[c].queue == []
    requires s.field != a && a != b
    ensures var run := [Subscribe(c), SetValue(a), SetValue(b), Deliver(c), Deliver(c), Deliver(c)];
      Legal(s, run) && c < |Execute(s, run).clients|
      && Execute(s, run).clients[c].seen == s.clients[c].seen + [b, a, b]
  {
    hide PostAll, Live, Fire;
    var deliver := [Deliver(c), Deliver(c), Deliver(c)];
    var s1 := Apply(s, Subscribe(c));
    TimesIn(s.listeners, c);
    TimesAppend(s.listeners, c, c);
    ChangeReachesOnce(s1, c, a);
    var s2 := Apply(s1, SetValue(a));
    ChangeReachesOnce(s2, c, b);
    var s3 := Apply(s2, SetValue(b));
    assert s3.clients[c].queue == [ReadCurrent, Value(a), Value(b)];
    DrainedInOrder(s3, c, a, b);
    Prefixed(s2, SetValue(b), deliver);
    Prefixed(s1, SetValue(a), [SetValue(b)] + deliver);
    Prefixed(s, Subscribe(c), [SetValue(a)] + ([SetValue(b)] + deliver));
    assert [Subscribe(c)] + ([SetValue(a)] + ([SetValue(b)] + deliver))
        == [Subscribe(c), SetValue(a), SetValue(b), Deliver(c), Deliver(c), Deliver(c)];
  }

  // ---------------------------------------------------------------- who hears nothing

  lemma ExpiredStep(s: State, a: Action, c: nat)
    requires Valid(s) && Enabled(s, a) && c < |s.clients| && !s.clients[c].alive && ReadCurrent !in s.clients[c].queue
    ensures var k := Apply(s, a).clients[c];
      !k.alive && ReadCurrent !in k.queue && k.seen == s.clients[c].seen && |k.queue| <= |s.clients[c].queue|
  {
    if a.SetValue? && s.field != a.value {
      OncePerConnection(s.clients, s.listeners, a.value, c);
    }
  }

  /** Nothing is called on a client that no longer exists: whatever is still queued for it is dropped. */
  lemma {:induction false} ExpiredSeesNothing(s: State, run: seq<Action>, c: nat)
    requires Valid(s) && Legal(s, run)
    requires c < |s.clients| && !s.clients[c].alive && ReadCurrent !in s.clients[c].queue
    ensures |Execute(s, run).clients| == |s.clients|
    ensures !Execute(s, run).clients[c].alive && Execute(s, run).clients[c].seen == s.clients[c].seen
    decreases |run|
  {
    hide Apply, Enabled;
    if run != [] {
      ExpiredStep(s, run[0], c);
      SameClients(s, run[0]);
      ExpiredSeesNothing(Apply(s, run[0]), run[1..], c);
    }
  }

  /** A firing forgets the connections of expired clients, and an unsubscription as well. */
  lemma ExpiredAreForgotten(s: State, a: Action, c: nat)
    requires Valid(s) && Enabled(s, a) && c < |s.clients| && !s.clients[c].alive
    requires (a.SetValue? && a.value != s.field) || a.Unsubscribe?
    ensures c !in Apply(s, a).listeners
  {
    if a.SetValue? {
      AliveUnchanged(s.clients, s.listeners, a.value);
      LiveMembers(PostAll(s.clients, s.listeners, a.value), s.listeners, c);
    }
  }

  lemma SameClients(s: State, a: Action)
    requires Valid(s) && Enabled(s, a)
    ensures |Apply(s, a).clients| == |s.clients|
  {
  }

  lemma UnconnectedStep(s: State, a: Action, c: nat)
    requires Valid(s) && Enabled(s, a) && c < |s.clients| && c !in s.listeners && a != Subscribe(c)
    ensures |Apply(s, a).clients| == |s.clients| && c !in Apply(s, a).listeners
    ensures Apply(s, a).clients[c].queue == if a == Deliver(c) then s.clients[c].queue[1..] else s.clients[c].queue
  {
    if a.SetValue? && s.field != a.value {
      OncePerConnection(s.clients, s.listeners, a.value, c);
      TimesIn(s.listeners, c);
      AliveUnchanged(s.clients, s.listeners, a.value);
      LiveMembers(PostAll(s.clients, s.listeners, a.value), s.listeners, c);
      assert s.clients[c].queue + [] == s.clients[c].queue;
    }
  }

  lemma {:induction false} UnconnectedHearsNothing(s: State, run: seq<Action>, c: nat)
    requires Valid(s) && Legal(s, run) && c < |s.clients| && c !in s.listeners && Subscribe(c) !in run
    ensures |Execute(s, run).clients| == |s.clients| && Taken(run, c) <= |s.clients[c].queue|
    ensures Execute(s, run).clients[c].queue == s.clients[c].queue[Taken(run, c)..]
    decreases |run|
  {
    hide Apply;
    if run != [] {
      assert run[0] in run && Subscribe(c) !in run[1..];
      UnconnectedStep(s, run[0], c);
      UnconnectedHearsNothing(Apply(s, run[0]), run[1..], c);
    }
  }

  /** After a client has unsubscribed, and until it subscribes again, nothing more is queued for it: it only
      takes what was queued before. */
  lemma UnsubscribedHearsNothing(s: State, c: nat, run: seq<Action>)
    requires Valid(s) && Enabled(s, Unsubscribe(c)) && Legal(Apply(s, Unsubscribe(c)), run) && Subscribe(c) !in run
    ensures var t := Execute(Apply(s, Unsubscribe(c)), run);
      c < |t.clients| && Taken(run, c) <= |s.clients[c].queue|
      && t.clients[c].queue == s.clients[c].queue[Taken(run, c)..]
  {
    UnconnectedHearsNothing(Apply(s, Unsubscribe(c)), run, c);
  }

  lemma WithoutAppend(clients: seq<Client>, q: seq<nat>, x: nat, c: nat)
    requires x < |clients| && forall i :: 0 <= i < |q| ==> q[i] < |clients|
    ensures Without(clients, q + [x], c) ==
      if clients[x].alive && x != c then Without(clients, q, c) + [x] else Without(clients, q, c)
  {
    assert (q + [x])[..|q|] == q;
    assert Without(clients, q, c) + [] == Without(clients, q, c);
  }

  lemma NoneWithout(clients: seq<Client>, c: nat, d: nat)
    ensures Without(clients, [], c) == [] && Times([], d) == 0
  {
  }

  /** An unsubscription removes every connection of its client and none of any other live one. */
  lemma {:induction false} UnsubscribeTakesItsOwn(clients: seq<Client>, listeners: seq<nat>, c: nat, d: nat)
    requires forall i :: 0 <= i < |listeners| ==> listeners[i] < |clients|
    requires d < |clients| && clients[d].alive
    ensures Times(Without(clients, listeners, c), d) == if d == c then 0 else Times(listeners, d)
  {
    hide Times, Without;
    if listeners == [] {
      NoneWithout(clients, c, d);
    } else {
      var front, last := listeners[..|listeners| - 1], listeners[|listeners| - 1];
      assert listeners == front + [last];
      UnsubscribeTakesItsOwn(clients, front, c, d);
      WithoutAppend(clients, front, last, c);
      TimesAppend(Without(clients, front, c), last, d);
      TimesAppend(front, last, d);
    }
  }

  // ---------------------------------------------------------------- the attribute seen from one client

  function FieldAfter(field: int, a: Action): int {
    if a.SetValue? then a.value else field
  }

  function ConnectionsAfter(connections: nat, a: Action, c: nat): nat {
    if a == Subscribe(c) then connections + 1 else if a == Unsubscribe(c) then 0 else connections
  }

  /** A change is a value for each connection of the client, a subscription of its own is a read. */
  function QueuedBy(field: int, connections: nat, a: Action, c: nat): seq<Delivery> {
    if a.SetValue? && a.value != field then seq(connections, _ => Value(a.value))
    else if a == Subscribe(c) then [ReadCurrent]
    else []
  }

  /** What a run queues for client `c`, told from the run alone. */
  function QueuedFor(field: int, connections: nat, run: seq<Action>, c: nat): seq<Delivery>
    decreases |run|
  {
    if run == [] then []
    else QueuedBy(field, connections, run[0], c)
         + QueuedFor(FieldAfter(field, run[0]), ConnectionsAfter(connections, run[0], c), run[1..], c)
  }

  /** The values the field has when client `c` takes its deliveries. */
  function FieldAt(field: int, run: seq<Action>, c: nat): (at: seq<int>)
    ensures |at| == Taken(run, c)
    decreases |run|
  {
    if run == [] then []
    else (if run[0] == Deliver(c) then [field] else []) + FieldAt(FieldAfter(field, run[0]), run[1..], c)
  }

  /** A value shows what was sent, a read what the field is when it is done. */
  function Shown(ds: seq<Delivery>, at: seq<int>): seq<int>
    requires |ds| == |at|
  {
    seq(|ds|, i requires 0 <= i < |ds| => match ds[i] case Value(v) => v case ReadCurrent => at[i])
  }

  lemma StepForOne(s: State, a: Action, c: nat)
    requires Valid(s) && Enabled(s, a) && c < |s.clients| && s.clients[c].alive && a != Expire(c)
    ensures var t := Apply(s, a);
      && |t.clients| == |s.clients| && t.clients[c].alive && t.field == FieldAfter(s.field, a)
      && Times(t.listeners, c) == ConnectionsAfter(Times(s.listeners, c), a, c)
      && (a != Deliver(c) ==>
            && t.clients[c].seen == s.clients[c].seen
            && t.clients[c].queue == s.clients[c].queue + QueuedBy(s.field, Times(s.listeners, c), a, c))
      && (a == Deliver(c) ==>
            var q := s.clients[c].queue;
            q != [] && t.clients[c].queue == q[1..]
            && t.clients[c].seen == s.clients[c].seen + Shown(q[..1], [s.field]))
  {
    assert s.clients[c].queue + [] == s.clients[c].queue;
    match a
    case SetValue(v) =>
      if v != s.field {
        OncePerConnection(s.clients, s.listeners, v, c);
        AliveUnchanged(s.clients, s.listeners, v);
        TimesLive(PostAll(s.clients, s.listeners, v), s.listeners, c);
      }
    case Subscribe(d) => TimesAppend(s.listeners, d, c);
    case Unsubscribe(d) => UnsubscribeTakesItsOwn(s.clients, s.listeners, d, c);
    case _ =>
  }

  /** From `k` to `t` the first deliveries of all that were queued are shown, and the others wait. */
  ghost predicate Served(k: Client, t: Client, more: seq<Delivery>, at: seq<int>) {
    var all := k.queue + more;
    && |at| <= |all| && t.queue == all[|at|..] && t.seen == k.seen + Shown(all[..|at|], at)
  }

  lemma ServedNone(k: Client)
    ensures Served(k, k, [], [])
  {
    assert k.queue + [] == k.queue && k.seen + Shown([], []) == k.seen;
  }

  lemma ServedQueued(k: Client, u: Client, t: Client, x: seq<Delivery>, more: seq<Delivery>, at: seq<int>)
    requires Served(u, t, more, at) && u.queue == k.queue + x && u.seen == k.seen
    ensures Served(k, t, x + more, [] + at)
  {
    assert k.queue + (x + more) == u.queue + more;
    assert [] + at == at;
  }

  lemma ShownFirst(d: Delivery, field: int, ds: seq<Delivery>, at: seq<int>)
    requires |ds| == |at|
    ensures Shown([d] + ds, [field] + at) == Shown([d], [field]) + Shown(ds, at)
  {
  }

  lemma FirstOfAll(q: seq<Delivery>, more: seq<Delivery>, n: nat)
    requires q != [] && n <= |q[1..] + more|
    ensures var all, rest := q + ([] + more), q[1..] + more;
      n + 1 <= |all| && all[n + 1..] == rest[n..] && all[..n + 1] == [q[0]] + rest[..n] && q[..1] == [q[0]]
  {
    assert q == [q[0]] + q[1..];
    assert q + ([] + more) == [q[0]] + (q[1..] + more);
  }

  lemma ServedTaken(k: Client, u: Client, t: Client, field: int, more: seq<Delivery>, at: seq<int>)
    requires Served(u, t, more, at) && k.queue != []
    requires u.queue == k.queue[1..] && u.seen == k.seen + Shown(k.queue[..1], [field])
    ensures Served(k, t, [] + more, [field] + at)
  {
    hide Shown;
    FirstOfAll(k.queue, more, |at|);
    ShownFirst(k.queue[0], field, (u.queue + more)[..|at|], at);
  }

  /** What a client sees, over any interleaving: everything queued for it, in order and nothing else.
      It has shown the first `Taken` of these, and the others wait. */
  lemma {:induction false} WhatAClientSees(s: State, run: seq<Action>, c: nat)
    requires Valid(s) && Legal(s, run) && c < |s.clients| && s.clients[c].alive && Expire(c) !in run
    ensures var t := Execute(s, run);
      && |t.clients| == |s.clients|
      && Served(s.clients[c], t.clients[c], QueuedFor(s.field, Times(s.listeners, c), run, c),
                FieldAt(s.field, run, c))
    decreases |run|
  {
    hide Apply, Enabled, Shown, Served, Times;
    var k := s.clients[c];
    if run == [] {
      ServedNone(k);
    } else {
      var a, rest := run[0], run[1..];
      var t := Apply(s, a);
      assert run == [a] + rest;
      StepForOne(s, a, c);
      WhatAClientSees(t, rest, c);
      var last := Execute(t, rest).clients[c];
      var x := QueuedBy(s.field, Times(s.listeners, c), a, c);
      var more, at := QueuedFor(t.field, Times(t.listeners, c), rest, c), FieldAt(t.field, rest, c);
      if a == Deliver(c) {
        ServedTaken(k, t.clients[c], last, s.field, more, at);
      } else {
        ServedQueued(k, t.clients[c], last, x, more, at);
      }
    }
  }

  // ---------------------------------------------------------------- the attribute as it runs

  class Field {
    var field: int
    var listeners: seq<nat>
    var clients: seq<Client>
    ghost var notified: seq<int>

    ghost function View(): State
      reads this
    {
      State(field, listeners, clients, notified)
    }

    constructor (field: int, clients: seq<Client>)
      ensures View() == State(field, [], clients, []) && Converged(View())
    {
      this.field, this.clients := field, clients;
      listeners, notified := [], [];
    }

    /** `clearExpiredClient`: erase in place while iterating. */
    method ClearExpired()
      requires Valid(View())
      modifies this`listeners
      ensures listeners == Live(clients, old(listeners))
    {
      hide Live;
      var k := 0;
      while k < |listeners|
        invariant k <= |listeners| && Valid(View())
        invariant forall i :: 0 <= i < k ==> clients[listeners[i]].alive
        invariant Live(clients, listeners) == Live(clients, old(listeners))
        decreases |listeners| - k
      {
        if clients[listeners[k]].alive {
          k := k + 1;
        } else {
          LiveEraseAt(clients, listeners, k);
          listeners := EraseAt(listeners, k);
        }
      }
      LiveAll(clients, listeners);
    }

    /** `Event::operator()`: copy the connections, push to each, forget the expired. */
    method FireEvent()
      requires Valid(View())
      modifies this`listeners, this`clients, this`notified
      ensures View() == Fire(old(View()), field)
    {
      var copy := listeners;
      AliveUnchanged(clients, copy, field);
      for k := 0 to |copy|
        invariant listeners == copy && notified == old(notified)
        invariant clients == PostAll(old(clients), copy[..k], field)
      {
        assert copy[..k + 1][..k] == copy[..k];
        var c := copy[k];
        if clients[c].alive {
          clients := clients[c := clients[c].(queue := clients[c].queue + [Value(field)])];
        }
      }
      assert copy[..|copy|] == copy;
      ClearExpired();
      notified := notified + [field];
    }

    method SetFieldValue(value: int)
      requires Valid(View())
      modifies this
      ensures View() == Apply(old(View()), SetValue(value))
    {
      if field != value {
        field := value;
        FireEvent();
      }
    }

    /** The action a subscription through the bus runs at the service: connect, then queue a read. */
    method SubscribeClient(c: nat)
      requires Valid(View()) && c < |clients| && clients[c].alive
      modifies this
      ensures View() == Apply(old(View()), Subscribe(c))
    {
      listeners := listeners + [c];
      clients := clients[c := clients[c].(queue := clients[c].queue + [ReadCurrent])];
    }

    /** `disconnect`: `std::remove_if` over the connections. */
    method UnsubscribeClient(c: nat)
      requires Valid(View()) && c < |clients| && clients[c].alive
      modifies this
      ensures View() == Apply(old(View()), Unsubscribe(c))
    {
      var kept := [];
      for k := 0 to |listeners|
        invariant kept == Without(clients, listeners[..k], c)
      {
        assert listeners[..k + 1][..k] == listeners[..k];
        if clients[listeners[k]].alive && listeners[k] != c {
          kept := kept + [listeners[k]];
        }
      }
      assert listeners[..|listeners|] == listeners;
      listeners := kept;
    }

    /** The client's thread takes one delivery from its queue. */
    method DeliverTo(c: nat)
      requires Valid(View()) && c < |clients| && clients[c].queue != []
      modifies this`clients
      ensures View() == Apply(old(View()), Deliver(c))
    {
      var k := clients[c];
      var delivery := k.queue[0];
      k := k.(queue := k.queue[1..]);
      match delivery {
        case Value(v) =>
          if k.alive {
            k := k.(seen := k.seen + [v]);
          }
        case ReadCurrent =>
          k := k.(seen := k.seen + [field]);
      }
      clients := clients[c := k];
    }
  }
}
