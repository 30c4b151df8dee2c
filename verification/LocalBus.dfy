/**
 The broker of services and clients. Clients learn about services only through notices in their
 own queues; the run theorems say when what they learn agrees with what the bus holds.
 */
module LocalBus {
  import opened Basics

  datatype Key = Key(interface: nat, name: string)

  datatype Notice = Connected(key: Key, service: nat) | Disconnected(key: Key)

  /** `onBus`: the client's own thread is the thread of the bus, so `invoke` runs inline. */
  datatype Client = Client(alive: bool, onBus: bool, queue: seq<Notice>, seen: seq<Notice>)

  datatype Bus = Bus(services: map<Key, nat>, members: map<Key, set<nat>>, clients: seq<Client>)

  function Members(b: Bus, key: Key): set<nat> {
    if key in b.members then b.members[key] else {}
  }

  /** `getService`. */
  function Lookup(b: Bus, key: Key): Option<nat> {
    if key in b.services then Some(b.services[key]) else None
  }

  function Notified(c: Client, n: Notice): Client {
    c.(queue := c.queue + [n])
  }

  /** Every member that is still alive gets the notice, whatever the order of the iteration. */
  function NotifyAll(clients: seq<Client>, to: set<nat>, n: Notice): seq<Client> {
    seq(|clients|, i requires 0 <= i < |clients| =>
      if i in to && clients[i].alive then Notified(clients[i], n) else clients[i])
  }

  /** `registerService`: a name that is taken keeps its service, but the new one is announced. */
  function Registered(b: Bus, service: nat, key: Key): Bus {
    Bus(if key in b.services then b.services else b.services[key := service],
        b.members[key := Members(b, key)],
        NotifyAll(b.clients, Members(b, key), Connected(key, service)))
  }

  /** `unregisterService`: the name is freed whichever service holds it. */
  function Unregistered(b: Bus, key: Key): Bus {
    Bus(b.services - {key},
        b.members[key := Members(b, key)],
        NotifyAll(b.clients, Members(b, key), Disconnected(key)))
  }

  /** `buildClient`. */
  function Built(b: Bus, c: nat, key: Key): Bus
    requires c < |b.clients|
  {
    var k := b.clients[c];
    b.(members := b.members[key := Members(b, key) + {c}],
       clients :=
         if key !in b.services then b.clients
         else if k.onBus then b.clients[c := k.(seen := k.seen + [Connected(key, b.services[key])])]
         else b.clients[c := Notified(k, Connected(key, b.services[key]))])
  }

  /** `disassembleClient`. */
  function Disassembled(b: Bus, c: nat, key: Key): Bus {
    b.(members := b.members[key := Members(b, key) - {c}])
  }

  /** The client's thread takes one notice. */
  function Delivered(b: Bus, c: nat): Bus
    requires c < |b.clients| && b.clients[c].queue != []
  {
    var k := b.clients[c];
    b.(clients := b.clients[c := k.(queue := k.queue[1..], seen := k.seen + [k.queue[0]])])
  }

  datatype Action =
    | Register(service: nat, key: Key)
    | Unregister(key: Key)
    | Build(client: nat, key: Key)
    | Disassemble(client: nat, key: Key)
    | Deliver(client: nat)
    | Expire(client: nat)

  /** A queued notice keeps its client alive. */
  predicate Enabled(b: Bus, a: Action) {
    match a
    case Build(c, _) => c < |b.clients| && b.clients[c].alive
    case Deliver(c) => c < |b.clients| && b.clients[c].queue != []
    case Expire(c) => c < |b.clients| && b.clients[c].queue == []
    case _ => true
  }

  function Apply(b: Bus, a: Action): Bus
    requires Enabled(b, a)
  {
    match a
    case Register(s, key) => Registered(b, s, key)
    case Unregister(key) => Unregistered(b, key)
    case Build(c, key) => Built(b, c, key)
    case Disassemble(c, key) => Disassembled(b, c, key)
    case Deliver(c) => Delivered(b, c)
    case Expire(c) => b.(clients := b.clients[c := b.clients[c].(alive := false)])
  }

  // ---------------------------------------------------------------- what a client ends up knowing

  /** The service a client holds for a key after these notices. */
  function Known(ns: seq<Notice>, key: Key): Option<Option<nat>> {
    if ns == [] then None
    else
      var n := ns[|ns| - 1];
      if n.key != key then Known(ns[..|ns| - 1], key)
      else Some(if n.Connected? then Some(n.service) else None)
  }

  lemma {:induction false} KnownConcat(a: seq<Notice>, b: seq<Notice>, key: Key)
    ensures Known(a + b, key) == if Known(b, key).Some? then Known(b, key) else Known(a, key)
  {
    if b == [] {
      assert a + b == a;
    } else {
      var n := b[|b| - 1];
      assert (a + b)[..|a + b| - 1] == a + b[..|b| - 1];
      if n.key != key {
        KnownConcat(a, b[..|b| - 1], key);
      }
    }
  }

  lemma KnownOne(n: Notice, key: Key)
    ensures Known([n], key) == if n.key != key then None else Some(if n.Connected? then Some(n.service) else None)
  {
    assert [n][..0] == [];
  }

  /** What the client was told about the key, drained or not. */
  function Heard(c: Client, key: Key): Option<Option<nat>> {
    Known(c.seen + c.queue, key)
  }

  /** What the client will know once its queue is drained. */
  function View(c: Client, key: Key): Option<nat> {
    match Heard(c, key)
    case None => None
    case Some(v) => v
  }

  lemma NotifiedView(c: Client, n: Notice, key: Key)
    ensures View(Notified(c, n), key) ==
      if n.key != key then View(c, key) else if n.Connected? then Some(n.service) else None
    ensures n.key != key ==> Heard(Notified(c, n), key) == Heard(c, key)
  {
    assert c.seen + (c.queue + [n]) == (c.seen + c.queue) + [n];
    KnownConcat(c.seen + c.queue, [n], key);
    KnownOne(n, key);
  }

  /** Inline delivery overtakes what is queued. */
  lemma InlineView(c: Client, n: Notice, key: Key)
    ensures View(c.(seen := c.seen + [n]), key) ==
      if n.key != key || Known(c.queue, key).Some? then View(c, key)
      else if n.Connected? then Some(n.service) else None
    ensures n.key != key ==> Heard(c.(seen := c.seen + [n]), key) == Heard(c, key)
  {
    KnownConcat(c.seen + [n], c.queue, key);
    KnownConcat(c.seen, c.queue, key);
    KnownConcat(c.seen, [n], key);
    KnownOne(n, key);
  }

  lemma DeliveredView(b: Bus, c: nat, key: Key)
    requires c < |b.clients| && b.clients[c].queue != []
    ensures View(Delivered(b, c).clients[c], key) == View(b.clients[c], key)
    ensures Heard(Delivered(b, c).clients[c], key) == Heard(b.clients[c], key)
  {
    var k := b.clients[c];
    assert (k.seen + [k.queue[0]]) + k.queue[1..] == k.seen + k.queue;
  }

  // ---------------------------------------------------------------- convergence

  /** The client will hold a service for the key exactly if the bus holds one. */
  ghost predicate Agrees(b: Bus, c: nat, key: Key)
    requires c < |b.clients|
  {
    View(b.clients[c], key).Some? <==> key in b.services
  }

  /** The very same service. */
  ghost predicate AgreesExactly(b: Bus, c: nat, key: Key)
    requires c < |b.clients|
  {
    View(b.clients[c], key) == Lookup(b, key)
  }

  ghost predicate Converged(b: Bus) {
    forall key, c :: c in Members(b, key) && c < |b.clients| && b.clients[c].alive ==> Agrees(b, c, key)
  }

  ghost predicate ConvergedExactly(b: Bus) {
    forall key, c :: c in Members(b, key) && c < |b.clients| && b.clients[c].alive ==> AgreesExactly(b, c, key)
  }

  /** What a build must find. Without a service nothing is sent, so the client must not already
      believe in one; with a service, an inline notice must not be overtaken by a queued "gone". */
  predicate CleanBuild(b: Bus, c: nat, key: Key)
    requires c < |b.clients|
  {
    var k := b.clients[c];
    if key !in b.services then View(k, key) == None
    else k.onBus ==> Known(k.queue, key) != Some(None)
  }

  /** A client built for the first time for a key is always built cleanly. */
  lemma FirstBuildIsClean(b: Bus, c: nat, key: Key)
    requires c < |b.clients| && Heard(b.clients[c], key) == None
    ensures CleanBuild(b, c, key)
  {
    KnownConcat(b.clients[c].seen, b.clients[c].queue, key);
  }

  /** A build makes its client agree with the bus exactly when it is clean: a client that was
      disassembled while connected and built again after the service left is never told. */
  lemma BuildAgreesIffClean(b: Bus, c: nat, key: Key)
    requires c < |b.clients|
    ensures Agrees(Built(b, c, key), c, key) <==> CleanBuild(b, c, key)
  {
    var k := b.clients[c];
    if key in b.services {
      var n := Connected(key, b.services[key]);
      NotifiedView(k, n, key);
      InlineView(k, n, key);
      KnownConcat(k.seen, k.queue, key);
    }
  }

  lemma StepConverges(b: Bus, a: Action)
    requires Converged(b) && Enabled(b, a) && (a.Build? ==> CleanBuild(b, a.client, a.key))
    ensures Converged(Apply(b, a))
  {
    var t := Apply(b, a);
    forall key, c | c in Members(t, key) && c < |t.clients| && t.clients[c].alive ensures Agrees(t, c, key) {
      assert c in Members(b, key) ==> Agrees(b, c, key);
      match a
      case Register(s, k) => NotifiedView(b.clients[c], Connected(k, s), key);
      case Unregister(k) => NotifiedView(b.clients[c], Disconnected(k), key);
      case Build(d, k) =>
        if c == d && key == k {
          BuildAgreesIffClean(b, d, k);
        } else if k in b.services {
          NotifiedView(b.clients[c], Connected(k, b.services[k]), key);
          InlineView(b.clients[c], Connected(k, b.services[k]), key);
        }
      case Deliver(d) => DeliveredView(b, d, key);
      case _ =>
    }
  }

  ghost predicate Legal(b: Bus, run: seq<Action>)
    decreases |run|
  {
    run != [] ==> Enabled(b, run[0]) && Legal(Apply(b, run[0]), run[1..])
  }

  function Execute(b: Bus, run: seq<Action>): Bus
    requires Legal(b, run)
    decreases |run|
  {
    if run == [] then b else Execute(Apply(b, run[0]), run[1..])
  }

  ghost predicate AllBuildsClean(b: Bus, run: seq<Action>)
    requires Legal(b, run)
    decreases |run|
  {
    run != [] ==>
      && (run[0].Build? ==> CleanBuild(b, run[0].client, run[0].key))
      && AllBuildsClean(Apply(b, run[0]), run[1..])
  }

  /** Converged now and after every action of the run. */
  ghost predicate StaysConverged(b: Bus, run: seq<Action>)
    requires Legal(b, run)
    decreases |run|
  {
    Converged(b) && (run != [] ==> StaysConverged(Apply(b, run[0]), run[1..]))
  }

  /** Over any run each live registered client agrees with the bus all along exactly when every
      build of the run is clean. */
  lemma {:induction false} ConvergesIffBuildsClean(b: Bus, run: seq<Action>)
    requires Converged(b) && Legal(b, run)
    ensures StaysConverged(b, run) <==> AllBuildsClean(b, run)
    decreases |run|
  {
    if run != [] {
      var t := Apply(b, run[0]);
      if run[0].Build? && !CleanBuild(b, run[0].client, run[0].key) {
        BuildAgreesIffClean(b, run[0].client, run[0].key);
        assert !Agrees(t, run[0].client, run[0].key);
        assert run[0].client in Members(t, run[0].key);
      } else {
        StepConverges(b, run[0]);
        ConvergesIffBuildsClean(t, run[1..]);
      }
    }
  }

  // ---------------------------------------------------------------- what the callers have to keep to

  /** No client has been told anything yet. */
  ghost predicate Silent(b: Bus) {
    forall c :: 0 <= c < |b.clients| ==> b.clients[c].seen == b.clients[c].queue == []
  }

  /** No client is built for a key it was disassembled from. */
  ghost predicate NeverRebuilt(run: seq<Action>) {
    forall i, j :: 0 <= i < j < |run| && run[i].Disassemble? ==> run[j] != Build(run[i].client, run[i].key)
  }

  /** Nobody has heard of a key without being a member for it, or having been one: `gone`. */
  ghost predicate NoRumours(b: Bus, gone: set<(nat, Key)>) {
    forall c, key :: 0 <= c < |b.clients| && c !in Members(b, key) && (c, key) !in gone ==>
      Heard(b.clients[c], key) == None
  }

  ghost predicate Avoids(run: seq<Action>, gone: set<(nat, Key)>) {
    forall i :: 0 <= i < |run| && run[i].Build? ==> (run[i].client, run[i].key) !in gone
  }

  function Gone(gone: set<(nat, Key)>, a: Action): set<(nat, Key)> {
    if a.Disassemble? then gone + {(a.client, a.key)} else gone
  }

  lemma StepSpreadsNoRumours(b: Bus, a: Action, gone: set<(nat, Key)>)
    requires NoRumours(b, gone) && Enabled(b, a)
    ensures NoRumours(Apply(b, a), Gone(gone, a))
  {
    hide View;
    var t := Apply(b, a);
    forall c, key | 0 <= c < |t.clients| && c !in Members(t, key) && (c, key) !in Gone(gone, a)
      ensures Heard(t.clients[c], key) == None
    {
      assert c !in Members(b, key) && Heard(b.clients[c], key) == None;
      match a
      case Register(s, k) => NotifiedView(b.clients[c], Connected(k, s), key);
      case Unregister(k) => NotifiedView(b.clients[c], Disconnected(k), key);
      case Build(d, k) =>
        if k in b.services {
          NotifiedView(b.clients[c], Connected(k, b.services[k]), key);
          InlineView(b.clients[c], Connected(k, b.services[k]), key);
        }
      case Deliver(d) => DeliveredView(b, d, key);
      case _ =>
    }
  }

  /** A build for a key the client was never disassembled from is clean: either it was told nothing
      about the key yet, or it is a member already and agrees. */
  lemma BuildIsClean(b: Bus, c: nat, key: Key, gone: set<(nat, Key)>)
    requires NoRumours(b, gone) && c < |b.clients| && (c, key) !in gone
    ensures (c in Members(b, key) ==> Agrees(b, c, key)) ==> CleanBuild(b, c, key)
    ensures (c in Members(b, key) ==> AgreesExactly(b, c, key)) ==> ExactBuild(b, c, key)
  {
    KnownConcat(b.clients[c].seen, b.clients[c].queue, key);
  }

  lemma {:induction false} BuildsAreClean(b: Bus, run: seq<Action>, gone: set<(nat, Key)>)
    requires Converged(b) && NoRumours(b, gone) && Legal(b, run)
    requires Avoids(run, gone) && NeverRebuilt(run)
    ensures AllBuildsClean(b, run)
    decreases |run|
  {
    if run != [] {
      var a := run[0];
      if a.Build? {
        BuildIsClean(b, a.client, a.key, gone);
      }
      StepConverges(b, a);
      StepSpreadsNoRumours(b, a, gone);
      assert forall i :: 0 <= i < |run| - 1 ==> run[1..][i] == run[i + 1];
      BuildsAreClean(Apply(b, a), run[1..], Gone(gone, a));
    }
  }

  /** Bus view convergence: start with clients that were told nothing, and build no client again
      for a key it was disassembled from. Then, whatever is registered, unregistered, built,
      disassembled, delivered and expired in whatever order, each live registered client will,
      once its queue is drained, hold a service for a key exactly if the bus does. */
  lemma BusConverges(b: Bus, run: seq<Action>)
    requires Converged(b) && Silent(b) && Legal(b, run) && NeverRebuilt(run)
    ensures AllBuildsClean(b, run) && StaysConverged(b, run) && Converged(Execute(b, run))
  {
    BuildsAreClean(b, run, {});
    ConvergesIffBuildsClean(b, run);
    EndsConverged(b, run);
  }

  lemma {:induction false} EndsConverged(b: Bus, run: seq<Action>)
    requires Legal(b, run) && StaysConverged(b, run)
    ensures Converged(Execute(b, run))
    decreases |run|
  {
    if run != [] {
      EndsConverged(Apply(b, run[0]), run[1..]);
    }
  }

  // ---------------------------------------------------------------- the exact condition, seen from the bus

  /** The clients that left a key while a service was held for it, and were not built for it since. */
  function StaleAfter(b: Bus, stale: set<(nat, Key)>, a: Action): set<(nat, Key)> {
    match a
    case Disassemble(c, key) =>
      if c !in Members(b, key) then stale
      else if key in b.services then stale + {(c, key)} else stale - {(c, key)}
    case Build(c, key) => stale - {(c, key)}
    case _ => stale
  }

  /** No client is built for a free key that it left while a service was held for it. */
  ghost predicate NoStaleBuild(b: Bus, run: seq<Action>, stale: set<(nat, Key)>)
    requires Legal(b, run)
    decreases |run|
  {
    run != [] ==>
      && (run[0].Build? ==> run[0].key in b.services || (run[0].client, run[0].key) !in stale)
      && NoStaleBuild(Apply(b, run[0]), run[1..], StaleAfter(b, stale, run[0]))
  }

  /** No client runs on the thread of the bus. */
  ghost predicate OffBus(b: Bus) {
    forall c :: 0 <= c < |b.clients| ==> !b.clients[c].onBus
  }

  /** Who is no member believes in a service exactly if it left while one was held. */
  ghost predicate Remembered(b: Bus, stale: set<(nat, Key)>) {
    forall c, key :: 0 <= c < |b.clients| && b.clients[c].alive ==>
      if c in Members(b, key) then (c, key) !in stale
      else View(b.clients[c], key).Some? <==> (c, key) in stale
  }

  lemma StepRemembers(b: Bus, a: Action, stale: set<(nat, Key)>)
    requires Converged(b) && Remembered(b, stale) && Enabled(b, a)
    ensures Remembered(Apply(b, a), StaleAfter(b, stale, a))
  {
    hide View;
    var t := Apply(b, a);
    forall c, key | 0 <= c < |t.clients| && t.clients[c].alive
      ensures if c in Members(t, key) then (c, key) !in StaleAfter(b, stale, a)
              else View(t.clients[c], key).Some? <==> (c, key) in StaleAfter(b, stale, a)
    {
      assert c in Members(b, key) ==> Agrees(b, c, key);
      match a
      case Register(s, k) => NotifiedView(b.clients[c], Connected(k, s), key);
      case Unregister(k) => NotifiedView(b.clients[c], Disconnected(k), key);
      case Build(d, k) =>
        if k in b.services {
          NotifiedView(b.clients[c], Connected(k, b.services[k]), key);
          InlineView(b.clients[c], Connected(k, b.services[k]), key);
        }
      case Deliver(d) => DeliveredView(b, d, key);
      case _ =>
    }
  }

  /** For a client with a thread of its own the bus can tell whether a build is clean. */
  lemma CleanUnlessStale(b: Bus, c: nat, key: Key, stale: set<(nat, Key)>)
    requires Converged(b) && OffBus(b) && Remembered(b, stale) && c < |b.clients| && b.clients[c].alive
    ensures CleanBuild(b, c, key) <==> key in b.services || (c, key) !in stale
  {
    if c in Members(b, key) {
      assert Agrees(b, c, key);
    }
  }

  lemma {:induction false} CleanIffNoStaleBuild(b: Bus, run: seq<Action>, stale: set<(nat, Key)>)
    requires Converged(b) && OffBus(b) && Remembered(b, stale) && Legal(b, run)
    ensures AllBuildsClean(b, run) <==> NoStaleBuild(b, run, stale)
    decreases |run|
  {
    hide Converged, Remembered, CleanBuild, StaleAfter;
    if run != [] {
      var a := run[0];
      if a.Build? {
        CleanUnlessStale(b, a.client, a.key, stale);
      }
      if a.Build? ==> CleanBuild(b, a.client, a.key) {
        StepConverges(b, a);
        StepRemembers(b, a, stale);
        CleanIffNoStaleBuild(Apply(b, a), run[1..], StaleAfter(b, stale, a));
      }
    }
  }

  /** With clients on threads of their own that were told nothing yet, they agree with the bus all
      along exactly when none is built for a free key it left while a service was held for it. */
  lemma ConvergesIffNoStaleBuild(b: Bus, run: seq<Action>)
    requires Converged(b) && Silent(b) && OffBus(b) && Legal(b, run)
    ensures StaysConverged(b, run) <==> NoStaleBuild(b, run, {})
  {
    assert Remembered(b, {}) by {
      forall c, key | 0 <= c < |b.clients| && b.clients[c].alive ensures View(b.clients[c], key) == None {
      }
    }
    CleanIffNoStaleBuild(b, run, {});
    ConvergesIffBuildsClean(b, run);
  }

  /** As `CleanBuild`, for the very service. */
  predicate ExactBuild(b: Bus, c: nat, key: Key)
    requires c < |b.clients|
  {
    var k := b.clients[c];
    if key !in b.services then View(k, key) == None
    else k.onBus ==> Known(k.queue, key) in {None, Some(Lookup(b, key))}
  }

  lemma BuildAgreesExactlyIff(b: Bus, c: nat, key: Key)
    requires c < |b.clients|
    ensures AgreesExactly(Built(b, c, key), c, key) <==> ExactBuild(b, c, key)
  {
    var k := b.clients[c];
    if key in b.services {
      var n := Connected(key, b.services[key]);
      NotifiedView(k, n, key);
      InlineView(k, n, key);
      KnownConcat(k.seen, k.queue, key);
    }
  }

  /** Some live client is registered for the key. */
  ghost predicate HasLiveMember(b: Bus, key: Key) {
    exists c :: 0 <= c < |b.clients| && c in Members(b, key) && b.clients[c].alive
  }

  /** The steps that keep agreement exact: an exact build, and a registration that nobody is told of or
      that announces the service which then is the one held. */
  ghost predicate ExactAction(b: Bus, a: Action)
    requires Enabled(b, a)
  {
    match a
    case Build(c, key) => ExactBuild(b, c, key)
    case Register(s, key) => HasLiveMember(b, key) ==> Lookup(b, key) in {None, Some(s)}
    case _ => true
  }

  lemma StepConvergesExactly(b: Bus, a: Action)
    requires ConvergedExactly(b) && Enabled(b, a) && ExactAction(b, a)
    ensures ConvergedExactly(Apply(b, a))
  {
    var t := Apply(b, a);
    forall key, c | c in Members(t, key) && c < |t.clients| && t.clients[c].alive ensures AgreesExactly(t, c, key) {
      assert c in Members(b, key) ==> AgreesExactly(b, c, key);
      match a
      case Register(s, k) => NotifiedView(b.clients[c], Connected(k, s), key);
      case Unregister(k) => NotifiedView(b.clients[c], Disconnected(k), key);
      case Build(d, k) =>
        if c == d && key == k {
          BuildAgreesExactlyIff(b, d, k);
        } else if k in b.services {
          NotifiedView(b.clients[c], Connected(k, b.services[k]), key);
          InlineView(b.clients[c], Connected(k, b.services[k]), key);
        }
      case Deliver(d) => DeliveredView(b, d, key);
      case _ =>
    }
  }

  lemma InexactStepDiverges(b: Bus, a: Action)
    requires Enabled(b, a) && !ExactAction(b, a)
    ensures !ConvergedExactly(Apply(b, a))
  {
    var t := Apply(b, a);
    match a
    case Build(c, key) =>
      BuildAgreesExactlyIff(b, c, key);
      assert c in Members(t, key) && t.clients[c].alive && !AgreesExactly(t, c, key);
    case Register(s, key) =>
      var c :| 0 <= c < |b.clients| && c in Members(b, key) && b.clients[c].alive;
      NotifiedView(b.clients[c], Connected(key, s), key);
      assert c in Members(t, key) && t.clients[c].alive && !AgreesExactly(t, c, key);
    case _ =>
  }

  /** Exactly converged now and after every action of the run. */
  ghost predicate StaysConvergedExactly(b: Bus, run: seq<Action>)
    requires Legal(b, run)
    decreases |run|
  {
    ConvergedExactly(b) && (run != [] ==> StaysConvergedExactly(Apply(b, run[0]), run[1..]))
  }

  ghost predicate AllExact(b: Bus, run: seq<Action>)
    requires Legal(b, run)
    decreases |run|
  {
    run != [] ==> ExactAction(b, run[0]) && AllExact(Apply(b, run[0]), run[1..])
  }

  /** Over any run each live registered client will hold the very service the bus holds, all along,
      exactly when every build and every registration of the run is exact. */
  lemma {:induction false} ConvergesExactlyIff(b: Bus, run: seq<Action>)
    requires ConvergedExactly(b) && Legal(b, run)
    ensures StaysConvergedExactly(b, run) <==> AllExact(b, run)
    decreases |run|
  {
    hide ConvergedExactly, ExactAction, Enabled, Apply;
    if run != [] {
      if ExactAction(b, run[0]) {
        StepConvergesExactly(b, run[0]);
        ConvergesExactlyIff(Apply(b, run[0]), run[1..]);
      } else {
        InexactStepDiverges(b, run[0]);
      }
    }
  }

  /** Nobody registers under a name that another service holds; `held` are the names taken so far. */
  ghost predicate NamesUnique(run: seq<Action>, held: map<Key, nat>)
    decreases |run|
  {
    run != [] ==>
      && (run[0].Register? && run[0].key in held ==> held[run[0].key] == run[0].service)
      && NamesUnique(run[1..], match run[0]
                               case Register(s, key) => held[key := s]
                               case Unregister(key) => held - {key}
                               case _ => held)
  }

  lemma {:induction false} ExactRun(b: Bus, run: seq<Action>, gone: set<(nat, Key)>)
    requires ConvergedExactly(b) && NoRumours(b, gone) && Legal(b, run)
    requires Avoids(run, gone) && NeverRebuilt(run) && NamesUnique(run, b.services)
    ensures AllExact(b, run)
    decreases |run|
  {
    if run != [] {
      var a := run[0];
      if a.Build? {
        BuildIsClean(b, a.client, a.key, gone);
      }
      StepConvergesExactly(b, a);
      StepSpreadsNoRumours(b, a, gone);
      assert forall i :: 0 <= i < |run| - 1 ==> run[1..][i] == run[i + 1];
      assert Apply(b, a).services == match a
                                     case Register(s, key) => b.services[key := s]
                                     case Unregister(key) => b.services - {key}
                                     case _ => b.services;
      ExactRun(Apply(b, a), run[1..], Gone(gone, a));
    }
  }

  /** If besides nobody registers under a name that another service holds, the service a drained client
      holds is the very one `getService` returns, all along. */
  lemma BusConvergesExactly(b: Bus, run: seq<Action>)
    requires ConvergedExactly(b) && Silent(b) && Legal(b, run)
    requires NeverRebuilt(run) && NamesUnique(run, b.services)
    ensures StaysConvergedExactly(b, run) && ConvergedExactly(Execute(b, run))
  {
    ExactRun(b, run, {});
    ConvergesExactlyIff(b, run);
    EndsConvergedExactly(b, run);
  }

  lemma {:induction false} EndsConvergedExactly(b: Bus, run: seq<Action>)
    requires Legal(b, run) && StaysConvergedExactly(b, run)
    ensures ConvergedExactly(Execute(b, run))
    decreases |run|
  {
    hide ConvergedExactly, Enabled, Apply;
    if run != [] {
      EndsConvergedExactly(Apply(b, run[0]), run[1..]);
    }
  }

  /** Why a build has to be clean: disassembled while connected, built again after the service
      left, the client keeps believing in it. */
  lemma RebuildMissesDisconnect(b: Bus, c: nat, key: Key, service: nat)
    requires c < |b.clients| && b.clients[c].alive && c in Members(b, key)
    ensures var t := Built(Unregistered(Disassembled(Registered(b, service, key), c, key), key), c, key);
      c < |t.clients| && c in Members(t, key) && key !in t.services
      && View(t.clients[c], key) == Some(service) && !Agrees(t, c, key)
  {
    NotifiedView(b.clients[c], Connected(key, service), key);
  }

  /** The service announced by a registration is the one `getService` returns exactly when the
      name was free or already held by that very service. */
  lemma AnnouncedIsHeld(b: Bus, service: nat, key: Key)
    ensures Lookup(Registered(b, service, key), key) == Some(service) <==> Lookup(b, key) in {None, Some(service)}
  {
  }

  /** Nothing is ever queued for a client that no longer exists. */
  lemma {:induction false} ExpiredHearsNothing(b: Bus, run: seq<Action>, c: nat)
    requires Legal(b, run) && c < |b.clients| && !b.clients[c].alive && b.clients[c].queue == []
    ensures |Execute(b, run).clients| == |b.clients| && Execute(b, run).clients[c] == b.clients[c]
    decreases |run|
  {
    if run != [] {
      ExpiredHearsNothing(Apply(b, run[0]), run[1..], c);
    }
  }

  // ---------------------------------------------------------------- the bus seen from one client

  /** The keys a client is registered for. */
  function Keys(b: Bus, c: nat): set<Key> {
    set key | key in b.members && c in b.members[key]
  }

  function HeldAfter(held: map<Key, nat>, a: Action): map<Key, nat> {
    match a
    case Register(s, key) => if key in held then held else held[key := s]
    case Unregister(key) => held - {key}
    case _ => held
  }

  function KeysAfter(keys: set<Key>, a: Action, c: nat): set<Key> {
    match a
    case Build(d, key) => if d == c then keys + {key} else keys
    case Disassemble(d, key) => if d == c then keys - {key} else keys
    case _ => keys
  }

  /** What an action tells client `c`. */
  function ToldBy(held: map<Key, nat>, keys: set<Key>, a: Action, c: nat): seq<Notice> {
    match a
    case Register(s, key) => if key in keys then [Connected(key, s)] else []
    case Unregister(key) => if key in keys then [Disconnected(key)] else []
    case Build(d, key) => if d == c && key in held then [Connected(key, held[key])] else []
    case _ => []
  }

  /** What a run queues for client `c`, told from the run alone; on the thread of the bus a build does not queue. */
  function QueuedFor(held: map<Key, nat>, keys: set<Key>, onBus: bool, run: seq<Action>, c: nat): seq<Notice>
    decreases |run|
  {
    if run == [] then []
    else (if run[0].Build? && onBus then [] else ToldBy(held, keys, run[0], c))
         + QueuedFor(HeldAfter(held, run[0]), KeysAfter(keys, run[0], c), onBus, run[1..], c)
  }

  /** Notices the client takes over the run. */
  function Taken(run: seq<Action>, c: nat): nat {
    if run == [] then 0 else (if run[0] == Deliver(c) then 1 else 0) + Taken(run[1..], c)
  }

  /** What client `c` hears over a run: the next of the queued notices whenever it takes one, and what a
      build on the thread of the bus tells it at once. */
  function HeardOver(held: map<Key, nat>, keys: set<Key>, onBus: bool, all: seq<Notice>, run: seq<Action>, c: nat)
    : seq<Notice>
    requires Taken(run, c) <= |all|
    decreases |run|
  {
    if run == [] then []
    else if run[0] == Deliver(c) then [all[0]] + HeardOver(held, keys, onBus, all[1..], run[1..], c)
    else (if run[0].Build? && onBus then ToldBy(held, keys, run[0], c) else [])
         + HeardOver(HeldAfter(held, run[0]), KeysAfter(keys, run[0], c), onBus, all, run[1..], c)
  }

  lemma StepForOne(b: Bus, a: Action, c: nat)
    requires Enabled(b, a) && c < |b.clients| && b.clients[c].alive && a != Expire(c)
    ensures var t := Apply(b, a);
      var k, u, told := b.clients[c], Apply(b, a).clients[c], ToldBy(b.services, Keys(b, c), a, c);
      && |t.clients| == |b.clients| && u.alive && u.onBus == k.onBus
      && t.services == HeldAfter(b.services, a) && Keys(t, c) == KeysAfter(Keys(b, c), a, c)
      && if a == Deliver(c) then k.queue != [] && u.queue == k.queue[1..] && u.seen == k.seen + [k.queue[0]]
         else if a.Build? && k.onBus then u.queue == k.queue && u.seen == k.seen + told
         else u.queue == k.queue + told && u.seen == k.seen
  {
    var k := b.clients[c];
    assert k.queue + [] == k.queue && k.seen + [] == k.seen;
    assert forall key :: key in Keys(b, c) <==> c in Members(b, key);
  }

  /** From `k` to `t` the first `n` of all that were queued are taken, and `heard` is heard. */
  ghost predicate Served(k: Client, t: Client, all: seq<Notice>, n: nat, heard: seq<Notice>) {
    n <= |all| && t.queue == all[n..] && t.seen == k.seen + heard
  }

  lemma ServedNone(k: Client)
    ensures Served(k, k, k.queue + [], 0, [])
  {
  }

  lemma ServedTaken(k: Client, u: Client, t: Client, more: seq<Notice>, n: nat, heard: seq<Notice>)
    requires k.queue != [] && u.queue == k.queue[1..] && u.seen == k.seen + [k.queue[0]]
    requires Served(u, t, u.queue + more, n, heard)
    ensures var all := k.queue + ([] + more);
      all[1..] == u.queue + more && Served(k, t, all, n + 1, [all[0]] + heard)
  {
    assert (k.queue + ([] + more))[1..] == u.queue + more;
  }

  lemma ServedTold(k: Client, u: Client, t: Client, queued: seq<Notice>, inline: seq<Notice>, more: seq<Notice>,
                   n: nat, heard: seq<Notice>)
    requires u.queue == k.queue + queued && u.seen == k.seen + inline
    requires Served(u, t, u.queue + more, n, heard)
    ensures k.queue + (queued + more) == u.queue + more
    ensures Served(k, t, k.queue + (queued + more), n, inline + heard)
  {
    assert k.queue + (queued + more) == u.queue + more;
  }

  /** Over any interleaving a live client is told exactly what the run says, in order: it has heard the first
      `Taken` of the notices queued for it, between them what its own builds told it, and the others wait. */
  lemma {:induction false} WhatAClientIsTold(b: Bus, run: seq<Action>, c: nat)
    requires Legal(b, run) && c < |b.clients| && b.clients[c].alive && Expire(c) !in run
    ensures var t := Execute(b, run);
      var k, keys := b.clients[c], Keys(b, c);
      var all := k.queue + QueuedFor(b.services, keys, k.onBus, run, c);
      && |t.clients| == |b.clients| && Taken(run, c) <= |all|
      && Served(k, t.clients[c], all, Taken(run, c), HeardOver(b.services, keys, k.onBus, all, run, c))
    decreases |run|
  {
    hide Apply, Enabled, Keys, ToldBy, Served;
    var k, keys := b.clients[c], Keys(b, c);
    if run == [] {
      ServedNone(k);
    } else {
      var a, rest := run[0], run[1..];
      var t := Apply(b, a);
      assert run == [a] + rest;
      StepForOne(b, a, c);
      WhatAClientIsTold(t, rest, c);
      var u, last := t.clients[c], Execute(t, rest).clients[c];
      var more := QueuedFor(t.services, Keys(t, c), k.onBus, rest, c);
      var heard := HeardOver(t.services, Keys(t, c), k.onBus, u.queue + more, rest, c);
      var told := ToldBy(b.services, keys, a, c);
      if a == Deliver(c) {
        ToldNothing(b.services, keys, a, c);
        ServedTaken(k, u, last, more, Taken(rest, c), heard);
      } else if a.Build? && k.onBus {
        assert k.queue + [] == k.queue;
        ServedTold(k, u, last, [], told, more, Taken(rest, c), heard);
      } else {
        assert k.seen + [] == k.seen;
        ServedTold(k, u, last, told, [], more, Taken(rest, c), heard);
      }
    }
  }

  lemma ToldNothing(held: map<Key, nat>, keys: set<Key>, a: Action, c: nat)
    requires a.Deliver?
    ensures ToldBy(held, keys, a, c) == [] && HeldAfter(held, a) == held && KeysAfter(keys, a, c) == keys
  {
  }

  // ---------------------------------------------------------------- the broker as it runs

  class Broker {
    var services: map<Key, nat>
    var members: map<Key, set<nat>>
    var clients: seq<Client>

    ghost function View(): Bus
      reads this
    {
      Bus(services, members, clients)
    }

    constructor (clients: seq<Client>)
      ensures View() == Bus(map[], map[], clients) && ConvergedExactly(View())
    {
      services, members := map[], map[];
      this.clients := clients;
    }

    /** Iterate over the members in whatever order the table has, skipping expired ones. */
    method Notify(to: set<nat>, n: Notice)
      modifies this`clients
      ensures clients == NotifyAll(old(clients), to, n)
    {
      var rest := to;
      while rest != {}
        invariant rest <= to && clients == NotifyAll(old(clients), to - rest, n)
        decreases rest
      {
        var c :| c in rest;
        if c < |clients| && clients[c].alive {
          clients := clients[c := clients[c].(queue := clients[c].queue + [n])];
        }
        rest := rest - {c};
      }
      assert to - rest == to;
    }

    method MembersOf(key: Key) returns (to: set<nat>)
      modifies this`members
      ensures to == Members(old(View()), key) && members == old(members)[key := to]
    {
      to := if key in members then members[key] else {};
      members := members[key := to];
    }

    method RegisterService(service: nat, key: Key)
      modifies this
      ensures View() == Registered(old(View()), service, key)
    {
      if key !in services {
        services := services[key := service];
      }
      var to := MembersOf(key);
      Notify(to, Connected(key, service));
    }

    method UnregisterService(key: Key)
      modifies this
      ensures View() == Unregistered(old(View()), key)
    {
      services := services - {key};
      var to := MembersOf(key);
      Notify(to, Disconnected(key));
    }

    method BuildClient(c: nat, key: Key)
      requires c < |clients|
      modifies this
      ensures View() == Built(old(View()), c, key)
    {
      var to := MembersOf(key);
      members := members[key := to + {c}];
      if key in services {
        var n := Connected(key, services[key]);
        var k := clients[c];
        clients := clients[c := if k.onBus then k.(seen := k.seen + [n]) else k.(queue := k.queue + [n])];
      }
    }

    method DisassembleClient(c: nat, key: Key)
      modifies this
      ensures View() == Disassembled(old(View()), c, key)
    {
      var to := MembersOf(key);
      members := members[key := to - {c}];
    }
  }
}
