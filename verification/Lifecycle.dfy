/**
 * Server, sessions, actor dispatch and handler put together: what one slot index goes through,
 * whatever the interleaving of connections, posts and workers.
 */
module Lifecycle {
  import opened Bytes
  import opened Packet
  import opened SessionRegistry
  import opened ActorSystem

  /** The three upcalls a session posts to the actor of its index. */
  datatype Upcall = Connected(serial: u32, endpoint: string) | PacketIn(serial: u32, packet: Message) | Disconnected(serial: u32)

  // ---- the handler: latest serial and endpoint per index ----

  /** `hooks` records the calls into the derived class: accept check, packet analysis, and close check on the latest serial. */
  datatype Handler = Handler(serials: map<nat, u32>, endpoints: map<nat, string>, hooks: seq<(nat, Upcall)>)

  /** GetLatestSerial: 0 when the index has no entry. */
  function LatestSerial(h: Handler, index: nat): u32 {
    if index in h.serials then h.serials[index] else 0
  }

  function CallHook(h: Handler, index: nat, u: Upcall): Handler {
    h.(hooks := h.hooks + [(index, u)])
  }

  /** HandleDisconnected_ with the close check of the account handler: act only on the latest serial. */
  function HandleDisconnected(h: Handler, index: nat, serial: u32): Handler {
    var t := if LatestSerial(h, index) == serial then CallHook(h, index, Disconnected(serial)) else h;
    if index in h.serials && h.serials[index] == serial then
      t.(serials := h.serials - {index}, endpoints := h.endpoints - {index})
    else t
  }

  function Handle(h: Handler, index: nat, u: Upcall): Handler {
    match u
    case Connected(serial, endpoint) =>
      CallHook(h.(serials := h.serials[index := serial], endpoints := h.endpoints[index := endpoint]), index, u)
    case PacketIn(serial, _) => CallHook(h.(serials := h.serials[index := serial]), index, u)
    case Disconnected(serial) => HandleDisconnected(h, index, serial)
  }

  class NetworkHandler {
    var sessionSerials: map<nat, u32>
    var sessionEndpoints: map<nat, string>
    ghost var hooks: seq<(nat, Upcall)>

    ghost function View(): Handler
      reads this
    {
      Handler(sessionSerials, sessionEndpoints, hooks)
    }

    constructor ()
      ensures View() == Handler(map[], map[], [])
    {
      sessionSerials, sessionEndpoints, hooks := map[], map[], [];
    }

    method OnConnected(index: nat, serial: u32, endpoint: string)
      modifies this
      ensures View() == Handle(old(View()), index, Connected(serial, endpoint))
    {
      sessionSerials := sessionSerials[index := serial];
      sessionEndpoints := sessionEndpoints[index := endpoint];
      hooks := hooks + [(index, Connected(serial, endpoint))];
    }

    method OnPacket(index: nat, serial: u32, packet: Message)
      modifies this
      ensures View() == Handle(old(View()), index, PacketIn(serial, packet))
    {
      sessionSerials := sessionSerials[index := serial];
      hooks := hooks + [(index, PacketIn(serial, packet))];
    }

    method GetLatestSerial(index: nat) returns (serial: u32)
      ensures serial == LatestSerial(View(), index)
    {
      serial := if index in sessionSerials then sessionSerials[index] else 0;
    }

    method OnDisconnected(index: nat, serial: u32)
      modifies this
      ensures View() == Handle(old(View()), index, Disconnected(serial))
    {
      var latest := GetLatestSerial(index);
      if latest == serial {
        hooks := hooks + [(index, Disconnected(serial))];
      }
      if index in sessionSerials && sessionSerials[index] == serial {
        sessionSerials := sessionSerials - {index};
        sessionEndpoints := sessionEndpoints - {index};
      }
    }
  }

  // ---- well-formed histories of one index ----

  /** After some upcalls: between sessions, inside one, or out of order. */
  datatype Mode = Idle(last: nat) | Active(serial: nat) | Broken

  function NextMode(mode: Mode, u: Upcall): Mode {
    match (mode, u)
    case (Idle(last), Connected(s, _)) => if s > last then Active(s) else Broken
    case (Active(a), PacketIn(s, _)) => if a == s then mode else Broken
    case (Active(a), Disconnected(s)) => if a == s then Idle(s) else Broken
    case _ => Broken
  }

  /** Not Broken exactly when `us` is a series of blocks Connected(s) PacketIn(s)* Disconnected(s) with increasing s, the last perhaps open. */
  function Scan(us: seq<Upcall>): Mode {
    if us == [] then Idle(0) else NextMode(Scan(us[..|us| - 1]), us[|us| - 1])
  }

  lemma ScanSnoc(us: seq<Upcall>, u: Upcall)
    ensures Scan(us + [u]) == NextMode(Scan(us), u)
  {
    assert (us + [u])[..|us|] == us;
  }

  lemma {:induction false} ScanPrefix(us: seq<Upcall>, vs: seq<Upcall>)
    requires Scan(us + vs) != Broken
    ensures Scan(us) != Broken
  {
    if vs == [] {
      assert us + vs == us;
    } else {
      var n := |vs| - 1;
      assert us + vs == us + vs[..n] + [vs[n]];
      ScanSnoc(us + vs[..n], vs[n]);
      ScanPrefix(us, vs[..n]);
    }
  }

  // ---- the whole system ----

  /** Where a session's start() stands: nothing posted yet, inside read_loop, or disconnect posted. */
  datatype Phase = Spawned | Reading | Closed

  datatype State = State(
    registry: Registry,
    phases: map<Session, Phase>,
    shards: seq<Shard<Upcall>>,
    handler: Handler)

  datatype Event =
    | Accepts
    | PostsConnected(x: Session, endpoint: string)
    | PostsPacket(x: Session, packet: Message)
    | PostsDisconnected(x: Session)
    | Finishes(x: Session)
    | Works(e: ActorSystem.Event<Upcall>)

  ghost predicate Wired(s: State) {
    SessionRegistry.Inv(s.registry) && s.phases.Keys == s.registry.running && s.shards != []
  }

  function Start(n: nat): (s: State)
    requires n > 0
    ensures Wired(s)
  {
    State(SessionRegistry.FRESH, map[], ActorSystem.Start(n), Handler(map[], map[], []))
  }

  function Post(s: State, x: Session, u: Upcall): (shards: seq<Shard<Upcall>>)
    requires s.shards != []
    ensures |shards| == |s.shards|
  {
    ActorSystem.Step(s.shards, Posts(Msg(x.index, Call(u))))
  }

  predicate InPhase(s: State, x: Session, p: Phase) {
    x in s.phases && s.phases[x] == p
  }

  /** Upcalls are posted by their sessions alone; anything else may be posted to any actor. */
  predicate PostsUpcall(e: ActorSystem.Event<Upcall>) {
    e.Posts? && e.msg.body.Call?
  }

  /** A worker step, or a post by some other part of the program; a finishing upcall has its effect on the handler. */
  function Work(s: State, e: ActorSystem.Event<Upcall>): State
    requires s.shards != []
  {
    var shards := ActorSystem.Step(s.shards, e);
    if e.Ends? && e.k < |s.shards| && s.shards[e.k].running.Some? && s.shards[e.k].running.value.body.Call? then
      var m := s.shards[e.k].running.value;
      s.(shards := shards, handler := Handle(s.handler, m.id, m.body.call))
    else s.(shards := shards)
  }

  function Step(s: State, e: Event): State
    requires Wired(s)
  {
    match e
    case Accepts =>
      s.(registry := SessionRegistry.Accept(s.registry), phases := s.phases[NextSession(s.registry) := Spawned])
    case PostsConnected(x, endpoint) =>
      if InPhase(s, x, Spawned) then
        s.(phases := s.phases[x := Reading], shards := Post(s, x, Connected(x.serial, endpoint)))
      else s
    case PostsPacket(x, packet) =>
      if InPhase(s, x, Reading) then s.(shards := Post(s, x, PacketIn(x.serial, packet))) else s
    case PostsDisconnected(x) =>
      if InPhase(s, x, Reading) then
        s.(phases := s.phases[x := Closed], shards := Post(s, x, Disconnected(x.serial)))
      else s
    case Finishes(x) =>
      if InPhase(s, x, Closed) then s.(registry := SessionRegistry.Finish(s.registry, x), phases := s.phases - {x}) else s
    case Works(w) => if PostsUpcall(w) then s else Work(s, w)
  }

  lemma InvShaped(r: Registry)
    requires SessionRegistry.Inv(r)
    ensures Shaped(r)
  {}

  lemma AcceptWired(s: State)
    requires Wired(s)
    ensures Wired(Step(s, Accepts))
  {
    InvShaped(s.registry);
    hide SessionRegistry.Inv, Shaped, NextSession, SessionRegistry.Accept, Holder, CountOf;
    AcceptEffect(s.registry);
  }

  lemma FinishWired(s: State, x: Session)
    requires Wired(s)
    ensures Wired(Step(s, Finishes(x)))
  {
    hide SessionRegistry.Inv, SessionRegistry.Finish, Holder, CountOf;
    if InPhase(s, x, Closed) {
      FinishEffect(s.registry, x);
    }
  }

  lemma StepWired(s: State, e: Event)
    requires Wired(s)
    ensures Wired(Step(s, e)) && |Step(s, e).shards| == |s.shards|
  {
    hide SessionRegistry.Inv, Shaped, SessionRegistry.Accept, SessionRegistry.Finish, PickShard, Handle;
    match e
    case Accepts => AcceptWired(s);
    case Finishes(x) => FinishWired(s, x);
    case _ =>
  }

  function Run(s: State, es: seq<Event>): (t: State)
    requires Wired(s)
    ensures Wired(t) && |t.shards| == |s.shards|
    decreases |es|
  {
    if es == [] then s
    else
      StepWired(s, es[0]);
      Run(Step(s, es[0]), es[1..])
  }

  // ---- what an index has been given, and what it has seen ----

  function Calls(ms: seq<Msg<Upcall>>): seq<Upcall> {
    if ms == [] then []
    else Calls(ms[..|ms| - 1]) + (if ms[|ms| - 1].body.Call? then [ms[|ms| - 1].body.call] else [])
  }

  lemma {:induction false} CallsAppend(a: seq<Msg<Upcall>>, b: seq<Msg<Upcall>>)
    ensures Calls(a + b) == Calls(a) + Calls(b)
  {
    if b == [] {
      assert a + b == a;
    } else {
      var n := |b| - 1;
      assert (a + b)[..|a + b| - 1] == a + b[..n] && (a + b)[|a + b| - 1] == b[n];
      CallsAppend(a, b[..n]);
    }
  }

  function CallsFor(i: nat, ms: seq<Msg<Upcall>>): seq<Upcall> {
    Calls(ForActor(i, ms))
  }

  lemma CallsForSnoc(i: nat, ms: seq<Msg<Upcall>>, m: Msg<Upcall>)
    ensures CallsFor(i, ms + [m]) == CallsFor(i, ms) + (if m.id == i && m.body.Call? then [m.body.call] else [])
  {
    assert (ms + [m])[..|ms|] == ms;
    assert [m][..0] == [] && ForActor(i, [m][..0]) == [] && Calls([m][..0]) == [];
    assert ForActor(i, ms + [m]) == ForActor(i, ms) + (if m.id == i then [m] else []);
    CallsAppend(ForActor(i, ms), if m.id == i then [m] else []);
  }

  function Home(s: State, i: nat): Shard<Upcall>
    requires s.shards != []
  {
    s.shards[PickShard(i, |s.shards|)]
  }

  /** Posted for index `i`, and already run for it. */
  function Given(s: State, i: nat): seq<Upcall>
    requires s.shards != []
  {
    CallsFor(i, Home(s, i).posted)
  }

  function Seen(s: State, i: nat): seq<Upcall>
    requires s.shards != []
  {
    CallsFor(i, Messages(Home(s, i).executed))
  }

  lemma SeenIsPrefixOfGiven(s: State, i: nat)
    requires s.shards != [] && Ordered(Home(s, i))
    ensures Seen(s, i) <= Given(s, i)
  {
    var h := Home(s, i);
    ForActorAppend(i, Messages(h.executed), Pending(h));
    CallsAppend(ForActor(i, Messages(h.executed)), ForActor(i, Pending(h)));
  }

  // ---- the network half: what is posted for an index ----

  ghost predicate NoWrap(s: Registry) {
    forall i: nat :: CountOf(s, i) < TWO_TO_32
  }

  function ModeIn(holder: Option<Session>, count: nat, phases: map<Session, Phase>): Mode {
    match holder
    case None => Idle(count)
    case Some(x) =>
      if x !in phases || x.ordinal == 0 then Broken
      else
        match phases[x]
        case Spawned => Idle(x.ordinal - 1)
        case Reading => Active(x.ordinal)
        case Closed => Idle(x.ordinal)
  }

  function ModeOf(s: State, i: nat): Mode {
    ModeIn(Holder(s.registry, i), CountOf(s.registry, i), s.phases)
  }

  /** The upcalls posted for an index stand exactly where its slot's session stands. */
  ghost predicate InStep(s: State)
    requires s.shards != []
  {
    forall i: nat :: Scan(Given(s, i)) == ModeOf(s, i)
  }

  lemma PostGiven(s: State, x: Session, u: Upcall, i: nat)
    requires s.shards != []
    ensures var t := s.(shards := Post(s, x, u));
            Given(t, i) == if i == x.index then Given(s, i) + [u] else Given(s, i)
  {
    hide CallsFor, PickShard, Push;
    ShardStepPosted(Home(s, i), Posts(Msg(x.index, Call(u))));
    CallsForSnoc(i, Home(s, i).posted, Msg(x.index, Call(u)));
  }

  lemma PostElsewhere(s: State, x: Session, p: Phase, shards: seq<Shard<Upcall>>, i: nat)
    requires Holder(s.registry, i) != Some(x)
    ensures ModeOf(s.(phases := s.phases[x := p], shards := shards), i) == ModeOf(s, i)
  {}

  /** A session whose serial is its ordinal posts an upcall its index is ready for. */
  lemma PostInStep(s: State, x: Session, p: Phase, u: Upcall)
    requires s.shards != [] && InStep(s) && x in s.phases && Holder(s.registry, x.index) == Some(x)
    requires var t := s.(phases := s.phases[x := p], shards := Post(s, x, u));
             ModeOf(t, x.index) == NextMode(ModeOf(s, x.index), u)
    requires forall i: nat | i != x.index :: Holder(s.registry, i) != Some(x)
    ensures InStep(s.(phases := s.phases[x := p], shards := Post(s, x, u)))
  {
    hide Scan, Given, NextMode, ModeOf, Holder, Post;
    var t := s.(phases := s.phases[x := p], shards := Post(s, x, u));
    forall i: nat
      ensures Scan(Given(t, i)) == ModeOf(t, i)
    {
      PostGiven(s, x, u, i);
      GivenOfShards(s.(shards := Post(s, x, u)), t, i);
      assert Scan(Given(s, i)) == ModeOf(s, i);
      if i == x.index {
        ScanSnoc(Given(s, i), u);
      } else {
        PostElsewhere(s, x, p, Post(s, x, u), i);
      }
    }
  }

  lemma AcceptInStep(s: State)
    requires Wired(s) && InStep(s)
    ensures InStep(Step(s, Accepts))
  {
    InvShaped(s.registry);
    hide SessionRegistry.Inv, Shaped, NextSession, SessionRegistry.Accept, Holder, CountOf, Scan, Given;
    AcceptEffect(s.registry);
    HolderFacts(s.registry);
    var t := Step(s, Accepts);
    forall i: nat
      ensures Scan(Given(t, i)) == ModeOf(t, i)
    {
      GivenOfShards(s, t, i);
      assert Scan(Given(s, i)) == ModeOf(s, i);
      AcceptMode(s, i);
    }
  }

  lemma AcceptMode(s: State, i: nat)
    requires Wired(s)
    ensures ModeOf(Step(s, Accepts), i) == ModeOf(s, i)
  {
    InvShaped(s.registry);
    hide SessionRegistry.Inv, Shaped, NextSession, SessionRegistry.Accept, Holder, CountOf, ModeIn;
    AcceptEffect(s.registry);
    HolderFacts(s.registry);
    var x := NextSession(s.registry);
    if i == x.index {
      SpawnedMode(x, CountOf(s.registry, i), s.phases);
    } else if Holder(s.registry, i).Some? {
      OtherPhase(Holder(s.registry, i).value, CountOf(s.registry, i), s.phases, x);
    } else {
      FreeMode(CountOf(s.registry, i), s.phases, s.phases[x := Spawned]);
    }
  }

  lemma SpawnedMode(x: Session, count: nat, phases: map<Session, Phase>)
    requires x.ordinal == count + 1
    ensures ModeIn(Some(x), x.ordinal, phases[x := Spawned]) == ModeIn(None, count, phases)
  {}

  lemma OtherPhase(y: Session, count: nat, phases: map<Session, Phase>, x: Session)
    requires y in phases && x !in phases
    ensures ModeIn(Some(y), count, phases[x := Spawned]) == ModeIn(Some(y), count, phases)
  {}

  lemma FreeMode(count: nat, phases: map<Session, Phase>, other: map<Session, Phase>)
    ensures ModeIn(None, count, phases) == ModeIn(None, count, other)
  {}

  lemma GivenOfShards(s: State, t: State, i: nat)
    requires s.shards != [] && t.shards == s.shards
    ensures Given(t, i) == Given(s, i)
  {}

  lemma FinishInStep(s: State, x: Session)
    requires Wired(s) && InStep(s) && InPhase(s, x, Closed)
    ensures InStep(Step(s, Finishes(x)))
  {
    hide SessionRegistry.Inv, SessionRegistry.Finish, Holder, CountOf, Scan, Given, ModeOf;
    var t := Step(s, Finishes(x));
    forall i: nat
      ensures Scan(Given(t, i)) == ModeOf(t, i)
    {
      GivenOfShards(s, t, i);
      assert Scan(Given(s, i)) == ModeOf(s, i);
      FinishMode(s, x, i);
    }
  }

  lemma FinishMode(s: State, x: Session, i: nat)
    requires Wired(s) && InPhase(s, x, Closed)
    ensures ModeOf(Step(s, Finishes(x)), i) == ModeOf(s, i)
  {
    hide SessionRegistry.Inv, SessionRegistry.Finish, Holder, CountOf;
    FinishEffect(s.registry, x);
    HolderFacts(s.registry);
    var y := Holder(s.registry, i);
    if y.Some? {
      assert y.value in s.phases && y.value == SessionOf(i, CountOf(s.registry, i));
    }
    assert Holder(s.registry, x.index) == Some(x) && x == SessionOf(x.index, CountOf(s.registry, x.index));
  }

  lemma WorkGiven(s: State, e: ActorSystem.Event<Upcall>, i: nat)
    requires s.shards != [] && !PostsUpcall(e)
    ensures Given(Work(s, e), i) == Given(s, i)
  {
    hide CallsFor, PickShard, Handle;
    ShardStepPosted(Home(s, i), e);
    if e.Posts? {
      CallsForSnoc(i, Home(s, i).posted, e.msg);
    }
  }

  lemma PostsInStep(s: State, x: Session, p: Phase, q: Phase, u: Upcall)
    requires Wired(s) && InStep(s) && NoWrap(s.registry) && InPhase(s, x, p)
    requires match u
             case Connected(_, _) => p == Spawned && q == Reading
             case PacketIn(_, _) => p == q == Reading
             case Disconnected(_) => p == Reading && q == Closed
    requires u.serial == x.serial
    ensures InStep(s.(phases := s.phases[x := q], shards := Post(s, x, u)))
  {
    HolderFacts(s.registry);
    SerialIsOrdinal(s.registry, x);
    hide SessionRegistry.Inv, Given, Scan, Holder, CountOf, NoWrap;
    PostInStep(s, x, q, u);
  }

  lemma SerialIsOrdinal(r: Registry, x: Session)
    requires SessionRegistry.Inv(r) && NoWrap(r) && x in r.running
    ensures x.serial == x.ordinal > 0
  {
    hide SessionRegistry.Inv;
    HolderFacts(r);
    assert Holder(r, x.index) == Some(x) && CountOf(r, x.index) < TWO_TO_32;
  }

  lemma StepInStep(s: State, e: Event)
    requires Wired(s) && InStep(s) && NoWrap(s.registry)
    ensures InStep(Step(s, e))
  {
    hide SessionRegistry.Inv, InStep, NoWrap;
    match e
    case Accepts => AcceptInStep(s);
    case PostsConnected(x, endpoint) =>
      if InPhase(s, x, Spawned) {
        PostsInStep(s, x, Spawned, Reading, Connected(x.serial, endpoint));
      }
    case PostsPacket(x, packet) =>
      if InPhase(s, x, Reading) {
        assert s.phases[x := Reading] == s.phases;
        PostsInStep(s, x, Reading, Reading, PacketIn(x.serial, packet));
      }
    case PostsDisconnected(x) =>
      if InPhase(s, x, Reading) {
        PostsInStep(s, x, Reading, Closed, Disconnected(x.serial));
      }
    case Finishes(x) =>
      if InPhase(s, x, Closed) {
        FinishInStep(s, x);
      }
    case Works(w) =>
      if !PostsUpcall(w) {
        WorkInStep(s, w);
      }
  }

  lemma WorkInStep(s: State, e: ActorSystem.Event<Upcall>)
    requires s.shards != [] && InStep(s) && !PostsUpcall(e)
    ensures InStep(Work(s, e))
  {
    forall i: nat
      ensures Scan(Given(Work(s, e), i)) == ModeOf(Work(s, e), i)
    {
      WorkGiven(s, e, i);
      hide Given, Scan;
      assert Scan(Given(s, i)) == ModeOf(s, i);
    }
  }

  lemma StepCounts(s: State, e: Event)
    requires Wired(s) && NoWrap(Step(s, e).registry)
    ensures NoWrap(s.registry)
  {
    hide SessionRegistry.Inv, Shaped, NextSession, SessionRegistry.Accept, SessionRegistry.Finish, CountOf;
    InvShaped(s.registry);
    if e.Accepts? {
      AcceptEffect(s.registry);
      var x := NextSession(s.registry);
      assert CountOf(Step(s, e).registry, x.index) == CountOf(s.registry, x.index) + 1;
    } else if e.Finishes? && InPhase(s, e.x, Closed) {
      FinishEffect(s.registry, e.x);
    }
    forall i: nat
      ensures CountOf(s.registry, i) < TWO_TO_32
    {
      assert CountOf(s.registry, i) <= CountOf(Step(s, e).registry, i);
    }
  }

  // ---- the dispatch half: what is run for an index ----

  /** What the handler keeps for an index, from the upcalls it has run. */
  function Kept(mode: Mode): u32 {
    if mode.Active? && mode.serial < TWO_TO_32 then mode.serial else 0
  }

  /** The endpoint of the last session that connected. */
  function LastEndpoint(us: seq<Upcall>): string {
    if us == [] then []
    else if us[|us| - 1].Connected? then us[|us| - 1].endpoint else LastEndpoint(us[..|us| - 1])
  }

  function HooksFor(i: nat, hooks: seq<(nat, Upcall)>): seq<Upcall> {
    if hooks == [] then []
    else
      var (j, u) := hooks[|hooks| - 1];
      HooksFor(i, hooks[..|hooks| - 1]) + (if j == i then [u] else [])
  }

  lemma HooksForSnoc(i: nat, hooks: seq<(nat, Upcall)>, j: nat, u: Upcall)
    ensures HooksFor(i, hooks + [(j, u)]) == HooksFor(i, hooks) + (if j == i then [u] else [])
  {
    assert (hooks + [(j, u)])[..|hooks|] == hooks;
  }

  /** What the handler keeps for an index after a history: the session and endpoint it is inside, if any. */
  predicate EntryIs(h: Handler, i: nat, us: seq<Upcall>) {
    match Scan(us)
    case Idle(_) => i !in h.serials && i !in h.endpoints
    case Active(serial) => i in h.serials && h.serials[i] == serial && i in h.endpoints && h.endpoints[i] == LastEndpoint(us)
    case Broken => false
  }

  /** ... and every upcall of the history has had its hook called, once and in order. */
  predicate Served(h: Handler, i: nat, us: seq<Upcall>) {
    EntryIs(h, i, us) && HooksFor(i, h.hooks) == us
  }

  ghost predicate HandlerInStep(s: State)
    requires s.shards != []
  {
    forall i: nat :: Served(s.handler, i, Seen(s, i))
  }

  lemma EndSeen(s: State, k: nat, i: nat)
    requires s.shards != [] && k < |s.shards| && s.shards[k].running.Some?
    requires ActorSystem.Inv(s.shards)
    ensures var m, t := s.shards[k].running.value, Work(s, Ends(k));
            Seen(t, i) == if m.id == i && m.body.Call? then Seen(s, i) + [m.body.call] else Seen(s, i)
  {
    hide PickShard, Routed, MapIsCurrent, CallsFor;
    var sh := s.shards[k];
    var m := sh.running.value;
    assert ShardInv(k, |s.shards|, sh);
    EndMessages(sh);
    RunningIsRouted(k, |s.shards|, sh);
    CallsForSnoc(i, Messages(sh.executed), m);
  }

  lemma EndMessages(sh: Shard<Upcall>)
    requires sh.running.Some?
    ensures Messages(End(sh).executed) == Messages(sh.executed) + [sh.running.value]
  {}

  lemma RunningIsRouted(k: nat, n: nat, sh: Shard<Upcall>)
    requires n > 0 && ShardInv(k, n, sh) && sh.running.Some?
    ensures PickShard(sh.running.value.id, n) == k
  {
    hide PickShard, MapIsCurrent;
    assert sh.posted[|sh.executed|] == sh.running.value && sh.running.value in sh.posted;
  }

  lemma LastEndpointSnoc(us: seq<Upcall>, u: Upcall)
    ensures LastEndpoint(us + [u]) == if u.Connected? then u.endpoint else LastEndpoint(us)
  {
    assert (us + [u])[..|us|] == us;
  }

  /** Handling the next upcall of a well-formed history calls its hook and moves the entry of that index ... */
  lemma HandleMoves(h: Handler, i: nat, us: seq<Upcall>, u: Upcall)
    requires Served(h, i, us) && Scan(us + [u]) != Broken
    ensures Served(Handle(h, i, u), i, us + [u])
  {
    ScanSnoc(us, u);
    LastEndpointSnoc(us, u);
    HooksForSnoc(i, h.hooks, i, u);
    hide Scan, LastEndpoint, HooksFor;
  }

  /** ... and no other. */
  lemma HandleKeepsOthers(h: Handler, i: nat, u: Upcall, j: nat, us: seq<Upcall>)
    requires Served(h, j, us) && i != j
    ensures Served(Handle(h, i, u), j, us)
  {
    HooksForSnoc(j, h.hooks, i, u);
    hide Scan, LastEndpoint, HooksFor;
  }

  lemma GivenNotBroken(s: State, i: nat)
    requires Wired(s)
    ensures ModeOf(s, i) != Broken
  {
    hide SessionRegistry.Inv, Holder, CountOf;
    HolderFacts(s.registry);
  }

  lemma SeenNotBroken(s: State, i: nat)
    requires Wired(s) && InStep(s) && ActorSystem.Inv(s.shards)
    ensures Scan(Seen(s, i)) != Broken
  {
    hide PickShard, SessionRegistry.Inv, Routed, MapIsCurrent, ModeIn, CallsFor;
    assert ShardInv(PickShard(i, |s.shards|), |s.shards|, Home(s, i));
    SeenIsPrefixOfGiven(s, i);
    var given, seen := Given(s, i), Seen(s, i);
    assert given == seen + given[|seen|..];
    assert Scan(given) == ModeOf(s, i);
    GivenNotBroken(s, i);
    ScanPrefix(seen, given[|seen|..]);
  }

  lemma EndHandlerInStep(s: State, k: nat)
    requires Wired(s) && InStep(s) && ActorSystem.Inv(s.shards) && HandlerInStep(s)
    requires k < |s.shards| && s.shards[k].running.Some?
    ensures HandlerInStep(Work(s, Ends(k)))
  {
    hide SessionRegistry.Inv, InStep, ActorSystem.Inv, ActorSystem.ShardStep, Seen, Scan, Handle, PickShard;
    var m, t := s.shards[k].running.value, Work(s, Ends(k));
    StepWired(s, Works(Ends(k)));
    ActorSystem.StepInv(s.shards, Ends(k));
    WorkInStep(s, Ends(k));
    SeenNotBroken(t, m.id);
    EndSeen(s, k, m.id);
    forall i: nat
      ensures Served(t.handler, i, Seen(t, i))
    {
      hide Served;
      assert Served(s.handler, i, Seen(s, i));
      EndSeen(s, k, i);
      if m.body.Call? && i == m.id {
        HandleMoves(s.handler, i, Seen(s, i), m.body.call);
      } else if m.body.Call? {
        HandleKeepsOthers(s.handler, m.id, m.body.call, i, Seen(s, i));
      }
    }
  }

  lemma NoEndHandlerInStep(s: State, t: State)
    requires s.shards != [] && t.shards != [] && HandlerInStep(s) && t.handler == s.handler
    requires forall i: nat :: Seen(t, i) == Seen(s, i)
    ensures HandlerInStep(t)
  {
    hide Seen, Served;
    assert forall i: nat :: Served(s.handler, i, Seen(s, i));
  }

  lemma StepHandlerInStep(s: State, e: Event)
    requires Wired(s) && InStep(s) && ActorSystem.Inv(s.shards) && HandlerInStep(s)
    ensures HandlerInStep(Step(s, e))
  {
    if e.Works? && e.e.Ends? && e.e.k < |s.shards| && s.shards[e.e.k].running.Some? {
      EndHandlerInStep(s, e.e.k);
    } else {
      hide SessionRegistry.Inv, InStep, ActorSystem.Inv, HandlerInStep, SessionRegistry.Accept, SessionRegistry.Finish, Shaped;
      forall i: nat
        ensures Seen(Step(s, e), i) == Seen(s, i)
      {
        StepSeen(s, e, i);
      }
      NoEndHandlerInStep(s, Step(s, e));
    }
  }

  lemma StepSeen(s: State, e: Event, i: nat)
    requires Wired(s)
    requires !(e.Works? && e.e.Ends? && e.e.k < |s.shards| && s.shards[e.e.k].running.Some?)
    ensures Seen(Step(s, e), i) == Seen(s, i) && Step(s, e).handler == s.handler
  {
    hide SessionRegistry.Inv, SessionRegistry.Accept, SessionRegistry.Finish, Shaped, PickShard, CallsFor;
  }

  ghost predicate Inv(s: State) {
    Wired(s) && InStep(s) && ActorSystem.Inv(s.shards) && HandlerInStep(s)
  }

  lemma StepShardsInv(s: State, e: Event)
    requires Wired(s) && ActorSystem.Inv(s.shards)
    ensures ActorSystem.Inv(Step(s, e).shards)
  {
    match e
    case PostsConnected(x, endpoint) => ActorSystem.StepInv(s.shards, Posts(Msg(x.index, Call(Connected(x.serial, endpoint)))));
    case PostsPacket(x, packet) => ActorSystem.StepInv(s.shards, Posts(Msg(x.index, Call(PacketIn(x.serial, packet)))));
    case PostsDisconnected(x) => ActorSystem.StepInv(s.shards, Posts(Msg(x.index, Call(Disconnected(x.serial)))));
    case Works(w) => ActorSystem.StepInv(s.shards, w);
    case _ =>
  }

  lemma StartGiven(n: nat, i: nat)
    requires n > 0
    ensures Given(Start(n), i) == Seen(Start(n), i) == []
  {
    hide PickShard;
    assert Home(Start(n), i) == EmptyShard();
  }

  lemma StartInv(n: nat)
    requires n > 0
    ensures Inv(Start(n))
  {
    hide PickShard, ActorSystem.Inv, SessionRegistry.Inv, Given, Seen;
    ActorSystem.StartInv<Upcall>(n);
    var s := Start(n);
    forall i: nat
      ensures Scan(Given(s, i)) == ModeOf(s, i) && Served(s.handler, i, Seen(s, i))
    {
      StartGiven(n, i);
    }
  }

  lemma {:induction false} RunInv(s: State, es: seq<Event>)
    requires Inv(s) && NoWrap(Run(s, es).registry)
    ensures Inv(Run(s, es)) && NoWrap(s.registry)
    decreases |es|
  {
    if es == [] {
    } else {
      StepWired(s, es[0]);
      CountsGrow(Step(s, es[0]), es[1..]);
      StepCounts(s, es[0]);
      StepInStep(s, es[0]);
      StepShardsInv(s, es[0]);
      StepHandlerInStep(s, es[0]);
      RunInv(Step(s, es[0]), es[1..]);
    }
  }

  lemma {:induction false} CountsGrow(s: State, es: seq<Event>)
    requires Wired(s) && NoWrap(Run(s, es).registry)
    ensures NoWrap(s.registry)
    decreases |es|
  {
    if es == [] {
    } else {
      StepWired(s, es[0]);
      CountsGrow(Step(s, es[0]), es[1..]);
      StepCounts(s, es[0]);
    }
  }

  /**
   * Per-index lifecycle. As long as no slot has started 2^32 sessions, in every run, for every index:
   * the upcalls run so far are blocks Connected(s) PacketIn(s)* Disconnected(s) with strictly increasing s;
   * each has had its hook called, in order, so no genuine close is dropped; and the handler knows serial and endpoint
   * of the session the index is in, and nothing once it has ended.
   */
  lemma IndexLifecycle(n: nat, es: seq<Event>, i: nat)
    requires n > 0 && NoWrap(Run(Start(n), es).registry)
    ensures var s := Run(Start(n), es);
            && Scan(Seen(s, i)) != Broken
            && HooksFor(i, s.handler.hooks) == Seen(s, i)
            && LatestSerial(s.handler, i) == Kept(Scan(Seen(s, i)))
            && EntryIs(s.handler, i, Seen(s, i))
  {
    StartInv(n);
    RunInv(Start(n), es);
    var s := Run(Start(n), es);
    assert Served(s.handler, i, Seen(s, i));
  }

  lemma LatestInStep(s: State, k: nat, u: Upcall)
    requires Inv(s) && k < |s.shards| && s.shards[k].running.Some?
    requires s.shards[k].running.value.body == Call(u) && !u.Connected?
    ensures LatestSerial(s.handler, s.shards[k].running.value.id) == u.serial
  {
    hide SessionRegistry.Inv, InStep, ActorSystem.Inv, ActorSystem.ShardStep, Seen, Scan, Handle, PickShard;
    var i, t := s.shards[k].running.value.id, Work(s, Ends(k));
    StepWired(s, Works(Ends(k)));
    ActorSystem.StepInv(s.shards, Ends(k));
    WorkInStep(s, Ends(k));
    SeenNotBroken(t, i);
    EndSeen(s, k, i);
    ScanSnoc(Seen(s, i), u);
    assert Served(s.handler, i, Seen(s, i));
  }

  /** While a packet or a disconnect of session s runs for its index, in any run, the latest serial of that index is s. */
  lemma LatestAtUpcall(n: nat, es: seq<Event>, k: nat, u: Upcall)
    requires n > 0 && NoWrap(Run(Start(n), es).registry) && k < n
    requires var running := Run(Start(n), es).shards[k].running;
             running.Some? && running.value.body == Call(u) && !u.Connected?
    ensures var s := Run(Start(n), es);
            LatestSerial(s.handler, s.shards[k].running.value.id) == u.serial
  {
    StartInv(n);
    RunInv(Start(n), es);
    hide Inv;
    LatestInStep(Run(Start(n), es), k, u);
  }
}
