/**
 * Which upcalls a run owes each index, read off the list of events alone, and that these are the upcalls
 * posted, run and served.
 */
module Dispatch {
  import opened Bytes
  import opened Packet
  import R = SessionRegistry
  import A = ActorSystem
  import opened Lifecycle

  // ---- where each session stands, from the events ----

  /** The registry after the accepts of the list and those finishes whose session had closed. */
  function RegistryAt(es: seq<Event>): (r: R.Registry)
    ensures R.Inv(r)
    decreases |es|
  {
    if es == [] then
      R.FreshInv();
      R.FRESH
    else
      var front, e := es[..|es| - 1], es[|es| - 1];
      var r := RegistryAt(front);
      R.StepInv(r, R.Taken);
      if e.Accepts? then R.Step(r, R.Taken)
      else if e.Finishes? && StageOf(front, e.x) == Some(Closed) then
        R.StepInv(r, R.Returned(e.x));
        R.Step(r, R.Returned(e.x))
      else r
  }

  /** A session is spawned by the accept that issues it, reads once it has connected, and closes once; then it is gone. */
  function StageAfter(before: Option<Phase>, e: Event, x: R.Session, next: R.Session): Option<Phase> {
    match e
    case Accepts => if x == next then Some(Spawned) else before
    case PostsConnected(y, _) => if x == y && before == Some(Spawned) then Some(Reading) else before
    case PostsDisconnected(y) => if x == y && before == Some(Reading) then Some(Closed) else before
    case Finishes(y) => if x == y && before == Some(Closed) then None else before
    case _ => before
  }

  function StageOf(es: seq<Event>, x: R.Session): Option<Phase>
    decreases |es|
  {
    if es == [] then None
    else
      var front := es[..|es| - 1];
      StageAfter(StageOf(front, x), es[|es| - 1], x, R.NextSession(RegistryAt(front)))
  }

  /** The index and the upcall that an event owes, after the events before it. */
  function DueAt(front: seq<Event>, e: Event): Option<(nat, Upcall)> {
    match e
    case PostsConnected(x, endpoint) =>
      if StageOf(front, x) == Some(Spawned) then Some((x.index, Connected(x.serial, endpoint))) else None
    case PostsPacket(x, packet) =>
      if StageOf(front, x) == Some(Reading) then Some((x.index, PacketIn(x.serial, packet))) else None
    case PostsDisconnected(x) =>
      if StageOf(front, x) == Some(Reading) then Some((x.index, Disconnected(x.serial))) else None
    case _ => None
  }

  /** The upcalls owed to index `i`: one for each connect, packet and disconnect of a session of that index in its right stage. */
  function PostedFor(es: seq<Event>, i: nat): seq<Upcall>
    decreases |es|
  {
    if es == [] then []
    else
      var front := es[..|es| - 1];
      var due := DueAt(front, es[|es| - 1]);
      PostedFor(front, i) + (if due.Some? && due.value.0 == i then [due.value.1] else [])
  }

  /** What one event makes the actor system do: a post that is due, or a step of its own. */
  function ActorEventsOf(e: Event, due: Option<(nat, Upcall)>): seq<A.Event<Upcall>> {
    if due.Some? then [A.Posts(A.Msg(due.value.0, A.Call(due.value.1)))]
    else if e.Works? && !PostsUpcall(e.e) then [e.e]
    else []
  }

  function ActorEvents(es: seq<Event>): seq<A.Event<Upcall>>
    decreases |es|
  {
    if es == [] then []
    else
      var front := es[..|es| - 1];
      ActorEvents(front) + ActorEventsOf(es[|es| - 1], DueAt(front, es[|es| - 1]))
  }

  // ---- the system does what the list says ----

  lemma {:induction false} RunSnoc(s: State, es: seq<Event>)
    requires Wired(s) && es != []
    ensures Run(s, es) == Step(Run(s, es[..|es| - 1]), es[|es| - 1])
    decreases |es|
  {
    hide Step, Wired;
    StepWired(s, es[0]);
    if |es| == 1 {
      assert es[1..] == [] && es[..0] == [];
    } else {
      RunSnoc(Step(s, es[0]), es[1..]);
      assert es[1..][..|es| - 2] == es[..|es| - 1][1..];
    }
  }

  function PhaseIn(phases: map<R.Session, Phase>, x: R.Session): Option<Phase> {
    if x in phases then Some(phases[x]) else None
  }

  ghost predicate PhasesAre(phases: map<R.Session, Phase>, es: seq<Event>) {
    forall x :: StageOf(es, x) == PhaseIn(phases, x)
  }

  function ShardsAt(n: nat, es: seq<Event>): (shards: seq<A.Shard<Upcall>>)
    requires n > 0
    ensures |shards| == n
  {
    A.Run(A.Start(n), ActorEvents(es))
  }

  ghost predicate Tracked(s: State, n: nat, es: seq<Event>)
    requires n > 0
  {
    s.registry == RegistryAt(es) && PhasesAre(s.phases, es) && s.shards == ShardsAt(n, es)
  }

  lemma WiredParts(s: State)
    requires Wired(s)
    ensures s.shards != [] && R.Inv(s.registry) && R.Shaped(s.registry) && s.phases.Keys == s.registry.running
  {
    R.InvIsShaped(s.registry);
  }

  lemma PhaseUpdate(phases: map<R.Session, Phase>, y: R.Session, p: Phase, x: R.Session)
    ensures PhaseIn(phases[y := p], x) == if x == y then Some(p) else PhaseIn(phases, x)
    ensures PhaseIn(phases - {y}, x) == if x == y then None else PhaseIn(phases, x)
  {}

  lemma StepPhase(s: State, e: Event, x: R.Session)
    requires Wired(s) && R.Shaped(s.registry)
    ensures PhaseIn(Step(s, e).phases, x) == StageAfter(PhaseIn(s.phases, x), e, x, R.NextSession(s.registry))
  {
    WiredParts(s);
    hide Wired, R.Inv, R.Shaped, R.NextSession, R.Accept, R.Finish, Post, PostsUpcall, A.Step, Handle;
    match e {
      case Accepts => PhaseUpdate(s.phases, R.NextSession(s.registry), Spawned, x);
      case PostsConnected(y, _) => PhaseUpdate(s.phases, y, Reading, x);
      case PostsPacket(_, _) =>
      case PostsDisconnected(y) => PhaseUpdate(s.phases, y, Closed, x);
      case Finishes(y) => PhaseUpdate(s.phases, y, Closed, x);
      case Works(w) =>
    }
  }

  lemma StageSnoc(es: seq<Event>, x: R.Session)
    requires es != []
    ensures var front := es[..|es| - 1];
            StageOf(es, x) == StageAfter(StageOf(front, x), es[|es| - 1], x, R.NextSession(RegistryAt(front)))
  {}

  lemma TrackPhases(s: State, es: seq<Event>)
    requires Wired(s) && es != [] && s.registry == RegistryAt(es[..|es| - 1]) && PhasesAre(s.phases, es[..|es| - 1])
    ensures PhasesAre(Step(s, es[|es| - 1]).phases, es)
  {
    WiredParts(s);
    hide Wired, StageOf, StageAfter, PhaseIn, Step, RegistryAt, R.Inv, R.Shaped, R.NextSession;
    forall x
      ensures StageOf(es, x) == PhaseIn(Step(s, es[|es| - 1]).phases, x)
    {
      StageSnoc(es, x);
      StepPhase(s, es[|es| - 1], x);
    }
  }

  lemma StepRegistry(s: State, e: Event)
    requires Wired(s) && R.Shaped(s.registry)
    ensures Step(s, e).registry ==
            if e.Accepts? then R.Step(s.registry, R.Taken)
            else if e.Finishes? && PhaseIn(s.phases, e.x) == Some(Closed) then R.Step(s.registry, R.Returned(e.x))
            else s.registry
  {
    WiredParts(s);
    hide R.Inv, R.Shaped, R.NextSession, R.Accept, R.Finish, Post;
  }

  lemma TrackRegistry(s: State, es: seq<Event>)
    requires Wired(s) && es != [] && s.registry == RegistryAt(es[..|es| - 1]) && PhasesAre(s.phases, es[..|es| - 1])
    ensures Step(s, es[|es| - 1]).registry == RegistryAt(es)
  {
    WiredParts(s);
    StepRegistry(s, es[|es| - 1]);
    hide Wired, StageOf, PhaseIn, Step, R.Inv, R.Shaped, R.NextSession, R.Step;
  }

  lemma StageIsPhase(phases: map<R.Session, Phase>, front: seq<Event>, x: R.Session)
    requires PhasesAre(phases, front)
    ensures StageOf(front, x) == PhaseIn(phases, x)
  {}

  lemma StepShards(s: State, e: Event, front: seq<Event>)
    requires Wired(s) && s.shards != [] && PhasesAre(s.phases, front)
    ensures var due := ActorEventsOf(e, DueAt(front, e));
            Step(s, e).shards == (if due == [] then s.shards else A.Step(s.shards, due[0])) && |due| <= 1
  {
    hide Wired, PhasesAre, StageOf, R.NextSession, R.Accept, R.Finish, A.Step, Handle;
    match e {
      case PostsConnected(x, _) => StageIsPhase(s.phases, front, x);
      case PostsPacket(x, _) => StageIsPhase(s.phases, front, x);
      case PostsDisconnected(x) => StageIsPhase(s.phases, front, x);
      case Accepts =>
      case Finishes(x) =>
      case Works(w) =>
    }
  }

  lemma ShardsSnoc(n: nat, es: seq<Event>)
    requires n > 0 && es != []
    ensures var front, e := es[..|es| - 1], es[|es| - 1];
            var due := ActorEventsOf(e, DueAt(front, e));
            ShardsAt(n, es) == if due == [] then ShardsAt(n, front) else A.Step(ShardsAt(n, front), due[0])
  {
    hide DueAt, A.Run, A.Step;
    var front, e := es[..|es| - 1], es[|es| - 1];
    var due := ActorEventsOf(e, DueAt(front, e));
    if due == [] {
      assert ActorEvents(front) + due == ActorEvents(front);
    } else {
      assert due == [due[0]];
      RunSnocActors(n, ActorEvents(front), due[0]);
    }
  }

  lemma TrackShards(s: State, n: nat, es: seq<Event>)
    requires n > 0 && Wired(s) && es != [] && PhasesAre(s.phases, es[..|es| - 1]) && s.shards == ShardsAt(n, es[..|es| - 1])
    ensures Step(s, es[|es| - 1]).shards == ShardsAt(n, es)
  {
    hide Step, PhasesAre, DueAt, ActorEventsOf, ShardsAt, A.Step, R.Inv;
    StepShards(s, es[|es| - 1], es[..|es| - 1]);
    ShardsSnoc(n, es);
  }

  lemma RunSnocActors(n: nat, es: seq<A.Event<Upcall>>, e: A.Event<Upcall>)
    requires n > 0
    ensures A.Run(A.Start(n), es + [e]) == A.Step(A.Run(A.Start(n), es), e)
  {
    assert (es + [e])[..|es|] == es;
    A.RunSnoc(A.Start(n), es + [e]);
  }

  lemma {:induction false} RunIsTracked(n: nat, es: seq<Event>)
    requires n > 0
    ensures Tracked(Run(Start(n), es), n, es)
    decreases |es|
  {
    hide Wired, Step, PhasesAre, RegistryAt, ShardsAt;
    if es == [] {
      StartIsTracked(n);
    } else {
      var s := Run(Start(n), es[..|es| - 1]);
      RunIsTracked(n, es[..|es| - 1]);
      RunSnoc(Start(n), es);
      TrackRegistry(s, es);
      TrackPhases(s, es);
      TrackShards(s, n, es);
    }
  }

  lemma StartIsTracked(n: nat)
    requires n > 0
    ensures Tracked(Run(Start(n), []), n, [])
  {}

  // ---- posted, run and served ----

  lemma {:induction false} PostedCalls(es: seq<Event>, i: nat)
    ensures CallsFor(i, A.Posted(ActorEvents(es))) == PostedFor(es, i)
    decreases |es|
  {
    hide CallsFor, DueAt;
    if es == [] {
      NoCalls(i);
    } else {
      var front, e := es[..|es| - 1], es[|es| - 1];
      PostedCalls(front, i);
      PostedCallsSnoc(ActorEvents(front), e, DueAt(front, e), i);
    }
  }

  lemma PostedCallsSnoc(es: seq<A.Event<Upcall>>, e: Event, due: Option<(nat, Upcall)>, i: nat)
    ensures CallsFor(i, A.Posted(es + ActorEventsOf(e, due))) ==
            CallsFor(i, A.Posted(es)) + (if due.Some? && due.value.0 == i then [due.value.1] else [])
  {
    hide CallsFor;
    var more := ActorEventsOf(e, due);
    if more == [] {
      assert es + more == es;
    } else {
      PostedSnoc(es, more[0]);
      if more[0].Posts? {
        CallsForSnoc(i, A.Posted(es), more[0].msg);
      } else {
        assert A.Posted(es) + [] == A.Posted(es);
      }
    }
    hide A.Posted;
  }

  lemma NoCalls(i: nat)
    ensures CallsFor(i, []) == []
  {}

  lemma PostedSnoc(es: seq<A.Event<Upcall>>, e: A.Event<Upcall>)
    ensures A.Posted(es + [e]) == A.Posted(es) + (if e.Posts? then [e.msg] else [])
  {
    assert (es + [e])[..|es|] == es;
  }

  /** In every run, what has been posted for an index is exactly what the events owe it, in event order and with their content. */
  lemma GivenIsOwed(n: nat, es: seq<Event>, i: nat)
    requires n > 0
    ensures Given(Run(Start(n), es), i) == PostedFor(es, i)
  {
    RunIsTracked(n, es);
    A.PostedToShard(n, ActorEvents(es), i);
    PostedCalls(es, i);
    hide Wired, RegistryAt, StageOf, ActorEvents, PostedFor, A.Run;
  }

  /** Nothing of the index's shard is left in queue or batch or running. */
  predicate Drained(s: State, i: nat)
    requires s.shards != []
  {
    A.Pending(Home(s, i)) == []
  }

  lemma DrainedSeesAll(s: State, i: nat)
    requires s.shards != [] && Drained(s, i) && A.Ordered(Home(s, i))
    ensures Seen(s, i) == Given(s, i)
  {
    var h := Home(s, i);
    assert h.posted == A.Messages(h.executed) + [];
    assert A.Messages(h.executed) + [] == A.Messages(h.executed);
  }

  /**
   * Once an index's shard has nothing left to do, every upcall the events owe the index has had its hook called,
   * once, in order and with its content.
   */
  lemma OwedIsServed(n: nat, es: seq<Event>, i: nat)
    requires n > 0 && NoWrap(Run(Start(n), es).registry) && Drained(Run(Start(n), es), i)
    ensures HooksFor(i, Run(Start(n), es).handler.hooks) == PostedFor(es, i)
  {
    var s := Run(Start(n), es);
    StartInv(n);
    RunInv(Start(n), es);
    IndexLifecycle(n, es, i);
    GivenIsOwed(n, es, i);
    hide PostedFor, Run, Given, Seen, HandlerInStep, InStep, Wired;
    assert A.ShardInv(A.PickShard(i, |s.shards|), |s.shards|, Home(s, i));
    DrainedSeesAll(s, i);
  }

  // ---- and the workers can always get there ----

  function AsWorks(ws: seq<A.Event<Upcall>>): seq<Event> {
    if ws == [] then [] else [Works(ws[0])] + AsWorks(ws[1..])
  }

  lemma {:induction false} RunAppend(s: State, es: seq<Event>, more: seq<Event>)
    requires Wired(s)
    ensures Run(s, es + more) == Run(Run(s, es), more)
    decreases |es|
  {
    hide Step, Wired;
    if es == [] {
      assert es + more == more;
    } else {
      assert (es + more)[1..] == es[1..] + more;
      StepWired(s, es[0]);
      RunAppend(Step(s, es[0]), es[1..], more);
    }
  }

  lemma WorkStep(s: State, w: A.Event<Upcall>)
    requires Wired(s) && s.shards != [] && !w.Posts?
    ensures Step(s, Works(w)).shards == A.Step(s.shards, w) && Step(s, Works(w)).registry == s.registry
  {
    hide R.Inv, A.Step, Handle;
  }

  lemma {:induction false} WorksOnly(s: State, ws: seq<A.Event<Upcall>>, k: nat)
    requires Wired(s) && s.shards != [] && forall w <- ws :: A.WorkerStep(w, k)
    ensures Run(s, AsWorks(ws)).shards == A.Run(s.shards, ws) && Run(s, AsWorks(ws)).registry == s.registry
    decreases |ws|
  {
    hide Step, Wired, A.Step;
    if ws == [] {
    } else {
      assert AsWorks(ws)[1..] == AsWorks(ws[1..]);
      assert A.WorkerStep(ws[0], k);
      WorkStep(s, ws[0]);
      StepWired(s, Works(ws[0]));
      WorksOnly(Step(s, Works(ws[0])), ws[1..], k);
    }
  }

  lemma {:induction false} WorksOweNothing(es: seq<Event>, ws: seq<A.Event<Upcall>>, i: nat)
    ensures PostedFor(es + AsWorks(ws), i) == PostedFor(es, i)
    decreases |ws|
  {
    hide StageOf;
    if ws == [] {
      assert es + AsWorks(ws) == es;
    } else {
      var e1 := es + [Works(ws[0])];
      assert es + AsWorks(ws) == e1 + AsWorks(ws[1..]);
      assert e1[..|e1| - 1] == es;
      assert PostedFor(e1, i) == PostedFor(es, i) + [];
      WorksOweNothing(e1, ws[1..], i);
    }
  }

  /** From every run some further steps of one worker bring every upcall owed to an index to its hook. */
  lemma EveryPostCanBeServed(n: nat, es: seq<Event>, i: nat) returns (ws: seq<A.Event<Upcall>>)
    requires n > 0 && NoWrap(Run(Start(n), es).registry)
    ensures forall w <- ws :: A.WorkerStep(w, A.PickShard(i, n))
    ensures HooksFor(i, Run(Start(n), es + AsWorks(ws)).handler.hooks) == PostedFor(es, i)
  {
    var s, k := Run(Start(n), es), A.PickShard(i, n);
    assert |s.shards| == n;
    ws := A.WorkerDrains(s.shards, k);
    hide Run, NoWrap, HooksFor, PostedFor, AsWorks, Wired, A.Run, A.Pending, A.PickShard;
    WorksOnly(s, ws, k);
    RunAppend(Start(n), es, AsWorks(ws));
    WorksOweNothing(es, ws, i);
    OwedIsServed(n, es + AsWorks(ws), i);
  }
}
