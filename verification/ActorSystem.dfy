/** Sharded actors: a message is routed by its actor id, and one worker drains each shard's queue batch by batch. */
module ActorSystem {
  import opened Bytes

  /** pick_shard_: x = id ^ (id >> 33) ^ (id << 11) on 64 bits, modulo the number of shards. */
  function PickShard(id: nat, n: nat): (k: nat)
    requires n > 0
    ensures k < n
  {
    Mix((id % TWO_TO_64) as bv64) as nat % n
  }

  function Mix(b: bv64): bv64 {
    b ^ (b >> 33) ^ (b << 11)
  }

  // ---- what the mix does ----

  predicate BitAt(b: bv64, k: bv64)
    requires k < 64
  {
    (b >> k) & 1 == 1
  }

  lemma DownBits(b: bv64, k: bv64)
    requires k < 64
    ensures k < 31 ==> BitAt(b >> 33, k) == BitAt(b, k + 33)
    ensures k >= 31 ==> !BitAt(b >> 33, k)
  {}

  lemma UpBits(b: bv64, k: bv64)
    requires k < 64
    ensures k >= 11 ==> BitAt(b << 11, k) == BitAt(b, k - 11)
    ensures k < 11 ==> !BitAt(b << 11, k)
  {}

  lemma XorBits(b: bv64, c: bv64, d: bv64, k: bv64)
    requires k < 64
    ensures BitAt(b ^ c ^ d, k) == (BitAt(b, k) != (BitAt(c, k) != BitAt(d, k)))
  {}

  /** Bit `k` of the mix is the parity of the id's bits k, k + 33 and k - 11, those that exist. */
  lemma MixBits(b: bv64, k: bv64)
    requires k < 64
    ensures BitAt(Mix(b), k) == (BitAt(b, k) != ((k < 31 && BitAt(b, k + 33)) != (k >= 11 && BitAt(b, k - 11))))
  {
    DownBits(b, k);
    UpBits(b, k);
    XorBits(b, b >> 33, b << 11, k);
    hide BitAt;
  }

  predicate IsMix(b: bv64, m: bv64) { m == b ^ (b >> 33) ^ (b << 11) }

  predicate IsXor(d: bv64, b: bv64, c: bv64) { d == b ^ c }

  lemma MixIsMix(b: bv64)
    ensures IsMix(b, Mix(b))
  {}

  lemma DifferenceMixesToZero(b: bv64, c: bv64, d: bv64)
    requires d == b ^ c && b ^ (b >> 33) ^ (b << 11) == c ^ (c >> 33) ^ (c << 11)
    ensures d ^ (d >> 33) ^ (d << 11) == 0
  {}

  lemma SameMix(b: bv64, c: bv64, m: bv64, d: bv64)
    requires IsMix(b, m) && IsMix(c, m) && IsXor(d, b, c)
    ensures IsMix(d, 0)
  {
    DifferenceMixesToZero(b, c, d);
  }

  lemma OnlyZeroMixesToZero(d: bv64)
    requires d < 0x80_0000_0000_0000 && IsMix(d, 0)
    ensures d == 0
  {}

  lemma XorFacts(b: bv64, c: bv64) returns (d: bv64)
    requires b < 0x80_0000_0000_0000 && c < 0x80_0000_0000_0000
    ensures IsXor(d, b, c) && d < 0x80_0000_0000_0000 && (d == 0 ==> b == c)
  {
    d := b ^ c;
  }

  lemma SmallIdsSeparate(b: bv64, c: bv64)
    requires b < 0x80_0000_0000_0000 && c < 0x80_0000_0000_0000 && Mix(b) == Mix(c)
    ensures b == c
  {
    hide Mix, IsMix, IsXor;
    MixIsMix(b);
    MixIsMix(c);
    var d := XorFacts(b, c);
    SameMix(b, c, Mix(b), d);
    OnlyZeroMixesToZero(d);
  }

  predicate Separates(bound: bv64, b: bv64, c: bv64) {
    b < bound && c < bound && Mix(b) == Mix(c) ==> b == c
  }

  /** The mix is not one-to-one: it tells all ids below a bound apart iff the bound is at most 2^55. */
  lemma MixSeparatesBelow(bound: bv64)
    ensures (forall b, c :: Separates(bound, b, c)) <==> bound <= 0x80_0000_0000_0000
  {
    if bound <= 0x80_0000_0000_0000 {
      forall b, c
        ensures Separates(bound, b, c)
      {
        if b < bound && c < bound && Mix(b) == Mix(c) {
          SmallIdsSeparate(b, c);
        }
      }
    } else {
      assert !Separates(bound, 0x80_0000_0000_0000, 0x1002_0040_0001) by { TwoIdsCollide(); }
    }
  }

  lemma TwoIdsCollide()
    ensures Mix(0x80_0000_0000_0000) == Mix(0x1002_0040_0001)
  {}

  /** Every 64-bit id goes to its mix modulo the number of shards. */
  lemma ShardOfId(b: bv64, n: nat)
    requires n > 0
    ensures PickShard(b as nat, n) == Mix(b) as nat % n
  {
    BackAndForth(b);
    hide Mix;
  }

  lemma BackAndForth(b: bv64)
    ensures (b as nat) as bv64 == b
  {}

  /**
   * A posted function: a plain call, a call on the actor's instance, or the actor's removal.
   * `makes` tells whether the call's factory, if it is needed, returns an instance rather than null or an exception.
   */
  datatype Body<M> = Call(call: M) | ActorCall(call: M, makes: bool) | Erase

  datatype Msg<M> = Msg(id: nat, body: Body<M>)

  /** A message that has run; `seen` is the instance an ActorCall ran on. */
  datatype Done<M> = Done(msg: Msg<M>, seen: Option<nat>)

  /** `posted` and `executed` record the past. Instances are numbered as their factory calls succeed. */
  datatype Shard<M> = Shard(
    queue: seq<Msg<M>>,
    batch: seq<Msg<M>>,
    running: Option<Msg<M>>,
    actors: map<nat, Option<nat>>,
    nextInstance: nat,
    posted: seq<Msg<M>>,
    executed: seq<Done<M>>)

  function EmptyShard<M>(): Shard<M> {
    Shard([], [], None, map[], 0, [], [])
  }

  function Push<M>(s: Shard<M>, m: Msg<M>): Shard<M> {
    s.(queue := s.queue + [m], posted := s.posted + [m])
  }

  /** The worker swaps the whole queue out, once its last batch is used up. */
  function Swap<M>(s: Shard<M>): Shard<M> {
    if s.batch == [] && s.running.None? then s.(queue := [], batch := s.queue) else s
  }

  function Begin<M>(s: Shard<M>): Shard<M> {
    if s.batch != [] && s.running.None? then s.(batch := s.batch[1..], running := Some(s.batch[0])) else s
  }

  /** The instance in the map slot of `id`; a slot that a failed factory left empty counts as none. */
  function InstanceOf(actors: map<nat, Option<nat>>, id: nat): Option<nat> {
    if id in actors then actors[id] else None
  }

  /** What running the message does to the shard's actor map, and the instance the call gets. */
  function Execute<M>(s: Shard<M>, m: Msg<M>): Shard<M> {
    match m.body
    case Call(_) => s.(executed := s.executed + [Done(m, None)])
    case Erase => s.(actors := s.actors - {m.id}, executed := s.executed + [Done(m, None)])
    case ActorCall(_, makes) =>
      match InstanceOf(s.actors, m.id)
      case Some(i) => s.(executed := s.executed + [Done(m, Some(i))])
      case None =>
        if makes then
          s.(actors := s.actors[m.id := Some(s.nextInstance)],
             nextInstance := s.nextInstance + 1,
             executed := s.executed + [Done(m, Some(s.nextInstance))])
        else
          s.(actors := s.actors[m.id := None], executed := s.executed + [Done(m, None)])
  }

  function End<M>(s: Shard<M>): Shard<M> {
    if s.running.Some? then Execute(s, s.running.value).(running := None) else s
  }

  /** Any thread may post; worker `k` takes its three kinds of step. */
  datatype Event<M> = Posts(msg: Msg<M>) | Swaps(k: nat) | Begins(k: nat) | Ends(k: nat)

  function ShardStep<M>(s: Shard<M>, e: Event<M>): Shard<M> {
    match e
    case Posts(m) => Push(s, m)
    case Swaps(_) => Swap(s)
    case Begins(_) => Begin(s)
    case Ends(_) => End(s)
  }

  function Target<M>(e: Event<M>, n: nat): nat
    requires n > 0
  {
    if e.Posts? then PickShard(e.msg.id, n) else e.k
  }

  function Step<M>(shards: seq<Shard<M>>, e: Event<M>): (r: seq<Shard<M>>)
    requires shards != []
    ensures |r| == |shards|
  {
    var k := Target(e, |shards|);
    if k >= |shards| then shards
    else
      shards[k := ShardStep(shards[k], e)]
  }

  function Run<M>(shards: seq<Shard<M>>, es: seq<Event<M>>): (r: seq<Shard<M>>)
    requires shards != []
    ensures |r| == |shards|
    decreases |es|
  {
    if es == [] then shards else Run(Step(shards, es[0]), es[1..])
  }

  function Start<M>(n: nat): seq<Shard<M>> {
    seq(n, _ => EmptyShard())
  }

  // ---- order ----

  function Messages<M>(ds: seq<Done<M>>): (r: seq<Msg<M>>)
    ensures |r| == |ds|
  {
    seq(|ds|, i requires 0 <= i < |ds| => ds[i].msg)
  }

  function Running<M>(s: Shard<M>): seq<Msg<M>> {
    if s.running.Some? then [s.running.value] else []
  }

  /** What the shard has been given and not finished: the running message, the rest of the batch, the queue. */
  function Pending<M>(s: Shard<M>): seq<Msg<M>> {
    Running(s) + s.batch + s.queue
  }

  function ForActor<M>(id: nat, ms: seq<Msg<M>>): seq<Msg<M>>
  {
    if ms == [] then []
    else ForActor(id, ms[..|ms| - 1]) + (if ms[|ms| - 1].id == id then [ms[|ms| - 1]] else [])
  }

  lemma {:induction false} ForActorAppend<M>(id: nat, a: seq<Msg<M>>, b: seq<Msg<M>>)
    ensures ForActor(id, a + b) == ForActor(id, a) + ForActor(id, b)
  {
    if b == [] {
      assert a + b == a;
    } else {
      var n := |b| - 1;
      assert (a + b)[..|a + b| - 1] == a + b[..n] && (a + b)[|a + b| - 1] == b[n];
      ForActorAppend(id, a, b[..n]);
    }
  }

  // ---- instances ----

  /** The instance current for `id` after these messages have run. */
  function Current<M>(ds: seq<Done<M>>, id: nat): Option<nat> {
    if ds == [] then None
    else
      var d := ds[|ds| - 1];
      if d.msg.id != id || d.msg.body.Call? then Current(ds[..|ds| - 1], id)
      else if d.msg.body.Erase? then None
      else d.seen
  }

  /** The instances created so far are the numbers below this one. */
  function Created<M>(ds: seq<Done<M>>): nat {
    if ds == [] then 0
    else
      var n, d := Created(ds[..|ds| - 1]), ds[|ds| - 1];
      if d.seen.Some? && d.seen.value >= n then d.seen.value + 1 else n
  }

  /**
   * Each actor call ran on the instance its actor already had; without one, on an instance never seen before
   * when the factory made it, and not at all when the factory failed.
   */
  predicate RightInstance<M>(before: seq<Done<M>>, d: Done<M>) {
    d.msg.body.ActorCall? ==>
      match Current(before, d.msg.id)
      case Some(i) => d.seen == Some(i)
      case None => d.seen == if d.msg.body.makes then Some(Created(before)) else None
  }

  ghost predicate SameInstance<M>(ds: seq<Done<M>>) {
    forall p | 0 <= p < |ds| :: RightInstance(ds[..p], ds[p])
  }

  ghost predicate Ordered<M>(s: Shard<M>) {
    s.posted == Messages(s.executed) + Pending(s)
  }

  ghost predicate Routed<M>(k: nat, n: nat, s: Shard<M>)
    requires n > 0
  {
    && (forall m <- s.posted :: PickShard(m.id, n) == k)
    && (forall id <- s.actors :: PickShard(id, n) == k)
  }

  ghost predicate MapIsCurrent<M>(s: Shard<M>) {
    && (forall id: nat :: InstanceOf(s.actors, id) == Current(s.executed, id))
    && s.nextInstance == Created(s.executed)
    && SameInstance(s.executed)
  }

  ghost predicate ShardInv<M>(k: nat, n: nat, s: Shard<M>)
    requires n > 0
  {
    Ordered(s) && Routed(k, n, s) && MapIsCurrent(s)
  }

  ghost predicate Inv<M>(shards: seq<Shard<M>>) {
    forall k | 0 <= k < |shards| :: ShardInv(k, |shards|, shards[k])
  }

  lemma EndOrdered<M>(s: Shard<M>)
    requires Ordered(s) && s.running.Some?
    ensures Ordered(End(s))
  {
    var t := End(s);
    var d := t.executed[|s.executed|];
    assert t.executed == s.executed + [d];
    assert Messages(t.executed) == Messages(s.executed) + [s.running.value];
  }

  lemma EndRouted<M>(k: nat, n: nat, s: Shard<M>)
    requires n > 0 && Ordered(s) && Routed(k, n, s)
    ensures Routed(k, n, End(s))
  {
    hide PickShard;
    if s.running.Some? {
      assert s.posted[|s.executed|] == s.running.value && s.running.value in s.posted;
    }
  }

  lemma SnocSameInstance<M>(ds: seq<Done<M>>, d: Done<M>)
    requires SameInstance(ds) && RightInstance(ds, d)
    ensures SameInstance(ds + [d])
  {
    var all := ds + [d];
    forall p | 0 <= p < |all|
      ensures RightInstance(all[..p], all[p])
    {
      assert all[..p] == ds[..p];
      if p < |ds| {
        assert RightInstance(ds[..p], ds[p]);
      } else {
        assert all[..p] == ds;
      }
    }
  }

  lemma CurrentSnoc<M>(ds: seq<Done<M>>, d: Done<M>, id: nat)
    ensures Current(ds + [d], id) ==
            if d.msg.id != id || d.msg.body.Call? then Current(ds, id) else if d.msg.body.Erase? then None else d.seen
    ensures Created(ds + [d]) == if d.seen.Some? && d.seen.value >= Created(ds) then d.seen.value + 1 else Created(ds)
  {
    assert (ds + [d])[..|ds|] == ds;
  }

  lemma EndMapIsCurrent<M>(s: Shard<M>)
    requires MapIsCurrent(s) && s.running.Some?
    ensures MapIsCurrent(End(s))
  {
    hide Current, Created, SameInstance;
    var m, t := s.running.value, End(s);
    var d := t.executed[|s.executed|];
    assert t.executed == s.executed + [d];
    assert InstanceOf(s.actors, m.id) == Current(s.executed, m.id);
    CurrentIsCreated(s.executed, m.id);
    SnocSameInstance(s.executed, d);
    forall id: nat
      ensures InstanceOf(t.actors, id) == Current(t.executed, id)
    {
      CurrentSnoc(s.executed, d, id);
      assert InstanceOf(s.actors, id) == Current(s.executed, id);
    }
    CurrentSnoc(s.executed, d, m.id);
  }

  lemma {:induction false} CurrentIsCreated<M>(ds: seq<Done<M>>, id: nat)
    ensures Current(ds, id).Some? ==> Current(ds, id).value < Created(ds)
  {
    if ds == [] {
    } else {
      CurrentIsCreated(ds[..|ds| - 1], id);
    }
  }

  lemma ShardStepInv<M>(k: nat, n: nat, s: Shard<M>, e: Event<M>)
    requires n > 0 && ShardInv(k, n, s)
    requires e.Posts? ==> PickShard(e.msg.id, n) == k
    ensures ShardInv(k, n, ShardStep(s, e))
  {
    match e
    case Posts(m) => assert Messages(s.executed) + Pending(s) + [m] == Messages(s.executed) + Pending(Push(s, m));
    case Swaps(_) =>
    case Begins(_) =>
    case Ends(_) =>
      if s.running.Some? {
        EndOrdered(s);
        EndRouted(k, n, s);
        EndMapIsCurrent(s);
      }
  }

  lemma StepInv<M>(shards: seq<Shard<M>>, e: Event<M>)
    requires shards != [] && Inv(shards)
    ensures Inv(Step(shards, e))
  {
    var k := Target(e, |shards|);
    if k < |shards| {
      ShardStepInv(k, |shards|, shards[k], e);
    }
  }

  /** Every interleaving of posts and worker steps keeps each shard's books. */
  lemma {:induction false} RunInv<M>(shards: seq<Shard<M>>, es: seq<Event<M>>)
    requires shards != [] && Inv(shards)
    ensures Inv(Run(shards, es))
    decreases |es|
  {
    if es == [] {
    } else {
      StepInv(shards, es[0]);
      RunInv(Step(shards, es[0]), es[1..]);
    }
  }

  lemma StartInv<M>(n: nat)
    requires n > 0
    ensures Inv<M>(Start(n))
  {}

  /** The messages posted in a run, in the order of their posts. */
  function Posted<M>(es: seq<Event<M>>): seq<Msg<M>> {
    if es == [] then []
    else Posted(es[..|es| - 1]) + (if es[|es| - 1].Posts? then [es[|es| - 1].msg] else [])
  }

  lemma {:induction false} RunSnoc<M>(shards: seq<Shard<M>>, es: seq<Event<M>>)
    requires shards != [] && es != []
    ensures Run(shards, es) == Step(Run(shards, es[..|es| - 1]), es[|es| - 1])
    decreases |es|
  {
    if |es| == 1 {
      assert es[1..] == [] && es[..0] == [];
    } else {
      RunSnoc(Step(shards, es[0]), es[1..]);
      assert es[1..][..|es| - 2] == es[..|es| - 1][1..];
    }
  }

  lemma ShardStepPosted<M>(s: Shard<M>, e: Event<M>)
    ensures ShardStep(s, e).posted == s.posted + (if e.Posts? then [e.msg] else [])
  {}

  lemma StepPosted<M>(shards: seq<Shard<M>>, e: Event<M>, id: nat)
    requires shards != []
    ensures var k := PickShard(id, |shards|);
            ForActor(id, Step(shards, e)[k].posted) ==
            ForActor(id, shards[k].posted) + ForActor(id, if e.Posts? then [e.msg] else [])
  {
    var s := shards[PickShard(id, |shards|)];
    ForActorAppend(id, s.posted, if e.Posts? then [e.msg] else []);
    ShardStepPosted(s, e);
    if Target(e, |shards|) != PickShard(id, |shards|) {
      assert e.Posts? ==> ForActor(id, [e.msg]) == [];
    }
  }

  /** An actor's shard has been given its messages in the order in which they were posted. */
  lemma {:induction false} PostedToShard<M>(n: nat, es: seq<Event<M>>, id: nat)
    requires n > 0
    ensures ForActor(id, Run(Start(n), es)[PickShard(id, n)].posted) == ForActor(id, Posted(es))
    decreases |es|
  {
    if es == [] {
    } else {
      var e, before := es[|es| - 1], Run(Start<M>(n), es[..|es| - 1]);
      PostedToShard(n, es[..|es| - 1], id);
      RunSnoc(Start(n), es);
      StepPosted(before, e, id);
      ForActorAppend(id, Posted(es[..|es| - 1]), if e.Posts? then [e.msg] else []);
    }
  }

  lemma OrderedFor<M>(s: Shard<M>, id: nat)
    requires Ordered(s)
    ensures ForActor(id, s.posted) ==
            ForActor(id, Messages(s.executed)) + ForActor(id, Running(s)) + ForActor(id, s.batch) + ForActor(id, s.queue)
  {
    ForActorAppend(id, Messages(s.executed), Pending(s));
    ForActorAppend(id, Running(s) + s.batch, s.queue);
    ForActorAppend(id, Running(s), s.batch);
  }

  lemma ReachedInv<M>(n: nat, es: seq<Event<M>>, k: nat)
    requires k < n
    ensures ShardInv(k, n, Run(Start<M>(n), es)[k])
  {
    StartInv<M>(n);
    RunInv(Start<M>(n), es);
  }

  /**
   * One actor's messages run one at a time, in the order they were posted: what has finished, then what is running,
   * then what waits, is exactly what was posted.
   */
  lemma ActorFifo<M>(n: nat, es: seq<Event<M>>, id: nat)
    requires n > 0
    ensures var s := Run(Start(n), es)[PickShard(id, n)];
            ForActor(id, Posted(es)) ==
            ForActor(id, Messages(s.executed)) + ForActor(id, Running(s)) + ForActor(id, s.batch) + ForActor(id, s.queue)
  {
    ReachedInv(n, es, PickShard(id, n));
    PostedToShard(n, es, id);
    OrderedFor(Run(Start(n), es)[PickShard(id, n)], id);
  }

  /** No other shard ever runs, holds or stores anything for an actor that is not routed to it. */
  lemma OnlyItsShard<M>(n: nat, es: seq<Event<M>>, id: nat, k: nat)
    requires k < n && k != PickShard(id, n)
    ensures var s := Run(Start(n), es)[k];
            ForActor(id, s.posted) == [] && id !in s.actors && forall d <- s.executed :: d.msg.id != id
  {
    ReachedInv(n, es, k);
    var s := Run(Start(n), es)[k];
    NoneFor(id, s.posted);
    forall d | d in s.executed
      ensures d.msg.id != id
    {
      var i :| 0 <= i < |s.executed| && s.executed[i] == d;
      assert s.posted[i] == d.msg;
    }
  }

  lemma {:induction false} NoneFor<M>(id: nat, ms: seq<Msg<M>>)
    requires forall m <- ms :: m.id != id
    ensures ForActor(id, ms) == []
  {
    if ms == [] {
    } else {
      assert ms[|ms| - 1] in ms;
      NoneFor(id, ms[..|ms| - 1]);
    }
  }

  /** In every run and on every shard, an actor's calls between two removals share one instance. */
  lemma InstancesPersist<M>(n: nat, es: seq<Event<M>>, k: nat)
    requires k < n
    ensures var s := Run(Start<M>(n), es)[k];
            SameInstance(s.executed) && forall id: nat :: InstanceOf(s.actors, id) == Current(s.executed, id)
  {
    ReachedInv(n, es, k);
  }

  /**
   * In every run and on every shard, two calls of one actor with no removal of it between them ran on the same instance,
   * if the first had one.
   */
  lemma SharedInstance<M>(n: nat, es: seq<Event<M>>, k: nat, p: nat, q: nat)
    requires k < n && p < q < |Run(Start<M>(n), es)[k].executed|
    requires var ds := Run(Start<M>(n), es)[k].executed;
             && ds[p].msg.body.ActorCall? && ds[q].msg.body.ActorCall? && ds[p].msg.id == ds[q].msg.id && ds[p].seen.Some?
             && forall j | p < j < q && ds[j].msg.id == ds[p].msg.id :: !ds[j].msg.body.Erase?
    ensures var ds := Run(Start<M>(n), es)[k].executed; ds[q].seen == ds[p].seen
  {
    InstancesPersist(n, es, k);
    var ds := Run(Start<M>(n), es)[k].executed;
    CurrentAfter(ds, p, q);
    assert RightInstance(ds[..q], ds[q]);
  }

  lemma {:induction false} CurrentAfter<M>(ds: seq<Done<M>>, p: nat, q: nat)
    requires SameInstance(ds) && p < q <= |ds| && ds[p].msg.body.ActorCall? && ds[p].seen.Some?
    requires forall j | p < j < q && ds[j].msg.id == ds[p].msg.id :: !ds[j].msg.body.Erase?
    ensures Current(ds[..q], ds[p].msg.id) == ds[p].seen
    decreases q
  {
    assert ds[..q][..q - 1] == ds[..q - 1];
    if q == p + 1 {
    } else {
      CurrentAfter(ds, p, q - 1);
    }
  }

  // ---- progress ----

  lemma {:induction false} RunAppend<M>(shards: seq<Shard<M>>, es: seq<Event<M>>, more: seq<Event<M>>)
    requires shards != []
    ensures Run(shards, es + more) == Run(Run(shards, es), more)
    decreases |es|
  {
    hide Step;
    if es == [] {
      assert es + more == more;
    } else {
      assert (es + more)[1..] == es[1..] + more;
      RunAppend(Step(shards, es[0]), es[1..], more);
    }
  }

  predicate WorkerStep<M>(e: Event<M>, k: nat) {
    !e.Posts? && e.k == k
  }

  /** What the worker of a shard does next, while there is something to do. */
  function NextWork<M>(s: Shard<M>, k: nat): Event<M> {
    if s.running.Some? then Ends(k) else if s.batch != [] then Begins(k) else Swaps(k)
  }

  function WorkLeft<M>(s: Shard<M>): nat {
    3 * |s.queue| + 2 * |s.batch| + if s.running.Some? then 1 else 0
  }

  lemma NextWorkHelps<M>(s: Shard<M>, k: nat)
    requires Pending(s) != []
    ensures var t := ShardStep(s, NextWork(s, k)); WorkLeft(t) < WorkLeft(s) && t.posted == s.posted
  {}

  /** From wherever a run stands, the worker's own steps alone come to a point where nothing of the shard is left waiting. */
  lemma {:induction false} WorkerDrains<M>(shards: seq<Shard<M>>, k: nat) returns (es: seq<Event<M>>)
    requires k < |shards|
    ensures forall e <- es :: WorkerStep(e, k)
    ensures var s := Run(shards, es)[k]; Pending(s) == [] && s.posted == shards[k].posted
    decreases WorkLeft(shards[k])
  {
    hide Pending, WorkLeft, ShardStep;
    if Pending(shards[k]) == [] {
      es := [];
    } else {
      var e := NextWork(shards[k], k);
      NextWorkHelps(shards[k], k);
      var rest := WorkerDrains(Step(shards, e), k);
      es := [e] + rest;
      assert es[1..] == rest;
    }
  }

  // ---- the worker's own object ----

  class ShardWorker<M> {
    var q: seq<Msg<M>>
    var local: seq<Msg<M>>
    var running: Option<Msg<M>>
    var actors: map<nat, Option<nat>>
    var instancesMade: nat
    ghost var posted: seq<Msg<M>>
    ghost var executed: seq<Done<M>>

    ghost function View(): Shard<M>
      reads this
    {
      Shard(q, local, running, actors, instancesMade, posted, executed)
    }

    constructor ()
      ensures View() == EmptyShard()
    {
      q, local, running, actors, instancesMade, posted, executed := [], [], None, map[], 0, [], [];
    }

    method Post(m: Msg<M>)
      modifies this
      ensures View() == Push(old(View()), m)
    {
      q := q + [m];
      posted := posted + [m];
    }

    /** The head of worker_loop_: the whole queue becomes the local batch. */
    method TakeBatch()
      requires local == [] && running.None?
      modifies this
      ensures View() == Swap(old(View()))
    {
      local, q := q, [];
    }

    /** One turn of the loop over the batch, exceptions swallowed. */
    method RunNext()
      requires local != [] && running.None?
      modifies this
      ensures View() == End(Begin(old(View())))
    {
      var m := local[0];
      local := local[1..];
      match m.body
      case Call(_) =>
        executed := executed + [Done(m, None)];
      case Erase =>
        actors := actors - {m.id};
        executed := executed + [Done(m, None)];
      case ActorCall(_, makes) =>
        var slot := if m.id in actors then actors[m.id] else None;
        if slot.None? {
          if makes {
            slot := Some(instancesMade);
            instancesMade := instancesMade + 1;
          }
          actors := actors[m.id := slot];
        }
        executed := executed + [Done(m, slot)];
    }

    /** One pass of worker_loop_ with no post in between: everything queued runs, in order. */
    method Drain()
      requires local == [] && running.None?
      modifies this
      ensures local == [] && q == [] && running.None? && posted == old(posted)
      ensures Messages(executed) == Messages(old(executed)) + old(q)
    {
      TakeBatch();
      ghost var all := local;
      while local != []
        invariant running.None? && q == [] && posted == old(posted)
        invariant |local| <= |all| && local == all[|all| - |local|..]
        invariant Messages(executed) == Messages(old(executed)) + all[..|all| - |local|]
        decreases |local|
      {
        ghost var done := |all| - |local|;
        ghost var before := executed;
        RunNext();
        assert executed[..|before|] == before && executed[|before|].msg == all[done];
        assert Messages(executed) == Messages(before) + [all[done]];
      }
      assert all[..|all|] == all;
    }
  }
}
