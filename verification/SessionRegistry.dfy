/** The server's session registry: slots are reused, serials tell their successive sessions apart. */
module SessionRegistry {
  import opened Bytes

  /** `ordinal` numbers the sessions of a slot without wrapping; the code keeps only its low 32 bits, the serial. */
  datatype Session = Session(index: nat, serial: u32, ordinal: nat)

  /** The low 32 bits of a count. */
  function Low(n: nat): u32 {
    n % TWO_TO_32
  }

  function SessionOf(index: nat, ordinal: nat): Session {
    Session(index, Low(ordinal), ordinal)
  }

  /**
   * `slots` holds weak pointers: one locks while its session's coroutine is in `running`.
   * The last three fields record the past: sessions started per slot, all sessions started, most ever running at once.
   */
  datatype Registry = Registry(
    slots: seq<Option<Session>>,
    serials: seq<u32>,
    free: seq<nat>,
    running: set<Session>,
    counts: seq<nat>,
    issued: set<Session>,
    peak: nat)

  /** Slot 0 is reserved: index 0 and serial 0 mean no session. */
  const FRESH := Registry([None], [0], [], {}, [0], {}, 0)

  predicate IsValidSessionKey(index: nat, serial: nat) {
    index != 0 && serial != 0
  }

  function Lock(s: Registry, i: nat): Option<Session>
    requires i < |s.slots|
  {
    if s.slots[i].Some? && s.slots[i].value in s.running then s.slots[i] else None
  }

  ghost predicate Shaped(s: Registry) {
    && |s.slots| == |s.serials| == |s.counts| >= 1
    && forall k | 0 <= k < |s.free| :: 0 < s.free[k] < |s.slots|
  }

  /** alloc_slot_: the most recently freed slot, else a new one at the end. */
  function Alloc(s: Registry): (r: (nat, Registry))
    requires Shaped(s)
    ensures Shaped(r.1) && 0 < r.0 < |r.1.slots|
  {
    var n := |s.free|;
    if n != 0 then (s.free[n - 1], s.(free := s.free[..n - 1]))
    else (|s.slots|, s.(slots := s.slots + [None], serials := s.serials + [0], counts := s.counts + [0]))
  }

  function NextSession(s: Registry): Session
    requires Shaped(s)
  {
    var (i, t) := Alloc(s);
    Session(i, (t.serials[i] + 1) % TWO_TO_32, t.counts[i] + 1)
  }

  /** Bind a new session to an empty slot. */
  function Install(t: Registry, x: Session): Registry
    requires Shaped(t) && 0 < x.index < |t.slots|
  {
    var running := t.running + {x};
    t.(slots := t.slots[x.index := Some(x)],
       serials := t.serials[x.index := x.serial],
       running := running,
       counts := t.counts[x.index := x.ordinal],
       issued := t.issued + {x},
       peak := if |running| > t.peak then |running| else t.peak)
  }

  /** One accepted connection, under the registry lock. */
  function Accept(s: Registry): Registry
    requires Shaped(s)
  {
    Install(Alloc(s).1, NextSession(s))
  }

  /** The cleanup after start() returns. */
  function Finish(s: Registry, x: Session): Registry {
    var t :=
      if x.index < |s.slots| then
        (match Lock(s, x.index)
         case Some(cur) =>
           if cur.serial == x.serial then s.(slots := s.slots[x.index := None], free := s.free + [x.index]) else s
         case None => s.(free := s.free + [x.index]))
      else s;
    t.(running := t.running - {x})
  }

  function TryGetSession(s: Registry, index: nat, serial: nat): Option<Session> {
    if !IsValidSessionKey(index, serial) || index >= |s.slots| then None
    else
      match Lock(s, index)
      case None => None
      case Some(x) => if x.serial != serial then None else Some(x)
  }

  /** Each slot but 0 and `hole` is free exactly when it is empty, and is listed at most once. */
  ghost predicate FreeListBut(s: Registry, hole: nat)
    requires Shaped(s)
  {
    && hole < |s.slots| && s.slots[0] == s.slots[hole] == None && hole !in s.free
    && (forall a, b | 0 <= a < b < |s.free| :: s.free[a] != s.free[b])
    && (forall i | 0 < i < |s.slots| && i != hole :: s.slots[i] == None <==> i in s.free)
  }

  ghost predicate FreeList(s: Registry)
    requires Shaped(s)
  {
    FreeListBut(s, 0) && |s.running| + |s.free| == |s.slots| - 1 == s.peak
  }

  /** A slot holds its latest session, and that session is running. */
  ghost predicate Registered(s: Registry)
    requires Shaped(s)
  {
    && (forall i | 0 < i < |s.slots| && s.slots[i].Some? ::
          s.slots[i].value in s.running && s.slots[i].value == SessionOf(i, s.counts[i]))
    && (forall x <- s.running :: 0 < x.index < |s.slots| && s.slots[x.index] == Some(x))
  }

  /** Each slot has started the sessions 1, 2, ... up to its count, and its serial is that count's low half. */
  ghost predicate Counted(s: Registry)
    requires Shaped(s)
  {
    && s.counts[0] == 0
    && (forall i | 0 <= i < |s.slots| :: s.serials[i] == Low(s.counts[i]))
    && (forall i | 0 < i < |s.slots| :: s.counts[i] > 0)
    && (forall x <- s.issued ::
          0 < x.index < |s.slots| && 1 <= x.ordinal <= s.counts[x.index] && x == SessionOf(x.index, x.ordinal))
    && (forall i, o | 0 < i < |s.slots| && 1 <= o <= s.counts[i] :: SessionOf(i, o) in s.issued)
  }

  ghost predicate Inv(s: Registry) {
    Shaped(s) && FreeList(s) && Registered(s) && Counted(s)
  }

  datatype RegistryEvent = Taken | Returned(x: Session)

  function Step(s: Registry, e: RegistryEvent): Registry
    requires Shaped(s)
  {
    if e.Taken? then Accept(s) else if e.x in s.running then Finish(s, e.x) else s
  }

  lemma PopLeavesHole(s: Registry)
    requires Shaped(s) && FreeList(s) && s.free != []
    ensures var (i, t) := Alloc(s);
            FreeListBut(t, i) && |t.running| + |t.free| + 1 == |t.slots| - 1 && t.running == s.running
  {
    var n := |s.free|;
    var (i, t) := Alloc(s);
    assert s.free == t.free + [i];
    assert forall k | 0 <= k < n - 1 :: t.free[k] == s.free[k] != s.free[n - 1];
  }

  lemma GrowLeavesHole(s: Registry)
    requires Shaped(s) && FreeList(s) && s.free == []
    ensures var (i, t) := Alloc(s);
            FreeListBut(t, i) && |t.running| + |t.free| + 1 == |t.slots| - 1 && t.running == s.running
  {
    var (i, t) := Alloc(s);
    assert forall j | 0 < j < |s.slots| :: t.slots[j] == s.slots[j];
  }

  lemma AllocLeavesHole(s: Registry)
    requires Shaped(s) && FreeList(s)
    ensures var (i, t) := Alloc(s);
            FreeListBut(t, i) && |t.running| + |t.free| + 1 == |t.slots| - 1 && t.running == s.running
  {
    hide FreeList, FreeListBut, Alloc;
    if s.free != [] {
      PopLeavesHole(s);
    } else {
      GrowLeavesHole(s);
    }
  }

  lemma InstallFillsHole(t: Registry, x: Session)
    requires Shaped(t) && 0 < x.index < |t.slots| && FreeListBut(t, x.index) && x !in t.running
    ensures FreeListBut(Install(t, x), 0) && |Install(t, x).running| == |t.running| + 1
  {}

  lemma AcceptFreeList(s: Registry)
    requires Shaped(s) && FreeList(s) && Registered(s)
    ensures FreeList(Accept(s)) && |Accept(s).running| == |s.running| + 1
    ensures NextSession(s) !in s.running
  {
    AllocLeavesHole(s);
    var x := NextSession(s);
    var (i, t) := Alloc(s);
    assert t.slots[i] == None && (i < |s.slots| ==> s.slots[i] == t.slots[i]);
    InstallFillsHole(t, x);
  }

  lemma NextIsSessionOf(s: Registry)
    requires Shaped(s) && forall i | 0 <= i < |s.slots| :: s.serials[i] == Low(s.counts[i])
    ensures var x, t := NextSession(s), Alloc(s).1; x == SessionOf(x.index, t.counts[x.index] + 1)
  {}

  lemma InstallRegistered(t: Registry, x: Session)
    requires Shaped(t) && Registered(t) && 0 < x.index < |t.slots| && t.slots[x.index] == None
    requires x == SessionOf(x.index, t.counts[x.index] + 1)
    ensures Registered(Install(t, x))
  {}

  lemma AllocRegistered(s: Registry)
    requires Shaped(s) && FreeList(s) && Registered(s)
    ensures Registered(Alloc(s).1)
  {}

  lemma AcceptRegistered(s: Registry)
    requires Shaped(s) && FreeList(s) && Registered(s) && Counted(s)
    ensures Registered(Accept(s))
  {
    NextIsSessionOf(s);
    AllocLeavesHole(s);
    AllocRegistered(s);
    InstallRegistered(Alloc(s).1, NextSession(s));
  }

  lemma AcceptCounted(s: Registry)
    requires Shaped(s) && Counted(s)
    ensures Counted(Accept(s)) && NextSession(s) !in s.issued
  {
    NextIsSessionOf(s);
    var x, a, t := NextSession(s), Alloc(s).1, Accept(s);
    forall i, o | 0 < i < |t.slots| && 1 <= o <= t.counts[i]
      ensures SessionOf(i, o) in t.issued
    {
      if i == x.index && o == x.ordinal {
      } else {
        assert o <= a.counts[i];
        assert i < |s.slots|;
      }
    }
  }

  lemma AcceptInv(s: Registry)
    requires Inv(s)
    ensures Inv(Accept(s)) && NextSession(s) !in s.issued && |Accept(s).running| == |s.running| + 1
    ensures NextSession(s).index != 0
  {
    AcceptFreeList(s);
    AcceptRegistered(s);
    AcceptCounted(s);
  }

  lemma FinishInv(s: Registry, x: Session)
    requires Inv(s) && x in s.running
    ensures Inv(Finish(s, x)) && |Finish(s, x).running| == |s.running| - 1
    ensures Finish(s, x).slots == s.slots[x.index := None]
  {
    assert Lock(s, x.index) == Some(x);
    assert x.index !in s.free;
  }

  lemma StepInv(s: Registry, e: RegistryEvent)
    requires Inv(s)
    ensures Inv(Step(s, e))
  {
    if e.Taken? {
      AcceptInv(s);
    } else if e.x in s.running {
      FinishInv(s, e.x);
    }
  }

  function Run(s: Registry, es: seq<RegistryEvent>): Registry
    requires Inv(s)
    ensures Inv(Run(s, es))
    decreases |es|
  {
    if es == [] then s
    else
      StepInv(s, es[0]);
      Run(Step(s, es[0]), es[1..])
  }

  lemma FreshInv()
    ensures Inv(FRESH)
  {}

  // ---- which slot is taken next ----

  function FinishAll(s: Registry, xs: seq<Session>): Registry
    decreases |xs|
  {
    if xs == [] then s else Finish(FinishAll(s, xs[..|xs| - 1]), xs[|xs| - 1])
  }

  function AcceptMany(s: Registry, n: nat): (r: Registry)
    requires Shaped(s)
    ensures Shaped(r)
  {
    if n == 0 then s else Accept(AcceptMany(s, n - 1))
  }

  function IndicesOf(xs: seq<Session>): (r: seq<nat>)
    ensures |r| == |xs|
  {
    seq(|xs|, k requires 0 <= k < |xs| => xs[k].index)
  }

  lemma FinishFrees(s: Registry, x: Session)
    requires Inv(s) && x in s.running
    ensures Finish(s, x).free == s.free + [x.index] && Finish(s, x).running == s.running - {x}
  {
    assert Lock(s, x.index) == Some(x);
  }

  ghost predicate AllRunning(s: Registry, xs: seq<Session>) {
    (forall x <- xs :: x in s.running) && forall a, b | 0 <= a < b < |xs| :: xs[a] != xs[b]
  }

  ghost predicate HaveEnded(s: Registry, xs: seq<Session>, t: Registry) {
    t.free == s.free + IndicesOf(xs) && forall x :: x in t.running <==> x in s.running && x !in xs
  }

  lemma OneMoreEnds(s: Registry, front: seq<Session>, x: Session, t: Registry)
    requires Inv(t) && HaveEnded(s, front, t) && x in t.running
    ensures Inv(Finish(t, x)) && HaveEnded(s, front + [x], Finish(t, x))
  {
    FinishFrees(t, x);
    FinishInv(t, x);
    hide Finish, Inv;
    assert IndicesOf(front + [x]) == IndicesOf(front) + [x.index];
  }

  /** The slots of sessions that end go onto the free list in that order. */
  lemma {:induction false} FinishAllFrees(s: Registry, xs: seq<Session>)
    requires Inv(s) && AllRunning(s, xs)
    ensures Inv(FinishAll(s, xs)) && HaveEnded(s, xs, FinishAll(s, xs))
    decreases |xs|
  {
    hide Inv, Finish;
    if xs == [] {
      assert s.free + IndicesOf([]) == s.free;
    } else {
      var front, x := xs[..|xs| - 1], xs[|xs| - 1];
      FinishAllFrees(s, front);
      assert xs == front + [x];
      OneMoreEnds(s, front, x, FinishAll(s, front));
    }
  }

  lemma AcceptTakesLast(s: Registry)
    requires Shaped(s)
    ensures s.free != [] ==> NextSession(s).index == s.free[|s.free| - 1] && Accept(s).free == s.free[..|s.free| - 1]
    ensures s.free == [] ==> NextSession(s).index == |s.slots| && Accept(s).free == []
  {}

  lemma {:induction false} AcceptManyPops(s: Registry, n: nat)
    requires Shaped(s) && n <= |s.free|
    ensures AcceptMany(s, n).free == s.free[..|s.free| - n]
    decreases n
  {
    if n > 0 {
      AcceptManyPops(s, n - 1);
      AcceptTakesLast(AcceptMany(s, n - 1));
      hide Accept, NextSession, Shaped;
    }
  }

  /** Slots are reused last freed first: after any sessions have ended, the next accepts take their slots in reverse order. */
  lemma LastFreedIsFirstTaken(s: Registry, xs: seq<Session>, k: nat)
    requires Inv(s) && AllRunning(s, xs) && k < |xs|
    ensures Inv(FinishAll(s, xs))
    ensures NextSession(AcceptMany(FinishAll(s, xs), k)).index == xs[|xs| - 1 - k].index
  {
    FinishAllFrees(s, xs);
    hide Inv, AllRunning, FinishAll;
    var t := FinishAll(s, xs);
    InvIsShaped(t);
    TakenFromEnd(s, xs, t, k);
  }

  lemma TakenFromEnd(s: Registry, xs: seq<Session>, t: Registry, k: nat)
    requires Shaped(t) && HaveEnded(s, xs, t) && k < |xs|
    ensures NextSession(AcceptMany(t, k)).index == xs[|xs| - 1 - k].index
  {
    hide AcceptMany, Accept, NextSession, Shaped;
    AcceptManyPops(t, k);
    AcceptTakesLast(AcceptMany(t, k));
    assert t.free[|t.free| - k - 1] == IndicesOf(xs)[|xs| - 1 - k];
  }

  /** A new slot is made only when every slot has its session running, and then at the end. */
  lemma GrowsOnlyWhenFull(s: Registry)
    requires Inv(s)
    ensures NextSession(s).index == |s.slots| <==> |s.running| == |s.slots| - 1
    ensures |Accept(s).slots| == |s.slots| + if |s.running| == |s.slots| - 1 then 1 else 0
  {
    AcceptTakesLast(s);
    hide Accept, NextSession;
    AcceptSize(s);
  }

  lemma AcceptSize(s: Registry)
    requires Shaped(s)
    ensures |Accept(s).slots| == |s.slots| + if s.free == [] then 1 else 0
  {}

  // ---- the registry as its users see it ----

  function Holder(s: Registry, i: nat): Option<Session> {
    if i < |s.slots| then s.slots[i] else None
  }

  function CountOf(s: Registry, i: nat): nat {
    if i < |s.counts| then s.counts[i] else 0
  }

  lemma HolderFacts(s: Registry)
    requires Inv(s)
    ensures Holder(s, 0) == None && CountOf(s, 0) == 0
    ensures forall i: nat | Holder(s, i).Some? ::
              Holder(s, i).value in s.running && Holder(s, i).value == SessionOf(i, CountOf(s, i)) && CountOf(s, i) > 0
    ensures forall x <- s.running :: Holder(s, x.index) == Some(x)
  {}

  lemma AllocEffect(s: Registry)
    requires Shaped(s) && FreeList(s)
    ensures var (i, t) := Alloc(s);
            && i != 0 && Holder(s, i) == None && t.running == s.running
            && forall j: nat :: Holder(t, j) == Holder(s, j) && CountOf(t, j) == CountOf(s, j)
  {}

  lemma InstallEffect(t: Registry, x: Session)
    requires Shaped(t) && 0 < x.index < |t.slots|
    ensures var u := Install(t, x);
            && u.running == t.running + {x} && Holder(u, x.index) == Some(x) && CountOf(u, x.index) == x.ordinal
            && forall j: nat | j != x.index :: Holder(u, j) == Holder(t, j) && CountOf(u, j) == CountOf(t, j)
  {}

  lemma NextIsNextOf(s: Registry)
    requires Shaped(s) && Counted(s)
    ensures var x, t := NextSession(s), Alloc(s).1;
            x.index == Alloc(s).0 && x == SessionOf(x.index, CountOf(t, x.index) + 1)
  {
    NextIsSessionOf(s);
  }

  /** Accepting gives an empty slot its next session and touches no other slot. */
  lemma AcceptEffect(s: Registry)
    requires Inv(s)
    ensures var x, t := NextSession(s), Accept(s);
            && Inv(t)
            && x.index != 0 && Holder(s, x.index) == None && x == SessionOf(x.index, CountOf(s, x.index) + 1)
            && x !in s.running && t.running == s.running + {x}
            && Holder(t, x.index) == Some(x) && CountOf(t, x.index) == x.ordinal
            && forall i: nat | i != x.index :: Holder(t, i) == Holder(s, i) && CountOf(t, i) == CountOf(s, i)
  {
    AcceptInv(s);
    AcceptFreeList(s);
    NextIsNextOf(s);
    AllocEffect(s);
    hide FreeList, Registered, Counted, NextSession, Alloc, Install, Holder, CountOf;
    InstallEffect(Alloc(s).1, NextSession(s));
  }

  /** Finishing empties the session's own slot and touches no other. */
  lemma FinishEffect(s: Registry, x: Session)
    requires Inv(s) && x in s.running
    ensures var t := Finish(s, x);
            && Inv(t)
            && t.running == s.running - {x}
            && Holder(t, x.index) == None
            && (forall i: nat | i != x.index :: Holder(t, i) == Holder(s, i))
            && (forall i: nat :: CountOf(t, i) == CountOf(s, i))
  {
    FinishInv(s, x);
    hide Counted, FreeListBut;
  }

  /** Slots other than 0 are either free, once, or hold exactly the one session that runs there. */
  lemma Partition(s: Registry, i: nat)
    requires Inv(s) && 0 < i < |s.slots|
    ensures i in s.free ==> forall x <- s.running :: x.index != i
    ensures i !in s.free ==> exists x <- s.running :: x.index == i && forall y <- s.running :: y.index == i ==> y == x
  {
    if i !in s.free {
      assert s.slots[i].value in s.running;
    }
  }

  lemma LowIsInjective(a: nat, b: nat)
    requires 1 <= a <= TWO_TO_32 && 1 <= b <= TWO_TO_32 && Low(a) == Low(b)
    ensures a == b
  {}

  lemma OverfullSlotRepeatsKey(s: Registry, i: nat)
    requires Inv(s) && i < |s.counts| && s.counts[i] > TWO_TO_32
    ensures exists x, y | x in s.issued && y in s.issued :: x.index == y.index && x.serial == y.serial && x != y
  {
    var x, y := SessionOf(i, 1), SessionOf(i, 1 + TWO_TO_32);
    assert x in s.issued && y in s.issued && x.serial == y.serial && x != y;
  }

  /** No (index, serial) key names two sessions exactly as long as no slot has started more than 2^32 of them. */
  lemma KeysAreUnique(s: Registry)
    requires Inv(s)
    ensures (forall x, y | x in s.issued && y in s.issued :: x.index == y.index && x.serial == y.serial ==> x == y)
            <==> forall i | 0 <= i < |s.counts| :: s.counts[i] <= TWO_TO_32
  {
    if exists i :: 0 <= i < |s.counts| && s.counts[i] > TWO_TO_32 {
      var i :| 0 <= i < |s.counts| && s.counts[i] > TWO_TO_32;
      OverfullSlotRepeatsKey(s, i);
    } else {
      forall x, y | x in s.issued && y in s.issued && x.index == y.index && x.serial == y.serial
        ensures x == y
      {
        LowIsInjective(x.ordinal, y.ordinal);
      }
    }
  }

  /** A running session answers to its key exactly when that key is not the reserved serial 0. */
  lemma RunningIsReachable(s: Registry, x: Session)
    requires Inv(s) && x in s.running
    ensures TryGetSession(s, x.index, x.serial) == Some(x) <==> Low(x.ordinal) != 0
    ensures s.counts[x.index] < TWO_TO_32 ==> TryGetSession(s, x.index, x.serial) == Some(x)
  {
    assert x in s.issued;
  }

  /**
   * The key of an issued session reaches another session exactly when another one with the same serial runs in its slot;
   * up to 2^32 sessions per slot it therefore reaches the session it names, or nobody.
   */
  lemma KeyReachesItsSession(s: Registry, x: Session)
    requires Inv(s) && x in s.issued
    ensures var r := TryGetSession(s, x.index, x.serial);
            r.Some? && r.value != x <==>
            exists y <- s.running :: y != x && y.index == x.index && y.serial == x.serial && x.serial != 0
    ensures s.counts[x.index] <= TWO_TO_32 ==> TryGetSession(s, x.index, x.serial) in {None, Some(x)}
    ensures s.counts[x.index] <= TWO_TO_32 && x !in s.running ==> TryGetSession(s, x.index, x.serial) == None
  {
    var r := TryGetSession(s, x.index, x.serial);
    if y :| y in s.running && y != x && y.index == x.index && y.serial == x.serial && x.serial != 0 {
      assert s.slots[x.index] == Some(y);
    }
    if r.Some? {
      assert r.value in s.running && r.value.index == x.index;
      assert s.slots[x.index] == r && r.value == SessionOf(x.index, s.counts[x.index]);
      if s.counts[x.index] <= TWO_TO_32 {
        LowIsInjective(x.ordinal, r.value.ordinal);
      }
    }
  }

  // ---- a run in which a key comes round again ----

  lemma {:induction false} RunAppend(s: Registry, es: seq<RegistryEvent>, fs: seq<RegistryEvent>)
    requires Inv(s)
    ensures Run(s, es + fs) == Run(Run(s, es), fs)
    decreases |es|
  {
    InvIsShaped(s);
    hide Inv, Step;
    if es == [] {
      assert es + fs == fs;
    } else {
      assert (es + fs)[1..] == es[1..] + fs;
      StepInv(s, es[0]);
      RunAppend(Step(s, es[0]), es[1..], fs);
    }
  }

  /** Sessions of slot 1 come and go, one after the other. */
  function Rounds(n: nat): seq<RegistryEvent> {
    if n == 0 then [] else Rounds(n - 1) + [Taken, Returned(SessionOf(1, n))]
  }

  /** No session runs, and `n` have run, all in slot 1. */
  predicate Quiet(s: Registry, n: nat) {
    && s.running == {}
    && (n == 0 ==> s.slots == [None] && s.serials == [0] && s.counts == [0] && s.free == [])
    && (n > 0 ==> s.slots == [None, None] && s.serials == [0, Low(n)] && s.counts == [0, n] && s.free == [1])
  }

  lemma QuietAccepts(s: Registry, n: nat)
    requires Inv(s) && Quiet(s, n)
    ensures Accept(s).running == {SessionOf(1, n + 1)} && Accept(s).slots == [None, Some(SessionOf(1, n + 1))]
    ensures Accept(s).serials == [0, Low(n + 1)] && Accept(s).counts == [0, n + 1] && Accept(s).free == []
  {
    hide Inv;
    InvIsShaped(s);
    var (i, t) := Alloc(s);
    assert i == 1 && t.slots == [None, None] && t.counts == [0, n] && t.serials == [0, Low(n)] && t.free == [];
    assert NextSession(s) == SessionOf(1, n + 1);
  }

  lemma InvIsShaped(s: Registry)
    requires Inv(s)
    ensures Shaped(s)
  {}

  lemma QuietRound(s: Registry, n: nat)
    requires Inv(s) && Quiet(s, n)
    ensures Quiet(Finish(Accept(s), SessionOf(1, n + 1)), n + 1)
  {
    QuietAccepts(s, n);
    hide Inv, Accept, Shaped;
    var x, t := SessionOf(1, n + 1), Accept(s);
    assert Lock(t, 1) == Some(x);
    assert t.slots[1 := None] == [None, None] && t.running - {x} == {};
  }

  lemma FreshIsQuiet()
    ensures Quiet(Run(FRESH, Rounds(0)), 0)
  {}

  lemma RunOne(s: Registry, e: RegistryEvent)
    requires Shaped(s) && Inv(s)
    ensures Run(s, [e]) == Step(s, e)
  {
    hide Inv, Shaped, Step;
    StepInv(s, e);
    assert [e][1..] == [];
  }

  lemma RunTwo(s: Registry, e: RegistryEvent, f: RegistryEvent)
    requires Shaped(s) && Inv(s)
    requires Shaped(Step(s, e)) && Inv(Step(s, e))
    ensures Run(s, [e, f]) == Step(Step(s, e), f)
  {
    hide Inv, Shaped, Step, Run;
    RunOne(s, e);
    RunOne(Step(s, e), f);
    RunAppend(s, [e], [f]);
    assert [e] + [f] == [e, f];
  }

  lemma RunRound(s: Registry, n: nat)
    requires Shaped(s) && Inv(s) && Quiet(s, n)
    ensures Quiet(Run(s, [Taken, Returned(SessionOf(1, n + 1))]), n + 1)
  {
    QuietRound(s, n);
    QuietAccepts(s, n);
    StepInv(s, Taken);
    InvIsShaped(Accept(s));
    hide Inv, Shaped, Quiet, Run, Accept, Finish;
    RunTwo(s, Taken, Returned(SessionOf(1, n + 1)));
  }

  lemma {:induction false} RoundsAreQuiet(n: nat)
    ensures Quiet(Run(FRESH, Rounds(n)), n)
    decreases n
  {
    FreshInv();
    hide Inv, Quiet;
    if n == 0 {
      FreshIsQuiet();
    } else {
      RoundsAreQuiet(n - 1);
      RunAppend(FRESH, Rounds(n - 1), [Taken, Returned(SessionOf(1, n))]);
      hide Run;
      InvIsShaped(Run(FRESH, Rounds(n - 1)));
      RunRound(Run(FRESH, Rounds(n - 1)), n - 1);
    }
  }

  /** After `n` rounds the next session of slot 1 answers to the key of the very first one exactly when n is a multiple of 2^32. */
  lemma FirstKeyReachesStranger(n: nat)
    requires n > 0
    ensures var s := Run(FRESH, Rounds(n) + [Taken]);
            var first, now := SessionOf(1, 1), SessionOf(1, n + 1);
            && first in s.issued && first !in s.running && now in s.running && first != now
            && (TryGetSession(s, first.index, first.serial) == Some(now) <==> n % TWO_TO_32 == 0)
  {
    FreshInv();
    RoundsAreQuiet(n);
    var s := Run(FRESH, Rounds(n));
    RunAppend(FRESH, Rounds(n), [Taken]);
    RunOne(s, Taken);
    QuietAccepts(s, n);
    StepInv(s, Taken);
    FirstIssued(Accept(s), n + 1);
    LowSuccessor(n);
    hide Inv, Accept, Rounds;
  }

  lemma FirstIssued(s: Registry, n: nat)
    requires Inv(s) && s.counts == [0, n] && n > 0
    ensures SessionOf(1, 1) in s.issued
  {
    assert s.counts[1] == n;
  }

  lemma LowSuccessor(n: nat)
    ensures Low(n + 1) == 1 <==> n % TWO_TO_32 == 0
    ensures Low(1) == 1
  {}

  class TcpServer {
    var slots: seq<Option<Session>>
    var slotSerials: seq<u32>
    var freeList: seq<nat>
    /** The sessions their coroutines still own: what locking a weak pointer can see. */
    var running: set<Session>
    /** For the record only: the code does not count. */
    var counts: seq<nat>
    ghost var issued: set<Session>
    ghost var peak: nat

    ghost function View(): Registry
      reads this
    {
      Registry(slots, slotSerials, freeList, running, counts, issued, peak)
    }

    ghost predicate Valid()
      reads this
    {
      Inv(View())
    }

    constructor ()
      ensures View() == FRESH && Valid()
    {
      slots, slotSerials, freeList := [None], [0], [];
      running, counts, issued, peak := {}, [0], {}, 0;
    }

    method AllocSlot() returns (index: nat)
      requires Shaped(View())
      modifies this
      ensures index == Alloc(old(View())).0 && View() == Alloc(old(View())).1
    {
      if freeList != [] {
        index := freeList[|freeList| - 1];
        freeList := freeList[..|freeList| - 1];
      } else {
        index := |slots|;
        slots, slotSerials, counts := slots + [None], slotSerials + [0], counts + [0];
      }
    }

    /** run(): one turn of the accept loop under the lock. */
    method AcceptOne() returns (session: Session)
      requires Shaped(View())
      modifies this
      ensures session == NextSession(old(View())) && View() == Accept(old(View()))
      ensures old(Valid()) ==> Valid() && session !in old(issued)
    {
      if Valid() {
        AcceptInv(View());
      }
      var index := AllocSlot();
      var ordinal := counts[index] + 1;
      slotSerials := slotSerials[index := (slotSerials[index] + 1) % TWO_TO_32];
      session := Session(index, slotSerials[index], ordinal);
      slots := slots[index := Some(session)];
      running, counts, issued := running + {session}, counts[index := ordinal], issued + {session};
      peak := if |running| > peak then |running| else peak;
    }

    method FinishSession(session: Session)
      requires Shaped(View())
      modifies this
      ensures View() == Finish(old(View()), session)
      ensures old(Valid()) && session in old(running) ==> Valid()
    {
      if Valid() && session in running {
        FinishInv(View(), session);
      }
      if session.index < |slots| {
        var cur := slots[session.index];
        if cur.Some? && cur.value in running {
          if cur.value.serial == session.serial {
            slots := slots[session.index := None];
            freeList := freeList + [session.index];
          }
        } else {
          freeList := freeList + [session.index];
        }
      }
      running := running - {session};
    }

    method TryGet(index: nat, serial: nat) returns (r: Option<Session>)
      requires Shaped(View())
      ensures r == TryGetSession(View(), index, serial)
    {
      if !IsValidSessionKey(index, serial) || index >= |slots| {
        return None;
      }
      r := slots[index];
      if r.Some? && (r.value !in running || r.value.serial != serial) {
        r := None;
      }
    }
  }
}
