/** Session counters under interleaved atomic steps, and what the admission limit built on them does and does not bound. */
module LineHost {

  // ---- the lock-free counters ----

  /** Where one thread stands: past the limit check, past the increment, or in one of the two compare-exchange loops. */
  datatype Pc = Idle | Passed | Added(cur: int) | PeakCas(cur: int, prev: int) | CloseCas(cur: int)

  /** History: what the counters alone do not remember. */
  datatype Past = Past(maxEver: int, opens: nat, closes: nat, byLimit: nat, byPolicy: nat)

  datatype State = State(current: int, peak: int, threads: map<nat, Pc>, past: Past)

  /** `spurious` lets a weak compare-exchange fail for no reason. */
  datatype Event = BeginOpen(t: nat, policyOk: bool) | BeginClose(t: nat) | Advance(t: nat, spurious: bool)

  const INITIAL := State(0, 0, map[], Past(0, 0, 0, 0, 0))

  function Max(a: int, b: int): int {
    if a < b then b else a
  }

  function PcOf(s: State, t: nat): Pc {
    if t in s.threads then s.threads[t] else Idle
  }

  /** LineHost::OnSessionOpen up to the counters: the load, the limit (0 is none), the policy. */
  function Begin(limit: nat, s: State, t: nat, policyOk: bool): State {
    if limit > 0 && s.current + 1 > limit then s.(past := s.past.(byLimit := s.past.byLimit + 1))
    else if !policyOk then s.(past := s.past.(byPolicy := s.past.byPolicy + 1))
    else s.(threads := s.threads[t := Passed])
  }

  function Increment(s: State, t: nat): State {
    State(s.current + 1, s.peak, s.threads[t := Added(s.current + 1)],
          s.past.(maxEver := Max(s.past.maxEver, s.current + 1), opens := s.past.opens + 1))
  }

  function TryPeak(s: State, t: nat, cur: int, prev: int, spurious: bool): State {
    if cur <= prev then s.(threads := s.threads[t := Idle])
    else if s.peak == prev && !spurious then s.(peak := cur, threads := s.threads[t := Idle])
    else s.(threads := s.threads[t := PeakCas(cur, s.peak)])
  }

  function TryClose(s: State, t: nat, cur: int, spurious: bool): State {
    if cur <= 0 then s.(threads := s.threads[t := Idle])
    else if s.current == cur && !spurious then
      State(cur - 1, s.peak, s.threads[t := Idle], s.past.(closes := s.past.closes + 1))
    else s.(threads := s.threads[t := CloseCas(s.current)])
  }

  function Step(limit: nat, s: State, e: Event): State {
    match e
    case BeginOpen(t, ok) => if PcOf(s, t).Idle? then Begin(limit, s, t, ok) else s
    case BeginClose(t) => if PcOf(s, t).Idle? then s.(threads := s.threads[t := CloseCas(s.current)]) else s
    case Advance(t, spurious) =>
      match PcOf(s, t)
      case Idle => s
      case Passed => Increment(s, t)
      case Added(cur) => s.(threads := s.threads[t := PeakCas(cur, s.peak)])
      case PeakCas(cur, prev) => TryPeak(s, t, cur, prev, spurious)
      case CloseCas(cur) => TryClose(s, t, cur, spurious)
  }

  function Run(limit: nat, es: seq<Event>): State
    decreases |es|
  {
    if es == [] then INITIAL else Step(limit, Run(limit, es[..|es| - 1]), es[|es| - 1])
  }

  predicate Counted(s: State) {
    && s.current == s.past.opens - s.past.closes
    && 0 <= s.current <= s.past.maxEver
    && 0 <= s.peak <= s.past.maxEver
  }

  predicate ThreadOk(s: State, pc: Pc) {
    match pc
    case Added(cur) => cur <= s.past.maxEver
    case PeakCas(cur, prev) => cur <= s.past.maxEver && prev <= s.peak
    case CloseCas(cur) => cur >= 0
    case _ => true
  }

  predicate ThreadsOk(s: State) {
    forall t <- s.threads :: ThreadOk(s, s.threads[t])
  }

  /** The thread is between its increment and the end of its peak loop. */
  predicate Opening(pc: Pc) {
    pc.Added? || pc.PeakCas?
  }

  predicate Owes(pc: Pc, value: int) {
    Opening(pc) && pc.cur == value
  }

  /** The peak lags only while the thread that saw the largest value is still on its way to it. */
  predicate PeakOwed(s: State) {
    s.peak == s.past.maxEver || exists t <- s.threads :: Owes(s.threads[t], s.past.maxEver)
  }

  predicate Inv(s: State) {
    Counted(s) && ThreadsOk(s) && PeakOwed(s)
  }

  /** A thread that moves without reaching the top value leaves the debt to the thread that owes it. */
  lemma DebtStays(s: State, s': State, t: nat)
    requires PeakOwed(s) && s'.past.maxEver == s.past.maxEver && s'.peak == s.peak
    requires forall u <- s.threads | u != t :: u in s'.threads && s'.threads[u] == s.threads[u]
    requires t in s.threads && Owes(s.threads[t], s.past.maxEver) ==>
               s.peak == s.past.maxEver || (t in s'.threads && Owes(s'.threads[t], s.past.maxEver))
    ensures PeakOwed(s')
  {
    if s.peak != s.past.maxEver {
      var u :| u in s.threads && Owes(s.threads[u], s.past.maxEver);
      assert u in s'.threads && Owes(s'.threads[u], s.past.maxEver);
    }
  }

  lemma IncrementKeeps(s: State, t: nat)
    requires Inv(s) && PcOf(s, t).Passed?
    ensures Inv(Increment(s, t))
  {
    var s' := Increment(s, t);
    if s.current + 1 > s.past.maxEver {
      assert t in s'.threads && Owes(s'.threads[t], s'.past.maxEver);
    } else {
      DebtStays(s, s', t);
    }
  }

  lemma TryPeakKeeps(s: State, t: nat, spurious: bool)
    requires Inv(s) && PcOf(s, t).PeakCas?
    ensures Inv(TryPeak(s, t, PcOf(s, t).cur, PcOf(s, t).prev, spurious))
  {
    var cur, prev := PcOf(s, t).cur, PcOf(s, t).prev;
    var s' := TryPeak(s, t, cur, prev, spurious);
    if s'.peak == s.peak {
      DebtStays(s, s', t);
    } else if cur != s.past.maxEver {
      var u :| u in s.threads && Owes(s.threads[u], s.past.maxEver);
      assert u in s'.threads && Owes(s'.threads[u], s'.past.maxEver);
    }
  }

  lemma StepKeeps(limit: nat, s: State, e: Event)
    requires Inv(s)
    ensures Inv(Step(limit, s, e))
  {
    var s' := Step(limit, s, e);
    if e.Advance? && PcOf(s, e.t).Passed? {
      IncrementKeeps(s, e.t);
    } else if e.Advance? && PcOf(s, e.t).PeakCas? {
      TryPeakKeeps(s, e.t, e.spurious);
    } else {
      DebtStays(s, s', e.t);
    }
  }

  lemma {:induction false} RunInv(limit: nat, es: seq<Event>)
    ensures Inv(Run(limit, es))
    decreases |es|
  {
    if es != [] {
      RunInv(limit, es[..|es| - 1]);
      StepKeeps(limit, Run(limit, es[..|es| - 1]), es[|es| - 1]);
    }
  }

  /** `maxEver` is the largest value the counter has had at any point of the run. */
  lemma {:induction false} MaxEverIsLargest(limit: nat, es: seq<Event>)
    ensures forall n | 0 <= n <= |es| :: Run(limit, es[..n]).current <= Run(limit, es).past.maxEver
    ensures exists n | 0 <= n <= |es| :: Run(limit, es[..n]).current == Run(limit, es).past.maxEver
    decreases |es|
  {
    hide Step, Inv;
    assert es[..|es|] == es;
    if es == [] {
      assert Run(limit, es[..0]).current == 0;
    } else {
      var front := es[..|es| - 1];
      MaxEverIsLargest(limit, front);
      MaxEverGrows(limit, Run(limit, front), es[|es| - 1]);
      RunInv(limit, es);
      assert Counted(Run(limit, es)) by { InvIsCounted(Run(limit, es)); }
      forall n | 0 <= n <= |es|
        ensures Run(limit, es[..n]).current <= Run(limit, es).past.maxEver
      {
        if n < |es| {
          assert front[..n] == es[..n];
        }
      }
      if Run(limit, es).past.maxEver == Run(limit, front).past.maxEver {
        var n :| 0 <= n <= |front| && Run(limit, front[..n]).current == Run(limit, front).past.maxEver;
        assert front[..n] == es[..n];
      } else {
        assert Run(limit, es[..|es|]).current == Run(limit, es).past.maxEver;
      }
    }
  }

  lemma InvIsCounted(s: State)
    requires Inv(s)
    ensures Counted(s)
  {}

  lemma MaxEverGrows(limit: nat, s: State, e: Event)
    ensures Step(limit, s, e).past.maxEver >= s.past.maxEver
    ensures Step(limit, s, e).past.maxEver != s.past.maxEver ==> Step(limit, s, e).past.maxEver == Step(limit, s, e).current
  {}

  predicate NoOpenInProgress(s: State) {
    forall t <- s.threads :: !Opening(s.threads[t])
  }

  /** For any number of threads and any interleaving: no underflow, and the peak is never too high and in the end exact. */
  lemma CountersAreSafe(limit: nat, es: seq<Event>)
    ensures var s := Run(limit, es);
            && 0 <= s.current == s.past.opens - s.past.closes
            && s.current <= s.past.maxEver && s.peak <= s.past.maxEver
            && (NoOpenInProgress(s) ==> s.peak == s.past.maxEver)
  {
    RunInv(limit, es);
  }

  /** The load, the limit, the policy: an idle thread passes exactly if both let it, and only the refusals are counted otherwise. */
  lemma BeginOutcome(limit: nat, s: State, t: nat, policyOk: bool)
    requires PcOf(s, t).Idle?
    ensures var s' := Step(limit, s, BeginOpen(t, policyOk));
            var room := limit == 0 || s.current < limit;
            && s'.current == s.current && s'.peak == s.peak
            && s'.threads == (if room && policyOk then s.threads[t := Passed] else s.threads)
            && s'.past.byLimit == s.past.byLimit + (if room then 0 else 1)
            && s'.past.byPolicy == s.past.byPolicy + (if room && !policyOk then 1 else 0)
            && s'.past.opens == s.past.opens && s'.past.closes == s.past.closes && s'.past.maxEver == s.past.maxEver
  {}

  // ---- the counter, from the events alone ----

  /** The opens that got to their increment. */
  function Opens(limit: nat, es: seq<Event>): nat
    decreases |es|
  {
    if es == [] then 0
    else
      var front, e := es[..|es| - 1], es[|es| - 1];
      Opens(limit, front) + if e.Advance? && PcOf(Run(limit, front), e.t).Passed? then 1 else 0
  }

  /** The closes begun by a thread that was idle. */
  function ClosesBegun(limit: nat, es: seq<Event>): nat
    decreases |es|
  {
    if es == [] then 0
    else
      var front, e := es[..|es| - 1], es[|es| - 1];
      ClosesBegun(limit, front) + if e.BeginClose? && PcOf(Run(limit, front), e.t).Idle? then 1 else 0
  }

  /** The closes that ended because their thread had read a zero. */
  function ClosesAtZero(limit: nat, es: seq<Event>): nat
    decreases |es|
  {
    if es == [] then 0
    else
      var front, e := es[..|es| - 1], es[|es| - 1];
      ClosesAtZero(limit, front) + if e.Advance? && PcOf(Run(limit, front), e.t) == CloseCas(0) then 1 else 0
  }

  function Closing(s: State): set<nat> {
    set t | t in s.threads && s.threads[t].CloseCas?
  }

  /** How one step moves the counter and the threads that are closing. */
  lemma ClosingStep(limit: nat, s: State, e: Event)
    requires Inv(s)
    ensures var s', pc := Step(limit, s, e), PcOf(s, e.t);
            if e.BeginClose? && pc.Idle? then
              e.t !in Closing(s) && Closing(s') == Closing(s) + {e.t} && s'.current == s.current
            else if e.Advance? && pc == CloseCas(0) then
              e.t in Closing(s) && Closing(s') == Closing(s) - {e.t} && s'.current == s.current
            else if e.Advance? && pc.CloseCas? then
              e.t in Closing(s) &&
              ((Closing(s') == Closing(s) && s'.current == s.current) ||
               (Closing(s') == Closing(s) - {e.t} && s'.current == s.current - 1))
            else Closing(s') == Closing(s) && s'.current == s.current + if e.Advance? && pc.Passed? then 1 else 0
  {
    hide PeakOwed;
    var s', pc := Step(limit, s, e), PcOf(s, e.t);
    forall t | t != e.t
      ensures PcOf(s', t) == PcOf(s, t)
    {}
    assert forall t :: t in Closing(s) <==> PcOf(s, t).CloseCas?;
    assert forall t :: t in Closing(s') <==> PcOf(s', t).CloseCas?;
  }

  /** The counter, from the events: the opens, less the closes begun that neither found zero nor are still in their loop. */
  lemma {:induction false} CounterFollowsEvents(limit: nat, es: seq<Event>)
    ensures var s := Run(limit, es);
            s.current == Opens(limit, es) - (ClosesBegun(limit, es) - ClosesAtZero(limit, es) - |Closing(s)|)
    decreases |es|
  {
    if es == [] {
      assert Closing(INITIAL) == {};
    } else {
      var front, e := es[..|es| - 1], es[|es| - 1];
      CounterFollowsEvents(limit, front);
      RunInv(limit, front);
      hide Step, Inv, Closing;
      ClosingStep(limit, Run(limit, front), e);
    }
  }

  /** Once every thread is idle, as many opens as closes, none of which found zero, leave the counter at zero. */
  lemma BalancedEndsAtZero(limit: nat, es: seq<Event>)
    requires Opens(limit, es) == ClosesBegun(limit, es) && ClosesAtZero(limit, es) == 0
    requires forall t :: PcOf(Run(limit, es), t).Idle?
    ensures Run(limit, es).current == 0
  {
    CounterFollowsEvents(limit, es);
    hide Run, Opens, ClosesBegun, ClosesAtZero;
    var s := Run(limit, es);
    assert forall t :: t in Closing(s) ==> !PcOf(s, t).Idle?;
    assert Closing(s) == {};
  }

  /** An open whose thread runs undisturbed adds one and raises the peak to it. */
  lemma OpenAlone(limit: nat, s: State, t: nat)
    requires PcOf(s, t).Idle? && (limit == 0 || s.current < limit)
    ensures var s' := Step(limit, Step(limit, Step(limit, Step(limit, s, BeginOpen(t, true)), Advance(t, false)), Advance(t, false)), Advance(t, false));
            && s'.current == s.current + 1 && s'.peak == Max(s.peak, s.current + 1) && s'.threads == s.threads[t := Idle]
  {
    var begun := Step(limit, s, BeginOpen(t, true));
    assert PcOf(begun, t) == Passed;
    var added := Step(limit, begun, Advance(t, false));
    assert PcOf(added, t) == Added(s.current + 1);
    var loaded := Step(limit, added, Advance(t, false));
    assert PcOf(loaded, t) == PeakCas(s.current + 1, s.peak);
    assert loaded.threads[t := Idle] == s.threads[t := Idle];
  }

  /** A close whose thread runs undisturbed takes one off, unless there is none. */
  lemma CloseAlone(limit: nat, s: State, t: nat)
    requires PcOf(s, t).Idle?
    ensures var s' := Step(limit, Step(limit, s, BeginClose(t)), Advance(t, false));
            && s'.current == (if s.current > 0 then s.current - 1 else s.current)
            && s'.peak == s.peak && s'.threads == s.threads[t := Idle]
  {}

  /** Wherever a close stands, two undisturbed steps of its thread end it: it takes one off unless it has read or finds zero. */
  lemma CloseEnds(limit: nat, s: State, t: nat)
    requires PcOf(s, t).CloseCas?
    ensures var s' := Step(limit, Step(limit, s, Advance(t, false)), Advance(t, false));
            && PcOf(s', t).Idle? && s'.peak == s.peak
            && s'.current == (if PcOf(s, t).cur > 0 && s.current > 0 then s.current - 1 else s.current)
  {}

  // ---- the limit ----

  function Passing(s: State): set<nat> {
    set t | t in s.threads && s.threads[t].Passed?
  }

  /** Never more than `k` threads at once between the limit check and the increment. */
  ghost predicate AtMostPassing(limit: nat, es: seq<Event>, k: nat) {
    forall n | 0 <= n <= |es| :: |Passing(Run(limit, es[..n]))| <= k
  }

  lemma PassingStep(limit: nat, s: State, e: Event)
    ensures var s' := Step(limit, s, e);
            || (s'.current <= s.current && Passing(s') == Passing(s))
            || (s'.current == s.current && (limit > 0 ==> s.current + 1 <= limit))
            || (s'.current == s.current + 1 && e.t in Passing(s) && Passing(s') == Passing(s) - {e.t})
            || (e.Advance? && PcOf(s, e.t).CloseCas?)
  {}

  lemma CloseStepPasses(limit: nat, s: State, e: Event)
    requires e.Advance? && PcOf(s, e.t).CloseCas?
    ensures Step(limit, s, e).current <= s.current && Passing(Step(limit, s, e)) == Passing(s)
  {}

  lemma {:induction false} RoomIsKept(limit: nat, es: seq<Event>, k: nat)
    requires limit > 0 && k > 0 && AtMostPassing(limit, es, k)
    ensures Run(limit, es).current + |Passing(Run(limit, es))| <= limit - 1 + k
    decreases |es|
  {
    hide Step, Passing;
    if es == [] {
      assert Passing(INITIAL) == {} by { NobodyPassing(); }
    } else {
      var front, e := es[..|es| - 1], es[|es| - 1];
      var s, s' := Run(limit, front), Run(limit, es);
      forall n | 0 <= n <= |front|
        ensures |Passing(Run(limit, front[..n]))| <= k
      {
        assert front[..n] == es[..n];
      }
      RoomIsKept(limit, front, k);
      PassingStep(limit, s, e);
      assert es[..|es|] == es;
      if e.Advance? && PcOf(s, e.t).CloseCas? {
        CloseStepPasses(limit, s, e);
      }
    }
  }

  lemma NobodyPassing()
    ensures Passing(INITIAL) == {}
  {}

  /** With at most `k` opens racing, the counter exceeds the limit by at most k - 1; serialised opens never exceed it. */
  lemma LimitHolds(limit: nat, es: seq<Event>, k: nat)
    requires limit > 0 && k > 0 && AtMostPassing(limit, es, k)
    ensures Run(limit, es).current <= limit - 1 + k
    ensures k == 1 ==> Run(limit, es).current <= limit
  {
    RoomIsKept(limit, es, k);
  }

  /** One below any limit, two idle threads can always take it one above. */
  lemma TwoOpensExceedLimit(limit: nat, es: seq<Event>, a: nat, b: nat)
    requires limit > 0 && a != b
    requires var s := Run(limit, es); s.current == limit - 1 && PcOf(s, a).Idle? && PcOf(s, b).Idle?
    ensures Run(limit, es + [BeginOpen(a, true), BeginOpen(b, true), Advance(a, false), Advance(b, false)]).current == limit + 1
  {
    RunSnoc(limit, es, BeginOpen(a, true));
    var e1 := es + [BeginOpen(a, true)];
    RunSnoc(limit, e1, BeginOpen(b, true));
    var e2 := e1 + [BeginOpen(b, true)];
    RunSnoc(limit, e2, Advance(a, false));
    var e3 := e2 + [Advance(a, false)];
    RunSnoc(limit, e3, Advance(b, false));
    assert es + [BeginOpen(a, true), BeginOpen(b, true), Advance(a, false), Advance(b, false)] == e3 + [Advance(b, false)];
    hide Run;
  }

  lemma RunSnoc(limit: nat, es: seq<Event>, e: Event)
    ensures Run(limit, es + [e]) == Step(limit, Run(limit, es), e)
  {
    assert (es + [e])[..|es|] == es;
  }

  // ---- how many racing opens the limit survives ----

  ghost predicate OnlyThreads(es: seq<Event>, n: nat) {
    forall e <- es :: e.t < n
  }

  lemma {:induction false} ThreadsBounded(limit: nat, es: seq<Event>, n: nat)
    requires OnlyThreads(es, n)
    ensures forall t <- Run(limit, es).threads :: t < n
    decreases |es|
  {
    if es != [] {
      ThreadsBounded(limit, es[..|es| - 1], n);
      assert es[|es| - 1] in es;
    }
  }

  lemma AtMostTwo(s: set<nat>)
    requires forall t <- s :: t < 2
    ensures |s| <= 2
  {
    var rest := s - {0};
    assert s == rest || s == rest + {0};
    assert rest == {} || rest == {1};
  }

  lemma TwoThreadsPassing(limit: nat, es: seq<Event>, k: nat)
    requires OnlyThreads(es, 2) && k >= 2
    ensures AtMostPassing(limit, es, k)
  {
    forall n | 0 <= n <= |es|
      ensures |Passing(Run(limit, es[..n]))| <= k
    {
      ThreadsBounded(limit, es[..n], 2);
      hide Run;
      AtMostTwo(Passing(Run(limit, es[..n])));
    }
  }

  /** Thread 0 opens `n` sessions, one after the other. */
  function SerialOpens(n: nat): seq<Event> {
    if n == 0 then []
    else SerialOpens(n - 1) + [BeginOpen(0, true), Advance(0, false), Advance(0, false), Advance(0, false)]
  }

  predicate Standing(s: State, n: nat) {
    s.current == n && s.peak == n && PcOf(s, 0).Idle? && PcOf(s, 1).Idle?
  }

  lemma OneSerialOpen(limit: nat, s: State, n: nat)
    requires Standing(s, n) && n < limit
    ensures var begun := Step(limit, s, BeginOpen(0, true));
            var added := Step(limit, begun, Advance(0, false));
            var loaded := Step(limit, added, Advance(0, false));
            Standing(Step(limit, loaded, Advance(0, false)), n + 1)
  {
    var begun := Step(limit, s, BeginOpen(0, true));
    assert PcOf(begun, 0) == Passed;
    var added := Step(limit, begun, Advance(0, false));
    assert PcOf(added, 0) == Added(n + 1);
    var loaded := Step(limit, added, Advance(0, false));
    assert PcOf(loaded, 0) == PeakCas(n + 1, n);
  }

  lemma RunFour(limit: nat, es: seq<Event>, a: Event, b: Event, c: Event, d: Event)
    ensures Run(limit, es + [a, b, c, d]) ==
            Step(limit, Step(limit, Step(limit, Step(limit, Run(limit, es), a), b), c), d)
  {
    hide Step, Run;
    var e1 := es + [a];
    var e2 := e1 + [b];
    var e3 := e2 + [c];
    RunSnoc(limit, es, a);
    RunSnoc(limit, e1, b);
    RunSnoc(limit, e2, c);
    RunSnoc(limit, e3, d);
    assert es + [a, b, c, d] == e3 + [d];
  }

  lemma RunSerialOpen(limit: nat, es: seq<Event>, n: nat)
    requires Standing(Run(limit, es), n) && n < limit
    ensures Standing(Run(limit, es + [BeginOpen(0, true), Advance(0, false), Advance(0, false), Advance(0, false)]), n + 1)
  {
    hide Step, Standing, Run;
    OneSerialOpen(limit, Run(limit, es), n);
    RunFour(limit, es, BeginOpen(0, true), Advance(0, false), Advance(0, false), Advance(0, false));
  }

  lemma {:induction false} SerialOpensEnd(limit: nat, n: nat)
    requires n <= limit
    ensures Standing(Run(limit, SerialOpens(n)), n)
    decreases n
  {
    if n == 0 {
    } else {
      hide Run, Standing;
      SerialOpensEnd(limit, n - 1);
      RunSerialOpen(limit, SerialOpens(n - 1), n - 1);
    }
  }

  lemma {:induction false} SerialOpensUseThreadZero(n: nat)
    ensures OnlyThreads(SerialOpens(n), 1)
  {
    if n > 0 {
      SerialOpensUseThreadZero(n - 1);
    }
  }

  lemma TwoRacersBreakLimit(limit: nat, k: nat) returns (es: seq<Event>)
    requires limit > 0 && k >= 2
    ensures AtMostPassing(limit, es, k) && Run(limit, es).current == limit + 1
  {
    SerialOpensEnd(limit, limit - 1);
    SerialOpensUseThreadZero(limit - 1);
    hide Run, SerialOpens, AtMostPassing;
    var race := [BeginOpen(0, true), BeginOpen(1, true), Advance(0, false), Advance(1, false)];
    es := SerialOpens(limit - 1) + race;
    TwoOpensExceedLimit(limit, SerialOpens(limit - 1), 0, 1);
    TwoThreadsPassing(limit, es, k);
  }

  /** The limit is kept in every run with at most `k` opens between check and increment exactly when k is 1. */
  lemma LimitNeedsSerialOpens(limit: nat, k: nat)
    requires limit > 0 && k > 0
    ensures (forall es | AtMostPassing(limit, es, k) :: Run(limit, es).current <= limit) <==> k == 1
  {
    hide Run, AtMostPassing;
    if k == 1 {
      forall es | AtMostPassing(limit, es, k)
        ensures Run(limit, es).current <= limit
      {
        LimitHolds(limit, es, 1);
      }
    } else {
      var es := TwoRacersBreakLimit(limit, k);
      assert AtMostPassing(limit, es, k) && !(Run(limit, es).current <= limit);
    }
  }

  /** The counters and the threads' places in the code that changes them. */
  class LineHostStats {
    const limit: nat
    var current: int
    var peak: int
    var threads: map<nat, Pc>
    ghost var past: Past

    constructor (limit: nat)
      ensures this.limit == limit && View() == INITIAL
    {
      this.limit := limit;
      current, peak, threads, past := 0, 0, map[], Past(0, 0, 0, 0, 0);
    }

    ghost function View(): State
      reads this
    {
      State(current, peak, threads, past)
    }

    method OpenBegins(t: nat, policyOk: bool) returns (admitted: bool)
      requires PcOf(View(), t).Idle?
      modifies this
      ensures View() == Step(limit, old(View()), BeginOpen(t, policyOk))
      ensures admitted <==> PcOf(View(), t).Passed?
    {
      var next := current + 1;
      if limit > 0 && next > limit {
        past := past.(byLimit := past.byLimit + 1);
        return false;
      }
      if !policyOk {
        past := past.(byPolicy := past.byPolicy + 1);
        return false;
      }
      threads := threads[t := Passed];
      admitted := true;
    }

    method CloseBegins(t: nat)
      requires PcOf(View(), t).Idle?
      modifies this
      ensures View() == Step(limit, old(View()), BeginClose(t))
    {
      threads := threads[t := CloseCas(current)];
    }

    /** The next atomic operation of the thread. */
    method AdvanceThread(t: nat, spurious: bool)
      modifies this
      ensures View() == Step(limit, old(View()), Advance(t, spurious))
    {
      if t !in threads || threads[t].Idle? {
        return;
      }
      match threads[t] {
        case Passed =>
          current := current + 1;
          threads := threads[t := Added(current)];
          past := past.(maxEver := Max(past.maxEver, current), opens := past.opens + 1);
        case Added(cur) =>
          threads := threads[t := PeakCas(cur, peak)];
        case PeakCas(cur, prev) =>
          if cur <= prev {
            threads := threads[t := Idle];
          } else if peak == prev && !spurious {
            peak := cur;
            threads := threads[t := Idle];
          } else {
            threads := threads[t := PeakCas(cur, peak)];
          }
        case CloseCas(cur) =>
          if cur <= 0 {
            threads := threads[t := Idle];
          } else if current == cur && !spurious {
            current := cur - 1;
            threads := threads[t := Idle];
            past := past.(closes := past.closes + 1);
          } else {
            threads := threads[t := CloseCas(current)];
          }
      }
    }
  }
}
