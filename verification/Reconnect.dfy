/** The reconnecting client before any stop: its coroutines as steps, its serials, and its backoff in 32-bit arithmetic. */
module Reconnect {
  import opened Bytes

  /** The settings made before start. */
  datatype Config = Config(auto: bool, delay: u32, maxDelay: u32)

  /** A running coroutine: connect_loop_, wait_reconnect_, or the session with its 1-based ordinal. */
  datatype Task = Connecting | Waiting | Serving(ordinal: nat)

  /**
   * `losses` counts failed connects and ended sessions since the last success or the start;
   * `serials` lists the serials of all sessions so far.
   */
  datatype Past = Past(sessions: nat, losses: nat, attempts: nat, serials: seq<u32>)

  datatype State = State(
    started: bool, pending: bool, backoff: u32, serial: u32, session: Option<nat>, tasks: seq<Task>, past: Past)

  datatype Event = Start | Finish(i: nat, ok: bool)

  function Initial(c: Config): State {
    State(false, false, c.delay, 0, None, [], Past(0, 0, 0, []))
  }

  function Min(a: int, b: int): int {
    if a < b then a else b
  }

  /** grow_backoff_: the doubling wraps at 32 bits before the cap is taken. */
  function Grow(c: Config, backoff: u32): u32 {
    Min(backoff * 2 % TWO_TO_32, c.maxDelay)
  }

  function Connect(s: State): State {
    s.(tasks := s.tasks + [Connecting], past := s.past.(attempts := s.past.attempts + 1))
  }

  function Begin(c: Config, s: State): State {
    if s.started then s else Connect(s.(started := true, pending := false, backoff := c.delay))
  }

  function Schedule(c: Config, s: State): State {
    if !c.auto || !s.started || s.pending then s else s.(pending := true, tasks := s.tasks + [Waiting])
  }

  /** What both a failed connect and an ended session lead to. */
  function Lose(c: Config, s: State): State {
    var s' := s.(past := s.past.(losses := s.past.losses + 1));
    if s.started && c.auto then Schedule(c, s'.(backoff := Grow(c, s.backoff))) else s'
  }

  function Succeed(c: Config, s: State): State {
    var n := s.past.sessions + 1;
    var serial := (s.serial + 1) % TWO_TO_32;
    s.(serial := serial, session := Some(n), backoff := c.delay, tasks := s.tasks + [Serving(n)],
       past := s.past.(sessions := n, losses := 0, serials := s.past.serials + [serial]))
  }

  function FinishTask(c: Config, s: State, t: Task, ok: bool): State {
    match t
    case Connecting => if ok then Succeed(c, s) else Lose(c, s.(session := None))
    case Serving(n) => Lose(c, if s.session == Some(n) then s.(session := None) else s)
    case Waiting => if s.started then Connect(s.(pending := false)) else s.(pending := false)
  }

  function Step(c: Config, s: State, e: Event): State {
    match e
    case Start => Begin(c, s)
    case Finish(i, ok) =>
      if i >= |s.tasks| then s
      else FinishTask(c, s.(tasks := s.tasks[..i] + s.tasks[i + 1..]), s.tasks[i], ok)
  }

  function Run(c: Config, es: seq<Event>): State
    decreases |es|
  {
    if es == [] then Initial(c) else Step(c, Run(c, es[..|es| - 1]), es[|es| - 1])
  }

  /** The backoff after `k` losses in a row. */
  function BackoffAfter(c: Config, k: nat): u32 {
    if k == 0 then c.delay else Grow(c, BackoffAfter(c, k - 1))
  }

  predicate OneTask(c: Config, s: State) {
    && |s.tasks| <= 1
    && (!s.started ==> s.tasks == [] && s.past.losses == 0)
    && (s.pending ==> c.auto)
    && (s.started && c.auto ==> |s.tasks| == 1)
    && (s.pending <==> s.tasks == [Waiting])
  }

  predicate SessionsNumbered(s: State) {
    && s.serial == s.past.sessions % TWO_TO_32
    && |s.past.serials| == s.past.sessions
    && (forall i | 0 <= i < s.past.sessions :: s.past.serials[i] == (i + 1) % TWO_TO_32)
    && s.session == (if |s.tasks| == 1 && s.tasks[0].Serving? then Some(s.past.sessions) else None)
    && (forall t <- s.tasks :: t.Serving? ==> t.ordinal == s.past.sessions)
    && (s.tasks == [Waiting] ==> s.past.losses > 0)
  }

  predicate Inv(c: Config, s: State) {
    && OneTask(c, s)
    && SessionsNumbered(s)
    && (c.auto ==> s.backoff == BackoffAfter(c, s.past.losses))
    && (!c.auto ==> s.past.attempts == (if s.started then 1 else 0) && (s.past.losses > 0 ==> s.tasks == []))
  }

  lemma NextSerial(n: nat)
    ensures (n % TWO_TO_32 + 1) % TWO_TO_32 == (n + 1) % TWO_TO_32
  {}

  lemma FinishKeeps(c: Config, s: State, t: Task, ok: bool)
    requires Inv(c, s) && s.tasks == [t]
    ensures Inv(c, FinishTask(c, s.(tasks := []), t, ok))
  {
    hide Grow;
    NextSerial(s.past.sessions);
    match t {
      case Connecting =>
      case Serving(n) =>
      case Waiting =>
    }
  }

  lemma BeginKeeps(c: Config, s: State)
    requires Inv(c, s)
    ensures Inv(c, Begin(c, s))
  {
    if !s.started {
      assert s.tasks + [Connecting] == [Connecting];
    }
  }

  lemma StepKeeps(c: Config, s: State, e: Event)
    requires Inv(c, s)
    ensures Inv(c, Step(c, s, e))
  {
    if e.Finish? && e.i < |s.tasks| {
      assert e.i == 0 && s.tasks[..e.i] + s.tasks[e.i + 1..] == [];
      assert s.tasks == [s.tasks[0]];
      FinishKeeps(c, s, s.tasks[0], e.ok);
      assert Step(c, s, e) == FinishTask(c, s.(tasks := []), s.tasks[0], e.ok);
    } else if e.Start? {
      BeginKeeps(c, s);
    }
  }

  lemma {:induction false} RunInv(c: Config, es: seq<Event>)
    ensures Inv(c, Run(c, es))
    decreases |es|
  {
    if es != [] {
      RunInv(c, es[..|es| - 1]);
      StepKeeps(c, Run(c, es[..|es| - 1]), es[|es| - 1]);
    }
  }

  /** Never two of connect, session and wait at once; exactly one, once started with auto-reconnect. */
  lemma OneThingAtATime(c: Config, es: seq<Event>)
    ensures var s := Run(c, es);
            && |s.tasks| <= 1
            && (s.started && c.auto ==> |s.tasks| == 1)
            && (s.session.Some? <==> |s.tasks| == 1 && s.tasks[0].Serving?)
  {
    RunInv(c, es);
  }

  lemma NothingAfterLoss(c: Config, s: State, e: Event)
    requires Inv(c, s) && !c.auto && s.past.losses > 0
    ensures Step(c, s, e) == s
  {}

  /** Without auto-reconnect the first loss is final: later starts do nothing, because the client still counts as started. */
  lemma {:induction false} LossIsFinalWithoutAuto(c: Config, es: seq<Event>, more: seq<Event>)
    requires !c.auto && Run(c, es).past.losses > 0
    ensures Run(c, es + more) == Run(c, es)
    decreases |more|
  {
    hide Step, Inv;
    if more == [] {
      assert es + more == es;
    } else {
      var front := more[..|more| - 1];
      LossIsFinalWithoutAuto(c, es, front);
      assert (es + more)[..|es + more| - 1] == es + front;
      RunInv(c, es);
      NothingAfterLoss(c, Run(c, es), more[|more| - 1]);
    }
  }

  lemma SerialsExtend(c: Config, s: State, e: Event)
    ensures s.past.serials <= Step(c, s, e).past.serials
  {}

  /** Each session's serial stands in the list for good, the current serial being the last. */
  lemma {:induction false} SerialsOnlyGrow(c: Config, es: seq<Event>, more: seq<Event>)
    ensures Run(c, es).past.serials <= Run(c, es + more).past.serials
    ensures var s := Run(c, es + more); s.past.serials != [] ==> s.serial == s.past.serials[|s.past.serials| - 1]
    decreases |more|
  {
    hide Step;
    RunInv(c, es + more);
    if more == [] {
      assert es + more == es;
    } else {
      var front := more[..|more| - 1];
      assert (es + more)[..|es + more| - 1] == es + front;
      SerialsOnlyGrow(c, es, front);
      SerialsExtend(c, Run(c, es + front), more[|more| - 1]);
    }
  }

  /** The serials of a run's sessions strictly increase exactly as long as there are fewer than 2^32 of them. */
  lemma SerialsIncrease(c: Config, es: seq<Event>)
    ensures var serials := Run(c, es).past.serials;
            (forall i, j | 0 <= i < j < |serials| :: serials[i] < serials[j]) <==> |serials| < TWO_TO_32
  {
    RunInv(c, es);
    hide Run, OneTask;
    var serials := Run(c, es).past.serials;
    if |serials| >= TWO_TO_32 {
      assert serials[0] == 1 && serials[TWO_TO_32 - 1] == 0;
    }
  }

  // ---- what a run amounts to, from its events alone ----

  /** What the client is doing: nothing yet, one of its three activities, or nothing any more. */
  datatype Doing = Unstarted | Connects | Serves | Waits | GivenUp

  function AfterEnd(auto: bool, d: Doing, ok: bool): Doing {
    match d
    case Connects => if ok then Serves else if auto then Waits else GivenUp
    case Serves => if auto then Waits else GivenUp
    case Waits => Connects
    case _ => d
  }

  function DoingAfter(auto: bool, es: seq<Event>): Doing
    decreases |es|
  {
    if es == [] then Unstarted
    else
      var d := DoingAfter(auto, es[..|es| - 1]);
      match es[|es| - 1]
      case Start => if d == Unstarted then Connects else d
      case Finish(i, ok) => if i == 0 then AfterEnd(auto, d, ok) else d
  }

  /** The last event of `es` ends a connect attempt with the outcome `ok`. */
  predicate EndsConnect(auto: bool, es: seq<Event>, ok: bool)
    requires es != []
  {
    DoingAfter(auto, es[..|es| - 1]) == Connects && es[|es| - 1] == Finish(0, ok)
  }

  predicate EndsSession(auto: bool, es: seq<Event>)
    requires es != []
  {
    DoingAfter(auto, es[..|es| - 1]) == Serves && es[|es| - 1].Finish? && es[|es| - 1].i == 0
  }

  /** The connect attempts that ended well. */
  function Successes(auto: bool, es: seq<Event>): nat
    decreases |es|
  {
    if es == [] then 0
    else Successes(auto, es[..|es| - 1]) + if EndsConnect(auto, es, true) then 1 else 0
  }

  /** The failed connects and ended sessions since the last success. */
  function LossesSince(auto: bool, es: seq<Event>): nat
    decreases |es|
  {
    if es == [] || EndsConnect(auto, es, true) then 0
    else LossesSince(auto, es[..|es| - 1]) + if EndsConnect(auto, es, false) || EndsSession(auto, es) then 1 else 0
  }

  /** The serials of the first `n` sessions. */
  function FirstSerials(n: nat): (r: seq<u32>)
    ensures |r| == n
  {
    seq(n, k => (k + 1) % TWO_TO_32)
  }

  predicate TaskFits(s: State, d: Doing) {
    && (s.started <==> d != Unstarted)
    && match d
       case Connects => s.tasks == [Connecting]
       case Serves => s.tasks == [Serving(s.past.sessions)]
       case Waits => s.tasks == [Waiting]
       case _ => s.tasks == []
  }

  predicate Follows(c: Config, es: seq<Event>) {
    var s := Run(c, es);
    TaskFits(s, DoingAfter(c.auto, es)) && s.past.sessions == Successes(c.auto, es) && s.past.losses == LossesSince(c.auto, es)
  }

  lemma EndFits(c: Config, s: State, d: Doing, ok: bool)
    requires Inv(c, s) && TaskFits(s, d) && s.tasks != []
    ensures var s' := Step(c, s, Finish(0, ok));
            && TaskFits(s', AfterEnd(c.auto, d, ok))
            && s'.past.sessions == s.past.sessions + (if d == Connects && ok then 1 else 0)
            && s'.past.losses == (if d == Connects && ok then 0 else s.past.losses + if d == Waits then 0 else 1)
  {
    assert s.tasks[..0] + s.tasks[1..] == [];
    hide Grow, SessionsNumbered;
    match d {
      case Connects =>
      case Serves =>
      case Waits =>
    }
  }

  lemma FollowsNext(c: Config, es: seq<Event>)
    requires es != [] && Follows(c, es[..|es| - 1])
    ensures Follows(c, es)
  {
    var front, e := es[..|es| - 1], es[|es| - 1];
    RunInv(c, front);
    var s := Run(c, front);
    if e.Finish? && e.i == 0 && s.tasks != [] {
      EndFits(c, s, DoingAfter(c.auto, front), e.ok);
      hide Step, Inv;
    } else {
      hide Grow, SessionsNumbered;
    }
  }

  lemma {:induction false} RunFollows(c: Config, es: seq<Event>)
    ensures Follows(c, es)
    decreases |es|
  {
    if es == [] {
    } else {
      RunFollows(c, es[..|es| - 1]);
      FollowsNext(c, es);
    }
  }

  /**
   * What the events say: each connect that ended well made one session, with the serials counting from 1, and the
   * latest stands exactly while it is served; the losses are the failed connects and ended sessions since then, and
   * with auto-reconnect they alone fix the backoff.
   */
  lemma SessionsAreSuccesses(c: Config, es: seq<Event>)
    ensures var s, n, d := Run(c, es), Successes(c.auto, es), DoingAfter(c.auto, es);
            && s.past.serials == FirstSerials(n)
            && s.session == (if d == Serves then Some(n) else None)
            && (s.pending <==> d == Waits)
            && s.past.losses == LossesSince(c.auto, es)
            && (c.auto ==> s.backoff == BackoffAfter(c, LossesSince(c.auto, es)))
  {
    RunFollows(c, es);
    RunInv(c, es);
    hide Run, DoingAfter, Successes, LossesSince, BackoffAfter;
    assert Run(c, es).past.serials == FirstSerials(Successes(c.auto, es));
  }

  lemma ConnectEndsWell(c: Config, s: State)
    requires Inv(c, s) && s.tasks == [Connecting]
    ensures var s' := Step(c, s, Finish(0, true));
            && s'.session == Some(s.past.sessions + 1) && s'.tasks == [Serving(s.past.sessions + 1)]
            && s'.serial == (s.past.sessions + 1) % TWO_TO_32 && s'.past.serials == s.past.serials + [s'.serial]
            && s'.backoff == c.delay && !s'.pending
  {
    assert s.tasks[..0] + s.tasks[1..] == [];
    NextSerial(s.past.sessions);
    hide Grow;
  }

  lemma ConnectFails(c: Config, s: State)
    requires Inv(c, s) && s.tasks == [Connecting]
    ensures var s' := Step(c, s, Finish(0, false));
            && s'.session == None && s'.serial == s.serial && s'.past.serials == s.past.serials
            && s'.tasks == (if c.auto then [Waiting] else []) && s'.pending == c.auto
            && s'.backoff == (if c.auto then Grow(c, s.backoff) else s.backoff)
  {
    assert s.tasks[..0] + s.tasks[1..] == [];
    hide Grow, SessionsNumbered;
  }

  lemma RunSnoc(c: Config, es: seq<Event>, e: Event)
    ensures Run(c, es + [e]) == Step(c, Run(c, es), e)
  {
    assert (es + [e])[..|es|] == es;
  }

  /** The outcome of a connect attempt decides between a session and the wait for the next attempt. */
  lemma ConnectOutcome(c: Config, es: seq<Event>)
    requires Run(c, es).tasks == [Connecting]
    ensures var s, s' := Run(c, es), Run(c, es + [Finish(0, true)]);
            && s'.session == Some(s.past.sessions + 1) && s'.tasks == [Serving(s.past.sessions + 1)]
            && s'.serial == (s.past.sessions + 1) % TWO_TO_32 && s'.past.serials == s.past.serials + [s'.serial]
            && s'.backoff == c.delay && !s'.pending
    ensures var s, s' := Run(c, es), Run(c, es + [Finish(0, false)]);
            && s'.session == None && s'.serial == s.serial && s'.past.serials == s.past.serials
            && s'.tasks == (if c.auto then [Waiting] else []) && s'.pending == c.auto
            && s'.backoff == (if c.auto then Grow(c, s.backoff) else s.backoff)
  {
    RunInv(c, es);
    RunSnoc(c, es, Finish(0, true));
    RunSnoc(c, es, Finish(0, false));
    hide Run, Grow, Step, Inv;
    ConnectEndsWell(c, Run(c, es));
    ConnectFails(c, Run(c, es));
  }

  // ---- backoff ----

  function Power2(k: nat): nat {
    if k == 0 then 1 else 2 * Power2(k - 1)
  }

  /** The intended backoff: doubled for each loss, capped. */
  function IdealBackoff(c: Config, k: nat): nat {
    Min(c.delay * Power2(k), c.maxDelay)
  }

  /** The settings under which the 32-bit arithmetic never shows. */
  predicate BackoffIsSafe(c: Config) {
    c.delay == 0 || (c.maxDelay < TWO_TO_31 && (c.delay < TWO_TO_31 || 2 * c.delay - TWO_TO_32 >= c.maxDelay))
  }

  lemma GrowDoubles(c: Config, x: nat)
    requires c.maxDelay < TWO_TO_31
    ensures Grow(c, Min(x, c.maxDelay)) == Min(2 * x, c.maxDelay)
  {}

  lemma FirstBackoff(c: Config)
    requires BackoffIsSafe(c)
    ensures Grow(c, c.delay) == Min(2 * c.delay, c.maxDelay)
  {
    if c.delay >= TWO_TO_31 {
      assert c.delay * 2 % TWO_TO_32 == c.delay * 2 - TWO_TO_32;
    }
  }

  lemma {:induction false} SafeBackoffIsIdeal(c: Config, k: nat)
    requires BackoffIsSafe(c) && k > 0
    ensures BackoffAfter(c, k) == IdealBackoff(c, k)
    decreases k
  {
    if k == 1 {
      assert Power2(1) == 2;
      FirstBackoff(c);
    } else {
      SafeBackoffIsIdeal(c, k - 1);
      var p := c.delay * Power2(k - 1);
      assert c.delay * Power2(k) == 2 * p;
      if c.delay == 0 {
        assert p == 0;
      } else {
        GrowDoubles(c, p);
      }
      hide Power2;
    }
  }

  lemma {:induction false} Power2Large(k: nat)
    requires k >= 32
    ensures Power2(k) >= TWO_TO_32
    decreases k
  {
    if k == 32 {
      assert Power2(8) == 0x100 && Power2(16) == 0x1_0000 && Power2(24) == 0x100_0000 && Power2(32) == TWO_TO_32;
    } else {
      Power2Large(k - 1);
    }
  }

  lemma UnsafeBackoffShows(c: Config)
    requires !BackoffIsSafe(c)
    ensures exists k | k > 0 :: BackoffAfter(c, k) != IdealBackoff(c, k)
  {
    if c.maxDelay < TWO_TO_31 {
      assert BackoffAfter(c, 0) == c.delay && Power2(0) == 1 && Power2(1) == 2;
      assert BackoffAfter(c, 1) == 2 * c.delay - TWO_TO_32;
      assert BackoffAfter(c, 1) != IdealBackoff(c, 1);
    } else {
      Power2Large(32);
      Power2Large(33);
      assert c.delay * Power2(32) >= TWO_TO_32 by { TimesAtLeast(c.delay, Power2(32)); }
      assert c.delay * Power2(33) >= TWO_TO_32 by { TimesAtLeast(c.delay, Power2(33)); }
      assert IdealBackoff(c, 32) == c.maxDelay && IdealBackoff(c, 33) == c.maxDelay;
      if BackoffAfter(c, 32) == c.maxDelay {
        assert BackoffAfter(c, 33) == Grow(c, c.maxDelay);
        assert c.maxDelay * 2 % TWO_TO_32 == c.maxDelay * 2 - TWO_TO_32;
        assert BackoffAfter(c, 33) != IdealBackoff(c, 33);
      }
    }
  }

  lemma TimesAtLeast(a: nat, b: nat)
    requires a > 0
    ensures a * b >= b
  {}

  /** The backoff is the capped doubling after every number of losses exactly under the safe settings. */
  lemma BackoffIsExact(c: Config)
    ensures (forall k: nat | k > 0 :: BackoffAfter(c, k) == IdealBackoff(c, k)) <==> BackoffIsSafe(c)
  {
    if BackoffIsSafe(c) {
      forall k: nat | k > 0
        ensures BackoffAfter(c, k) == IdealBackoff(c, k)
      {
        SafeBackoffIsIdeal(c, k);
      }
    } else {
      UnsafeBackoffShows(c);
    }
  }

  /** In every run with safe settings: while a wait is pending, its delay is the capped doubling of the losses so far. */
  lemma PendingWaitBacksOff(c: Config, es: seq<Event>)
    requires c.auto && BackoffIsSafe(c) && Run(c, es).pending
    ensures var s := Run(c, es); s.past.losses > 0 && s.backoff == IdealBackoff(c, s.past.losses)
  {
    RunInv(c, es);
    SafeBackoffIsIdeal(c, Run(c, es).past.losses);
  }

  class TcpClient {
    const config: Config
    var started: bool
    var pending: bool
    var backoff: u32
    var serial: u32
    var session: Option<nat>
    ghost var tasks: seq<Task>
    var past: Past

    constructor (config: Config)
      ensures this.config == config && View() == Initial(config)
    {
      this.config := config;
      started, pending, backoff, serial, session := false, false, config.delay, 0, None;
      tasks, past := [], Past(0, 0, 0, []);
    }

    ghost function View(): State
      reads this
    {
      State(started, pending, backoff, serial, session, tasks, past)
    }

    ghost predicate Valid()
      reads this
    {
      Inv(config, View())
    }

    method Begin()
      requires Valid()
      modifies this
      ensures Valid() && View() == Step(config, old(View()), Start)
    {
      StepKeeps(config, View(), Start);
      hide Inv;
      if started {
        return;
      }
      started := true;
      pending := false;
      ResetBackoff();
      SpawnConnect();
    }

    method ResetBackoff()
      modifies `backoff
      ensures backoff == config.delay
    {
      backoff := config.delay;
    }

    method GrowBackoff()
      modifies `backoff
      ensures backoff == Grow(config, old(backoff))
    {
      var doubled := backoff * 2 % TWO_TO_32;
      backoff := if doubled < config.maxDelay then doubled else config.maxDelay;
    }

    method SpawnConnect()
      modifies `tasks, `past
      ensures View() == Connect(old(View()))
    {
      tasks := tasks + [Connecting];
      past := past.(attempts := past.attempts + 1);
    }

    method ScheduleReconnect()
      modifies `pending, `tasks
      ensures View() == Schedule(config, old(View()))
    {
      if !config.auto || !started || pending {
        return;
      }
      pending := true;
      tasks := tasks + [Waiting];
    }

    method AfterLoss()
      modifies `pending, `backoff, `tasks, `past
      ensures View() == Lose(config, old(View()))
    {
      past := past.(losses := past.losses + 1);
      if started && config.auto {
        GrowBackoff();
        ScheduleReconnect();
      }
    }

    /** connect_loop_ ends, connected or not. */
    method ConnectEnds(ok: bool)
      requires Valid() && tasks == [Connecting]
      modifies this
      ensures Valid() && View() == Step(config, old(View()), Finish(0, ok))
    {
      StepKeeps(config, View(), Finish(0, ok));
      hide Inv;
      assert tasks[..0] + tasks[1..] == [];
      tasks := [];
      if ok {
        serial := (serial + 1) % TWO_TO_32;
        session := Some(past.sessions + 1);
        tasks := tasks + [Serving(past.sessions + 1)];
        past := past.(sessions := past.sessions + 1, losses := 0, serials := past.serials + [serial]);
        ResetBackoff();
      } else {
        session := None;
        AfterLoss();
      }
    }

    /** The session coroutine returns; the session pointer is cleared only if it is still this session. */
    method SessionEnds(ordinal: nat)
      requires Valid() && tasks == [Serving(ordinal)]
      modifies this
      ensures Valid() && View() == Step(config, old(View()), Finish(0, false))
    {
      StepKeeps(config, View(), Finish(0, false));
      hide Inv;
      assert tasks[..0] + tasks[1..] == [];
      tasks := [];
      if session == Some(ordinal) {
        session := None;
      }
      AfterLoss();
    }

    method WaitEnds()
      requires Valid() && tasks == [Waiting]
      modifies this
      ensures Valid() && View() == Step(config, old(View()), Finish(0, true))
    {
      StepKeeps(config, View(), Finish(0, true));
      hide Inv;
      assert tasks[..0] + tasks[1..] == [];
      tasks := [];
      pending := false;
      if started {
        SpawnConnect();
      }
    }
  }
}
