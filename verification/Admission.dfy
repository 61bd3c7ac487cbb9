/** The accept and close upcalls over the session counter, one upcall at a time: what the counter has to do with live sessions. */
module Admission {

  /** Closes of refused sessions that took one off the counter, and closes of accepted ones that found it at zero. */
  datatype Past = Past(refused: nat, overcounted: nat, undercounted: nat)

  /** `sessions` holds each live session and whether its open was accepted. */
  datatype State = State(current: int, sessions: map<nat, bool>, past: Past)

  datatype Event = Accept(key: nat, policyOk: bool) | Close(key: nat)

  const INITIAL := State(0, map[], Past(0, 0, 0))

  predicate Admits(limit: nat, current: int, policyOk: bool) {
    (limit == 0 || current + 1 <= limit) && policyOk
  }

  function AcceptClient(limit: nat, s: State, key: nat, policyOk: bool): State {
    if Admits(limit, s.current, policyOk) then State(s.current + 1, s.sessions[key := true], s.past)
    else State(s.current, s.sessions[key := false], s.past.(refused := s.past.refused + 1))
  }

  /** The close hook runs for every session, accepted or refused, and the counter stops at zero. */
  function CloseClient(s: State, key: nat): State
    requires key in s.sessions
  {
    var accepted := s.sessions[key];
    State(
      if s.current > 0 then s.current - 1 else s.current,
      s.sessions - {key},
      if !accepted && s.current > 0 then s.past.(overcounted := s.past.overcounted + 1)
      else if accepted && s.current <= 0 then s.past.(undercounted := s.past.undercounted + 1)
      else s.past)
  }

  function Step(limit: nat, s: State, e: Event): State {
    match e
    case Accept(key, ok) => if key in s.sessions then s else AcceptClient(limit, s, key, ok)
    case Close(key) => if key in s.sessions then CloseClient(s, key) else s
  }

  function Run(limit: nat, es: seq<Event>): State
    decreases |es|
  {
    if es == [] then INITIAL else Step(limit, Run(limit, es[..|es| - 1]), es[|es| - 1])
  }

  /** What an accept and a close decide: accepted iff below the limit and the policy is willing; every close takes one off, if there is one. */
  lemma StepOutcome(limit: nat, s: State, e: Event)
    ensures var s' := Step(limit, s, e);
            && (e.Accept? && e.key !in s.sessions ==>
                  var accepted := (limit == 0 || s.current < limit) && e.policyOk;
                  && s'.sessions == s.sessions[e.key := accepted]
                  && s'.current == s.current + if accepted then 1 else 0)
            && (e.Close? && e.key in s.sessions ==>
                  && s'.sessions == s.sessions - {e.key}
                  && s'.current == if s.current > 0 then s.current - 1 else s.current)
            && ((e.Accept? <==> e.key in s.sessions) ==> s' == s)
  {}

  function AcceptedLive(s: State): set<nat> {
    set k | k in s.sessions && s.sessions[k]
  }

  predicate Inv(limit: nat, s: State) {
    && 0 <= s.current
    && (limit > 0 ==> s.current <= limit)
    && |AcceptedLive(s)| == s.current + s.past.overcounted - s.past.undercounted
    && s.past.undercounted <= s.past.overcounted
    && (s.past.refused == 0 ==> s.past.overcounted == 0 && forall k <- s.sessions :: s.sessions[k])
  }

  lemma LiveAfterAccept(limit: nat, s: State, key: nat, ok: bool)
    requires key !in s.sessions
    ensures |AcceptedLive(AcceptClient(limit, s, key, ok))| ==
            |AcceptedLive(s)| + if Admits(limit, s.current, ok) then 1 else 0
  {
    var s' := AcceptClient(limit, s, key, ok);
    if Admits(limit, s.current, ok) {
      assert AcceptedLive(s') == AcceptedLive(s) + {key};
    } else {
      assert AcceptedLive(s') == AcceptedLive(s);
    }
  }

  lemma LiveAfterClose(s: State, key: nat)
    requires key in s.sessions
    ensures |AcceptedLive(CloseClient(s, key))| == |AcceptedLive(s)| - if s.sessions[key] then 1 else 0
  {
    var s' := CloseClient(s, key);
    if s.sessions[key] {
      assert AcceptedLive(s') == AcceptedLive(s) - {key};
    } else {
      assert AcceptedLive(s') == AcceptedLive(s);
    }
  }

  lemma StepKeeps(limit: nat, s: State, e: Event)
    requires Inv(limit, s)
    ensures Inv(limit, Step(limit, s, e))
  {
    hide AcceptedLive;
    if e.Accept? && e.key !in s.sessions {
      LiveAfterAccept(limit, s, e.key, e.policyOk);
    } else if e.Close? && e.key in s.sessions {
      LiveAfterClose(s, e.key);
    }
  }

  lemma {:induction false} RunInv(limit: nat, es: seq<Event>)
    ensures Inv(limit, Run(limit, es))
    decreases |es|
  {
    if es == [] {
      assert AcceptedLive(INITIAL) == {};
    } else {
      RunInv(limit, es[..|es| - 1]);
      StepKeeps(limit, Run(limit, es[..|es| - 1]), es[|es| - 1]);
    }
  }

  /** The counter lags the accepted live sessions by exactly the miscounted closes, so they can pass the limit by that much. */
  lemma CounterLag(limit: nat, es: seq<Event>)
    ensures var s := Run(limit, es);
            var lag := s.past.overcounted - s.past.undercounted;
            && lag >= 0 && |AcceptedLive(s)| == s.current + lag
            && (limit > 0 ==> s.current <= limit && |AcceptedLive(s)| <= limit + lag)
            && (s.past.refused == 0 ==> lag == 0)
  {
    RunInv(limit, es);
  }

  predicate IsExact(s: State) {
    |AcceptedLive(s)| == s.current
  }

  /** The counter has been the number of accepted live sessions all along. */
  ghost predicate ExactThroughout(limit: nat, es: seq<Event>) {
    forall n | 0 <= n <= |es| :: IsExact(Run(limit, es[..n]))
  }

  lemma MiscountStep(limit: nat, s: State, e: Event)
    requires Inv(limit, s)
    ensures Step(limit, s, e).past.overcounted >= s.past.overcounted
    ensures s.past.overcounted == 0 && Step(limit, s, e).past.overcounted > 0 ==> Step(limit, s, e).past.undercounted == 0
  {
    hide AcceptedLive;
  }

  lemma ExactFront(limit: nat, es: seq<Event>)
    requires es != []
    ensures ExactThroughout(limit, es) <==> ExactThroughout(limit, es[..|es| - 1]) && IsExact(Run(limit, es))
  {
    hide IsExact, Run;
    var front := es[..|es| - 1];
    assert es[..|es|] == es;
    assert forall n | 0 <= n <= |front| :: front[..n] == es[..n];
    if ExactThroughout(limit, es) {
      forall n | 0 <= n <= |front|
        ensures IsExact(Run(limit, front[..n]))
      {
        assert IsExact(Run(limit, es[..n]));
      }
    }
    if ExactThroughout(limit, front) && IsExact(Run(limit, es)) {
      forall n | 0 <= n <= |es|
        ensures IsExact(Run(limit, es[..n]))
      {
        if n < |es| {
          assert IsExact(Run(limit, front[..n]));
        }
      }
    }
  }

  /** The counter is exact throughout a run exactly when no close of a refused session ever found it above zero. */
  lemma {:induction false} CounterIsExact(limit: nat, es: seq<Event>)
    ensures ExactThroughout(limit, es) <==> Run(limit, es).past.overcounted == 0
    decreases |es|
  {
    RunInv(limit, es);
    if es == [] {
      assert es[..0] == [];
    } else {
      var front := es[..|es| - 1];
      CounterIsExact(limit, front);
      ExactFront(limit, es);
      RunInv(limit, front);
      MiscountStep(limit, Run(limit, front), es[|es| - 1]);
      hide ExactThroughout, AcceptedLive, Step;
    }
  }

  /** Every accept in the run meets a willing policy, so only the limit can refuse. */
  predicate PolicyWilling(es: seq<Event>) {
    forall e <- es :: e.Accept? ==> e.policyOk
  }

  /** Accept sessions 2, 4, ... up to the limit; from there on have one refused, close it, and accept the next. */
  function LimitRounds(limit: nat, n: nat): seq<Event> {
    if n == 0 then []
    else
      LimitRounds(limit, n - 1) +
      (if n <= limit then [Accept(2 * n, true)] else [Accept(2 * n + 1, true), Close(2 * n + 1), Accept(2 * n, true)])
  }

  function Min(a: int, b: int): int {
    if a < b then a else b
  }

  predicate KeysBelow(s: State, bound: nat) {
    forall k <- s.sessions :: k < bound
  }

  lemma PlainRound(limit: nat, s: State, a: nat)
    requires 0 <= s.current < limit && a !in s.sessions
    ensures Step(limit, s, Accept(a, true)) == State(s.current + 1, s.sessions[a := true], s.past)
  {}

  lemma RefusedRound(limit: nat, s: State, a: nat, b: nat)
    requires s.current == limit > 0 && a !in s.sessions && b !in s.sessions && a != b
    ensures var t := Step(limit, Step(limit, Step(limit, s, Accept(b, true)), Close(b)), Accept(a, true));
            t.current == limit && t.sessions == s.sessions[a := true]
  {
    assert s.sessions[b := false] - {b} == s.sessions;
  }

  lemma RunRound(limit: nat, n: nat)
    requires n > 0
    ensures var s, t := Run(limit, LimitRounds(limit, n - 1)), Run(limit, LimitRounds(limit, n));
            && (n <= limit ==> t == Step(limit, s, Accept(2 * n, true)))
            && (n > limit ==> t == Step(limit, Step(limit, Step(limit, s, Accept(2 * n + 1, true)), Close(2 * n + 1)), Accept(2 * n, true)))
  {
    var es := LimitRounds(limit, n - 1);
    if n <= limit {
      RunSnoc(limit, es, Accept(2 * n, true));
    } else {
      var e1 := es + [Accept(2 * n + 1, true)];
      var e2 := e1 + [Close(2 * n + 1)];
      assert LimitRounds(limit, n) == e2 + [Accept(2 * n, true)];
      hide Step;
      RunSnoc(limit, es, Accept(2 * n + 1, true));
      RunSnoc(limit, e1, Close(2 * n + 1));
      RunSnoc(limit, e2, Accept(2 * n, true));
    }
  }

  lemma {:induction false} LimitRoundsEnd(limit: nat, n: nat)
    requires limit > 0
    ensures var s := Run(limit, LimitRounds(limit, n));
            s.current == Min(n, limit) && |AcceptedLive(s)| == n && KeysBelow(s, 2 * n + 1)
  {
    hide Run, Step, AcceptedLive;
    if n == 0 {
      RunNothing(limit);
      NobodyLive();
    } else {
      LimitRoundsEnd(limit, n - 1);
      RunRound(limit, n);
      hide LimitRounds;
      var s, t := Run(limit, LimitRounds(limit, n - 1)), Run(limit, LimitRounds(limit, n));
      if n <= limit {
        PlainRound(limit, s, 2 * n);
      } else {
        RefusedRound(limit, s, 2 * n, 2 * n + 1);
      }
      OneMoreLive(s, t, 2 * n);
    }
  }

  lemma RunNothing(limit: nat)
    ensures Run(limit, LimitRounds(limit, 0)) == INITIAL
  {}

  lemma {:induction false} LimitRoundsAreWilling(limit: nat, n: nat)
    ensures PolicyWilling(LimitRounds(limit, n))
  {
    if n > 0 {
      LimitRoundsAreWilling(limit, n - 1);
    }
  }

  /** Whatever the limit, and with a policy that refuses nobody, any larger number of sessions can be accepted and live. */
  lemma RefusalsDefeatLimit(limit: nat, n: nat)
    requires 0 < limit <= n
    ensures exists es :: PolicyWilling(es) && Run(limit, es).current == limit && |AcceptedLive(Run(limit, es))| == n
  {
    LimitRoundsAreWilling(limit, n);
    LimitRoundsEnd(limit, n);
    hide AcceptedLive, Run, PolicyWilling;
    assert PolicyWilling(LimitRounds(limit, n));
  }

  lemma NobodyLive()
    ensures AcceptedLive(INITIAL) == {}
  {}

  lemma OneMoreLive(s: State, s': State, a: nat)
    requires a !in s.sessions && s'.sessions == s.sessions[a := true]
    ensures |AcceptedLive(s')| == |AcceptedLive(s)| + 1
  {
    assert AcceptedLive(s') == AcceptedLive(s) + {a};
  }

  lemma RunSnoc(limit: nat, es: seq<Event>, e: Event)
    ensures Run(limit, es + [e]) == Step(limit, Run(limit, es), e)
  {
    assert (es + [e])[..|es|] == es;
  }

  /** The line host behind a handler's accept and close upcalls. */
  class LineHost {
    const limit: nat
    var current: int
    ghost var sessions: map<nat, bool>
    ghost var past: Past

    constructor (limit: nat)
      ensures this.limit == limit && View() == INITIAL
    {
      this.limit := limit;
      current, sessions, past := 0, map[], Past(0, 0, 0);
    }

    ghost function View(): State
      reads this
    {
      State(current, sessions, past)
    }

    /** False: the handler closes the session at once. */
    method AcceptClientCheck(key: nat, policyOk: bool) returns (accepted: bool)
      requires key !in sessions
      modifies this
      ensures View() == Step(limit, old(View()), Accept(key, policyOk))
      ensures key in sessions && accepted == sessions[key]
    {
      var next := current + 1;
      if limit > 0 && next > limit {
        accepted := false;
      } else if !policyOk {
        accepted := false;
      } else {
        current := current + 1;
        accepted := true;
      }
      sessions := sessions[key := accepted];
      if !accepted {
        past := past.(refused := past.refused + 1);
      }
    }

    method CloseClientCheck(key: nat)
      requires key in sessions
      modifies this
      ensures View() == Step(limit, old(View()), Close(key))
    {
      if current > 0 {
        if !sessions[key] {
          past := past.(overcounted := past.overcounted + 1);
        }
        current := current - 1;
      } else if sessions[key] {
        past := past.(undercounted := past.undercounted + 1);
      }
      sessions := sessions - {key};
    }
  }
}
