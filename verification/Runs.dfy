// Runs of a state machine, and the repetition of one step.
module Runs {

  function Run<S, E>(step: (S, E) -> S, s: S, events: seq<E>): S
    decreases |events|
  {
    if events == [] then s else step(Run(step, s, events[..|events| - 1]), events[|events| - 1])
  }

  lemma {:induction false} RunAppend<S, E>(step: (S, E) -> S, s: S, a: seq<E>, b: seq<E>)
    ensures Run(step, s, a + b) == Run(step, Run(step, s, a), b)
    decreases |b|
  {
    if b == [] {
      assert a + b == a;
    } else {
      var n := |b| - 1;
      assert (a + b)[..|a + b| - 1] == a + b[..n];
      RunAppend(step, s, a, b[..n]);
    }
  }

  lemma RunSnoc<S, E>(step: (S, E) -> S, s: S, events: seq<E>, e: E)
    ensures Run(step, s, events + [e]) == step(Run(step, s, events), e)
  {
    assert (events + [e])[..|events|] == events;
  }

  lemma RunCons<S, E>(step: (S, E) -> S, s: S, e: E, events: seq<E>)
    ensures Run(step, s, [e] + events) == Run(step, step(s, e), events)
  {
    RunAppend(step, s, [e], events);
    RunSnoc(step, s, [], e);
    assert [] + [e] == [e];
  }

  // The same event n times.
  function Repeat<S, E>(step: (S, E) -> S, s: S, e: E, n: nat): S { Run(step, s, seq(n, _ => e)) }

  lemma RepeatOne<S, E>(step: (S, E) -> S, s: S, e: E, n: nat)
    requires n > 0
    ensures Repeat(step, s, e, n) == Repeat(step, step(s, e), e, n - 1)
  {
    assert seq(n, _ => e) == [e] + seq(n - 1, _ => e);
    RunCons(step, s, e, seq(n - 1, _ => e));
  }

  lemma {:induction false} RepeatFixed<S, E>(step: (S, E) -> S, s: S, e: E, n: nat)
    requires step(s, e) == s
    ensures Repeat(step, s, e, n) == s
  {
    if n > 0 {
      RepeatOne(step, s, e, n);
      RepeatFixed(step, s, e, n - 1);
    }
  }

  // An event and then n times another.
  lemma BegunIsRun<S, E>(step: (S, E) -> S, s: S, begin: E, e: E, n: nat)
    ensures Run(step, s, [begin] + seq(n, _ => e)) == Repeat(step, step(s, begin), e, n)
  {
    RunCons(step, s, begin, seq(n, _ => e));
  }
}
