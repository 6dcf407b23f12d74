// A reconcile against an API server that others use: what happens between its calls, how each
// call fares, and where a state machine gets under that script.
module Turns {
  import opened Sorting
  import opened Environment
  import opened Runs

  // What the others do before a call, and how the call fares.
  datatype Turn<E> = Turn(before: seq<E>, fate: Fate, now: int, stamp: string)

  // A machine: its step, which events are the others', where a reconcile ends, its calls and
  // its crash.
  datatype Machine<!S, !E> = Machine(
    step: (S, E) -> S,
    external: E -> bool,
    ended: S -> bool,
    call: (Reply, int, string) -> E,
    crash: E)

  function CallEvent<S, E>(m: Machine<S, E>, turn: Turn<E>): E {
    if turn.fate.OperatorCrash? then m.crash else m.call(turn.fate.reply, turn.now, turn.stamp)
  }

  function Disturbed<S, E(!new)>(m: Machine<S, E>, s: S, before: seq<E>): S { Run(m.step, s, Filter(m.external, before)) }

  // One turn: the others act, then the call is made.
  function Taken<S, E(!new)>(m: Machine<S, E>, s: S, turn: Turn<E>): S {
    m.step(Disturbed(m, s, turn.before), CallEvent(m, turn))
  }

  // From a state to the end of the reconcile, with the turns it leaves. An operator out of
  // turns is dead.
  function Play<S, E(!new)>(m: Machine<S, E>, s: S, turns: seq<Turn<E>>): (S, seq<Turn<E>>)
    decreases |turns|
  {
    if m.ended(s) then (s, turns)
    else if turns == [] then (m.step(s, m.crash), [])
    else Play(m, Taken(m, s, turns[0]), turns[1..])
  }

  // One call, made from wherever the machine is; an operator out of turns dies on it.
  function Asked<S, E(!new)>(m: Machine<S, E>, s: S, turns: seq<Turn<E>>): (S, seq<Turn<E>>) {
    if turns == [] then (m.step(s, m.crash), []) else (Taken(m, s, turns[0]), turns[1..])
  }

  lemma DisturbedSnoc<S, E(!new)>(m: Machine<S, E>, s: S, before: seq<E>, e: E)
    ensures Disturbed(m, s, before + [e]) ==
            if m.external(e) then m.step(Disturbed(m, s, before), e) else Disturbed(m, s, before)
  {
    FilterSnoc(m.external, before, e);
    RunSnoc(m.step, s, Filter(m.external, before), e);
    assert Filter(m.external, before) + [] == Filter(m.external, before);
  }

  // An event of a play: a call or the crash of one of its turns, the crash of an operator out
  // of turns, or something the others do in one of its turns.
  ghost predicate FromTurns<S(!new), E(!new)>(m: Machine<S, E>, e: E, turns: seq<Turn<E>>) {
    e == m.crash || exists t :: t in turns && (e == CallEvent(m, t) || (e in t.before && m.external(e)))
  }

  // Whatever is played is a run of the machine, made of the turns' events.
  lemma {:induction false} PlayIsRun<S(!new), E(!new)>(m: Machine<S, E>, s: S, turns: seq<Turn<E>>) returns (events: seq<E>)
    ensures Run(m.step, s, events) == Play(m, s, turns).0
    ensures forall e :: e in events ==> FromTurns(m, e, turns)
    ensures forall t :: t in Play(m, s, turns).1 ==> t in turns
    decreases |turns|
  {
    if m.ended(s) {
      events := [];
    } else if turns == [] {
      events := [m.crash];
      RunSnoc(m.step, s, [], m.crash);
      assert [] + [m.crash] == [m.crash];
    } else {
      var before, call := Filter(m.external, turns[0].before), CallEvent(m, turns[0]);
      var rest := PlayIsRun(m, Taken(m, s, turns[0]), turns[1..]);
      RunSnoc(m.step, s, before, call);
      RunAppend(m.step, s, before + [call], rest);
      events := before + [call] + rest;
    }
  }

  lemma AskedIsRun<S(!new), E(!new)>(m: Machine<S, E>, s: S, turns: seq<Turn<E>>) returns (events: seq<E>)
    ensures Run(m.step, s, events) == Asked(m, s, turns).0
    ensures forall e :: e in events ==> FromTurns(m, e, turns)
  {
    if turns == [] {
      events := [m.crash];
      RunSnoc(m.step, s, [], m.crash);
      assert [] + [m.crash] == [m.crash];
    } else {
      var before, call := Filter(m.external, turns[0].before), CallEvent(m, turns[0]);
      RunSnoc(m.step, s, before, call);
      events := before + [call];
    }
  }
}
