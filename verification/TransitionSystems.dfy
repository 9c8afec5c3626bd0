/** Runs of a state machine given by what it allows next and what that does; induction over runs, once and for all. */
module TransitionSystems {

  /** The state after a list of events. */
  ghost function RunFrom<S, E>(next: (S, E) -> S, s: S, events: seq<E>): S
    decreases |events|
  {
    if events == [] then s else RunFrom(next, next(s, events[0]), events[1..])
  }

  /** Every event of the list is allowed in the state it meets. */
  ghost predicate Allowed<S, E>(next: (S, E) -> S, may: (S, E) -> bool, s: S, events: seq<E>)
    decreases |events|
  {
    events == [] || (may(s, events[0]) && Allowed(next, may, next(s, events[0]), events[1..]))
  }

  /** What every allowed event keeps holds after every run. */
  lemma {:induction false} KeptByRun<S(!new), E(!new)>(
    next: (S, E) -> S, may: (S, E) -> bool, inv: S -> bool, s: S, events: seq<E>)
    requires inv(s) && Allowed(next, may, s, events)
    requires forall x, e :: inv(x) && may(x, e) ==> inv(next(x, e))
    ensures inv(RunFrom(next, s, events))
    decreases |events|
  {
    if events != [] {
      KeptByRun(next, may, inv, next(s, events[0]), events[1..]);
    }
  }

  /** A reflexive, transitive relation every event respects relates the ends of every run. */
  lemma {:induction false} RelatedByRun<S(!new), E(!new)>(
    next: (S, E) -> S, may: (S, E) -> bool, inv: S -> bool, rel: (S, S) -> bool, s: S, events: seq<E>)
    requires inv(s) && Allowed(next, may, s, events)
    requires forall x, e :: inv(x) && may(x, e) ==> inv(next(x, e)) && rel(x, next(x, e))
    requires forall x :: rel(x, x)
    requires forall x, y, z :: rel(x, y) && rel(y, z) ==> rel(x, z)
    ensures rel(s, RunFrom(next, s, events))
    decreases |events|
  {
    if events != [] {
      RelatedByRun(next, may, inv, rel, next(s, events[0]), events[1..]);
    }
  }

  /** A run in two halves. */
  lemma {:induction false} RunInHalves<S, E>(
    next: (S, E) -> S, may: (S, E) -> bool, s: S, first: seq<E>, second: seq<E>)
    ensures RunFrom(next, s, first + second) == RunFrom(next, RunFrom(next, s, first), second)
    ensures Allowed(next, may, s, first + second) <==>
      Allowed(next, may, s, first) && Allowed(next, may, RunFrom(next, s, first), second)
    decreases |first|
  {
    if first == [] {
      assert first + second == second;
    } else {
      assert (first + second)[1..] == first[1..] + second;
      RunInHalves(next, may, next(s, first[0]), first[1..], second);
    }
  }
}
