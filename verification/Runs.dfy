/**
 Runs of any state machine: what holds after every prefix of a run, and what is true of
 every step of it.
 */
module Runs {

  /** The state after the first k events. */
  ghost function Reached<S, E>(next: (S, E) -> S, s: S, events: seq<E>, k: nat): S
    requires k <= |events|
  {
    if k == 0 then s else next(Reached(next, s, events, k - 1), events[k - 1])
  }

  /** The property holds after every prefix. */
  ghost predicate Always<S, E>(next: (S, E) -> S, holds: S -> bool, s: S, events: seq<E>) {
    forall k | 0 <= k <= |events| :: holds(Reached(next, s, events, k))
  }

  /** Every event meets the condition in the state it comes to. */
  ghost predicate Each<S, E>(next: (S, E) -> S, meets: (S, E) -> bool, s: S, events: seq<E>) {
    forall k | 0 <= k < |events| :: meets(Reached(next, s, events, k), events[k])
  }

  /** Among sane events, the condition decides whether a step keeps the property. */
  ghost predicate Decides<S(!new), E(!new)>(next: (S, E) -> S, holds: S -> bool, sane: (S, E) -> bool,
                                            meets: (S, E) -> bool) {
    forall s, e | holds(s) && sane(s, e) :: holds(next(s, e)) <==> meets(s, e)
  }

  lemma {:induction false} HoldsAt<S(!new), E(!new)>(next: (S, E) -> S, holds: S -> bool, sane: (S, E) -> bool,
                                                     meets: (S, E) -> bool, s: S, events: seq<E>, k: nat)
    requires Decides(next, holds, sane, meets) && holds(s)
    requires Each(next, sane, s, events) && Each(next, meets, s, events) && k <= |events|
    ensures holds(Reached(next, s, events, k))
  {
    if k > 0 {
      HoldsAt(next, holds, sane, meets, s, events, k - 1);
      assert sane(Reached(next, s, events, k - 1), events[k - 1]);
    }
  }

  /** Then the property holds throughout a run exactly when every event meets the condition. */
  lemma RunIff<S(!new), E(!new)>(next: (S, E) -> S, holds: S -> bool, sane: (S, E) -> bool, meets: (S, E) -> bool,
                                 s: S, events: seq<E>)
    requires Decides(next, holds, sane, meets) && holds(s) && Each(next, sane, s, events)
    ensures Always(next, holds, s, events) <==> Each(next, meets, s, events)
  {
    if Each(next, meets, s, events) {
      forall k | 0 <= k <= |events|
        ensures holds(Reached(next, s, events, k))
      {
        HoldsAt(next, holds, sane, meets, s, events, k);
      }
    }
    if Always(next, holds, s, events) {
      forall k | 0 <= k < |events|
        ensures meets(Reached(next, s, events, k), events[k])
      {
        assert sane(Reached(next, s, events, k), events[k]);
        assert holds(Reached(next, s, events, k)) && holds(Reached(next, s, events, k + 1));
      }
    }
  }
}
