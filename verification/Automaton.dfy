/** Logs of events read by a deterministic automaton that may refuse an event. */
module Automaton {
  import opened Sequences

  function After<S, E>(next: (S, E) -> Option<S>, start: S, log: seq<E>): Option<S> {
    if log == [] then Some(start)
    else match After(next, start, log[..|log| - 1])
      case None => None
      case Some(stage) => next(stage, log[|log| - 1])
  }

  lemma AfterOne<S, E>(next: (S, E) -> Option<S>, start: S, log: seq<E>, event: E)
    requires After(next, start, log).Some?
    ensures After(next, start, log + [event]) == next(After(next, start, log).value, event)
  {
    assert (log + [event])[..|log|] == log;
  }

  lemma {:induction false} PrefixIsAccepted<S, E>(next: (S, E) -> Option<S>, start: S, log: seq<E>, k: nat)
    requires After(next, start, log).Some? && k <= |log|
    ensures After(next, start, log[..k]).Some?
  {
    if k < |log| {
      PrefixIsAccepted(next, start, log[..|log| - 1], k);
      assert log[..|log| - 1][..k] == log[..k];
    } else {
      assert log[..k] == log;
    }
  }
}
