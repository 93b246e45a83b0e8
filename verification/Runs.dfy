/** Runs of a state machine that is given by its step function: where a step leads, or None where it is impossible. */
module Runs {
  import opened ByteStrings

  /** Where a run ends, if every event was possible when it happened. */
  function Run<S, E>(step: (S, E) -> Option<S>, s: S, es: seq<E>): Option<S> {
    if es == [] then Some(s) else
    var before := Run(step, s, es[..|es| - 1]);
    if before.None? then None else step(before.value, es[|es| - 1])
  }

  ghost predicate Reaches<S(!new), E>(step: (S, E) -> Option<S>, s: S, es: seq<E>, t: S) {
    Run(step, s, es) == Some(t)
  }

  lemma Nothing<S(!new), E>(step: (S, E) -> Option<S>, s: S)
    ensures Reaches(step, s, [], s)
  {
  }

  lemma Stepped<S(!new), E>(step: (S, E) -> Option<S>, s: S, es: seq<E>, t: S, e: E)
    requires Reaches(step, s, es, t) && step(t, e).Some?
    ensures Reaches(step, s, es + [e], step(t, e).value)
  {
    assert (es + [e])[..|es|] == es;
  }

  lemma OneStep<S(!new), E>(step: (S, E) -> Option<S>, s: S, e: E)
    requires step(s, e).Some?
    ensures Reaches(step, s, [e], step(s, e).value)
  {
    Stepped(step, s, [], s, e);
    assert [] + [e] == [e];
  }

  lemma LastStep<S(!new), E>(step: (S, E) -> Option<S>, s: S, es: seq<E>)
    requires es != [] && Run(step, s, es).Some?
    ensures var before := Run(step, s, es[..|es| - 1]);
            before.Some? && Run(step, s, es) == step(before.value, es[|es| - 1])
  {
  }

  lemma {:induction false} Joined<S(!new), E>(step: (S, E) -> Option<S>, s: S, es: seq<E>, t: S, more: seq<E>, u: S)
    requires Reaches(step, s, es, t) && Reaches(step, t, more, u)
    ensures Reaches(step, s, es + more, u)
  {
    if more == [] {
      assert es + more == es;
    } else {
      var front, e := more[..|more| - 1], more[|more| - 1];
      Joined(step, s, es, t, front, Run(step, t, front).value);
      Stepped(step, s, es + front, Run(step, t, front).value, e);
      assert es + more == es + front + [e];
    }
  }

  /** The beginning of a run is a run. */
  lemma {:induction false} Prefix<S(!new), E>(step: (S, E) -> Option<S>, s: S, es: seq<E>, k: nat)
    requires k <= |es| && Run(step, s, es).Some?
    ensures Run(step, s, es[..k]).Some?
  {
    if k == |es| {
      assert es[..k] == es;
    } else {
      var front := es[..|es| - 1];
      Prefix(step, s, front, k);
      assert front[..k] == es[..k];
    }
  }
}
