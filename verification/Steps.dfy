/** Runs of a state machine given by its step function: `None` where an action is not enabled. */
module Steps {
  import opened Basics

  /** Where a list of actions leads, if each is enabled in turn. */
  function After<S, A>(next: (S, A) -> Option<S>, s: S, actions: seq<A>): Option<S>
    decreases |actions|
  {
    if actions == [] then Some(s)
    else match next(s, actions[0]) case None => None case Some(t) => After(next, t, actions[1..])
  }

  lemma {:induction false} AfterAppend<S, A>(next: (S, A) -> Option<S>, s: S, a: seq<A>, b: seq<A>)
    requires After(next, s, a).Some?
    ensures After(next, s, a + b) == After(next, After(next, s, a).value, b)
    decreases |a|
  {
    if a == [] {
      assert a + b == b;
    } else {
      assert (a + b)[0] == a[0] && (a + b)[1..] == a[1..] + b;
      AfterAppend(next, next(s, a[0]).value, a[1..], b);
    }
  }

  lemma AfterOne<S, A>(next: (S, A) -> Option<S>, s: S, a: A)
    ensures After(next, s, [a]) == next(s, a)
  {
    assert [a][1..] == [];
    var t := next(s, a);
    if t.Some? { assert After(next, t.value, []) == t; }
  }

  lemma AfterTwo<S, A>(next: (S, A) -> Option<S>, s: S, a: A, b: A)
    requires next(s, a).Some?
    ensures After(next, s, [a, b]) == next(next(s, a).value, b)
  {
    assert [a, b][1..] == [b];
    AfterOne(next, next(s, a).value, b);
  }

  /** The states a list of actions goes through. */
  ghost function Trace<S, A>(next: (S, A) -> Option<S>, s: S, actions: seq<A>): seq<S>
    requires After(next, s, actions).Some?
    decreases |actions|
  {
    if actions == [] then [s] else [s] + Trace(next, next(s, actions[0]).value, actions[1..])
  }

  lemma {:induction false} TraceSteps<S, A>(next: (S, A) -> Option<S>, s: S, actions: seq<A>)
    requires After(next, s, actions).Some?
    ensures var states := Trace(next, s, actions);
            && |states| == |actions| + 1 && states[0] == s && states[|actions|] == After(next, s, actions).value
            && forall k | 0 <= k < |actions| :: next(states[k], actions[k]) == Some(states[k + 1])
    decreases |actions|
  {
    if actions != [] {
      var t, states := next(s, actions[0]).value, Trace(next, s, actions);
      var rest := Trace(next, t, actions[1..]);
      TraceSteps(next, t, actions[1..]);
      forall k | 0 <= k < |actions|
        ensures next(states[k], actions[k]) == Some(states[k + 1])
      {
        if k > 0 {
          assert actions[k] == actions[1..][k - 1] && states[k] == rest[k - 1];
          assert next(rest[k - 1], actions[1..][k - 1]) == Some(rest[k - 1 + 1]);
        }
      }
    }
  }

  /** Some list of actions leads from `s` to `t`. */
  ghost predicate Leads<S(!new), A(!new)>(next: (S, A) -> Option<S>, s: S, t: S) {
    exists actions: seq<A> :: After(next, s, actions) == Some(t)
  }

  lemma LeadsOn<S(!new), A(!new)>(next: (S, A) -> Option<S>, s: S, t: S, a: A, u: S)
    requires Leads(next, s, t) && next(t, a) == Some(u)
    ensures Leads(next, s, u)
  {
    var actions: seq<A> :| After(next, s, actions) == Some(t);
    AfterAppend(next, s, actions, [a]);
    AfterOne(next, t, a);
  }
}
