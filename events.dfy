/**
 * What a click handler does, in order: the DOM calls it makes on the event
 * and the callbacks it invokes. `A` is the type of the invoked actions.
 */
module Events {

  datatype Effect<A> =
    | StopPropagation
    | PreventDefault
    | AskConfirm          // window.confirm(...) is shown
    | Invoke(action: A)   // a handler supplied by the caller is called

  /** The number of handler invocations in a trace. */
  function Invocations<A>(effects: seq<Effect<A>>): (n: nat)
    ensures n <= |effects|
  {
    if |effects| == 0 then 0
    else Invocations(effects[..|effects| - 1]) + (if effects[|effects| - 1].Invoke? then 1 else 0)
  }

  /** The event is stopped before anything else happens, so no invocation can bubble to the row. */
  predicate StopsFirst<A>(effects: seq<Effect<A>>) {
    |effects| > 0 && effects[0].StopPropagation?
  }

  lemma {:induction false} InvocationsAppend<A>(a: seq<Effect<A>>, b: seq<Effect<A>>)
    ensures Invocations(a + b) == Invocations(a) + Invocations(b)
    decreases |b|
  {
    if |b| > 0 {
      assert (a + b)[..|a + b| - 1] == a + b[..|b| - 1];
      InvocationsAppend(a, b[..|b| - 1]);
    } else {
      assert a + b == a;
    }
  }

  lemma InvocationsOfOne<A>(e: Effect<A>)
    ensures Invocations([e]) == if e.Invoke? then 1 else 0
  {
    assert [e][..0] == [];
  }
}
