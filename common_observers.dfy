/** The default observers shipped with Gearbox (gearbox_py/common/observers.py). */
module CommonObservers {
  import opened Environments
  import opened Observers

  /** An observer that leaves the reward, the done flag and the info exactly as the engine produced them. */
  ghost predicate PreservesOutcomeFields<S(!new), I(!new), O, C(!new)>(observer: Observer<S, I, O, C>)
  {
    forall o: Outcome<S, I>, ctx: C ::
      observer(o, ctx).reward == o.reward && observer(o, ctx).done == o.done && observer(o, ctx).info == o.info
  }

  /** `full_observer`: the whole state is observable. */
  function FullObserver<S, I>(o: Outcome<S, I>): (r: ObservedOutcome<S, I>)
    ensures ToOutcome(r) == o
  {
    FromOutcome(o)
  }

  /** `full_observer` as a nested observer: it takes no extra arguments, so its context is the empty tuple. */
  function FullObserverNoContext<S, I>(o: Outcome<S, I>, ctx: ()): ObservedOutcome<S, I>
  {
    FullObserver(o)
  }

  /**
   * `make_action_observer(nested)`: an observer that calls `nested` on the
   * outcome with the extra context forwarded unchanged and attaches the action.
   */
  function MakeActionObserver<S, I, O, C, A>(nested: Observer<S, I, O, C>)
    : (Outcome<S, I>, A, C) -> ObservedOutcomeWithAction<O, I, A>
  {
    (o: Outcome<S, I>, a: A, ctx: C) => FromObservedOutcome(nested(o, ctx), a)
  }

  /** The module-level `action_observer = make_action_observer(full_observer)`. */
  function ActionObserver<S, I, A>(o: Outcome<S, I>, a: A): (r: ObservedOutcomeWithAction<S, I, A>)
    ensures r.observation == o.state && r.reward == o.reward && r.done == o.done && r.info == o.info
    ensures r.action == a
  {
    MakeActionObserverAttaches<S, I, S, (), A>(FullObserverNoContext, o, a, ());
    MakeActionObserver<S, I, S, (), A>(FullObserverNoContext)(o, a, ())
  }

  /**
   * The observer `make_action_observer(nested)` returns hands back the action it
   * was given, and otherwise exactly what `nested` makes of the outcome and the
   * forwarded context.
   */
  lemma MakeActionObserverAttaches<S, I, O, C, A>(nested: Observer<S, I, O, C>, o: Outcome<S, I>, a: A, ctx: C)
    ensures MakeActionObserver<S, I, O, C, A>(nested)(o, a, ctx).action == a
    ensures Forget(MakeActionObserver<S, I, O, C, A>(nested)(o, a, ctx)) == nested(o, ctx)
  {
    var observer := MakeActionObserver<S, I, O, C, A>(nested);
    assert observer(o, a, ctx) == FromObservedOutcome(nested(o, ctx), a);
  }

  /** The full observer observes the state itself and copies everything else. */
  lemma FullObserverPreservesFields<S(!new), I(!new)>()
    ensures PreservesOutcomeFields<S, I, S, ()>(FullObserverNoContext)
    ensures forall o: Outcome<S, I> :: FullObserver(o).observation == o.state
  {
  }

  /**
   * Attaching an action never disturbs the reward, done flag or info: whatever
   * a nested observer preserves, the action observer built on it preserves too.
   */
  lemma MakeActionObserverPreservesFields<S(!new), I(!new), O, C(!new), A>(nested: Observer<S, I, O, C>, o: Outcome<S, I>, a: A, ctx: C)
    requires PreservesOutcomeFields(nested)
    ensures MakeActionObserver<S, I, O, C, A>(nested)(o, a, ctx).reward == o.reward
    ensures MakeActionObserver<S, I, O, C, A>(nested)(o, a, ctx).done == o.done
    ensures MakeActionObserver<S, I, O, C, A>(nested)(o, a, ctx).info == o.info
  {
    MakeActionObserverAttaches<S, I, O, C, A>(nested, o, a, ctx);
  }

  /** The shipped action observer is the documented `ObservedOutcomeWithAction.from_outcome` composition. */
  lemma ActionObserverIsWithActionFromOutcome<S, I, A>(o: Outcome<S, I>, a: A)
    ensures ActionObserver(o, a) == WithActionFromOutcome(o, a)
  {
  }
}
