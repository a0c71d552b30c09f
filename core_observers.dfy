/**
 * Observed outcomes: what an agent sees of an engine's outcome, optionally
 * with the action that produced it (gearbox_py/core/observers.py).
 */
module Observers {
  import opened Wrappers
  import opened Environments

  /** An `Outcome` with its ground-truth `state` replaced by an `observation`. */
  datatype ObservedOutcome<O, I> = ObservedOutcome(observation: O, reward: Reward, done: bool, info: I)

  /** An `ObservedOutcome` extended with the action that led to it. */
  datatype ObservedOutcomeWithAction<O, I, A> =
    ObservedOutcomeWithAction(observation: O, reward: Reward, done: bool, info: I, action: A)

  /**
   * `Observer = Callable[[Outcome], ObservedOutcome]`; the extra positional and
   * keyword arguments an observer may accept are the explicit context `C`.
   */
  type Observer<!S, !I, O, -C> = (Outcome<S, I>, C) -> ObservedOutcome<O, I>

  /** `ObservedOutcome.from_outcome`: the state becomes the observation, the rest is copied. */
  function FromOutcome<S, I>(o: Outcome<S, I>): ObservedOutcome<S, I>
  {
    ObservedOutcome(o.state, o.reward, o.done, o.info)
  }

  /** The inverse conversion, used to state that `FromOutcome` loses nothing. */
  function ToOutcome<S, I>(oo: ObservedOutcome<S, I>): Outcome<S, I>
  {
    Outcome(oo.observation, oo.reward, oo.done, oo.info)
  }

  /** `ObservedOutcomeWithAction.from_observed_outcome`: every field of `oo`, plus `action`. */
  function FromObservedOutcome<O, I, A>(oo: ObservedOutcome<O, I>, action: A): ObservedOutcomeWithAction<O, I, A>
  {
    ObservedOutcomeWithAction(oo.observation, oo.reward, oo.done, oo.info, action)
  }

  /** Views an `ObservedOutcomeWithAction` as the `ObservedOutcome` it extends. */
  function Forget<O, I, A>(ooa: ObservedOutcomeWithAction<O, I, A>): ObservedOutcome<O, I>
  {
    ObservedOutcome(ooa.observation, ooa.reward, ooa.done, ooa.info)
  }

  /**
   * What `ObservedOutcomeWithAction.from_outcome` is documented to do: observe
   * the outcome in full, then attach the action.
   */
  function WithActionFromOutcome<S, I, A>(o: Outcome<S, I>, action: A): (r: ObservedOutcomeWithAction<S, I, A>)
    ensures r.action == action
    ensures Forget(r) == FromOutcome(o)
  {
    FromObservedOutcome(FromOutcome(o), action)
  }

  /** `from_outcome` and `ToOutcome` are mutually inverse: the conversion is a pure renaming. */
  lemma FromOutcomeRoundTrip<S, I>(o: Outcome<S, I>, oo: ObservedOutcome<S, I>)
    ensures ToOutcome(FromOutcome(o)) == o
    ensures FromOutcome(ToOutcome(oo)) == oo
  {
  }

  /** `from_outcome` keeps the reward, the done flag and the info, and observes exactly the state. */
  lemma FromOutcomeFields<S, I>(o: Outcome<S, I>)
    ensures FromOutcome(o).observation == o.state
    ensures FromOutcome(o).reward == o.reward && FromOutcome(o).done == o.done && FromOutcome(o).info == o.info
  {
  }

  /** Attaching an action and forgetting it again gives back the observed outcome; the action is the one given. */
  lemma FromObservedOutcomeRoundTrip<O, I, A>(oo: ObservedOutcome<O, I>, action: A, ooa: ObservedOutcomeWithAction<O, I, A>)
    ensures Forget(FromObservedOutcome(oo, action)) == oo
    ensures FromObservedOutcome(oo, action).action == action
    ensures FromObservedOutcome(Forget(ooa), ooa.action) == ooa
  {
  }

  // ---------------------------------------------------------------------------
  // `from_outcome` as the source performs it: on the outcome's attribute
  // dictionary, which it renames in place before calling the constructor.
  // ---------------------------------------------------------------------------

  /** A value held under one attribute name of an outcome record. */
  datatype Attribute<S, I> = StateValue(s: S) | RewardValue(r: Reward) | DoneValue(d: bool) | InfoValue(i: I)

  /** `vars(outcome)`: the outcome's attributes by name. */
  function AttributesOf<S, I>(o: Outcome<S, I>): map<string, Attribute<S, I>>
  {
    map["state" := StateValue(o.state), "reward" := RewardValue(o.reward),
        "done" := DoneValue(o.done), "info" := InfoValue(o.info)]
  }

  /** The keyword arguments `ObservedOutcome(...)` accepts. */
  const ObservedKeywords: set<string> := {"observation", "reward", "done", "info"}

  /**
   * `ObservedOutcome(**fields)`: builds the record when the keywords are exactly
   * its four fields, each holding a value of the right kind; otherwise the
   * call raises (`None`).
   */
  function ConstructObserved<S, I>(fields: map<string, Attribute<S, I>>): (r: Option<ObservedOutcome<S, I>>)
    ensures r.Some? <==>
      fields.Keys == ObservedKeywords
      && fields["observation"].StateValue? && fields["reward"].RewardValue?
      && fields["done"].DoneValue? && fields["info"].InfoValue?
    ensures r.Some? ==>
      && r.value.observation == fields["observation"].s && r.value.reward == fields["reward"].r
      && r.value.done == fields["done"].d && r.value.info == fields["info"].i
  {
    if fields.Keys == ObservedKeywords
       && fields["observation"].StateValue? && fields["reward"].RewardValue?
       && fields["done"].DoneValue? && fields["info"].InfoValue?
    then Some(ObservedOutcome(fields["observation"].s, fields["reward"].r, fields["done"].d, fields["info"].i))
    else None
  }

  /**
   * `ObservedOutcome.from_outcome` step by step: take the attribute
   * dictionary, copy `state` to `observation`, drop `state`, construct.
   */
  method FromOutcomeByAttributes<S, I>(o: Outcome<S, I>) returns (oo: ObservedOutcome<S, I>)
    ensures oo == FromOutcome(o)
  {
    var attributes := AttributesOf(o);
    attributes := attributes["observation" := attributes["state"]];
    attributes := attributes - {"state"};
    assert attributes.Keys == ObservedKeywords;
    var built := ConstructObserved(attributes);
    oo := built.value;
  }

  // ---------------------------------------------------------------------------
  // `ObservedOutcomeWithAction.from_outcome` as written.
  // ---------------------------------------------------------------------------

  /**
   * `ObservedOutcomeWithAction(**fields)` (with `action=` when given): the
   * subclass constructor also requires the `action` keyword.
   */
  function ConstructWithAction<S, I, A>(fields: map<string, Attribute<S, I>>, action: Option<A>)
    : (r: Option<ObservedOutcomeWithAction<S, I, A>>)
    ensures r.Some? <==> ConstructObserved(fields).Some? && action.Some?
    ensures r.Some? ==> r.value.action == action.value && Forget(r.value) == ConstructObserved(fields).value
  {
    match (ConstructObserved(fields), action)
    case (Some(oo), Some(a)) => Some(FromObservedOutcome(oo, a))
    case _ => None
  }

  /**
   * `ObservedOutcomeWithAction.from_outcome` as the source has it: the inherited
   * `from_outcome` runs with the class bound to the subclass, so its final
   * constructor call lacks `action` and raises before `from_observed_outcome`
   * is reached (`None`).
   */
  function WithActionFromOutcomeAsWritten<S, I, A>(o: Outcome<S, I>, action: A): Option<ObservedOutcomeWithAction<S, I, A>>
  {
    var attributes := AttributesOf(o);
    var renamed := attributes["observation" := attributes["state"]] - {"state"};
    match ConstructWithAction<S, I, A>(renamed, None)
    case None => None
    case Some(intermediate) => Some(FromObservedOutcome(Forget(intermediate), action))
  }

  /** The method as written fails on every outcome and action; `WithActionFromOutcome` is what it is meant to compute. */
  lemma WithActionFromOutcomeAsWrittenFails<S, I, A>(o: Outcome<S, I>, action: A)
    ensures WithActionFromOutcomeAsWritten(o, action) == None
  {
  }
}
