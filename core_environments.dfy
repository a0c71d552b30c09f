/**
 * Core data records of a Gearbox environment and the stateful `Environment`
 * wrapper that persists an engine's state between steps
 * (gearbox_py/core/environments.py).
 */
module Environments {
  import opened Wrappers

  /** `Union[int, Iterable[int]]`: one reward, or one reward per agent (index = agent id). */
  datatype Reward = Scalar(value: int) | PerAgent(values: seq<int>)

  /** Ground-truth outcome returned by an engine; `info` is any domain value. */
  datatype Outcome<S, I> = Outcome(state: S, reward: Reward, done: bool, info: I)

  /** The one failure the core names: an engine rejecting an action it cannot interpret. */
  datatype EngineError = InvalidAction(rejected: string)

  /** `Engine = Callable[[State, Action], Outcome]`; a raised exception is a `Failure`. */
  type Engine<!S, -A, I> = (S, A) -> Result<Outcome<S, I>, EngineError>

  /**
   * The state reached by feeding `actions` to `engine` one after the other from
   * `start` (a left fold), or the first failure the engine signals.
   */
  function Replay<S, A, I>(engine: Engine<S, A, I>, start: S, actions: seq<A>): Result<S, EngineError>
    decreases |actions|
  {
    if actions == [] then Success(start)
    else
      match engine(start, actions[0])
      case Failure(e) => Failure(e)
      case Success(o) => Replay(engine, o.state, actions[1..])
  }

  /** One more step after a replay: replaying `actions + [a]` is replaying `actions`, then calling the engine once. */
  lemma {:induction false} ReplaySnoc<S, A, I>(engine: Engine<S, A, I>, start: S, actions: seq<A>, a: A)
    ensures Replay(engine, start, actions + [a]) ==
      match Replay(engine, start, actions)
      case Failure(e) => Failure(e)
      case Success(s) =>
        match engine(s, a)
        case Failure(e) => Failure(e)
        case Success(o) => Success(o.state)
  {
    if actions == [] {
      assert actions + [a] == [a];
      assert [a][1..] == [];
    } else {
      assert (actions + [a])[0] == actions[0];
      assert (actions + [a])[1..] == actions[1..] + [a];
      match engine(start, actions[0])
      case Failure(e) =>
      case Success(o) => ReplaySnoc(engine, o.state, actions[1..], a);
    }
  }

  /**
   * Stateful wrapper for an engine. `state` is the only field `Step` writes;
   * the ghost fields record where the environment started and which actions
   * it has successfully taken since.
   */
  class Environment<S, A, I> {
    var state: S
    var engine: Engine<S, A, I>
    ghost var initial: S
    ghost var played: seq<A>

    /** The current state is the engine folded over the actions taken so far. */
    ghost predicate Valid()
      reads this
    {
      Replay(engine, initial, played) == Success(state)
    }

    constructor (state: S, engine: Engine<S, A, I>)
      ensures Valid()
      ensures this.state == state && this.engine == engine
      ensures initial == state && played == []
    {
      this.state := state;
      this.engine := engine;
      initial := state;
      played := [];
    }

    /**
     * Calls the engine once on the current state and `action` and hands its
     * outcome back unchanged; the new state is stored only when the engine
     * succeeds (a raised exception leaves `state` as it was).
     */
    method Step(action: A) returns (outcome: Result<Outcome<S, I>, EngineError>)
      modifies this`state, this`played
      ensures outcome == old(engine)(old(state), action)
      ensures engine == old(engine) && initial == old(initial)
      ensures outcome.Success? ==> state == outcome.value.state && played == old(played) + [action]
      ensures outcome.Failure? ==> state == old(state) && played == old(played)
      ensures old(Valid()) ==> Valid()
    {
      outcome := engine(state, action);
      if outcome.Success? {
        ReplaySnoc(engine, initial, played, action);
        state := outcome.value.state;
        played := played + [action];
      }
    }
  }
}
