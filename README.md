# Gearbox in Dafny

A model of the core of Gearbox, a small Python framework for turn-based environments. An
*engine* is a pure transition function `(state, action) -> outcome`. An *environment* holds the
current state and an engine, and `step` persists the state the engine returns. *Observers* turn
the ground-truth outcome into what an agent sees, optionally with the action attached. The
bundled rock-paper-scissors engines (one round, and a best-of-N match built on it) are modelled
as a concrete engine.

Files, one module each:

- `wrappers.dfy` (`Wrappers`): `Option` and `Result`, which stand in for `None` and raised exceptions.
- `core_environments.dfy` (`Environments`): `Reward`, `Outcome`, `EngineError`, the `Engine` type,
  the fold `Replay` of an engine over actions, and the `Environment` class.
- `core_observers.dfy` (`Observers`): `ObservedOutcome`, `ObservedOutcomeWithAction`, the record
  conversions, and `from_outcome` performed on an attribute dictionary as the source does it.
- `common_observers.dfy` (`CommonObservers`): the full observer, the action-attaching combinator
  and the module-level `action_observer`.
- `action_transformers.dfy` (`ActionTransformers`): the `ActionTransformer` type alias.
- `rps_environments.dfy` (`RpsEnvironments`): `rps_engine`, `multi_rps_engine` and their properties.

Modelling choices:

- Python's dynamic types are type parameters: `S` is the state, `A` the action, `I` the info,
  `O` the observation and `C` the extra context.
- `Union[int, Iterable[int]]` is the datatype `Reward`, with constructors `Scalar` and `PerAgent`.
- An engine raising `InvalidActionException` returns `Failure(InvalidAction(token))`. Only the
  offending token is kept, not the message text.
- The `*args, **kwargs` that `make_action_observer` forwards are one explicit context value of type `C`.
- `Environment` is a class. `Step` writes only `state`, plus the ghost record of actions taken.
  Its invariant `Valid()` says that the state is the engine folded over every action that
  succeeded since construction. `Step` has no precondition, because Python callers may also
  reassign the public fields. It keeps `Valid()` whenever it held before the call.
- `rps_engine` ignores its state and returns `None` as the new state. Both are the unit value `()`.
- `multi_rps_engine` appears twice. `MultiRpsEngine` is a function, so it can be passed as an
  engine value. `MultiRpsEngineStep` is a method that follows the source statement by statement:
  copy, increment, then settle the ending. It is proved equal to the function.
- `RPS_state` is a value, so `copy.deepcopy` becomes an ordinary copy. The input state cannot change.
- `best_of // 2` floors. Dafny's `/` by the positive divisor 2 gives the same result for every integer.
- A match also ends when `p1_win + p2_win == best_of` (gearbox_py/rps/environments.py:83).
  Only decisive rounds add to those counters, so a drawn round changes nothing. A best-of-2 match
  with two draws is therefore not over (`BestOfTwoDrawScenario`).

## Model

| member | source | states |
|---|---|---|
| `Environments.ReplaySnoc` | gearbox_py/core/environments.py:63-64 | Stepping after a run of steps is the fold over the longer action list: replaying `actions + [a]` equals replaying `actions` and then calling the engine once more. A failure at any point is propagated. |
| `Environments.Environment.constructor` | gearbox_py/core/environments.py:41-51 | A new environment holds the given state and engine, and no actions have been taken yet. |
| `Environments.Environment.Step` | gearbox_py/core/environments.py:53-66 | Returns exactly `engine(old state, action)`. On success the new state is the outcome's state. On failure the state is left as it was. The engine is never changed. The state always stays the left fold of the engine over the successful actions. |
| `Observers.FromOutcomeRoundTrip` | gearbox_py/core/observers.py:38-48 | `from_outcome` and the reverse renaming are mutual inverses, so the conversion loses nothing. |
| `Observers.FromOutcomeFields` | gearbox_py/core/observers.py:44-48 | The observation is the outcome's state, and `reward`, `done` and `info` are copied unchanged. |
| `Observers.ConstructObserved` | gearbox_py/core/observers.py:48 | `ObservedOutcome(**fields)` succeeds exactly when the keywords are `observation`, `reward`, `done` and `info`, each holding a value of its field's kind. The record it builds holds those four values. |
| `Observers.FromOutcomeByAttributes` | gearbox_py/core/observers.py:44-48 | Taking `vars(outcome)`, copying `state` to `observation`, popping `state` and constructing gives exactly the pure renaming `FromOutcome(o)`. |
| `Observers.FromObservedOutcomeRoundTrip` | gearbox_py/core/observers.py:51-71 | `from_observed_outcome(oo, a)` carries the action `a`. Dropping the action gives back `oo`. Every observed outcome with an action is rebuilt from its parts. |
| `Observers.WithActionFromOutcome` | gearbox_py/core/observers.py:61-65 | The documented composition: the result's action is the given one, and the rest is `from_outcome` of the outcome. |
| `Observers.ConstructWithAction` | gearbox_py/core/observers.py:68-71 | The subclass constructor succeeds exactly when the four base keywords are valid and an `action` is supplied. It stores that action, and its other fields are the record the base constructor builds from the same keywords. |
| `Observers.WithActionFromOutcomeAsWrittenFails` | gearbox_py/core/observers.py:62-65 | As written, `ObservedOutcomeWithAction.from_outcome` fails on every outcome and action. |
| `CommonObservers.FullObserver` | gearbox_py/common/observers.py:8-11 | Converting back from the full observer's result gives the original outcome, so nothing is hidden or altered. |
| `CommonObservers.FullObserverPreservesFields` | gearbox_py/common/observers.py:8-11 | The full observer observes the state itself and preserves `reward`, `done` and `info` for every outcome. |
| `CommonObservers.MakeActionObserverAttaches` | gearbox_py/common/observers.py:14-22 | For any nested observer, the derived observer's action is the one passed in. Dropping it gives exactly the nested observer's result on the same outcome with the forwarded context. |
| `CommonObservers.MakeActionObserverPreservesFields` | gearbox_py/common/observers.py:14-22 | If a nested observer leaves `reward`, `done` and `info` alone, so does the action observer built on it. |
| `CommonObservers.ActionObserver` | gearbox_py/common/observers.py:25 | `action_observer(o, a)` observes `o.state`, keeps `o`'s `reward`, `done` and `info`, and carries `a`. |
| `CommonObservers.ActionObserverIsWithActionFromOutcome` | gearbox_py/common/observers.py:25 | The shipped action observer equals the intended `ObservedOutcomeWithAction.from_outcome` composition. |
| `RpsEnvironments.ParseMoveName` | gearbox_py/rps/environments.py:23-30 | Each move's name is accepted and parses to that move. |
| `RpsEnvironments.ParseMoveOnlyNames` | gearbox_py/rps/environments.py:23-30 | A token is accepted only when it is the name of the move it parses to, so exactly the three move names are accepted. |
| `RpsEnvironments.CodeSumDeterminesPair` | gearbox_py/rps/environments.py:23-45 | Why the 1/2/4 encoding works: the sum of two codes determines the unordered pair of moves. |
| `RpsEnvironments.RoundWinnerRule` | gearbox_py/rps/environments.py:38-48 | The winner is 1 iff p1 beats p2 under rock > scissors > paper > rock. It is 2 iff p2 beats p1, and 0 iff the moves are equal. |
| `RpsEnvironments.RoundWinnerSwap` | gearbox_py/rps/environments.py:38-48 | Exchanging the players exchanges winners 1 and 2 and keeps a draw. |
| `RpsEnvironments.RoundRewardZeroSum` | gearbox_py/rps/environments.py:51-58 | The reward is `[0,0]`, `[1,-1]` or `[-1,1]` for winner 0, 1 or 2. It always has two entries summing to 0. |
| `RpsEnvironments.RpsEngineValidation` | gearbox_py/rps/environments.py:29-36 | Fails iff a token is not a move. An invalid first token is reported first. Otherwise an invalid second token is reported. |
| `RpsEnvironments.RpsEngineRound` | gearbox_py/rps/environments.py:38-61 | For two valid moves: success with `done`, the winner by the rule of the game, and the matching reward. |
| `RpsEnvironments.RpsEngineExamples` | gearbox_py/rps/environments.py:29-61 | `lizard` against rock is refused. Rock against paper gives reward `[-1,1]`, winner 2 and `done`. |
| `RpsEnvironments.MultiRpsEngineStep` | gearbox_py/rps/environments.py:64-86 | The copy-and-increment body computes exactly the match-step function `MultiRpsEngine`. |
| `RpsEnvironments.MultiRpsPropagatesInvalid` | gearbox_py/rps/environments.py:65 | A match step fails iff the round fails, with the same error. |
| `RpsEnvironments.MultiRpsTally` | gearbox_py/rps/environments.py:67-76 | `best_of` is kept. Only the round winner's counter goes up, by exactly one, and neither does on a draw. `round_winner` is the round's winner. |
| `RpsEnvironments.MultiRpsVerdict` | gearbox_py/rps/environments.py:68-84 | With a majority: `done`, and the winner and reward are the round's. Without one: winner 0 and reward `[0,0]`, and `done` iff the decisive rounds reach `best_of`. |
| `RpsEnvironments.MultiRpsDrawChangesNothing` | gearbox_py/rps/environments.py:72-83 | A drawn round leaves the match state identical. Whether the match is over then depends only on the earlier state. |
| `RpsEnvironments.MultiRpsKeepsInPlay` | gearbox_py/rps/environments.py:72-84 | From a match in play, a step ends it or keeps it in play. Decisive rounds use up one of the rounds left and draws none. The last decisive round ends the match. |
| `RpsEnvironments.MultiRpsWinnerIsUnique` | gearbox_py/rps/environments.py:78-81 | From a match in play, a named winner has just reached a bare majority, while the other player has none. |
| `RpsEnvironments.NewMatchInPlay` | gearbox_py/rps/environments.py:15-19 | A fresh `RPS_state(best_of)` with `best_of >= 1` is a match in play. |
| `RpsEnvironments.BestOfThreeScenario` | gearbox_py/rps/environments.py:64-86 | In a best-of-3 match, two rock-beats-scissors rounds end it with winner 1 and reward `[1,-1]` after round 2. The environment's fold agrees. |
| `RpsEnvironments.BestOfTwoDrawScenario` | gearbox_py/rps/environments.py:72-84 | In a best-of-2 match, two drawn rounds leave the state at 0-0 and the match not over. |

## Findings

| source | as written | input that shows it | evidently intended | confidence | as-written member | corrected member |
|---|---|---|---|---|---|---|
| gearbox_py/core/observers.py:65 | `super().from_outcome(outcome)` runs with the class bound to `ObservedOutcomeWithAction`. Its final `cls(**dict_repr)` therefore lacks the required `action` argument and raises `TypeError`. | Any outcome, such as `Outcome(state, 0, False, None)`, with any action. `WithActionFromOutcomeAsWrittenFails` proves the failure for all of them. | Observe the outcome in full, then attach the action, as the docstring says. | high (not executed) | `Observers.WithActionFromOutcomeAsWritten` | `Observers.WithActionFromOutcome` |

## Left out

- `main` in the rock-paper-scissors module is left out. It is console input and output in a loop, and it draws the computer's move with `random.choice`.
- `Observation.from_state` is left out. It is unused, and on the field-less base class `cls(vars(state))` raises, so it has no contract to state.
- The aliasing of `ObservedOutcome.from_outcome` is not captured. `vars(outcome)` is the outcome's own attribute dictionary, so the Python renames the caller's `Outcome` in place. The model converts values, and its input is never changed.
- `Environments.Environment.Step` does not count engine calls. Engines are pure functions, so calling once is captured by the result being `engine(old state, action)`. The model cannot observe a call count.
- Engine determinism is not a separate property. Every engine here is a Dafny function, so it is deterministic by construction.
- The text of the `InvalidActionException` message is not modelled. Only the rejected token is kept.
- Dataclass-generated `__eq__` and `__repr__`, the marker base classes `Action`, `State` and `AgentAction`, and the packaging metadata are not modelled. The marker classes become type parameters.
- Runtime type looseness (`info: Any`, duck-typed actions, an engine returning something other than an `Outcome`) is not modelled. These are replaced by type parameters.
