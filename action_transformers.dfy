/** Action transformers (gearbox_py/core/action_transformers.py). */
module ActionTransformers {

  /**
   * `ActionTransformer = Callable[[AgentAction], Action]`: translates an agent's
   * own action representation `G` into the action type `A` an engine expects.
   */
  type ActionTransformer<-G, +A> = G -> A
}
