/**
 * A stone (Objects/Stone.cs): an actor moved only by being pushed, which
 * either rewinds with the round or, as a time cube, stays where it is.
 */
module Stones {
  import opened Wrappers
  import opened Grid
  import Movement
  import opened Actors

  class Stone {
    const actor: Actor
    /** True for a stone that rewinds to its starting position, false for a time cube. */
    const resetPosition: bool

    constructor (actor: Actor, resetPosition: bool)
      ensures this.actor == actor && this.resetPosition == resetPosition
    {
      this.actor := actor;
      this.resetPosition := resetPosition;
    }

    /**
     * Stone.TryPush: the stone takes a move in `direction` as its task and
     * reports whether the resolver accepts it; a rejected push leaves it
     * with no task.
     */
    method TryPush(direction: Vec2, occupied: Occupancy) returns (canPerform: bool)
      modifies actor`task
      ensures canPerform <==> Movement.Accepted(occupied, Flat(actor.position), direction)
      ensures actor.task == if canPerform then Some(Task(actor, MoveTask(direction), false)) else None
    {
      actor.task := Some(Task(actor, MoveTask(direction), false));
      canPerform := CanPerform(actor.task.value, occupied);
      if !canPerform {
        actor.task := None;
      }
    }

    /**
     * Stone.Reset: a stone rewinds like any actor; a time cube starts no
     * reset at all, so it keeps its position and never reports resetting.
     */
    method Reset()
      modifies actor
      ensures resetPosition ==> actor.State() == Rewound(old(actor.State()), actor.isCharacter)
      ensures !resetPosition ==> actor.State() == old(actor.State())
    {
      if resetPosition {
        actor.BeginReset();
        actor.FinishReset();
      }
    }

    /**
     * Stone.Resolve: a pending task that is not running is executed once and
     * dropped, so a push never repeats on a later turn; without one nothing
     * happens. Unlike other actors a stone does not consult canPerformAction.
     */
    method Resolve(occupied: Occupancy)
      requires actor.task.Some? ==> WellFormed(actor.task.value)
      modifies actor`task, if actor.task.Some? then Footprint(actor.task.value) else {}
      ensures var t := old(actor.task);
              if t.Some? && !t.value.isExecuting then
                && Performed(t.value, occupied)
                && actor.task == None
                && actor.State() == old(actor.State()).(position := actor.position, task := None)
                && (!(t.value.kind.MoveTask? && t.value.actor == actor) ==> actor.position == old(actor.position))
              else
                actor.State() == old(actor.State())
    {
      if actor.task.Some? && !actor.IsPerformingTask() {
        var _, _ := Execute(actor.task.value, occupied);
        actor.task := None;
      }
    }
  }
}
