/**
 * A ghost (Actors/Ghost.cs): an actor that replays, one task per turn, the
 * record a player left in an earlier round.
 */
module Ghosts {
  import opened Wrappers
  import opened Grid
  import opened Actors

  class Ghost {
    const actor: Actor
    /** The tasks still to replay this round, front first. */
    var currentActions: seq<Task>

    /** A ghost as instantiated from its prefab: nothing left to replay. */
    constructor (actor: Actor)
      ensures this.actor == actor && currentActions == []
    {
      this.actor := actor;
      currentActions := [];
    }

    /**
     * Ghost.InitializeActions: the record becomes a copy of `queue`, same
     * tasks in the same order. Being a value, the copy is unaffected by
     * whatever later happens to the queue it was taken from.
     */
    method InitializeActions(queue: seq<Task>)
      modifies actor`actionQueue
      ensures actor.actionQueue == queue
    {
      actor.actionQueue := queue;
    }

    /**
     * Ghost.Reset: the actor is rewound, and the tasks to replay are
     * refilled from the record, which itself stays as it was.
     */
    method Reset()
      modifies this`currentActions, actor
      ensures actor.State() == Rewound(old(actor.State()), actor.isCharacter)
      ensures currentActions == actor.actionQueue == old(actor.actionQueue)
    {
      actor.BeginReset();
      currentActions := actor.actionQueue;
      actor.FinishReset();
    }

    /**
     * Ghost.Resolve. Only with actions enabled and no task running does the
     * ghost act: it takes the front task as its own, executes it when it can
     * be performed (a task that cannot is consumed all the same), and
     * disables itself once nothing is left to replay. Acting with nothing
     * left is the source's Dequeue on an empty queue.
     */
    method Resolve(occupied: Occupancy) returns (status: Status)
      requires currentActions != [] ==> WellFormed(currentActions[0])
      modifies this`currentActions, actor, if currentActions != [] then Footprint(currentActions[0]) else {}
      ensures var go := old(actor.canPerformAction && !actor.IsPerformingTask());
              && (status == EmptyQueue <==> go && old(currentActions) == [])
              && (status != NullTask)
              && (!(go && old(currentActions) != []) ==>
                    && currentActions == old(currentActions) && actor.State() == old(actor.State())
                    && (old(currentActions) != [] ==> unchanged(Footprint(old(currentActions)[0]))))
      ensures old(actor.canPerformAction && !actor.IsPerformingTask()) && old(currentActions) != [] ==>
                var t := old(currentActions)[0];
                var executed := old(CanPerform(t, occupied)) && !t.isExecuting;
                && currentActions == old(currentActions)[1..]
                && actor.State() == old(actor.State()).(position := actor.position,
                                                       task := Some(t),
                                                       canPerformAction := currentActions != [])
                && (executed ==> Performed(t, occupied))
                && (!executed ==> actor.position == old(actor.position)
                                  && (t.kind.FlipLeverTask? ==> unchanged(Footprint(t))))
                && (!(executed && t.kind.MoveTask? && t.actor == actor) ==> actor.position == old(actor.position))
    {
      status := Done;
      if actor.canPerformAction && !actor.IsPerformingTask() {
        if currentActions == [] {
          return EmptyQueue;
        }
        var t := currentActions[0];
        currentActions := currentActions[1..];
        actor.task := Some(t);
        if CanPerform(t, occupied) {
          var _ := actor.Resolve(occupied);
        }
        if currentActions == [] {
          actor.canPerformAction := false;
        }
      }
    }
  }
}
