/**
 * The player (Actors/Player.cs): turns the keys of a frame into a task,
 * records every task it resolves, and forgets its record on reset.
 */
module Players {
  import opened Grid
  import Wrappers
  import Movement
  import Levers
  import opened Actors

  /** The CachedInput enum; a frame's pressed keys are given by their CachedInput names. */
  datatype CachedInput = None | W | A | S | D | E | Space

  /** The order in which CacheInput tests the keys other than Space. */
  const Priority: seq<CachedInput> := [W, A, S, D, E]

  /** `Priority[i]` is pressed and no key before it in `Priority` is. */
  predicate FirstPressed(keysDown: set<CachedInput>, i: nat)
    requires i < |Priority|
  {
    Priority[i] in keysDown && forall m :: 0 <= m < i ==> Priority[m] !in keysDown
  }

  /**
   * Player.CacheInput as a function of the cached key and this frame's key
   * presses: Space overrides everything; otherwise the first pressed key of
   * W, A, S, D, E wins; with none of them pressed the cached key stays.
   */
  function NextCachedInput(cached: CachedInput, keysDown: set<CachedInput>): (r: CachedInput)
    ensures Space in keysDown ==> r == Space
    ensures Space !in keysDown ==>
              forall i :: 0 <= i < |Priority| && FirstPressed(keysDown, i) ==> r == Priority[i]
    ensures Space !in keysDown && (forall k :: k in Priority ==> k !in keysDown) ==> r == cached
  {
    var pressed :=
      if W in keysDown then W
      else if A in keysDown then A
      else if S in keysDown then S
      else if D in keysDown then D
      else if E in keysDown then E
      else cached;
    assert Priority[0] == W && Priority[1] == A && Priority[2] == S && Priority[3] == D && Priority[4] == E;
    if Space in keysDown then Space else pressed
  }

  /** The step a movement key asks for. */
  function StepOf(key: CachedInput): (d: Vec2)
    requires key in {W, A, S, D}
  {
    match key
    case W => Up
    case A => Left
    case S => Down
    case D => Right
  }

  /** What one frame of input reads and writes: the wait flag, the cached key and the actor's state. */
  datatype InputView = InputView(waitingForInput: bool, cachedInput: CachedInput, state: ActorState)

  /**
   * The task key `c` proposes for actor `a` standing on `p`: a move for
   * W, A, S, D, a flip of the lever found on `p` for E, nothing otherwise.
   */
  function Proposal(c: CachedInput, a: Actor, p: Vec2,
                    interactableAt: Vec2 -> Wrappers.Option<Levers.Lever>): Wrappers.Option<Task>
  {
    if c in {W, A, S, D} then Wrappers.Some(Task(a, MoveTask(StepOf(c)), false))
    else if c == E && interactableAt(p).Some? then Wrappers.Some(Task(a, FlipLeverTask(interactableAt(p).value), false))
    else Wrappers.None
  }

  /**
   * Task.CanPerform for a task whose actor stands on `p`, stated without the
   * heap so that a frame of input can be described on values.
   */
  predicate PerformableFrom(t: Task, p: Vec2, occupied: Occupancy) {
    t.kind.MoveTask? ==> Movement.Destination(occupied, p, t.kind.direction) != Zero
  }

  /** From where its actor stands, a task is performable exactly when Task.CanPerform holds. */
  lemma PerformableFromActor(t: Task, occupied: Occupancy)
    requires t.actor != null
    ensures PerformableFrom(t, Flat(t.actor.position), occupied) <==> CanPerform(t, occupied)
  {
  }

  /**
   * One frame of Player.Update, from `was` to `now`, for the player's actor
   * `a`. The key is cached first. Only a player waiting for input with no
   * task running acts, and then the cached key is consumed: Space disables
   * actions and ends the wait; a proposed task that can be performed is
   * adopted and ends the wait. Nothing else changes; in particular the
   * wait ends for no other reason.
   */
  predicate InputStep(was: InputView, now: InputView, keysDown: set<CachedInput>, occupied: Occupancy,
                      interactableAt: Vec2 -> Wrappers.Option<Levers.Lever>, a: Actor)
  {
    var c := NextCachedInput(was.cachedInput, keysDown);
    var acting := was.waitingForInput && !(was.state.task.Some? && was.state.task.value.isExecuting);
    var p := Flat(was.state.position);
    var offer := Proposal(c, a, p, interactableAt);
    var adopted := acting && offer.Some? && PerformableFrom(offer.value, p, occupied);
    && now.cachedInput == (if acting then None else c)
    && now.waitingForInput == (was.waitingForInput && !(acting && (c == Space || adopted)))
    && now.state == was.state.(canPerformAction := if acting && c == Space then false else was.state.canPerformAction,
                               task := if adopted then offer else was.state.task)
  }

  class Player {
    const actor: Actor
    var waitingForInput: bool
    var cachedInput: CachedInput

    constructor (actor: Actor)
      ensures this.actor == actor && waitingForInput && cachedInput == None
    {
      this.actor := actor;
      waitingForInput := true;
      cachedInput := None;
    }

    /** The part of the player one frame of input reads and writes. */
    function View(): InputView
      reads this, actor
    {
      InputView(waitingForInput, cachedInput, actor.State())
    }

    /** Player.CacheInput; erasing the cached key a second later is timing and is not modelled. */
    method CacheInput(keysDown: set<CachedInput>)
      modifies this`cachedInput
      ensures cachedInput == NextCachedInput(old(cachedInput), keysDown)
    {
      if W in keysDown {
        cachedInput := W;
      } else if A in keysDown {
        cachedInput := A;
      } else if S in keysDown {
        cachedInput := S;
      } else if D in keysDown {
        cachedInput := D;
      } else if E in keysDown {
        cachedInput := E;
      }
      if Space in keysDown {
        cachedInput := Space;
      }
    }

    /** Adopt `t` as the next task and stop waiting, if it can be performed. */
    method Offer(t: Task, occupied: Occupancy)
      requires WellFormed(t)
      modifies this`waitingForInput, actor`task
      ensures CanPerform(t, occupied) ==> actor.task == Wrappers.Some(t) && !waitingForInput
      ensures !CanPerform(t, occupied) ==> actor.task == old(actor.task) && waitingForInput == old(waitingForInput)
    {
      if CanPerform(t, occupied) {
        actor.task := Wrappers.Some(t);
        waitingForInput := false;
      }
    }

    /**
     * Player.Update. Input is acted on only while the player waits for it and
     * no task runs; then the cached key is always consumed. Space ends the
     * round. W, A, S, D propose a move task and E a lever task for a lever on
     * the player's tile; a proposal is adopted, ending the wait, only if it
     * can be performed. `interactableAt` stands for the Interactable-layer
     * query with its Lever component.
     */
    method Update(keysDown: set<CachedInput>, occupied: Occupancy,
                  interactableAt: Vec2 -> Wrappers.Option<Levers.Lever>)
      modifies this`waitingForInput, this`cachedInput, actor`canPerformAction, actor`task
      ensures InputStep(old(View()), View(), keysDown, occupied, interactableAt, actor)
    {
      CacheInput(keysDown);
      if waitingForInput && !actor.IsPerformingTask() {
        if cachedInput == Space {
          cachedInput := None;
          actor.canPerformAction := false;
          waitingForInput := false;
          return;
        }
        Respond(occupied, interactableAt);
      }
    }

    /**
     * The key branches of Player.Update: the cached key is consumed, and the
     * task it proposes is adopted when it can be performed.
     */
    method Respond(occupied: Occupancy, interactableAt: Vec2 -> Wrappers.Option<Levers.Lever>)
      requires cachedInput != Space
      modifies this`waitingForInput, this`cachedInput, actor`task
      ensures cachedInput == None
      ensures var p := Flat(actor.position);
              var offer := Proposal(old(cachedInput), actor, p, interactableAt);
              if offer.Some? && PerformableFrom(offer.value, p, occupied)
              then actor.task == offer && !waitingForInput
              else actor.task == old(actor.task) && waitingForInput == old(waitingForInput)
    {
      if cachedInput == W {
        cachedInput := None;
        Offer(Task(actor, MoveTask(Up), false), occupied);
      } else if cachedInput == A {
        cachedInput := None;
        Offer(Task(actor, MoveTask(Left), false), occupied);
      } else if cachedInput == S {
        cachedInput := None;
        Offer(Task(actor, MoveTask(Down), false), occupied);
      } else if cachedInput == D {
        cachedInput := None;
        Offer(Task(actor, MoveTask(Right), false), occupied);
      } else if cachedInput == E {
        cachedInput := None;
        var lever := interactableAt(Flat(actor.position));
        if lever.Some? {
          Offer(Task(actor, FlipLeverTask(lever.value), false), occupied);
        }
      }
    }

    /**
     * Player.Reset: the actor is rewound and its record is emptied, ready to
     * fill up for the next ghost.
     */
    method Reset()
      modifies actor
      ensures actor.State() == Rewound(old(actor.State()), actor.isCharacter).(actionQueue := [])
    {
      actor.BeginReset();
      actor.actionQueue := [];
      actor.FinishReset();
    }

    /**
     * Player.Resolve. While actions are enabled the task is resolved as for
     * every actor and then appended to the record; the player waits for
     * input again unless it now stands on a goal tile. `goalAt` stands for
     * the Goal-layer query; reaching a goal is reported, not acted on.
     */
    method Resolve(occupied: Occupancy, goalAt: Vec2 -> bool) returns (status: Status, reachedGoal: bool)
      requires actor.task.Some? ==> WellFormed(actor.task.value)
      modifies this`waitingForInput, actor, if actor.task.Some? then Footprint(actor.task.value) else {}
      ensures !old(actor.canPerformAction) ==>
                && status == Done && !reachedGoal && waitingForInput == old(waitingForInput)
                && actor.State() == old(actor.State())
                && (old(actor.task).Some? ==> unchanged(Footprint(old(actor.task).value)))
      ensures old(actor.canPerformAction) && old(actor.task).None? ==>
                status == NullTask && !reachedGoal && waitingForInput == old(waitingForInput)
                && actor.State() == old(actor.State())
      ensures old(actor.canPerformAction) && old(actor.task).Some? ==>
                var t := old(actor.task).value;
                && status == Done
                && (!t.isExecuting ==> Performed(t, occupied))
                && (t.isExecuting ==> actor.position == old(actor.position)
                                      && (t.kind.FlipLeverTask? ==> unchanged(Footprint(t))))
                && actor.State() == old(actor.State()).(position := actor.position,
                                                       actionQueue := old(actor.actionQueue) + [t])
                && (!(t.kind.MoveTask? && t.actor == actor) ==> actor.position == old(actor.position))
                && reachedGoal == goalAt(Flat(actor.position))
                && waitingForInput == (reachedGoal ==> old(waitingForInput))
    {
      status, reachedGoal := Done, false;
      if actor.canPerformAction {
        status := actor.Resolve(occupied);
        if status == NullTask {
          return;
        }
        actor.actionQueue := actor.actionQueue + [actor.task.value];
        if goalAt(Flat(actor.position)) {
          reachedGoal := true;
        } else {
          waitingForInput := true;
        }
      }
    }
  }
}
