/**
 * Tasks (Actions/Task.cs, MoveTask.cs, WaitTask.cs, FlipLeverTask.cs) and the
 * behaviour every actor shares (Actors/Actor.cs).
 *
 * A task names the actor it acts for and so does an actor its task, so both
 * live in this one module. A task is a value; its `isExecuting` flag is the
 * one Actor.cs polls. Execution is atomic: an execution that the source
 * spreads over several frames happens here in one step.
 */
module Actors {
  import opened Wrappers
  import opened Grid
  import Movement
  import Levers

  /** The runtime class of an actor. */
  datatype Kind = PlayerKind | GhostKind | StoneKind

  /** The three task classes and what each of them carries. */
  datatype TaskKind =
    | MoveTask(direction: Vec2)
    | WaitTask(delay: real)
    | FlipLeverTask(lever: Levers.Lever)

  /** A task: the actor it is performed for, what it does, and whether it is running. */
  datatype Task = Task(actor: Actor?, kind: TaskKind, isExecuting: bool)

  /** How an actor's resolution ended; the last two are the exceptions the source would throw. */
  datatype Status =
    | Done
    | NullTask    // a task was executed through a null reference
    | EmptyQueue  // Queue.Dequeue on an empty queue

  /** A move task dereferences its actor; the source always gives it one. */
  ghost predicate WellFormed(t: Task) {
    t.kind.MoveTask? ==> t.actor != null
  }

  /** The objects executing `t` may change. */
  ghost function Footprint(t: Task): set<object?> {
    match t.kind
    case MoveTask(_) => {t.actor}
    case WaitTask(_) => {}
    case FlipLeverTask(lever) => {lever} + set o: object? | o in lever.objects
  }

  /**
   * Task.CanPerform. A move task can be performed when the movement resolver
   * accepts it; waiting and flipping a lever always can.
   */
  function CanPerform(t: Task, occupied: Occupancy): (ok: bool)
    requires WellFormed(t)
    reads t.actor
    ensures !t.kind.MoveTask? ==> ok
    ensures t.kind.MoveTask? ==>
              (ok <==> Movement.Accepted(occupied, Flat(t.actor.position), t.kind.direction))
  {
    match t.kind
    case MoveTask(d) =>
      Movement.AcceptedIff(occupied, Flat(t.actor.position), d);
      Movement.Destination(occupied, Flat(t.actor.position), d) != Zero
    case WaitTask(_) => true
    case FlipLeverTask(_) => true
  }

  /**
   * The effect of executing `t` once: a move task puts its actor on the tile
   * the resolver computes from the actor's old tile (z becomes 0, and a
   * rejection puts it on the origin); a lever task flips its lever; a wait
   * task changes nothing.
   */
  twostate predicate Performed(t: Task, occupied: Occupancy)
    requires WellFormed(t)
    reads Footprint(t)
  {
    match t.kind
    case MoveTask(d) =>
      t.actor.position == OnPlane(Movement.Destination(occupied, Flat(old(t.actor.position)), d))
    case WaitTask(_) => true
    case FlipLeverTask(lever) => lever.Flipped()
  }

  /** MoveTask.Move: place `actor` on `newPosition`, with z set to 0. */
  method Move(actor: Actor, newPosition: Vec2)
    modifies actor`position
    ensures actor.position == OnPlane(newPosition)
  {
    actor.position := Vec3(newPosition.x, newPosition.y, 0);
  }

  /**
   * Task.Execute. A move recomputes the destination and writes it without
   * checking it; a wait raises its flag for the length of the delay; a lever
   * task flips its lever without looking at its actor. `during` is the task
   * as a poller sees it while the execution is suspended.
   */
  method Execute(t: Task, occupied: Occupancy) returns (done: Task, ghost during: Task)
    requires WellFormed(t)
    modifies Footprint(t)
    ensures Performed(t, occupied)
    ensures t.kind.MoveTask? ==> t.actor.State() == old(t.actor.State()).(position := t.actor.position)
    ensures t.kind.MoveTask? && !old(CanPerform(t, occupied)) ==> t.actor.position == OnPlane(Zero)
    ensures t.kind.WaitTask? ==> during.isExecuting && done == t.(isExecuting := false)
    ensures !t.kind.WaitTask? ==> done == t
  {
    match t.kind
    case MoveTask(d) =>
      var destination := Movement.TryMove(occupied, Flat(t.actor.position), d);
      Move(t.actor, destination);
      done, during := t, t;
    case WaitTask(delay) =>
      var running := t.(isExecuting := true);
      during := running;
      // the delay elapses here
      done := running.(isExecuting := false);
    case FlipLeverTask(lever) =>
      lever.Flip();
      done, during := t, t;
  }

  /** The WaitTask constructor: a wait of `delay` seconds (none by default) for no actor yet. */
  function NewWaitTask(delay: real := 0.0): (t: Task)
    ensures t.actor == null && !t.isExecuting
    ensures t.kind.WaitTask? && t.kind.delay == delay
  {
    Task(null, WaitTask(delay), false)
  }

  /** The FlipLeverTask constructor: flipping `lever`, for `actor`. */
  function NewFlipLeverTask(actor: Actor, lever: Levers.Lever): (t: Task)
    ensures t.actor == actor && !t.isExecuting
    ensures t.kind.FlipLeverTask? && t.kind.lever == lever
  {
    Task(actor, FlipLeverTask(lever), false)
  }

  /**
   * What executing a lever or wait task does never depends on its actor:
   * the task re-pointed to any actor `a` touches the same objects and has
   * the same effect.
   */
  twostate lemma EffectIgnoresActor(t: Task, a: Actor?, occupied: Occupancy)
    requires !t.kind.MoveTask?
    ensures WellFormed(t) && WellFormed(t.(actor := a))
    ensures Footprint(t.(actor := a)) == Footprint(t)
    ensures Performed(t.(actor := a), occupied) == Performed(t, occupied)
  {
  }

  /**
   * Executing the same lever task twice restores the lever and every object
   * it switches.
   */
  method ExecuteFlipTwice(t: Task, occupied: Occupancy)
    requires t.kind.FlipLeverTask?
    modifies Footprint(t)
    ensures t.kind.lever.on == old(t.kind.lever.on) && t.kind.lever.ShowsState()
    ensures forall o :: o in t.kind.lever.objects ==> o.active == old(o.active)
  {
    var lever := t.kind.lever;
    var _, _ := Execute(t, occupied);
    label once:
    var _, _ := Execute(t, occupied);
    assert forall o :: o in lever.objects ==>
             old@once(o.active) == (old(o.active) != Levers.ListedOddly(lever.objects, o));
  }

  /** Everything an actor holds, to say in one equation what an operation leaves alone. */
  datatype ActorState = ActorState(
    position: Vec3,
    initialPosition: Vec3,
    canPerformAction: bool,
    task: Option<Task>,
    actionQueue: seq<Task>,
    flipX: bool,
    resetting: bool)

  /**
   * The state a completed Actor.Reset leaves: enabled, a character's sprite
   * unflipped (SetDirection(RIGHT)), back at the start.
   */
  function Rewound(s: ActorState, isCharacter: bool): ActorState {
    s.(canPerformAction := true,
       flipX := if isCharacter then false else s.flipX,
       position := s.initialPosition,
       resetting := false)
  }

  class Actor {
    /** The runtime class (Player, Ghost or Stone). */
    const kind: Kind
    /** IsCharacter: true for players and ghosts, false for stones. */
    const isCharacter: bool
    /** transform.position */
    var position: Vec3
    var initialPosition: Vec3
    /** True until the actor finishes its round. */
    var canPerformAction: bool
    /** The task Resolve executes; None is the source's null. */
    var task: Option<Task>
    /** The recorded tasks (a player's history, a ghost's script). */
    var actionQueue: seq<Task>
    /** spriteRenderer.flipX: the sprite faces left; SetDirection writes it. */
    var flipX: bool
    /** resetCoroutine != null */
    var resetting: bool

    /** An actor as the scene or a prefab creates it. */
    constructor (kind: Kind, isCharacter: bool, position: Vec3, canPerformAction: bool)
      ensures this.kind == kind && this.isCharacter == isCharacter
      ensures State() == ActorState(position, Vec3(0, 0, 0), canPerformAction, None, [], false, false)
    {
      this.kind := kind;
      this.isCharacter := isCharacter;
      this.position := position;
      this.initialPosition := Vec3(0, 0, 0);
      this.canPerformAction := canPerformAction;
      this.task := None;
      this.actionQueue := [];
      this.flipX := false;
      this.resetting := false;
    }

    function State(): ActorState
      reads this
    {
      ActorState(position, initialPosition, canPerformAction, task, actionQueue, flipX, resetting)
    }

    /** Actor.IsPerformingTask: false without a task, otherwise the task's own flag. */
    predicate IsPerformingTask(): (b: bool)
      reads this
      ensures task.None? ==> !b
      ensures task.Some? ==> (b <==> task.value.isExecuting)
    {
      task.Some? && task.value.isExecuting
    }

    /** Actor.IsResetting: a reset coroutine is running. */
    predicate IsResetting(): (b: bool)
      reads this
      ensures b <==> resetting
    {
      resetting
    }

    /**
     * Actor.Start: actions are enabled, and every actor but a ghost records
     * where it stands as its starting position.
     */
    method Start()
      modifies this`canPerformAction, this`initialPosition
      ensures canPerformAction
      ensures initialPosition == if kind == GhostKind then old(initialPosition) else position
    {
      canPerformAction := true;
      if kind != GhostKind {
        initialPosition := position;
      }
    }

    /**
     * The part of a reset that runs before its first suspension: Actor.Reset
     * enables actions and turns a character's sprite right, and the subclass stores
     * the running coroutine, so the actor now reports that it is resetting.
     */
    method BeginReset()
      modifies this`canPerformAction, this`flipX, this`resetting
      ensures canPerformAction && IsResetting()
      ensures flipX == if isCharacter then false else old(flipX)
    {
      canPerformAction := true;
      if isCharacter {
        flipX := false;
      }
      resetting := true;
    }

    /** The end of Actor.Reset: the actor stands exactly on its starting position and no reset is running. */
    method FinishReset()
      modifies this`position, this`resetting
      ensures position == initialPosition && !IsResetting()
    {
      position := initialPosition;
      resetting := false;
    }

    /**
     * Actor.Resolve: the task is executed only when actions are enabled and
     * no task is in progress; otherwise nothing changes. Executing through a
     * missing task is the source's null dereference.
     */
    method Resolve(occupied: Occupancy) returns (status: Status)
      requires task.Some? ==> WellFormed(task.value)
      modifies if task.Some? then Footprint(task.value) else {}
      ensures var go := old(canPerformAction && !IsPerformingTask());
              && (status == NullTask <==> go && old(task).None?)
              && (status == Done <==> !(go && old(task).None?))
              && (go && old(task).Some? ==> Performed(old(task).value, occupied))
              && (!go && old(task).Some? ==> unchanged(Footprint(old(task).value)))
      ensures State() == old(State()).(position := position)
      ensures position != old(position) ==>
                old(canPerformAction && !IsPerformingTask()) && old(task).Some?
                && old(task).value.kind.MoveTask? && old(task).value.actor == this
    {
      status := Done;
      if canPerformAction && !IsPerformingTask() {
        if task.None? {
          return NullTask;
        }
        var _, _ := Execute(task.value, occupied);
      }
    }

    /**
     * Actor.DropIfFalling: a floating actor drops as a downward move task
     * would take it, if that task can be performed; the task it held is put
     * back afterwards. `isFloating` stands for MoveTask.IsFloating.
     */
    method DropIfFalling(occupied: Occupancy, isFloating: Vec2 -> bool)
      modifies this
      ensures var tile := Flat(old(position));
              var drop := Movement.Destination(occupied, tile, Down);
              position == if isFloating(tile) && drop != Zero then OnPlane(drop) else old(position)
      ensures State() == old(State()).(position := position)
    {
      if isFloating(Flat(position)) {
        var temp := task;
        var drop := Task(this, MoveTask(Down), false);
        task := Some(drop);
        if CanPerform(drop, occupied) {
          var _, _ := Execute(drop, occupied);
        }
        task := temp;
      }
    }
  }
}
