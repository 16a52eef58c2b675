/**
 * The turn scheduler (Utilities/PhaseManager.cs): it waits for the player's
 * input, resolves the actors in list order and then the stones, and when the
 * player has ended the round it spawns a ghost carrying the player's record
 * and rewinds the world.
 *
 * The actor list is the player followed by the ghosts in spawn order; it is
 * kept here as the player plus the sequence `ghosts`. One turn, and a reset
 * that follows it, is one atomic step.
 */
module Phases {
  import opened Wrappers
  import opened Grid
  import Movement
  import Levers
  import opened Actors
  import Players
  import opened Ghosts
  import opened Stones

  /** `r` is the queue `q`, in order, with every task re-pointed to `a`. */
  ghost predicate RepointedTo(r: seq<Task>, q: seq<Task>, a: Actor) {
    |r| == |q| && forall k :: 0 <= k < |q| ==> r[k] == q[k].(actor := a)
  }

  /** The occupancy of a world with fixed colliders `scenery` and the other solid tiles `solid`. */
  function OccupancyOf(scenery: Occupancy, solid: set<Vec2>): Occupancy {
    (p: Vec2) => scenery(p) || p in solid
  }

  /** A ghost as its replay step sees it: the tasks left to replay and its actor's state. */
  datatype GhostView = GhostView(script: seq<Task>, state: ActorState)

  /** The tiles the bodies `bodies` stand on. */
  function TilesOf(bodies: seq<Actor>): set<Vec2>
    reads bodies
  {
    if bodies == [] then {} else {Flat(bodies[0].position)} + TilesOf(bodies[1..])
  }

  /** Every body stands on a tile of `TilesOf`. */
  lemma {:induction false} TilesHave(bodies: seq<Actor>, k: nat)
    requires k < |bodies|
    ensures Flat(bodies[k].position) in TilesOf(bodies)
  {
    if k > 0 {
      TilesHave(bodies[1..], k - 1);
    }
  }

  /** Bodies that stay where they stood cover the same tiles. */
  twostate lemma {:induction false} TilesKept(bodies: seq<Actor>)
    requires forall i :: 0 <= i < |bodies| ==> bodies[i].position == old(bodies[i].position)
    ensures TilesOf(bodies) == old(TilesOf(bodies))
  {
    if bodies != [] {
      TilesKept(bodies[1..]);
    }
  }

  /** The body behind a tile of `TilesOf`. */
  lemma {:induction false} TileOwner(bodies: seq<Actor>, t: Vec2) returns (k: nat)
    requires t in TilesOf(bodies)
    ensures k < |bodies| && t == Flat(bodies[k].position)
  {
    if t == Flat(bodies[0].position) {
      k := 0;
    } else {
      var k' := TileOwner(bodies[1..], t);
      k := k' + 1;
    }
  }

  /** The tiles the ghosts seen as `views` stand on. */
  function GhostTiles(views: seq<GhostView>): set<Vec2> {
    set v | v in views :: Flat(v.state.position)
  }

  /** The tiles the actors in states `states` stand on. */
  function StateTiles(states: seq<ActorState>): set<Vec2> {
    set s | s in states :: Flat(s.position)
  }

  /**
   * The views `views` are the player before each of the first |views| - 1
   * frames and after the last of them: every one of those frames was handled
   * while the player waited, as one input step against `world`.
   */
  ghost predicate Waited(views: seq<Players.InputView>, frames: seq<set<Players.CachedInput>>, world: Occupancy,
                         interactableAt: Vec2 -> Option<Levers.Lever>, a: Actor)
  {
    && 1 <= |views| <= |frames| + 1
    && forall k :: 0 <= k < |views| - 1 ==>
         && views[k].waitingForInput
         && Players.InputStep(views[k], views[k + 1], frames[k], world, interactableAt, a)
  }

  /** One more frame handled while waiting extends the run. */
  lemma WaitedExtend(views: seq<Players.InputView>, frames: seq<set<Players.CachedInput>>, world: Occupancy,
                     interactableAt: Vec2 -> Option<Levers.Lever>, a: Actor, v: Players.InputView)
    requires Waited(views, frames, world, interactableAt, a) && |views| <= |frames|
    requires views[|views| - 1].waitingForInput
    requires Players.InputStep(views[|views| - 1], v, frames[|views| - 1], world, interactableAt, a)
    ensures Waited(views + [v], frames, world, interactableAt, a)
  {
    var n := |views|;
    assert forall k :: 0 <= k < n ==> (views + [v])[k] == views[k];
  }

  /** The tiles of the objects of `placed` that are active on the switchboard `b`. */
  function ActiveIn(placed: map<Levers.GameObject, Vec2>, b: Levers.Switchboard): set<Vec2> {
    set o | o in placed && o in b.active && b.active[o] :: placed[o]
  }

  /**
   * The solid tiles ghost `j` replays against, when the ghosts replay from
   * `was` to `now` in order: the player at `p`, the ghosts before `j` where
   * their steps put them, ghost `j` and those after it where they stood, the
   * stones at `stoneTiles`, and the objects of `placed` that are active once
   * the ghosts before `j` have flipped their levers on the switchboard
   * `board` the loop started from.
   */
  ghost function GhostSeen(was: seq<GhostView>, now: seq<GhostView>, j: nat, p: Vec2, stoneTiles: set<Vec2>,
                           placed: map<Levers.GameObject, Vec2>, board: Levers.Switchboard): set<Vec2>
    requires j <= |was| && j <= |now|
  {
    {p} + GhostTiles(now[..j]) + GhostTiles(was[j..]) + stoneTiles
    + ActiveIn(placed, Levers.ToggledAll(board, ReplayFlips(was[..j])))
  }

  /**
   * The first `|now|` ghosts of a round have replayed, in order: ghost `j`
   * went from `was[j]` to `now[j]` against the world of the scenery and the
   * solid tiles `seen[j]`, which are exactly `GhostSeen` of `j`.
   */
  ghost predicate ReplayedInOrder(was: seq<GhostView>, now: seq<GhostView>, p: Vec2, scenery: Occupancy,
                                  stoneTiles: set<Vec2>, placed: map<Levers.GameObject, Vec2>,
                                  board: Levers.Switchboard, seen: seq<set<Vec2>>)
  {
    && |now| == |seen| <= |was|
    && forall j :: 0 <= j < |seen| ==>
         && PhaseManager.ReplayStep(was[j], now[j], OccupancyOf(scenery, seen[j]))
         && seen[j] == GhostSeen(was, now, j, p, stoneTiles, placed, board)
  }

  /** Ghost `i`'s world, once the ones before it have replayed from the switchboard `board` to `b`. */
  lemma GhostSeenHere(was: seq<GhostView>, now: seq<GhostView>, i: nat, p: Vec2, stoneTiles: set<Vec2>,
                      placed: map<Levers.GameObject, Vec2>, board: Levers.Switchboard, b: Levers.Switchboard,
                      tiles: set<Vec2>)
    requires i == |now| < |was|
    requires b == Levers.ToggledAll(board, ReplayFlips(was[..i]))
    requires tiles == {p} + GhostTiles(now) + GhostTiles(was[i..]) + stoneTiles + ActiveIn(placed, b)
    ensures tiles == GhostSeen(was, now, i, p, stoneTiles, placed, board)
  {
    assert now[..i] == now;
  }

  /** Ghost `i`'s flip continues the flips of the ghosts before it. */
  lemma ReplayFlipsNext(board: Levers.Switchboard, was: seq<GhostView>, i: nat)
    requires i < |was|
    ensures Levers.ToggledAll(Levers.ToggledAll(board, ReplayFlips(was[..i])), GhostFlips(was[i]))
            == Levers.ToggledAll(board, ReplayFlips(was[..i + 1]))
  {
    assert was[..i + 1][..i] == was[..i];
    Levers.ToggledAllAppend(board, ReplayFlips(was[..i]), GhostFlips(was[i]));
  }

  /** The next ghost's replay step, against the world the ones before left, extends the round. */
  lemma ReplayedExtend(was: seq<GhostView>, now: seq<GhostView>, p: Vec2, scenery: Occupancy,
                       stoneTiles: set<Vec2>, placed: map<Levers.GameObject, Vec2>, board: Levers.Switchboard,
                       seen: seq<set<Vec2>>, v: GhostView, tiles: set<Vec2>)
    requires ReplayedInOrder(was, now, p, scenery, stoneTiles, placed, board, seen) && |seen| < |was|
    requires PhaseManager.ReplayStep(was[|seen|], v, OccupancyOf(scenery, tiles))
    requires tiles == GhostSeen(was, now, |seen|, p, stoneTiles, placed, board)
    ensures ReplayedInOrder(was, now + [v], p, scenery, stoneTiles, placed, board, seen + [tiles])
  {
    var n := |seen|;
    var seen', now' := seen + [tiles], now + [v];
    forall j | 0 <= j < n + 1
      ensures && PhaseManager.ReplayStep(was[j], now'[j], OccupancyOf(scenery, seen'[j]))
              && seen'[j] == GhostSeen(was, now', j, p, stoneTiles, placed, board)
    {
      GhostSeenPrefix(was, now, v, j, p, stoneTiles, placed, board);
      if j < n {
        assert seen'[j] == seen[j] && now'[j] == now[j];
      }
    }
  }

  /** Ghost `j`'s world does not depend on the ghosts that replay after it. */
  lemma GhostSeenPrefix(was: seq<GhostView>, now: seq<GhostView>, v: GhostView, j: nat, p: Vec2, stoneTiles: set<Vec2>,
                        placed: map<Levers.GameObject, Vec2>, board: Levers.Switchboard)
    requires j <= |now| < |was|
    ensures GhostSeen(was, now + [v], j, p, stoneTiles, placed, board) == GhostSeen(was, now, j, p, stoneTiles, placed, board)
  {
    assert (now + [v])[..j] == now[..j];
  }

  /**
   * A stone's step of the stone loop from `was` to `now` against `world`: a
   * pending push that is not running is carried out, landing where the
   * resolver puts it, and dropped; any other stone stays as it was.
   */
  predicate PushStep(was: ActorState, now: ActorState, world: Occupancy) {
    if was.task.Some? && !was.task.value.isExecuting && was.task.value.kind.MoveTask? then
      var d := was.task.value.kind.direction;
      now == was.(position := OnPlane(Movement.Destination(world, Flat(was.position), d)), task := None)
    else
      now == was
  }

  /**
   * The first `|now|` stones of a round have run, in order: stone `j` went
   * from `was[j]` to `now[j]` against the world of the scenery and the solid
   * tiles `seen[j]`. Those are exactly the stones before `j` where their
   * pushes put them, stone `j` and those after it where they stood, and the
   * tiles `others` of the actors and the active lever-switched objects.
   */
  ghost predicate PushedInOrder(was: seq<ActorState>, now: seq<ActorState>, scenery: Occupancy,
                                others: set<Vec2>, seen: seq<set<Vec2>>)
  {
    && |now| == |seen| <= |was|
    && forall j :: 0 <= j < |seen| ==>
         && PushStep(was[j], now[j], OccupancyOf(scenery, seen[j]))
         && seen[j] == StateTiles(now[..j]) + StateTiles(was[j..]) + others
  }

  /** The next stone's push, against a world holding the ones before, extends the round. */
  lemma PushedExtend(was: seq<ActorState>, now: seq<ActorState>, scenery: Occupancy,
                     others: set<Vec2>, seen: seq<set<Vec2>>, v: ActorState, tiles: set<Vec2>)
    requires PushedInOrder(was, now, scenery, others, seen) && |seen| < |was|
    requires PushStep(was[|seen|], v, OccupancyOf(scenery, tiles))
    requires tiles == StateTiles(now) + StateTiles(was[|seen|..]) + others
    ensures PushedInOrder(was, now + [v], scenery, others, seen + [tiles])
  {
    var n := |seen|;
    var seen', now' := seen + [tiles], now + [v];
    forall j | 0 <= j < n + 1
      ensures && PushStep(was[j], now'[j], OccupancyOf(scenery, seen'[j]))
              && seen'[j] == StateTiles(now'[..j]) + StateTiles(was[j..]) + others
    {
      assert now'[..j] == now[..j];
      if j < n {
        assert seen'[j] == seen[j] && now'[j] == now[j];
      }
    }
  }

  /**
   * The lever the player flips when it resolves from state `s`: that of a
   * lever task it holds, at rest, with actions enabled.
   */
  function PlayerFlips(s: ActorState): seq<Levers.Lever> {
    if s.canPerformAction && s.task.Some? && !s.task.value.isExecuting && s.task.value.kind.FlipLeverTask?
    then [s.task.value.kind.lever]
    else []
  }

  /**
   * The lever a ghost seen as `v` flips in its replay step: that of its front
   * task, when it acts and that task is a lever task at rest. A lever task
   * can always be performed, so no world is needed to tell.
   */
  function GhostFlips(v: GhostView): seq<Levers.Lever> {
    if v.state.canPerformAction && !(v.state.task.Some? && v.state.task.value.isExecuting) && v.script != []
       && v.script[0].kind.FlipLeverTask? && !v.script[0].isExecuting
    then [v.script[0].kind.lever]
    else []
  }

  /** The levers the ghosts seen as `views` flip, in spawn order. */
  function ReplayFlips(views: seq<GhostView>): seq<Levers.Lever>
    decreases |views|
  {
    if views == [] then [] else ReplayFlips(views[..|views| - 1]) + GhostFlips(views[|views| - 1])
  }

  class PhaseManager {
    const player: Players.Player
    /** The ghosts of the actor list, in spawn order. */
    var ghosts: seq<Ghost>
    const stones: seq<Stone>
    /** The level's fixed colliders. */
    const scenery: Occupancy
    /** The tiles of the scene objects levers switch; an active one is solid. */
    const placed: map<Levers.GameObject, Vec2>
    /** Every lever of the level. */
    ghost const levers: set<Levers.Lever>
    /** Every scene object a lever of the level switches. */
    ghost const switched: set<Levers.GameObject>

    /** The actor list: the player first, then the ghosts in spawn order. */
    function Actors(): seq<Actor>
      reads this
    {
      var gs := ghosts;
      [player.actor] + seq(|gs|, i requires 0 <= i < |gs| => gs[i].actor)
    }

    function GhostActors(): set<Actor>
      reads this
    {
      set g | g in ghosts :: g.actor
    }

    function StoneActors(): set<Actor> {
      set s | s in stones :: s.actor
    }

    /** Every lever of the level switches only objects of `switched`. */
    ghost predicate LeversClosed() {
      forall l :: l in levers ==> forall o :: o in l.objects ==> o in switched
    }

    /** The stones' bodies, in list order. */
    function StoneBodies(): seq<Actor> {
      seq(|stones|, i requires 0 <= i < |stones| => stones[i].actor)
    }

    /**
     * The occupancy query every probe asks: a fixed collider, an active
     * lever-switched object, or the body of any actor or stone.
     */
    function Occupied(): Occupancy
      reads this, Actors(), StoneBodies(), placed.Keys
    {
      OccupancyOf(scenery, SolidTiles())
    }

    /** The tiles that bodies and active lever-switched objects fill. */
    function SolidTiles(): set<Vec2>
      reads this, Actors(), StoneBodies(), placed.Keys
    {
      TilesOf(Actors()) + TilesOf(StoneBodies()) + ActiveTiles()
    }

    /** The switch state of the level: its levers and the objects they switch or that stand on a tile. */
    ghost function Board(): Levers.Switchboard
      reads levers, switched, placed.Keys
    {
      Levers.BoardOf(levers, switched + placed.Keys)
    }

    /** The tiles of the lever-switched objects that are active. */
    function ActiveTiles(): set<Vec2>
      reads placed.Keys
    {
      set o | o in placed && o.active :: placed[o]
    }

    /** The views of the ghosts, one by one, are the views. */
    lemma ViewsAre(vs: seq<GhostView>)
      requires |vs| == |ghosts| && forall j :: 0 <= j < |ghosts| ==> ViewOf(ghosts[j]) == vs[j]
      ensures Views() == vs
    {
    }

    /** The active tiles are those the switchboard shows active. */
    lemma ActiveOnBoard()
      ensures ActiveTiles() == ActiveIn(placed, Board())
    {
    }

    /** A task that `a` may hold: its own, at rest, flipping only a lever of the level. */
    ghost predicate Held(t: Task, a: Actor) {
      && t.actor == a
      && !t.isExecuting
      && (t.kind.FlipLeverTask? ==> t.kind.lever in levers)
    }

    /** Every task of `q` is one `a` may hold. */
    ghost predicate AllHeld(q: seq<Task>, a: Actor) {
      q == [] || (Held(q[0], a) && AllHeld(q[1..], a))
    }

    /** Recording a held task keeps the record held. */
    lemma {:induction false} AllHeldAppend(q: seq<Task>, t: Task, a: Actor)
      requires AllHeld(q, a) && Held(t, a)
      ensures AllHeld(q + [t], a)
    {
      if q != [] {
        assert (q + [t])[1..] == q[1..] + [t];
        AllHeldAppend(q[1..], t, a);
      }
    }

    /** A record re-pointed to `b` is held by `b`. */
    lemma {:induction false} AllHeldRepointed(r: seq<Task>, q: seq<Task>, a: Actor, b: Actor)
      requires AllHeld(q, a) && RepointedTo(r, q, b)
      ensures AllHeld(r, b)
    {
      if q != [] {
        AllHeldRepointed(r[1..], q[1..], a, b);
      }
    }

    ghost predicate ActorHolds(a: Actor)
      reads a
    {
      && (a.task.Some? ==> Held(a.task.value, a))
      && AllHeld(a.actionQueue, a)
    }

    ghost predicate GhostHolds(g: Ghost)
      reads g, g.actor
    {
      && g.actor.kind == GhostKind
      && ActorHolds(g.actor)
      && AllHeld(g.currentActions, g.actor)
    }

    ghost predicate PlayerOk()
      reads player.actor
    {
      player.actor.kind == PlayerKind && ActorHolds(player.actor)
    }

    ghost predicate GhostsOk()
      reads this, ghosts, GhostActors()
    {
      && (forall i :: 0 <= i < |ghosts| ==> GhostHolds(ghosts[i]))
      && (forall i, j :: 0 <= i < j < |ghosts| ==> ghosts[i].actor != ghosts[j].actor)
    }

    /** A stone only ever holds a push, that is, a move of its own. */
    ghost predicate StonesOk()
      reads StoneActors()
    {
      && (forall i :: 0 <= i < |stones| ==>
            && stones[i].actor.kind == StoneKind && ActorHolds(stones[i].actor)
            && (stones[i].actor.task.Some? ==> stones[i].actor.task.value.kind.MoveTask?))
      && (forall i, j :: 0 <= i < j < |stones| ==> stones[i].actor != stones[j].actor)
    }

    /**
     * Every body is a distinct actor of its own kind, and every task anyone
     * holds is its own and at rest between turns.
     */
    ghost predicate Valid()
      reads this, player.actor, ghosts, GhostActors(), StoneActors()
    {
      LeversClosed() && PlayerOk() && GhostsOk() && StonesOk()
    }

    /** Only levers of the level are ever found by the interaction query. */
    ghost predicate KnownLevers(interactableAt: Vec2 -> Option<Levers.Lever>) {
      forall p :: interactableAt(p).Some? ==> interactableAt(p).value in levers
    }

    /** PhaseManager.Awake: the actor list starts as the player alone. */
    constructor (player: Players.Player, stones: seq<Stone>, scenery: Occupancy,
                 placed: map<Levers.GameObject, Vec2>,
                 ghost levers: set<Levers.Lever>, ghost switched: set<Levers.GameObject>)
      requires player.actor.kind == PlayerKind && player.actor.task == None && player.actor.actionQueue == []
      requires forall s :: s in stones ==> s.actor.kind == StoneKind && s.actor.task == None && s.actor.actionQueue == []
      requires forall i, j :: 0 <= i < j < |stones| ==> stones[i].actor != stones[j].actor
      requires forall l :: l in levers ==> forall o :: o in l.objects ==> o in switched
      ensures Valid() && Actors() == [player.actor] && ghosts == []
      ensures this.player == player && this.stones == stones && this.levers == levers
    {
      this.player := player;
      this.ghosts := [];
      this.stones := stones;
      this.scenery := scenery;
      this.placed := placed;
      this.levers := levers;
      this.switched := switched;
    }

    /** What a ghost's replay step reads and writes: its script and its actor's state. */
    static function ViewOf(g: Ghost): GhostView
      reads g, g.actor
    {
      GhostView(g.currentActions, g.actor.State())
    }

    /** The replay views of the ghosts, in spawn order. */
    ghost function Views(): seq<GhostView>
      reads this, ghosts, GhostActors()
    {
      var gs := ghosts;
      seq(|gs|, i requires 0 <= i < |gs| reads if 0 <= i < |gs| then {gs[i], gs[i].actor} else {} => ViewOf(gs[i]))
    }

    /** The states of the stones, in list order. */
    ghost function StoneStates(): seq<ActorState>
      reads StoneActors()
    {
      seq(|stones|, i requires 0 <= i < |stones| reads if 0 <= i < |stones| then {stones[i].actor} else {} =>
                                                  stones[i].actor.State())
    }

    /**
     * A ghost's replay step from `was` to `now` against the world `world`: an
     * enabled, idle ghost with tasks left dequeues the front one as its task,
     * disables itself if none remain, and, when that task is a move that
     * can be performed, lands where the resolver puts it; any other ghost
     * stays exactly as it was.
     */
    static predicate ReplayStep(was: GhostView, now: GhostView, world: Occupancy) {
      var before := was.script;
      if was.state.canPerformAction && !(was.state.task.Some? && was.state.task.value.isExecuting) && before != [] then
        var t := before[0];
        var tile := Flat(was.state.position);
        && now.script == before[1..]
        && now.state == was.state.(
             position := if t.kind.MoveTask? && !t.isExecuting
                            && Movement.Destination(world, tile, t.kind.direction) != Zero
                         then OnPlane(Movement.Destination(world, tile, t.kind.direction))
                         else was.state.position,
             task := Some(t),
             canPerformAction := now.script != [])
      else
        now == was
    }

    /** `g` took its replay step against `world` between the previous state and this one. */
    twostate predicate Replayed(g: Ghost, world: Occupancy)
      reads g, g.actor
    {
      ReplayStep(old(ViewOf(g)), ViewOf(g), world)
    }

    /**
     * PhaseManager.TurnPhase over a run of frames: the player handles one
     * frame's keys at a time while it waits for input, and the turn is
     * resolved as soon as it stops waiting, and only then. Frames left after
     * that belong to the next turn. `views` is the player as each frame found
     * it and as the wait left it; nothing moves during the wait, so every
     * frame sees the world as the turn found it.
     */
    method TurnPhase(frames: seq<set<Players.CachedInput>>, interactableAt: Vec2 -> Option<Levers.Lever>,
                     goalAt: Vec2 -> bool)
      returns (consumed: nat, resolved: bool, reachedGoal: bool, roundReset: bool, ghost views: seq<Players.InputView>)
      requires Valid() && KnownLevers(interactableAt)
      modifies this`ghosts, player, player.actor, ghosts, GhostActors(), StoneActors(), levers, switched
      ensures Valid()
      ensures consumed <= |frames| && |views| == consumed + 1 && views[0] == old(player.View())
      ensures Waited(views, frames, old(Occupied()), interactableAt, player.actor)
      ensures resolved <==> !views[consumed].waitingForInput
      ensures consumed < |frames| ==> resolved
      ensures !resolved ==> player.View() == views[consumed] && ghosts == old(ghosts) && !reachedGoal && !roundReset
      ensures !resolved ==> Views() == old(Views()) && StoneStates() == old(StoneStates()) && Board() == old(Board())
      ensures resolved ==>
                Board() == Levers.ToggledAll(old(Board()), PlayerFlips(views[consumed].state) + ReplayFlips(old(Views())))
      ensures resolved ==>
                var last := views[consumed].state;
                && (roundReset <==> !last.canPerformAction)
                && reachedGoal == (last.canPerformAction && last.task.Some? && goalAt(Flat(player.actor.position)))
      ensures player.waitingForInput
    {
      consumed, views := AwaitInput(frames, interactableAt);
      resolved := !player.waitingForInput;
      reachedGoal, roundReset := false, false;
      if resolved {
        reachedGoal, roundReset := ResolvePhase(goalAt);
      }
    }

    /**
     * The waiting loop of TurnPhase: one frame after another while the player
     * waits for input and frames remain.
     */
    method AwaitInput(frames: seq<set<Players.CachedInput>>, interactableAt: Vec2 -> Option<Levers.Lever>)
      returns (consumed: nat, ghost views: seq<Players.InputView>)
      requires Valid() && KnownLevers(interactableAt)
      modifies player, player.actor
      ensures Valid()
      ensures consumed <= |frames| && |views| == consumed + 1 && views[0] == old(player.View())
      ensures views[consumed] == player.View()
      ensures Waited(views, frames, old(Occupied()), interactableAt, player.actor)
      ensures consumed < |frames| ==> !player.waitingForInput
      ensures Views() == old(Views()) && StoneStates() == old(StoneStates()) && Board() == old(Board())
    {
      assert player.actor !in GhostActors() && player.actor !in StoneActors();
      consumed := 0;
      views := [player.View()];
      ghost var world := Occupied();
      while consumed < |frames| && player.waitingForInput
        invariant Valid()
        invariant consumed <= |frames| && |views| == consumed + 1 && views[0] == old(player.View())
        invariant views[consumed] == player.View()
        invariant Waited(views, frames, world, interactableAt, player.actor)
        invariant Occupied() == world
      {
        HandleFrame(frames[consumed], interactableAt);
        WaitedExtend(views, frames, world, interactableAt, player.actor, player.View());
        views := views + [player.View()];
        consumed := consumed + 1;
      }
      OthersStill();
    }

    /** A step that changes only the player leaves the ghosts, the stones and the switchboard as they were. */
    twostate lemma OthersStill()
      requires unchanged(this)
      requires forall g :: g in ghosts ==> unchanged(g) && unchanged(g.actor)
      requires forall s :: s in stones ==> unchanged(s.actor)
      requires unchanged(levers) && unchanged(switched) && unchanged(placed.Keys)
      ensures Views() == old(Views()) && StoneStates() == old(StoneStates()) && Board() == old(Board())
    {
    }

    /** A step that touches no lever and no switched object leaves the switchboard as it was. */
    twostate lemma BoardStill()
      requires unchanged(levers) && unchanged(switched) && unchanged(placed.Keys)
      ensures Board() == old(Board())
    {
    }

    /** A step that changes neither ghosts nor stones leaves their views, states and tiles as they were. */
    twostate lemma BodiesStill()
      requires unchanged(this)
      requires forall g :: g in ghosts ==> unchanged(g) && unchanged(g.actor)
      requires forall s :: s in stones ==> unchanged(s.actor)
      ensures Views() == old(Views()) && StoneStates() == old(StoneStates())
      ensures TilesOf(StoneBodies()) == old(TilesOf(StoneBodies()))
    {
      TilesKept(StoneBodies());
    }

    /**
     * One frame of the wait for input: the player handles the frame's keys
     * against the current world, which nothing in the frame moves.
     */
    method HandleFrame(keysDown: set<Players.CachedInput>, interactableAt: Vec2 -> Option<Levers.Lever>)
      requires Valid() && KnownLevers(interactableAt)
      modifies player, player.actor
      ensures Valid()
      ensures Players.InputStep(old(player.View()), player.View(), keysDown, old(Occupied()), interactableAt, player.actor)
      ensures Occupied() == old(Occupied())
    {
      Listen(keysDown, Occupied(), interactableAt);
      WorldKept();
    }

    /**
     * A step that moves no body and switches no object leaves the world as it
     * was.
     */
    twostate lemma WorldKept()
      requires unchanged(this)
      requires forall b :: b in Actors() || b in StoneBodies() ==> b.position == old(b.position)
      requires forall o :: o in placed ==> o.active == old(o.active)
      ensures Occupied() == old(Occupied())
    {
      assert Actors() == old(Actors());
      TilesKept(Actors());
      TilesKept(StoneBodies());
      assert (set o | o in placed && o.active :: placed[o]) == old(set o | o in placed && o.active :: placed[o]);
    }

    /** The player's input step, against the world `occupied`. */
    method Listen(keysDown: set<Players.CachedInput>, occupied: Occupancy,
                  interactableAt: Vec2 -> Option<Levers.Lever>)
      requires Valid() && KnownLevers(interactableAt)
      modifies player, player.actor
      ensures Valid()
      ensures Players.InputStep(old(player.View()), player.View(), keysDown, occupied, interactableAt, player.actor)
    {
      assert player.actor !in GhostActors() && player.actor !in StoneActors();
      player.Update(keysDown, occupied, interactableAt);
    }

    /**
     * PhaseManager.ResolvePhase: the turn is resolved, then the round is
     * reset exactly when the player can no longer act, and afterwards the
     * player waits for input again, even when it reached the goal.
     */
    method ResolvePhase(goalAt: Vec2 -> bool) returns (reachedGoal: bool, roundReset: bool)
      requires Valid()
      modifies this`ghosts, player, player.actor, ghosts, GhostActors(), StoneActors(), levers, switched
      ensures Valid()
      ensures player.waitingForInput
      ensures roundReset <==> !old(player.actor.canPerformAction)
      ensures !roundReset ==> ghosts == old(ghosts)
      ensures Board() == Levers.ToggledAll(old(Board()), PlayerFlips(old(player.actor.State())) + ReplayFlips(old(Views())))
      ensures roundReset ==> |ghosts| == |old(ghosts)| + 1 && ghosts[..|old(ghosts)|] == old(ghosts)
      ensures reachedGoal == (old(player.actor.canPerformAction) && old(player.actor.task).Some?
                              && goalAt(Flat(player.actor.position)))
      ensures !roundReset ==>
                && player.actor.State() == old(player.actor.State()).(
                     position := player.actor.position,
                     actionQueue := if old(player.actor.task).Some?
                                    then old(player.actor.actionQueue) + [old(player.actor.task).value]
                                    else old(player.actor.actionQueue))
                && player.actor.position ==
                     if old(player.actor.task).Some? && old(player.actor.task).value.kind.MoveTask?
                     then OnPlane(Movement.Destination(old(Occupied()), Flat(old(player.actor.position)),
                                                       old(player.actor.task).value.kind.direction))
                     else old(player.actor.position)
      ensures roundReset ==>
                && player.actor.State() == Rewound(old(player.actor.State()), player.actor.isCharacter).(actionQueue := [])
                && var g := ghosts[|old(ghosts)|];
                   RepointedTo(g.actor.actionQueue, old(player.actor.actionQueue), g.actor)
    {
      ghost var replaySeen, pushSeen;
      reachedGoal, replaySeen, pushSeen := ResolveTurn(goalAt);
      roundReset := FinishPhase();
    }

    /**
     * The tail of ResolvePhase: the round is reset exactly when the player
     * can no longer act, and the player waits for input again.
     */
    method FinishPhase() returns (roundReset: bool)
      requires Valid()
      modifies this`ghosts, player, player.actor, ghosts, GhostActors(), StoneActors()
      ensures Valid()
      ensures player.waitingForInput
      ensures roundReset <==> !old(player.actor.canPerformAction)
      ensures Board() == old(Board())
      ensures !roundReset ==> ghosts == old(ghosts) && player.actor.State() == old(player.actor.State())
      ensures !roundReset ==> Views() == old(Views()) && StoneStates() == old(StoneStates())
      ensures roundReset ==>
                && |ghosts| == |old(ghosts)| + 1 && ghosts[..|old(ghosts)|] == old(ghosts)
                && player.actor.State() == Rewound(old(player.actor.State()), player.actor.isCharacter).(actionQueue := [])
                && var g := ghosts[|old(ghosts)|];
                   RepointedTo(g.actor.actionQueue, old(player.actor.actionQueue), g.actor)
      ensures roundReset ==>
                forall i :: 0 <= i < |ghosts| ==>
                  && ghosts[i].currentActions == ghosts[i].actor.actionQueue
                  && ghosts[i].actor.canPerformAction && !ghosts[i].actor.IsResetting()
                  && ghosts[i].actor.position == ghosts[i].actor.initialPosition
      ensures roundReset ==>
                forall i :: 0 <= i < |old(ghosts)| ==>
                  ghosts[i].actor.State() == Rewound(old(ghosts[i].actor.State()), ghosts[i].actor.isCharacter)
      ensures roundReset ==>
                forall s :: s in stones ==>
                  s.actor.State() == if s.resetPosition then Rewound(old(s.actor.State()), s.actor.isCharacter)
                                     else old(s.actor.State())
    {
      roundReset := !player.actor.canPerformAction;
      if roundReset {
        ResetRound();
      }
      player.waitingForInput := true;
      BoardStill();
    }

    /**
     * The two loops of ResolvePhase: the player, then each ghost in spawn
     * order, each against the world as the actors before it left it, and
     * then every stone. The player, first in the list, moves against the
     * world as the turn found it, and nothing after it moves the player.
     * The ghosts' views go from the turn's start to its end by replays in
     * order (`ReplayedInOrder`), and the stones' states by pushes in order
     * (`PushedInOrder`), each against exactly the bodies and the active
     * lever-switched objects of its moment. The switchboard ends with the
     * player's flip and then the ghosts' flips applied in order.
     */
    method ResolveTurn(goalAt: Vec2 -> bool)
      returns (reachedGoal: bool, ghost replaySeen: seq<set<Vec2>>, ghost pushSeen: seq<set<Vec2>>)
      requires Valid()
      modifies player, player.actor, ghosts, GhostActors(), StoneActors(), levers, switched
      ensures Valid()
      ensures player.actor.State() == old(player.actor.State()).(
                position := player.actor.position,
                actionQueue := if old(player.actor.canPerformAction) && old(player.actor.task).Some?
                               then old(player.actor.actionQueue) + [old(player.actor.task).value]
                               else old(player.actor.actionQueue))
      ensures player.actor.position ==
                if old(player.actor.canPerformAction) && old(player.actor.task).Some?
                   && old(player.actor.task).value.kind.MoveTask?
                then OnPlane(Movement.Destination(old(Occupied()), Flat(old(player.actor.position)),
                                                  old(player.actor.task).value.kind.direction))
                else old(player.actor.position)
      ensures reachedGoal == (old(player.actor.canPerformAction) && old(player.actor.task).Some?
                              && goalAt(Flat(player.actor.position)))
      ensures player.waitingForInput == (old(player.waitingForInput) || (old(player.actor.canPerformAction)
                                         && old(player.actor.task).Some? && !reachedGoal))
      ensures forall s :: s in stones ==> s.actor.task == None
      ensures Board() == Levers.ToggledAll(old(Board()), PlayerFlips(old(player.actor.State())) + ReplayFlips(old(Views())))
      ensures |old(Views())| == |Views()|
      ensures ReplayedInOrder(old(Views()), Views(), Flat(player.actor.position), scenery, old(TilesOf(StoneBodies())),
                              placed, Levers.ToggledAll(old(Board()), PlayerFlips(old(player.actor.State()))), replaySeen)
      ensures |old(StoneStates())| == |StoneStates()|
      ensures PushedInOrder(old(StoneStates()), StoneStates(), scenery, TilesOf(Actors()) + ActiveTiles(), pushSeen)
    {
      ghost var replayedFrom, replayedTo, pushedFrom, pushedTo;
      reachedGoal, replayedFrom, replayedTo, replaySeen := ResolveActors(goalAt);
      ghost var board := Board();
      pushedFrom, pushedTo, pushSeen := ResolveStones();
      assert Board() == board;
    }

    /**
     * The first loop of ResolvePhase: the player, then each ghost in spawn
     * order, each against the world as the actors before it left it.
     */
    method ResolveActors(goalAt: Vec2 -> bool)
      returns (reachedGoal: bool, ghost replayedFrom: seq<GhostView>, ghost replayedTo: seq<GhostView>,
               ghost replaySeen: seq<set<Vec2>>)
      requires Valid()
      modifies player, player.actor, ghosts, GhostActors(), levers, switched
      ensures Valid()
      ensures player.actor.State() == old(player.actor.State()).(
                position := player.actor.position,
                actionQueue := if old(player.actor.canPerformAction) && old(player.actor.task).Some?
                               then old(player.actor.actionQueue) + [old(player.actor.task).value]
                               else old(player.actor.actionQueue))
      ensures player.actor.position ==
                if old(player.actor.canPerformAction) && old(player.actor.task).Some?
                   && old(player.actor.task).value.kind.MoveTask?
                then OnPlane(Movement.Destination(old(Occupied()), Flat(old(player.actor.position)),
                                                  old(player.actor.task).value.kind.direction))
                else old(player.actor.position)
      ensures reachedGoal == (old(player.actor.canPerformAction) && old(player.actor.task).Some?
                              && goalAt(Flat(player.actor.position)))
      ensures player.waitingForInput == (old(player.waitingForInput) || (old(player.actor.canPerformAction)
                                         && old(player.actor.task).Some? && !reachedGoal))
      ensures Board() == Levers.ToggledAll(old(Board()), PlayerFlips(old(player.actor.State())) + ReplayFlips(old(Views())))
      ensures replayedFrom == old(Views()) && replayedTo == Views()
      ensures StoneStates() == old(StoneStates())
      ensures ReplayedInOrder(replayedFrom, replayedTo, Flat(player.actor.position), scenery, old(TilesOf(StoneBodies())),
                              placed, Levers.ToggledAll(old(Board()), PlayerFlips(old(player.actor.State()))), replaySeen)
    {
      reachedGoal := ResolvePlayer(goalAt, Occupied());
      replayedFrom, replayedTo, replaySeen := ResolveGhosts();
      Levers.ToggledAllAppend(old(Board()), PlayerFlips(old(player.actor.State())), ReplayFlips(replayedFrom));
    }

    /**
     * The ghosts' part of the actor loop: each ghost in spawn order takes its
     * replay step against the world as the actors before it left it. Ghost
     * `i` goes from `before[i]` to `after[i]` against the scenery and the
     * solid tiles `seen[i]`: the player, the ghosts before it where their
     * steps put them, itself and the later ghosts where they stood, the
     * stones, and the objects active once the earlier ghosts flipped their
     * levers. The switchboard ends with every ghost's flip applied in order.
     */
    method ResolveGhosts() returns (ghost before: seq<GhostView>, ghost after: seq<GhostView>,
                                    ghost seen: seq<set<Vec2>>)
      requires Valid()
      modifies ghosts, GhostActors(), levers, switched
      ensures Valid()
      ensures |before| == |ghosts| && |after| == |ghosts|
      ensures before == old(Views()) && after == Views()
      ensures ReplayedInOrder(before, after, Flat(player.actor.position), scenery,
                              old(TilesOf(StoneBodies())), placed, old(Board()), seen)
      ensures Board() == Levers.ToggledAll(old(Board()), ReplayFlips(before))
      ensures player.actor.State() == old(player.actor.State()) && unchanged(player)
      ensures StoneStates() == old(StoneStates())
    {
      before := Views();
      ghost var playerWas := player.actor.State();
      ghost var stoneTiles := TilesOf(StoneBodies());
      ghost var board := Board();
      assert before[..0] == [];
      after, seen := ReplayAll(before, playerWas, stoneTiles, board);
      assert before[..|ghosts|] == before;
      ViewsAre(after);
    }

    /** The loop of ResolveGhosts, from the first ghost to the last. */
    method ReplayAll(ghost before: seq<GhostView>, ghost playerWas: ActorState, ghost stoneTiles: set<Vec2>,
                     ghost board: Levers.Switchboard)
      returns (ghost after: seq<GhostView>, ghost seen: seq<set<Vec2>>)
      requires GhostLoop(0, before, [], [], playerWas, stoneTiles, board)
      modifies ghosts, GhostActors(), levers, switched
      ensures GhostLoop(|ghosts|, before, after, seen, playerWas, stoneTiles, board)
      ensures StoneStates() == old(StoneStates())
    {
      after, seen := [], [];
      for i := 0 to |ghosts|
        invariant GhostLoop(i, before, after, seen, playerWas, stoneTiles, board)
        invariant StoneStates() == old(StoneStates())
      {
        after, seen := ReplayNext(i, before, after, seen, playerWas, stoneTiles, board);
      }
    }

    /**
     * The state of the ghost loop after `i` ghosts: those before `i` have
     * replayed from `before` to `after` in order, starting from the
     * switchboard `board` and flipping their levers on it, the rest still
     * stand as `before` has them, and the player and the stones stand still.
     */
    ghost predicate GhostLoop(i: nat, before: seq<GhostView>, after: seq<GhostView>, seen: seq<set<Vec2>>,
                              playerWas: ActorState, stoneTiles: set<Vec2>, board: Levers.Switchboard)
      reads this, player.actor, ghosts, GhostActors(), StoneActors(), levers, switched, placed.Keys
    {
      && Valid() && i <= |ghosts| == |before| && |after| == i
      && (forall j :: i <= j < |ghosts| ==> ViewOf(ghosts[j]) == before[j])
      && (forall j :: 0 <= j < i ==> ViewOf(ghosts[j]) == after[j])
      && ReplayedInOrder(before, after, Flat(playerWas.position), scenery, stoneTiles, placed, board, seen)
      && Board() == Levers.ToggledAll(board, ReplayFlips(before[..i]))
      && player.actor.State() == playerWas
      && TilesOf(StoneBodies()) == stoneTiles
    }

    /** One more step of the ghost loop, as a step of the replays in order. */
    method ReplayNext(i: nat, ghost before: seq<GhostView>, ghost after: seq<GhostView>,
                      ghost seen: seq<set<Vec2>>, ghost playerWas: ActorState, ghost stoneTiles: set<Vec2>,
                      ghost board: Levers.Switchboard)
      returns (ghost after': seq<GhostView>, ghost seen': seq<set<Vec2>>)
      requires i < |ghosts| && GhostLoop(i, before, after, seen, playerWas, stoneTiles, board)
      modifies ghosts[i], ghosts[i].actor, levers, switched
      ensures GhostLoop(i + 1, before, after', seen', playerWas, stoneTiles, board)
      ensures StoneStates() == old(StoneStates())
    {
      ghost var v, tiles := ResolveNext(i, before, after, playerWas, stoneTiles, board);
      ReplayedExtend(before, after, Flat(playerWas.position), scenery, stoneTiles, placed, board, seen, v, tiles);
      after', seen' := after + [v], seen + [tiles];
    }

    /**
     * One more step of the ghost loop: ghost `i` goes from `before[i]` to
     * `v` against the world `tiles`, which holds the ones before it where
     * their replays put them.
     */
    method ResolveNext(i: nat, ghost before: seq<GhostView>, ghost after: seq<GhostView>,
                       ghost playerWas: ActorState, ghost stoneTiles: set<Vec2>, ghost board: Levers.Switchboard)
      returns (ghost v: GhostView, ghost tiles: set<Vec2>)
      requires Valid() && i < |ghosts| == |before| && |after| == i
      requires forall j :: i <= j < |ghosts| ==> ViewOf(ghosts[j]) == before[j]
      requires forall j :: 0 <= j < i ==> ViewOf(ghosts[j]) == after[j]
      requires player.actor.State() == playerWas
      requires TilesOf(StoneBodies()) == stoneTiles
      requires Board() == Levers.ToggledAll(board, ReplayFlips(before[..i]))
      modifies ghosts[i], ghosts[i].actor, levers, switched
      ensures Valid()
      ensures forall j :: i + 1 <= j < |ghosts| ==> ViewOf(ghosts[j]) == before[j]
      ensures forall j :: 0 <= j < i + 1 ==> ViewOf(ghosts[j]) == (after + [v])[j]
      ensures ReplayStep(before[i], v, OccupancyOf(scenery, tiles))
      ensures tiles == GhostSeen(before, after, i, Flat(playerWas.position), stoneTiles, placed, board)
      ensures Board() == Levers.ToggledAll(board, ReplayFlips(before[..i + 1]))
      ensures player.actor.State() == playerWas
      ensures TilesOf(StoneBodies()) == stoneTiles && StoneStates() == old(StoneStates())
    {
      tiles := GhostWorld(i, before, after, Flat(playerWas.position), stoneTiles);
      ActiveOnBoard();
      GhostSeenHere(before, after, i, Flat(playerWas.position), stoneTiles, placed, board, Board(), tiles);
      ResolveGhost(i);
      v := ViewOf(ghosts[i]);
      ReplayFlipsNext(board, before, i);
    }

    /**
     * The world ghost `i` replays against, stated over the loop's views: the
     * solid tiles are exactly the player at `p`, the ghosts where the loop has
     * them, the stones at `stoneTiles` and the active lever-switched objects.
     */
    lemma GhostWorld(i: nat, before: seq<GhostView>, after: seq<GhostView>, p: Vec2, stoneTiles: set<Vec2>)
      returns (tiles: set<Vec2>)
      requires i < |ghosts| == |before| && |after| == i
      requires forall j :: i <= j < |ghosts| ==> ViewOf(ghosts[j]) == before[j]
      requires forall j :: 0 <= j < i ==> ViewOf(ghosts[j]) == after[j]
      requires Flat(player.actor.position) == p && stoneTiles == TilesOf(StoneBodies())
      ensures tiles == SolidTiles()
      ensures tiles == {p} + GhostTiles(after) + GhostTiles(before[i..]) + stoneTiles + ActiveTiles()
    {
      SolidWithin(i, before, after);
      BodiesSolid(i, before, after);
      tiles := SolidTiles();
    }

    /**
     * In the middle of the ghosts' loop, with the ghosts before `i` as
     * `after` and the others as `before`, the actors stand nowhere but on
     * the player's tile and the tiles of those views.
     */
    lemma SolidWithin(i: nat, before: seq<GhostView>, after: seq<GhostView>)
      requires i <= |ghosts| == |before| && |after| == i
      requires forall j :: i <= j < |ghosts| ==> ViewOf(ghosts[j]) == before[j]
      requires forall j :: 0 <= j < i ==> ViewOf(ghosts[j]) == after[j]
      ensures TilesOf(Actors()) <= {Flat(player.actor.position)} + GhostTiles(after) + GhostTiles(before[i..])
    {
      var bodies := Actors();
      forall t | t in TilesOf(bodies)
        ensures t in {Flat(player.actor.position)} + GhostTiles(after) + GhostTiles(before[i..])
      {
        var k := TileOwner(bodies, t);
        if k > 0 {
          var j := k - 1;
          assert bodies[k] == ghosts[j].actor;
          if j < i {
            assert after[j] in after;
          } else {
            assert before[i..][j - i] == before[j];
          }
        }
      }
    }

    /**
     * In the middle of the ghosts' loop, the player and every ghost where
     * the loop has it stand among the actors' tiles.
     */
    lemma BodiesSolid(i: nat, before: seq<GhostView>, after: seq<GhostView>)
      requires i <= |ghosts| == |before| && |after| == i
      requires forall j :: i <= j < |ghosts| ==> ViewOf(ghosts[j]) == before[j]
      requires forall j :: 0 <= j < i ==> ViewOf(ghosts[j]) == after[j]
      ensures {Flat(player.actor.position)} + GhostTiles(after) + GhostTiles(before[i..]) <= TilesOf(Actors())
    {
      var bodies := Actors();
      TilesHave(bodies, 0);
      forall t | t in GhostTiles(after) + GhostTiles(before[i..])
        ensures t in TilesOf(bodies)
      {
        var j := ViewOwner(i, before, after, t);
        assert bodies[j + 1] == ghosts[j].actor;
        TilesHave(bodies, j + 1);
      }
    }

    /** The ghost behind a tile of the loop's views. */
    lemma ViewOwner(i: nat, before: seq<GhostView>, after: seq<GhostView>, t: Vec2) returns (j: nat)
      requires i <= |ghosts| == |before| && |after| == i
      requires forall j :: i <= j < |ghosts| ==> ViewOf(ghosts[j]) == before[j]
      requires forall j :: 0 <= j < i ==> ViewOf(ghosts[j]) == after[j]
      requires t in GhostTiles(after) + GhostTiles(before[i..])
      ensures j < |ghosts| && t == Flat(ghosts[j].actor.position)
    {
      if t in GhostTiles(after) {
        var v :| v in after && t == Flat(v.state.position);
        j :| j < |after| && after[j] == v;
      } else {
        var v :| v in before[i..] && t == Flat(v.state.position);
        var m: nat :| m < |before[i..]| && before[i..][m] == v;
        j := i + m;
        assert before[j] == v;
      }
    }

    /** Held tasks change only their actor, or a lever of the level and what it switches. */
    lemma FootprintWithin(t: Task, a: Actor)
      requires LeversClosed() && Held(t, a)
      ensures Footprint(t) <= {a} + levers + switched
    {
    }

    /** The player's step of the actor loop, against the world `occupied`. */
    method ResolvePlayer(goalAt: Vec2 -> bool, occupied: Occupancy) returns (reachedGoal: bool)
      requires Valid()
      modifies player, player.actor, levers, switched
      ensures Valid()
      ensures player.actor.State() == old(player.actor.State()).(
                position := player.actor.position,
                actionQueue := if old(player.actor.canPerformAction) && old(player.actor.task).Some?
                               then old(player.actor.actionQueue) + [old(player.actor.task).value]
                               else old(player.actor.actionQueue))
      ensures player.actor.position ==
                if old(player.actor.canPerformAction) && old(player.actor.task).Some?
                   && old(player.actor.task).value.kind.MoveTask?
                then OnPlane(Movement.Destination(occupied, Flat(old(player.actor.position)),
                                                  old(player.actor.task).value.kind.direction))
                else old(player.actor.position)
      ensures reachedGoal == (old(player.actor.canPerformAction) && old(player.actor.task).Some?
                              && goalAt(Flat(player.actor.position)))
      ensures player.waitingForInput == (old(player.waitingForInput) || (old(player.actor.canPerformAction)
                                         && old(player.actor.task).Some? && !reachedGoal))
      ensures old(player.actor.canPerformAction) && old(player.actor.task).Some? ==>
                Performed(old(player.actor.task).value, occupied)
      ensures Board() == Levers.ToggledAll(old(Board()), PlayerFlips(old(player.actor.State())))
      ensures Views() == old(Views()) && StoneStates() == old(StoneStates())
      ensures TilesOf(StoneBodies()) == old(TilesOf(StoneBodies()))
    {
      assert player.actor !in GhostActors() && player.actor !in StoneActors();
      reachedGoal := StepPlayer(goalAt, occupied);
      BodiesStill();
    }

    /** The player's resolution, which keeps every task the player holds its own. */
    method StepPlayer(goalAt: Vec2 -> bool, occupied: Occupancy) returns (reachedGoal: bool)
      requires LeversClosed() && ActorHolds(player.actor)
      modifies player, player.actor, levers, switched
      ensures ActorHolds(player.actor)
      ensures player.actor.State() == old(player.actor.State()).(
                position := player.actor.position,
                actionQueue := if old(player.actor.canPerformAction) && old(player.actor.task).Some?
                               then old(player.actor.actionQueue) + [old(player.actor.task).value]
                               else old(player.actor.actionQueue))
      ensures player.actor.position ==
                if old(player.actor.canPerformAction) && old(player.actor.task).Some?
                   && old(player.actor.task).value.kind.MoveTask?
                then OnPlane(Movement.Destination(occupied, Flat(old(player.actor.position)),
                                                  old(player.actor.task).value.kind.direction))
                else old(player.actor.position)
      ensures reachedGoal == (old(player.actor.canPerformAction) && old(player.actor.task).Some?
                              && goalAt(Flat(player.actor.position)))
      ensures player.waitingForInput == (old(player.waitingForInput) || (old(player.actor.canPerformAction)
                                         && old(player.actor.task).Some? && !reachedGoal))
      ensures old(player.actor.canPerformAction) && old(player.actor.task).Some? ==>
                Performed(old(player.actor.task).value, occupied)
      ensures Board() == Levers.ToggledAll(old(Board()), PlayerFlips(old(player.actor.State())))
    {
      var q, task := player.actor.actionQueue, player.actor.task;
      ghost var flips := PlayerFlips(player.actor.State());
      if task.Some? {
        FootprintWithin(task.value, player.actor);
        AllHeldAppend(q, task.value, player.actor);
      }
      var _, reached := player.Resolve(occupied, goalAt);
      reachedGoal := reached;
      FlipsOnBoard(flips);
    }

    /** One ghost's step of the ghosts' loop. */
    method ResolveGhost(i: nat)
      requires i < |ghosts| && Valid()
      modifies ghosts[i], ghosts[i].actor, levers, switched
      ensures Valid()
      ensures ReplayStep(old(ViewOf(ghosts[i])), ViewOf(ghosts[i]), old(Occupied()))
      ensures old(ghosts[i].actor.canPerformAction && !ghosts[i].actor.IsPerformingTask()) && old(ghosts[i].currentActions) != [] ==>
                var t := old(ghosts[i].currentActions)[0];
                old(CanPerform(t, Occupied())) && !t.isExecuting ==> Performed(t, old(Occupied()))
      ensures Board() == Levers.ToggledAll(old(Board()), GhostFlips(old(ViewOf(ghosts[i]))))
      ensures forall j :: 0 <= j < |ghosts| && j != i ==> ViewOf(ghosts[j]) == old(ViewOf(ghosts[j]))
      ensures player.actor.State() == old(player.actor.State())
      ensures TilesOf(StoneBodies()) == old(TilesOf(StoneBodies())) && StoneStates() == old(StoneStates())
    {
      assert forall j :: 0 <= j < |ghosts| && j != i ==> ghosts[j].actor != ghosts[i].actor;
      assert ghosts[i].actor != player.actor && ghosts[i].actor !in StoneActors();
      ReplayGhost(ghosts[i], Occupied());
      OthersKept(i);
    }

    /** A step that changed only ghost `i`, which still holds its tasks, keeps the manager valid. */
    twostate lemma OthersKept(i: nat)
      requires old(Valid()) && i < |ghosts| && unchanged(this)
      requires GhostHolds(ghosts[i])
      requires forall j :: 0 <= j < |ghosts| && j != i ==> unchanged(ghosts[j], ghosts[j].actor)
      requires unchanged(player.actor) && unchanged(StoneActors())
      ensures Valid()
      ensures TilesOf(StoneBodies()) == old(TilesOf(StoneBodies())) && StoneStates() == old(StoneStates())
    {
      TilesKept(StoneBodies());
    }

    /** The replay step of one ghost, against the world `occupied`. */
    method ReplayGhost(g: Ghost, occupied: Occupancy)
      requires LeversClosed() && GhostHolds(g)
      modifies g, g.actor, levers, switched
      ensures GhostHolds(g)
      ensures Replayed(g, occupied)
      ensures old(g.actor.canPerformAction && !g.actor.IsPerformingTask()) && old(g.currentActions) != [] ==>
                var t := old(g.currentActions)[0];
                old(CanPerform(t, occupied)) && !t.isExecuting ==> Performed(t, occupied)
      ensures Board() == Levers.ToggledAll(old(Board()), GhostFlips(old(ViewOf(g))))
    {
      ghost var flips := GhostFlips(ViewOf(g));
      if g.currentActions != [] {
        FootprintWithin(g.currentActions[0], g.actor);
      }
      var _ := g.Resolve(occupied);
      FlipsOnBoard(flips);
    }

    /** A step that flipped the lever of `flips`, if any, and no other, is that run on the board. */
    twostate lemma FlipsOnBoard(flips: seq<Levers.Lever>)
      requires |flips| <= 1 && LeversClosed() && (flips != [] ==> flips[0] in levers)
      requires flips != [] ==> flips[0].Flipped()
      requires forall l :: l in levers && l !in flips ==> l.on == old(l.on)
      requires forall o :: o in switched + placed.Keys && !(flips != [] && o in flips[0].objects) ==>
                 o.active == old(o.active)
      ensures Board() == Levers.ToggledAll(old(Board()), flips)
    {
      if flips != [] {
        var l := flips[0];
        assert flips[..0] == [];
        assert Board().on == Levers.Toggled(old(Board()), l).on;
        assert Board().active == Levers.Toggled(old(Board()), l).active;
      } else {
        assert Board().on == old(Board()).on;
        assert Board().active == old(Board()).active;
      }
    }

    /**
     * The second loop of ResolvePhase: each stone in list order runs its
     * pending push once, against the world as the stones before it left it.
     * Stone `i` goes from `before[i]` to `after[i]` against the scenery and
     * the solid tiles `seen[i]`: exactly the actors, the active
     * lever-switched objects, the stones before `i` where their pushes put
     * them, and stone `i` and the later stones where they stood.
     */
    method ResolveStones() returns (ghost before: seq<ActorState>, ghost after: seq<ActorState>,
                                    ghost seen: seq<set<Vec2>>)
      requires Valid()
      modifies StoneActors()
      ensures Valid()
      ensures |before| == |stones| && |after| == |stones|
      ensures before == old(StoneStates()) && after == StoneStates()
      ensures PushedInOrder(before, after, scenery, old(TilesOf(Actors()) + ActiveTiles()), seen)
      ensures forall s :: s in stones ==> s.actor.task == None
      ensures player.actor.State() == old(player.actor.State())
      ensures TilesOf(Actors()) == old(TilesOf(Actors())) && ActiveTiles() == old(ActiveTiles())
      ensures Views() == old(Views()) && Board() == old(Board())
    {
      assert player.actor !in StoneActors();
      before := StoneStates();
      ghost var playerWas := player.actor.State();
      ghost var others := TilesOf(Actors()) + ActiveTiles();
      after, seen := [], [];
      for i := 0 to |stones|
        invariant Valid()
        invariant |before| == |stones| && |after| == i
        invariant forall j :: 0 <= j < |stones| ==> before[j] == old(stones[j].actor.State())
        invariant forall j :: i <= j < |stones| ==> stones[j].actor.State() == before[j]
        invariant forall j :: 0 <= j < i ==> stones[j].actor.State() == after[j]
        invariant forall j :: 0 <= j < i ==> stones[j].actor.task == None
        invariant PushedInOrder(before, after, scenery, others, seen)
        invariant player.actor.State() == playerWas
        invariant TilesOf(Actors()) == old(TilesOf(Actors())) && ActiveTiles() == old(ActiveTiles())
        invariant TilesOf(Actors()) + ActiveTiles() == others
      {
        after, seen := PushNext(i, before, after, seen, playerWas, others);
      }
    }

    /** One more step of the stone loop, as a step of the pushes in order. */
    method PushNext(i: nat, ghost before: seq<ActorState>, ghost after: seq<ActorState>,
                    ghost seen: seq<set<Vec2>>, ghost playerWas: ActorState, ghost others: set<Vec2>)
      returns (ghost after': seq<ActorState>, ghost seen': seq<set<Vec2>>)
      requires Valid() && i < |stones| == |before| && |after| == i
      requires forall j :: i <= j < |stones| ==> stones[j].actor.State() == before[j]
      requires forall j :: 0 <= j < i ==> stones[j].actor.State() == after[j]
      requires forall j :: 0 <= j < i ==> stones[j].actor.task == None
      requires PushedInOrder(before, after, scenery, others, seen)
      requires player.actor.State() == playerWas
      requires TilesOf(Actors()) + ActiveTiles() == others
      modifies stones[i].actor
      ensures Valid() && |after'| == i + 1
      ensures forall j :: i + 1 <= j < |stones| ==> stones[j].actor.State() == before[j]
      ensures forall j :: 0 <= j < i + 1 ==> stones[j].actor.State() == after'[j]
      ensures forall j :: 0 <= j < i + 1 ==> stones[j].actor.task == None
      ensures PushedInOrder(before, after', scenery, others, seen')
      ensures player.actor.State() == playerWas
      ensures TilesOf(Actors()) == old(TilesOf(Actors())) && ActiveTiles() == old(ActiveTiles())
    {
      ghost var v, tiles := StoneNext(i, before, after, playerWas, others);
      PushedExtend(before, after, scenery, others, seen, v, tiles);
      after', seen' := after + [v], seen + [tiles];
    }

    /**
     * One more step of the stone loop: stone `i` goes from `before[i]` to
     * `v` against the world `tiles`, which holds the ones before it where
     * their pushes put them.
     */
    method StoneNext(i: nat, ghost before: seq<ActorState>, ghost after: seq<ActorState>,
                     ghost playerWas: ActorState, ghost others: set<Vec2>)
      returns (ghost v: ActorState, ghost tiles: set<Vec2>)
      requires Valid() && i < |stones| == |before| && |after| == i
      requires forall j :: i <= j < |stones| ==> stones[j].actor.State() == before[j]
      requires forall j :: 0 <= j < i ==> stones[j].actor.State() == after[j]
      requires forall j :: 0 <= j < i ==> stones[j].actor.task == None
      requires player.actor.State() == playerWas
      requires TilesOf(Actors()) + ActiveTiles() == others
      modifies stones[i].actor
      ensures Valid()
      ensures forall j :: i + 1 <= j < |stones| ==> stones[j].actor.State() == before[j]
      ensures forall j :: 0 <= j < i + 1 ==> stones[j].actor.State() == (after + [v])[j]
      ensures forall j :: 0 <= j < i + 1 ==> stones[j].actor.task == None
      ensures PushStep(before[i], v, OccupancyOf(scenery, tiles))
      ensures tiles == StateTiles(after) + StateTiles(before[i..]) + others
      ensures player.actor.State() == playerWas
      ensures TilesOf(Actors()) == old(TilesOf(Actors())) && ActiveTiles() == old(ActiveTiles())
    {
      tiles := StoneWorld(i, before, after, others);
      ghost var found := ResolveStone(i);
      v := stones[i].actor.State();
    }

    /**
     * The world stone `i` is pushed in, stated over the loop's states: the
     * solid tiles are the stones where the loop has them and the tiles
     * `others` of the actors and the active lever-switched objects.
     */
    lemma StoneWorld(i: nat, before: seq<ActorState>, after: seq<ActorState>, others: set<Vec2>)
      returns (tiles: set<Vec2>)
      requires i < |stones| == |before| && |after| == i
      requires forall j :: i <= j < |stones| ==> stones[j].actor.State() == before[j]
      requires forall j :: 0 <= j < i ==> stones[j].actor.State() == after[j]
      requires TilesOf(Actors()) + ActiveTiles() == others
      ensures tiles == SolidTiles()
      ensures tiles == StateTiles(after) + StateTiles(before[i..]) + others
    {
      StoneSolidWithin(i, before, after);
      StoneBodiesSolid(i, before, after);
      tiles := SolidTiles();
    }

    /** In the middle of the stones' loop, every stone where the loop has it is solid. */
    lemma StoneBodiesSolid(i: nat, before: seq<ActorState>, after: seq<ActorState>)
      requires i <= |stones| == |before| && |after| == i
      requires forall j :: i <= j < |stones| ==> stones[j].actor.State() == before[j]
      requires forall j :: 0 <= j < i ==> stones[j].actor.State() == after[j]
      ensures StateTiles(after) + StateTiles(before[i..]) <= TilesOf(StoneBodies())
    {
      forall t | t in StateTiles(after) + StateTiles(before[i..])
        ensures t in TilesOf(StoneBodies())
      {
        var k: nat;
        if t in StateTiles(after) {
          var s :| s in after && t == Flat(s.position);
          k :| k < |after| && after[k] == s;
        } else {
          var s :| s in before[i..] && t == Flat(s.position);
          var m: nat :| m < |before[i..]| && before[i..][m] == s;
          k := i + m;
          assert before[k] == s;
        }
        TilesHave(StoneBodies(), k);
      }
    }

    /**
     * In the middle of the stones' loop, with the stones before `i` as
     * `after` and the others as `before`, every stone stands where the loop
     * has it.
     */
    lemma StoneSolidWithin(i: nat, before: seq<ActorState>, after: seq<ActorState>)
      requires i <= |stones| == |before| && |after| == i
      requires forall j :: i <= j < |stones| ==> stones[j].actor.State() == before[j]
      requires forall j :: 0 <= j < i ==> stones[j].actor.State() == after[j]
      ensures TilesOf(StoneBodies()) <= StateTiles(after) + StateTiles(before[i..])
    {
      var bodies := StoneBodies();
      forall t | t in TilesOf(bodies)
        ensures t in StateTiles(after) + StateTiles(before[i..])
      {
        var k := TileOwner(bodies, t);
        if k < i {
          assert after[k] in after;
        } else {
          assert before[i..][k - i] == before[k];
        }
      }
    }

    /** One stone's step of the stone loop. */
    method ResolveStone(i: nat) returns (ghost tiles: set<Vec2>)
      requires i < |stones| && Valid()
      modifies stones[i].actor
      ensures Valid()
      ensures stones[i].actor.task == None
      ensures tiles == old(SolidTiles())
      ensures PushStep(old(stones[i].actor.State()), stones[i].actor.State(), OccupancyOf(scenery, tiles))
      ensures forall j :: 0 <= j < |stones| && j != i ==> stones[j].actor.State() == old(stones[j].actor.State())
      ensures player.actor.State() == old(player.actor.State())
      ensures TilesOf(Actors()) == old(TilesOf(Actors()))
    {
      tiles := SolidTiles();
      assert forall j :: 0 <= j < |stones| && j != i ==> stones[j].actor != stones[i].actor;
      RunStone(i, Occupied());
      TilesKept(Actors());
    }

    /** The pending push of one stone, against the world `occupied`. */
    method RunStone(i: nat, occupied: Occupancy)
      requires i < |stones| && Valid()
      modifies stones[i].actor
      ensures Valid()
      ensures stones[i].actor.task == None
      ensures PushStep(old(stones[i].actor.State()), stones[i].actor.State(), occupied)
    {
      var s := stones[i];
      assert s.actor != player.actor && s.actor !in GhostActors();
      s.Resolve(occupied);
    }

    /**
     * The first half of PhaseManager.ResetRound: a ghost is instantiated on
     * the player's current tile, with the player's starting position and a
     * copy of the player's record re-pointed to the ghost.
     */
    method SpawnGhost() returns (g: Ghost)
      ensures fresh(g) && fresh(g.actor)
      ensures g.actor.kind == GhostKind && g.actor.isCharacter
      ensures g.actor.position == player.actor.position
      ensures g.actor.initialPosition == player.actor.initialPosition
      ensures g.actor.canPerformAction && g.actor.task == None && g.currentActions == []
      ensures RepointedTo(g.actor.actionQueue, player.actor.actionQueue, g.actor)
    {
      var a := new Actor(GhostKind, true, player.actor.position, false);
      g := new Ghost(a);
      g.InitializeActions(player.actor.actionQueue);
      a.position := player.actor.position;
      a.initialPosition := player.actor.initialPosition;
      RepointTasks(g);
      a.Start();
    }

    /** The re-pointing loop of ResetRound: each recorded task now acts for the ghost. */
    method RepointTasks(g: Ghost)
      modifies g.actor`actionQueue
      ensures RepointedTo(g.actor.actionQueue, old(g.actor.actionQueue), g.actor)
    {
      var i := 0;
      while i < |g.actor.actionQueue|
        invariant i <= |g.actor.actionQueue| == |old(g.actor.actionQueue)|
        invariant forall k :: 0 <= k < i ==> g.actor.actionQueue[k] == old(g.actor.actionQueue)[k].(actor := g.actor)
        invariant forall k :: i <= k < |g.actor.actionQueue| ==> g.actor.actionQueue[k] == old(g.actor.actionQueue)[k]
      {
        g.actor.actionQueue := g.actor.actionQueue[i := g.actor.actionQueue[i].(actor := g.actor)];
        i := i + 1;
      }
    }

    /**
     * PhaseManager.ResetRound: the new ghost is appended to the actor list,
     * then every actor is reset in list order (the player's record emptied,
     * every ghost's script refilled from its record) and then every stone.
     */
    method ResetRound()
      requires Valid()
      modifies this`ghosts, player.actor, ghosts, GhostActors(), StoneActors()
      ensures Valid()
      ensures |ghosts| == |old(ghosts)| + 1 && ghosts[..|old(ghosts)|] == old(ghosts)
      ensures fresh(ghosts[|old(ghosts)|]) && fresh(ghosts[|old(ghosts)|].actor)
      ensures player.actor.State() == Rewound(old(player.actor.State()), player.actor.isCharacter).(actionQueue := [])
      ensures var g := ghosts[|old(ghosts)|];
              && RepointedTo(g.actor.actionQueue, old(player.actor.actionQueue), g.actor)
              && g.actor.position == g.actor.initialPosition == old(player.actor.initialPosition)
      ensures forall i :: 0 <= i < |ghosts| ==>
                && ghosts[i].currentActions == ghosts[i].actor.actionQueue
                && ghosts[i].actor.canPerformAction && !ghosts[i].actor.IsResetting()
                && ghosts[i].actor.position == ghosts[i].actor.initialPosition
      ensures forall i :: 0 <= i < |old(ghosts)| ==>
                ghosts[i].actor.State() == Rewound(old(ghosts[i].actor.State()), ghosts[i].actor.isCharacter)
      ensures forall s :: s in stones ==>
                s.actor.State() == if s.resetPosition then Rewound(old(s.actor.State()), s.actor.isCharacter)
                                   else old(s.actor.State())
    {
      var g := EnlistGhost();
      ResetActors();
      ResetStones();
    }

    /** The ghost of the round just played joins the end of the list. */
    method EnlistGhost() returns (g: Ghost)
      requires Valid()
      modifies this`ghosts
      ensures Valid() && ghosts == old(ghosts) + [g]
      ensures fresh(g) && fresh(g.actor)
      ensures RepointedTo(g.actor.actionQueue, player.actor.actionQueue, g.actor)
      ensures g.actor.initialPosition == player.actor.initialPosition
    {
      g := SpawnGhost();
      AllHeldRepointed(g.actor.actionQueue, player.actor.actionQueue, player.actor, g.actor);
      AdmitGhost(g);
    }

    /** The spawned ghost `g` joins the end of the actor list. */
    method AdmitGhost(g: Ghost)
      requires Valid()
      requires g.actor.kind == GhostKind && g.actor.task == None && g.currentActions == []
      requires AllHeld(g.actor.actionQueue, g.actor)
      requires g.actor !in GhostActors()
      modifies this`ghosts
      ensures ghosts == old(ghosts) + [g]
      ensures Valid()
    {
      ghosts := ghosts + [g];
    }

    /** The actor loop of ResetRound: the player, then each ghost in spawn order. */
    method ResetActors()
      requires Valid()
      modifies player.actor, ghosts, GhostActors()
      ensures Valid()
      ensures player.actor.State() == Rewound(old(player.actor.State()), player.actor.isCharacter).(actionQueue := [])
      ensures forall i :: 0 <= i < |ghosts| ==>
                && ghosts[i].actor.State() == Rewound(old(ghosts[i].actor.State()), ghosts[i].actor.isCharacter)
                && ghosts[i].currentActions == ghosts[i].actor.actionQueue
    {
      ResetPlayer();
      for i := 0 to |ghosts|
        invariant Valid()
        invariant player.actor.State() == Rewound(old(player.actor.State()), player.actor.isCharacter).(actionQueue := [])
        invariant forall j :: 0 <= j < i ==>
                    && ghosts[j].actor.State() == Rewound(old(ghosts[j].actor.State()), ghosts[j].actor.isCharacter)
                    && ghosts[j].currentActions == ghosts[j].actor.actionQueue
        invariant forall j :: i <= j < |ghosts| ==> ghosts[j].actor.State() == old(ghosts[j].actor.State())
      {
        ResetGhost(i);
      }
    }

    /** The player's step of the reset loop. */
    method ResetPlayer()
      requires Valid()
      modifies player.actor
      ensures Valid()
      ensures player.actor.State() == Rewound(old(player.actor.State()), player.actor.isCharacter).(actionQueue := [])
      ensures forall j :: 0 <= j < |ghosts| ==> ghosts[j].actor.State() == old(ghosts[j].actor.State())
    {
      assert player.actor !in GhostActors() && player.actor !in StoneActors();
      player.Reset();
    }

    /** One ghost's step of the reset loop. */
    method ResetGhost(i: nat)
      requires i < |ghosts| && Valid()
      modifies ghosts[i], ghosts[i].actor
      ensures Valid()
      ensures ghosts[i].actor.State() == Rewound(old(ghosts[i].actor.State()), ghosts[i].actor.isCharacter)
      ensures ghosts[i].currentActions == ghosts[i].actor.actionQueue
      ensures forall j :: 0 <= j < |ghosts| && j != i ==> ghosts[j].actor.State() == old(ghosts[j].actor.State())
      ensures player.actor.State() == old(player.actor.State())
    {
      var g := ghosts[i];
      assert GhostHolds(g);
      assert forall j :: 0 <= j < |ghosts| && j != i ==> ghosts[j].actor != g.actor;
      assert g.actor != player.actor && g.actor !in StoneActors();
      g.Reset();
      assert GhostHolds(g);
    }

    /** The stone loop of ResetRound. */
    method ResetStones()
      requires Valid()
      modifies StoneActors()
      ensures Valid()
      ensures forall s :: s in stones ==>
                s.actor.State() == if s.resetPosition then Rewound(old(s.actor.State()), s.actor.isCharacter)
                                   else old(s.actor.State())
      ensures player.actor.State() == old(player.actor.State())
      ensures forall j :: 0 <= j < |ghosts| ==>
                ghosts[j].currentActions == old(ghosts[j].currentActions)
                && ghosts[j].actor.State() == old(ghosts[j].actor.State())
    {
      assert player.actor !in StoneActors();
      assert forall j :: 0 <= j < |ghosts| ==> ghosts[j].actor !in StoneActors();
      for i := 0 to |stones|
        invariant Valid()
        invariant forall j :: 0 <= j < i ==>
                    stones[j].actor.State() == if stones[j].resetPosition
                                               then Rewound(old(stones[j].actor.State()), stones[j].actor.isCharacter)
                                               else old(stones[j].actor.State())
        invariant forall j :: i <= j < |stones| ==> stones[j].actor.State() == old(stones[j].actor.State())
      {
        ResetStone(i);
      }
    }

    /** One stone's step of the stone reset loop. */
    method ResetStone(i: nat)
      requires i < |stones| && Valid()
      modifies stones[i].actor
      ensures Valid()
      ensures stones[i].actor.State() == if stones[i].resetPosition
                                         then Rewound(old(stones[i].actor.State()), stones[i].actor.isCharacter)
                                         else old(stones[i].actor.State())
      ensures forall j :: 0 <= j < |stones| && j != i ==> stones[j].actor.State() == old(stones[j].actor.State())
    {
      var s := stones[i];
      assert forall j :: 0 <= j < |stones| && j != i ==> stones[j].actor != s.actor;
      assert s.actor != player.actor && s.actor !in GhostActors();
      s.Reset();
    }
  }
}
