/**
 * Levers (Objects/Lever.cs): a switch that shows its state with a sprite and
 * toggles whether each of a list of scene objects is active.
 */
module Levers {

  /** A sprite asset, as assigned to the lever by the level designer. */
  datatype Sprite = Sprite(id: nat)

  /** A scene object whose only state of interest here is activeSelf. */
  class GameObject {
    var active: bool

    constructor (active: bool)
      ensures this.active == active
    {
      this.active := active;
    }
  }

  /** Whether `o` is listed an odd number of times in `objects`. */
  predicate ListedOddly(objects: seq<GameObject>, o: GameObject) {
    multiset(objects)[o] % 2 == 1
  }

  class Lever {
    var on: bool
    const offSprite: Sprite
    const onSprite: Sprite
    /** The controlled objects; the list itself never changes. */
    const objects: seq<GameObject>
    /** spriteRenderer.sprite */
    var sprite: Sprite

    constructor (on: bool, offSprite: Sprite, onSprite: Sprite, objects: seq<GameObject>, sprite: Sprite)
      ensures this.on == on && this.offSprite == offSprite && this.onSprite == onSprite
      ensures this.objects == objects && this.sprite == sprite
    {
      this.on := on;
      this.offSprite := offSprite;
      this.onSprite := onSprite;
      this.objects := objects;
      this.sprite := sprite;
    }

    /** The sprite that shows state `b`. */
    function SpriteFor(b: bool): Sprite
      reads this
    {
      if b then onSprite else offSprite
    }

    /** The sprite agrees with the on/off state. */
    predicate ShowsState()
      reads this
    {
      sprite == SpriteFor(on)
    }

    /** Lever.UpdateSprite: show the current state. */
    method UpdateSprite()
      modifies this`sprite
      ensures ShowsState()
    {
      if on {
        sprite := onSprite;
      } else {
        sprite := offSprite;
      }
    }

    /** Lever.Start: the sprite is brought in line with the serialized state. */
    method Start()
      modifies this`sprite
      ensures ShowsState()
    {
      UpdateSprite();
    }

    /**
     * The effect of one flip: the state is negated, the sprite shows the new
     * state, and each listed object's activity is toggled once per listing
     * (an object listed twice ends where it was).
     */
    twostate predicate Flipped()
      reads this, objects
    {
      && on == !old(on)
      && ShowsState()
      && forall o :: o in objects ==> o.active == (old(o.active) != ListedOddly(objects, o))
    }

    /** Lever.Flip. */
    method Flip()
      modifies this`on, this`sprite, objects
      ensures Flipped()
    {
      on := !on;
      UpdateSprite();
      for i := 0 to |objects|
        invariant on == !old(on) && ShowsState()
        invariant forall o :: o in objects ==>
                    o.active == (old(o.active) != (multiset(objects[..i])[o] % 2 == 1))
      {
        assert objects[..i + 1] == objects[..i] + [objects[i]];
        objects[i].active := !objects[i].active;
      }
      assert objects[..|objects|] == objects;
    }
  }

  /** Flipping a lever twice restores its state and every listed object's activity. */
  method FlipTwice(lever: Lever)
    modifies lever`on, lever`sprite, lever.objects
    ensures lever.on == old(lever.on) && lever.ShowsState()
    ensures forall o :: o in lever.objects ==> o.active == old(o.active)
  {
    lever.Flip();
    label once:
    lever.Flip();
    assert forall o :: o in lever.objects ==> old@once(o.active) == (old(o.active) != ListedOddly(lever.objects, o));
  }
  /**
   * The switch state of a level: whether each lever is on and whether each
   * switched object is active.
   */
  datatype Switchboard = Switchboard(on: map<Lever, bool>, active: map<GameObject, bool>)

  /** The switchboard of the levers `ls` and the objects `os` as they stand. */
  ghost function BoardOf(ls: set<Lever>, os: set<GameObject>): Switchboard
    reads ls, os
  {
    Switchboard(map l | l in ls :: l.on, map o | o in os :: o.active)
  }

  /**
   * The switchboard after one flip of `l`: the lever is negated and each
   * object it lists toggles once per listing; everything else stays.
   */
  function Toggled(b: Switchboard, l: Lever): (r: Switchboard)
    ensures r.on.Keys == b.on.Keys && r.active.Keys == b.active.Keys
    ensures l in b.on ==> r.on[l] == !b.on[l]
    ensures forall m :: m in b.on && m != l ==> r.on[m] == b.on[m]
    ensures forall o :: o in b.active ==> r.active[o] == (b.active[o] != (o in l.objects && ListedOddly(l.objects, o)))
  {
    Switchboard(if l in b.on then b.on[l := !b.on[l]] else b.on,
                map o | o in b.active :: if o in l.objects then b.active[o] != ListedOddly(l.objects, o) else b.active[o])
  }

  /** The switchboard after flipping the levers `flips`, in order. */
  function ToggledAll(b: Switchboard, flips: seq<Lever>): Switchboard
    decreases |flips|
  {
    if flips == [] then b else Toggled(ToggledAll(b, flips[..|flips| - 1]), flips[|flips| - 1])
  }

  /** Flipping one run of levers and then another is flipping their concatenation. */
  lemma {:induction false} ToggledAllAppend(b: Switchboard, xs: seq<Lever>, ys: seq<Lever>)
    ensures ToggledAll(ToggledAll(b, xs), ys) == ToggledAll(b, xs + ys)
    decreases |ys|
  {
    if ys != [] {
      var zs := xs + ys;
      assert zs[..|zs| - 1] == xs + ys[..|ys| - 1];
      ToggledAllAppend(b, xs, ys[..|ys| - 1]);
    } else {
      assert xs + ys == xs;
    }
  }

  /** Toggling the same lever twice restores the switchboard. */
  lemma ToggledTwice(b: Switchboard, l: Lever)
    ensures Toggled(Toggled(b, l), l) == b
  {
    var r := Toggled(Toggled(b, l), l);
    assert r.on == b.on;
    assert r.active == b.active;
  }
}
