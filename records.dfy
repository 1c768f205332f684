/**
 * The two kinds of record the system keeps: the `World` (always the first
 * record) and the `Item`s. Both are objects whose properties their
 * methods update in place; each class also gives its state as a value of
 * the `WorldRules` or `ItemRules` module, and its methods are proved to
 * perform exactly the updates those rules describe.
 */
module Records {
  import opened Wrappers
  import opened Reals
  import opened Vectors
  import opened Utils
  import opened Editions
  import opened Drawing
  import opened ItemRules
  import opened WorldRules

  /** A primitive JavaScript value. */
  datatype Prim = Num(n: real) | Str(s: string) | Bool(b: bool)

  /**
   * What `record[attr]` yields: undefined, a primitive, or an object (a
   * vector, an array, a function, a DOM element or another record).
   */
  datatype AttrValue = Undefined | Primitive(p: Prim) | ObjectValue

  class World {
    const edition: Edition
    var width: real
    var height: real
    var location: Vec
    var angle: real
    var gravity: Vec
    var wind: Vec
    var thermal: Vec
    var paint: Paint
    var visibility: string
    var pauseStep: bool
    var camera: Vec
    /** `_pool`: destroyed items waiting to be reused. */
    var pool: seq<Item>
    /** The items whose elements are children of the world's element. */
    var shown: set<Item>

    function State(): WorldState
      reads this`width, this`height, this`location, this`angle, this`gravity, this`wind, this`thermal, this`paint, this`visibility, this`pauseStep, this`camera
    {
      WorldState(width, height, location, angle, gravity, wind, thermal, paint, visibility, pauseStep, camera)
    }

    /** The world as an item's step sees it. */
    function Forces(): (v: WorldView)
      reads this`width, this`height, this`gravity, this`wind, this`thermal
      ensures v == View(State())
    {
      ItemRules.WorldView(width, height, gravity, wind, thermal)
    }

    /** `new World(el, options)` once the element has passed its check. */
    constructor(e: Edition, o: WorldOptions, vp: Viewport)
      ensures edition == e && State() == InitWorld(e, o, vp) && pool == [] && shown == {}
    {
      var w := InitWorld(e, o, vp);
      edition := e;
      width, height, location, angle := w.width, w.height, w.location, w.angle;
      gravity, wind, thermal := w.gravity, w.wind, w.thermal;
      paint, visibility, pauseStep, camera := w.paint, w.visibility, w.pauseStep, w.camera;
      pool := [];
      shown := {};
    }

    /**
     * `new World(el, options)`: throws when `el` is missing, falsy or not
     * an object; otherwise a world with the edition's initial properties
     * and an empty pool.
     */
    static method Create(e: Edition, el: ElementArg, o: WorldOptions, vp: Viewport) returns (r: Result<World>)
      ensures r.Ok? <==> el == DomObject
      ensures r.Err? ==> r.error == "World: A valid DOM object is required for a new World."
      ensures r.Ok? ==> fresh(r.value) && r.value.edition == e &&
                        r.value.State() == InitWorld(e, o, vp) && r.value.pool == [] && r.value.shown == {}
    {
      if el != DomObject {
        return Err("World: A valid DOM object is required for a new World.");
      }
      var w := new World(e, o, vp);
      return Ok(w);
    }

    /** `World.prototype.step`: gravity follows the mouse in the split sources; nothing else changes. */
    method Step(mouse: Vec)
      modifies this`gravity
      ensures State() == StepWorld(edition, old(State()), mouse)
    {
      if edition == Source {
        var dx := mouse.x - width / 2.0;
        var dy := mouse.y - height / 2.0;
        gravity := Vec(dx * 0.01, dy * 0.05);
      }
    }

    /** `draw()`: the world's frame. */
    method Draw() returns (f: Frame)
      ensures f == DrawWorld(edition, State())
      ensures f.x + width / 2.0 == location.x && f.y + height / 2.0 == location.y
    {
      f := Drawing.Draw(edition, location, width, height, paint, visibility, None, Some(angle));
    }

    /**
     * `world[attr]` in the released edition: its own properties, its
     * methods and the prototype's `world`, which is `{}`.
     */
    function Attribute(attr: string): (v: AttrValue)
      reads this
      ensures attr == "pauseStep" ==> v == Primitive(Bool(pauseStep))
      ensures attr == "world" ==> v == ObjectValue
      ensures attr == "name" || attr == "id" ==> v == Undefined
    {
      if attr == "width" then Primitive(Num(width))
      else if attr == "height" then Primitive(Num(height))
      else if attr == "angle" then Primitive(Num(angle))
      else if attr == "visibility" then Primitive(Str(visibility))
      else if attr == "pauseStep" then Primitive(Bool(pauseStep))
      else if attr in {"el", "location", "gravity", "wind", "thermal", "color", "cacheVector",
                       "camera", "_pool", "world", "step", "draw", "constructor"} then ObjectValue
      else Undefined
    }
  }

  class Item {
    /** The world the item lives in: `options.world` at construction. */
    const world: World
    /** `name + getNewId()`, fixed at construction. */
    const id: string
    var name: string
    /** An `index` option the released `init` copied onto the item. */
    var index: Option<real>
    /** Whether `add` attached its options map when it revived the item from the pool. */
    var hasOptions: bool

    var location: Vec
    var velocity: Vec
    var acceleration: Vec
    var initLocation: Vec
    var width: real
    var height: real
    var mass: real
    var color: seq<real>
    var visibility: string
    var maxSpeed: real
    var bounciness: real
    var borderRadius: real
    var angle: real
    var checkWorldEdges: bool
    var controlCamera: bool

    function State(): ItemState
      reads this`location, this`velocity, this`acceleration, this`initLocation, this`width, this`height, this`mass, this`color,
            this`visibility, this`maxSpeed, this`bounciness, this`borderRadius, this`angle, this`checkWorldEdges, this`controlCamera
    {
      ItemState(location, velocity, acceleration, initLocation, width, height, mass, color, visibility,
                maxSpeed, bounciness, borderRadius, angle, checkWorldEdges, controlCamera)
    }

    /** The identifier of the item named `name` built with serial number `serial`. */
    static function IdFor(name: string, serial: nat): string {
      name + Decimal(serial)
    }

    /**
     * `new Item(options)` once the options have passed their check; the
     * new element is appended to the world's element.
     */
    constructor(o: ItemOptions, w: World, serial: nat)
      modifies w`shown
      ensures world == w && name == OrString(o.name, "Item") && id == IdFor(name, serial)
      ensures index.None? && !hasOptions && State() == Unset
      ensures w.shown == old(w.shown) + {this}
    {
      world := w;
      name := OrString(o.name, "Item");
      id := IdFor(OrString(o.name, "Item"), serial);
      index := None;
      hasOptions := false;
      var u := Unset;
      location, velocity, acceleration, initLocation := u.location, u.velocity, u.acceleration, u.initLocation;
      width, height, mass, color, visibility := u.width, u.height, u.mass, u.color, u.visibility;
      maxSpeed, bounciness, borderRadius, angle := u.maxSpeed, u.bounciness, u.borderRadius, u.angle;
      checkWorldEdges, controlCamera := u.checkWorldEdges, u.controlCamera;
      new;
      w.shown := w.shown + {this};
    }

    /**
     * `new Item(options)`: throws when the options map or its `world` is
     * missing; otherwise an item of that world named by `options.name`
     * (or 'Item') whose id appends the serial number, with no index and
     * no options map yet, and whose element is shown in the world's.
     */
    static method Create(opt: Option<ItemOptions>, w: Option<World>, serial: nat) returns (r: Result<Item>)
      modifies if w.Some? then {w.value} else {}
      ensures r.Ok? <==> opt.Some? && w.Some?
      ensures r.Err? ==> r.error == "Item: A valid DOM object is required for a new Item." &&
                         (w.Some? ==> unchanged(w.value))
      ensures r.Ok? ==> fresh(r.value) && r.value.world == w.value &&
                        r.value.name == OrString(opt.value.name, "Item") &&
                        r.value.id == IdFor(r.value.name, serial) && r.value.State() == Unset &&
                        r.value.index.None? && !r.value.hasOptions &&
                        w.value.shown == old(w.value.shown) + {r.value} &&
                        w.value.State() == old(w.value.State()) && w.value.pool == old(w.value.pool)
    {
      if opt.None? || w.None? {
        return Err("Item: A valid DOM object is required for a new Item.");
      }
      var it := new Item(opt.value, w.value, serial);
      return Ok(it);
    }

    /**
     * `init(options)`: the properties of `InitState`; the released edition
     * first copies the options onto the item, which of the keys modelled
     * here changes only the name and the index.
     */
    method Init(o: ItemOptions)
      modifies this
      ensures State() == InitState(world.edition, o, world.width, world.height, old(State()))
      ensures name == (if world.edition == Release && o.name.Some? then o.name.value else old(name))
      ensures index == (if world.edition == Release && o.index.Some? then o.index else old(index))
      ensures hasOptions == old(hasOptions)
    {
      var t := InitState(world.edition, o, world.width, world.height, State());
      if world.edition == Release {
        if o.name.Some? { name := o.name.value; }
        if o.index.Some? { index := o.index; }
      }
      SetState(t);
    }

    /** Writes every property `ItemState` describes; name, id and options stay. */
    method SetState(t: ItemState)
      modifies this
      ensures State() == t
      ensures name == old(name) && index == old(index) && hasOptions == old(hasOptions)
    {
      SetMotion(t.location, t.velocity, t.acceleration, t.initLocation, t.angle);
      SetBody(t.width, t.height, t.mass, t.maxSpeed, t.bounciness, t.borderRadius);
      SetLooks(t.color, t.visibility, t.checkWorldEdges, t.controlCamera);
    }

    method SetMotion(l: Vec, v: Vec, a: Vec, i: Vec, r: real)
      modifies this`location, this`velocity, this`acceleration, this`initLocation, this`angle
      ensures location == l && velocity == v && acceleration == a && initLocation == i && angle == r
    {
      location, velocity, acceleration, initLocation, angle := l, v, a, i, r;
    }

    method SetBody(w: real, h: real, m: real, s: real, b: real, r: real)
      modifies this`width, this`height, this`mass, this`maxSpeed, this`bounciness, this`borderRadius
      ensures width == w && height == h && mass == m && maxSpeed == s && bounciness == b && borderRadius == r
    {
      width, height, mass, maxSpeed, bounciness, borderRadius := w, h, m, s, b, r;
    }

    method SetLooks(c: seq<real>, v: string, edges: bool, camera: bool)
      modifies this`color, this`visibility, this`checkWorldEdges, this`controlCamera
      ensures color == c && visibility == v && checkWorldEdges == edges && controlCamera == camera
    {
      color, visibility, checkWorldEdges, controlCamera := c, v, edges, camera;
    }

    /** `applyForce(force)`: the acceleration grows by the force divided by the mass. */
    method ApplyForce(force: Vec)
      requires mass != 0.0
      modifies this`acceleration
      ensures acceleration == ItemRules.ApplyForce(old(acceleration), force, mass)
    {
      var cache := Div(force, mass);
      acceleration := Add(acceleration, cache);
    }

    /** `_checkWorldEdges()`: clamps and reflects each axis against the world's bounds. */
    method CheckWorldEdges(factor: real)
      modifies this`location, this`velocity
      ensures (location, velocity) ==
              ItemRules.CheckWorldEdges(old(location), old(velocity), width, height, world.Forces(), factor)
    {
      if location.x + width / 2.0 > world.width {
        location := location.(x := world.width - width / 2.0);
        velocity := velocity.(x := Mul(velocity.x, -1.0 * factor));
      } else if location.x < width / 2.0 {
        location := location.(x := width / 2.0);
        velocity := velocity.(x := Mul(velocity.x, -1.0 * factor));
      }
      if location.y + height / 2.0 > world.height {
        location := location.(y := world.height - height / 2.0);
        velocity := velocity.(y := Mul(velocity.y, -1.0 * factor));
      } else if location.y < height / 2.0 {
        location := location.(y := height / 2.0);
        velocity := velocity.(y := Mul(velocity.y, -1.0 * factor));
      }
    }

    /** `_checkCameraEdges()`: the world's camera takes the negated velocity and the world moves by it. */
    method CheckCameraEdges()
      modifies world`camera, world`location
      ensures world.camera == Mult(velocity, -1.0)
      ensures world.location == Add(old(world.location), Mult(velocity, -1.0))
    {
      world.camera := velocity;
      world.camera := Mult(world.camera, -1.0);
      world.location := Add(world.location, world.camera);
    }

    /**
     * `step()`, in the source's order. The new state is `ItemRules.Step`
     * of the old one; an item controlling the camera also moves its world
     * against its velocity; name, id and the world's other properties stay.
     */
    method Step(sqrt: real -> real)
      requires Ready(world.edition, State())
      modifies this`location, this`velocity, this`acceleration, this`angle, world`location, world`camera
      ensures State() == ItemRules.Step(world.edition, old(State()), old(world.Forces()), sqrt)
      ensures var p := CameraPush(world.edition, old(State()), old(world.Forces()), sqrt);
        (p.Some? ==> world.camera == Mult(p.value, -1.0) &&
                     world.location == Add(old(world.location), Mult(p.value, -1.0))) &&
        (p.None? ==> world.camera == old(world.camera) && world.location == old(world.location))
    {
      var e := world.edition;
      if UsesForces(e) {
        StepWithForces(sqrt);
      } else if e == Tutorial7 {
        velocity := Add(velocity, world.gravity);
        location := Add(location, velocity);
      } else if e == Tutorial5 {
        location := location.(y := location.y + 1.0);
      }
    }

    /** The three `applyForce` calls of `step`: wind, thermal, gravity. */
    method Accelerate()
      requires mass != 0.0
      modifies this`acceleration
      ensures acceleration == Accelerated(old(State()), world.Forces())
    {
      ApplyForce(world.wind);
      ApplyForce(world.thermal);
      ApplyForce(world.gravity);
    }

    /** The forces, then the velocity update and, where the edition limits speed, `limit(maxSpeed)`. */
    method Drive(sqrt: real -> real)
      requires mass != 0.0
      modifies this`acceleration, this`velocity
      ensures acceleration == Accelerated(old(State()), world.Forces())
      ensures velocity == Driven(world.edition, old(State()), world.Forces(), sqrt)
    {
      Accelerate();
      velocity := Add(velocity, acceleration);
      if LimitsSpeed(world.edition) {
        velocity := Limit(velocity, maxSpeed, 0.0, sqrt);
      }
    }

    /** `step` in the editions with forces. */
    method StepWithForces(sqrt: real -> real)
      requires UsesForces(world.edition) && mass != 0.0
      modifies this`location, this`velocity, this`acceleration, this`angle, world`location, world`camera
      ensures State() == ItemRules.Step(world.edition, old(State()), old(world.Forces()), sqrt)
      ensures var p := CameraPush(world.edition, old(State()), old(world.Forces()), sqrt);
        (p.Some? ==> world.camera == Mult(p.value, -1.0) &&
                     world.location == Add(old(world.location), Mult(p.value, -1.0))) &&
        (p.None? ==> world.camera == old(world.camera) && world.location == old(world.location))
    {
      var e := world.edition;
      ghost var s := State();
      ghost var w := world.Forces();
      Drive(sqrt);
      if e == Bundle || (HasEdgeFlag(e) && checkWorldEdges) {
        CheckWorldEdges(EdgeFactor(e, State()));
      }
      ghost var b := Bounced(e, s, w, sqrt);
      assert (location, velocity) == b;
      if HasCamera(e) && controlCamera {
        CheckCameraEdges();
      }
      Advance(HasCamera(e));
      assert State() == s.(location := Add(b.0, b.1), velocity := b.1,
                           acceleration := Mult(Accelerated(s, w), 0.0),
                           angle := if HasCamera(e) then Add(b.0, b.1).x else s.angle);
    }

    /** The end of `step`: the location advances by the velocity, the angle may follow x, the acceleration is cleared. */
    method Advance(turns: bool)
      modifies this`location, this`angle, this`acceleration
      ensures location == Add(old(location), velocity)
      ensures angle == (if turns then location.x else old(angle))
      ensures acceleration == Mult(old(acceleration), 0.0)
    {
      location := Add(location, velocity);
      if turns {
        angle := location.x;
      }
      acceleration := Mult(acceleration, 0.0);
    }

    /** `draw()`: the item's frame. */
    method Draw() returns (f: Frame)
      ensures f == DrawItem(world.edition, State())
      ensures f.x + width / 2.0 == location.x && f.y + height / 2.0 == location.y
    {
      f := DrawItem(world.edition, State());
    }

    /**
     * `item[attr]` in the released edition: its own properties, the
     * methods it inherits, the `options` map attached on reuse and the
     * copied `index`.
     */
    function Attribute(attr: string): (v: AttrValue)
      reads this
      ensures attr == "name" ==> v == Primitive(Str(name))
      ensures attr == "id" ==> v == Primitive(Str(id))
      ensures attr == "options" ==> (v != Undefined <==> hasOptions)
      ensures attr == "pauseStep" ==> v == Undefined
    {
      if attr == "name" then Primitive(Str(name))
      else if attr == "id" then Primitive(Str(id))
      else if attr == "width" then Primitive(Num(width))
      else if attr == "height" then Primitive(Num(height))
      else if attr == "mass" then Primitive(Num(mass))
      else if attr == "maxSpeed" then Primitive(Num(maxSpeed))
      else if attr == "bounciness" then Primitive(Num(bounciness))
      else if attr == "borderRadius" then Primitive(Num(borderRadius))
      else if attr == "angle" then Primitive(Num(angle))
      else if attr == "visibility" then Primitive(Str(visibility))
      else if attr == "checkWorldEdges" then Primitive(Bool(checkWorldEdges))
      else if attr == "controlCamera" then Primitive(Bool(controlCamera))
      else if attr == "index" then (if index.Some? then Primitive(Num(index.value)) else Undefined)
      else if attr == "options" then (if hasOptions then ObjectValue else Undefined)
      else if attr in {"world", "el", "location", "velocity", "acceleration", "initLocation", "color",
                       "init", "step", "applyForce", "_checkWorldEdges", "_checkCameraEdges", "draw",
                       "constructor"} then ObjectValue
      else Undefined
    }
  }

  /** An entry of the system's record list. */
  datatype Record = WorldRecord(w: World) | ItemRecord(item: Item)
}
