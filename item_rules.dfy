/**
 * The rules an `Item` follows, as functions on its state: what `init`
 * sets from an options map, what one `step` does in each edition, the
 * force, edge and camera rules a step is built from, and the frame `draw`
 * produces. The `Item` class in the `Records` module performs these
 * updates field by field and is proved to agree with them.
 */
module ItemRules {
  import opened Wrappers
  import opened Reals
  import opened Vectors
  import opened Utils
  import opened Editions
  import opened Drawing

  /**
   * An options map as `add` and `init` receive it. A field is None when
   * the map has no such key. Vectors and arrays are objects, so any present
   * value is truthy; numbers and strings may be falsy.
   */
  datatype ItemOptions = ItemOptions(
    name: Option<string>,
    location: Option<Vec>, velocity: Option<Vec>, acceleration: Option<Vec>,
    initLocation: Option<Vec>,
    width: Option<real>, height: Option<real>,
    maxSpeed: Option<real>, bounciness: Option<real>,
    borderRadius: Option<real>, angle: Option<real>,
    color: Option<seq<real>>, visibility: Option<string>,
    checkWorldEdges: Option<bool>, controlCamera: Option<bool>,
    index: Option<real>)

  /** The empty map `{}`. */
  const NoOptions := ItemOptions(None, None, None, None, None, None, None, None, None,
                                 None, None, None, None, None, None, None)

  /** The mutable properties of an item. */
  datatype ItemState = ItemState(
    location: Vec, velocity: Vec, acceleration: Vec, initLocation: Vec,
    width: real, height: real, mass: real,
    color: seq<real>, visibility: string,
    maxSpeed: real, bounciness: real, borderRadius: real, angle: real,
    checkWorldEdges: bool, controlCamera: bool)

  /**
   * What an item's step reads from its world: the bounds and the three
   * forces (zero in editions whose world has no such force).
   */
  datatype WorldView = WorldView(width: real, height: real, gravity: Vec, wind: Vec, thermal: Vec)

  /**
   * The properties of an item the constructor does not set: they are
   * undefined until `init`, and stand at these neutral values here.
   */
  const Unset := ItemState(Zero, Zero, Zero, Zero, 0.0, 0.0, 0.0, [], "", 0.0, 0.0, 0.0, 0.0, false, false)

  // ---------------------------------------------------------------- init

  /**
   * `init(options)` of each edition: the properties it assigns, each from
   * the option or, when the option is absent or falsy, from its default;
   * the properties an edition's `init` does not assign keep their value.
   */
  function InitState(e: Edition, o: ItemOptions, worldWidth: real, worldHeight: real, s: ItemState): ItemState {
    var location := OrElse(o.location, Vec(worldWidth / 2.0, worldHeight / 2.0));
    var width := Or(o.width, 20.0);
    var height := Or(o.height, 20.0);
    var color := OrElse(o.color, [0.0, 0.0, 0.0]);
    var visibility := OrString(o.visibility, "visible");
    match e
      case Release | Source =>
        s.(acceleration := OrElse(o.acceleration, Zero),
           velocity := OrElse(o.velocity, Zero),
           location := location,
           initLocation := if e == Release then OrElse(o.initLocation, location) else s.initLocation,
           width := width, height := height,
           mass := Mul(Mul(width, height), MassFactor(e)),
           color := color, visibility := visibility,
           maxSpeed := Or(o.maxSpeed, 5.0),
           bounciness := Or(o.bounciness, 0.75),
           borderRadius := Or(o.borderRadius, 0.0),
           angle := Or(o.angle, 0.0),
           checkWorldEdges := OrElse(o.checkWorldEdges, true),
           controlCamera := OrElse(o.controlCamera, false))
      case Bundle =>
        s.(acceleration := OrElse(o.acceleration, Zero),
           velocity := OrElse(o.velocity, Zero),
           location := location, width := width, height := height,
           mass := Mul(Mul(width, height), MassFactor(e)),
           color := color, visibility := visibility,
           maxSpeed := Or(o.maxSpeed, 5.0),
           bounciness := 0.8)
      case Tutorial8 =>
        s.(acceleration := OrElse(o.acceleration, Zero),
           velocity := OrElse(o.velocity, Zero),
           location := location, width := width, height := height,
           mass := Mul(Mul(width, height), MassFactor(e)),
           color := color, visibility := visibility,
           checkWorldEdges := OrElse(o.checkWorldEdges, true))
      case Tutorial7 =>
        s.(velocity := OrElse(o.velocity, Zero),
           location := location, width := width, height := height,
           color := color, visibility := visibility)
      case Tutorial5 =>
        s.(location := location, width := width, height := height,
           color := color, visibility := visibility)
      case Tutorial3 => s
  }

  /** What an item needs before it can step: a non-zero mass where forces are divided by it. */
  predicate Ready(e: Edition, s: ItemState) {
    UsesForces(e) ==> s.mass != 0.0
  }

  /**
   * After `init`, width and height are the options' truthy values or 20,
   * the mass is their product times the edition's factor, and so the item
   * is ready to step whatever the options say.
   */
  lemma InitMass(e: Edition, o: ItemOptions, ww: real, wh: real, s: ItemState)
    requires e != Tutorial3
    ensures var t := InitState(e, o, ww, wh, s);
      t.width != 0.0 && t.height != 0.0 &&
      (o.width.None? || o.width.value == 0.0 ==> t.width == 20.0) &&
      (o.height.None? || o.height.value == 0.0 ==> t.height == 20.0) &&
      (UsesForces(e) ==> t.mass == Mul(Mul(t.width, t.height), MassFactor(e))) &&
      Ready(e, t)
  {
    var t := InitState(e, o, ww, wh, s);
    OrNonZero(o.width, 20.0);
    OrNonZero(o.height, 20.0);
    assert Mul(t.width, t.height) != 0.0;
  }

  /**
   * The defaults of the released and split editions: a zero option is as
   * good as none, so a `maxSpeed` or `bounciness` of 0 becomes 5 or 0.75;
   * the flags are replaced only when absent; the location defaults to the
   * world's centre.
   */
  lemma InitDefaults(e: Edition, o: ItemOptions, ww: real, wh: real, s: ItemState)
    requires e == Release || e == Source
    ensures var t := InitState(e, o, ww, wh, s);
      (o.maxSpeed.None? || o.maxSpeed == Some(0.0) ==> t.maxSpeed == 5.0) &&
      (o.maxSpeed.Some? && o.maxSpeed.value != 0.0 ==> t.maxSpeed == o.maxSpeed.value) &&
      (o.bounciness.None? || o.bounciness == Some(0.0) ==> t.bounciness == 0.75) &&
      (o.bounciness.Some? && o.bounciness.value != 0.0 ==> t.bounciness == o.bounciness.value) &&
      (o.checkWorldEdges.None? ==> t.checkWorldEdges) &&
      (o.checkWorldEdges == Some(false) ==> !t.checkWorldEdges) &&
      (o.controlCamera.None? ==> !t.controlCamera) &&
      (o.location.None? ==> t.location == Vec(ww / 2.0, wh / 2.0)) &&
      t.acceleration == (if o.acceleration.Some? then o.acceleration.value else Zero)
  {
  }

  /** The earlier bundle fixes the bounciness at 0.8, whatever the options say. */
  lemma InitFixedBounciness(o: ItemOptions, ww: real, wh: real, s: ItemState)
    ensures InitState(Bundle, o, ww, wh, s).bounciness == 0.8
    ensures InitState(Bundle, o, ww, wh, s).mass == Mul(Mul(Or(o.width, 20.0), Or(o.height, 20.0)), 0.01)
  {
  }

  // -------------------------------------------------------------- forces

  /** `applyForce(f)`: the acceleration grows by the force divided by the mass. */
  function ApplyForce(acceleration: Vec, force: Vec, mass: real): (r: Vec)
    requires mass != 0.0
    ensures Sub(r, acceleration) == Div(force, mass)
  {
    Add(acceleration, Div(force, mass))
  }

  /** The acceleration after wind, thermal and gravity have been applied, in that order. */
  function Accelerated(s: ItemState, w: WorldView): Vec
    requires s.mass != 0.0
  {
    ApplyForce(ApplyForce(ApplyForce(s.acceleration, w.wind, s.mass), w.thermal, s.mass), w.gravity, s.mass)
  }

  /**
   * Applying the three forces one after another adds their sum divided
   * by the mass, so the order wind, thermal, gravity does not matter.
   */
  lemma AcceleratedByNetForce(s: ItemState, w: WorldView)
    requires s.mass != 0.0
    ensures Accelerated(s, w) == Add(s.acceleration, Div(Add(Add(w.wind, w.thermal), w.gravity), s.mass))
    ensures Accelerated(s, w) == ApplyForce(ApplyForce(ApplyForce(s.acceleration, w.gravity, s.mass), w.thermal, s.mass), w.wind, s.mass)
  {
  }

  // --------------------------------------------------------------- edges

  /**
   * One axis of `_checkWorldEdges`: a position past the far bound is put
   * back at `bound - size/2`, one before the near bound at `size/2`, and
   * in either case the velocity component is multiplied by `-1 * factor`.
   */
  function EdgeAxis(pos: real, vel: real, size: real, bound: real, factor: real): (real, real) {
    if pos + size / 2.0 > bound then (bound - size / 2.0, Mul(vel, -1.0 * factor))
    else if pos < size / 2.0 then (size / 2.0, Mul(vel, -1.0 * factor))
    else (pos, vel)
  }

  /**
   * The clamp-and-reflect law: the position moves exactly when the item
   * sticks out of [0, bound]; then the velocity component is reflected and
   * scaled by the factor, otherwise it is untouched. When the item fits,
   * it ends inside [size/2, bound - size/2] and a second check does not
   * move it again.
   */
  lemma EdgeAxisLaw(pos: real, vel: real, size: real, bound: real, factor: real)
    ensures var (p, v) := EdgeAxis(pos, vel, size, bound, factor);
      (p == pos <==> size / 2.0 <= pos && pos + size / 2.0 <= bound) &&
      (p != pos ==> v == Mul(vel, -1.0 * factor)) &&
      (p == pos ==> v == vel) &&
      (size <= bound ==> size / 2.0 <= p <= bound - size / 2.0) &&
      (size <= bound ==> forall v2 :: EdgeAxis(p, v2, size, bound, factor) == (p, v2))
  {
  }

  /** `_checkWorldEdges`: the x axis against the world width, then the y axis against its height. */
  function CheckWorldEdges(location: Vec, velocity: Vec, width: real, height: real,
                           w: WorldView, factor: real): (Vec, Vec) {
    var (x, vx) := EdgeAxis(location.x, velocity.x, width, w.width, factor);
    var (y, vy) := EdgeAxis(location.y, velocity.y, height, w.height, factor);
    (Vec(x, y), Vec(vx, vy))
  }

  /**
   * The two axes are independent: the x results depend only on the x
   * inputs and the width, the y results only on the y inputs and the height.
   */
  lemma EdgesAxisIndependent(l1: Vec, v1: Vec, l2: Vec, v2: Vec, width: real, height: real,
                             w: WorldView, factor: real)
    ensures l1.x == l2.x && v1.x == v2.x ==>
      CheckWorldEdges(l1, v1, width, height, w, factor).0.x == CheckWorldEdges(l2, v2, width, height, w, factor).0.x &&
      CheckWorldEdges(l1, v1, width, height, w, factor).1.x == CheckWorldEdges(l2, v2, width, height, w, factor).1.x
    ensures l1.y == l2.y && v1.y == v2.y ==>
      CheckWorldEdges(l1, v1, width, height, w, factor).0.y == CheckWorldEdges(l2, v2, width, height, w, factor).0.y &&
      CheckWorldEdges(l1, v1, width, height, w, factor).1.y == CheckWorldEdges(l2, v2, width, height, w, factor).1.y
  {
  }

  /** A fitting item ends the edge check inside the world, with room for half its size on each side. */
  lemma EdgesKeepInside(location: Vec, velocity: Vec, width: real, height: real, w: WorldView, factor: real)
    requires width <= w.width && height <= w.height
    ensures var (l, _) := CheckWorldEdges(location, velocity, width, height, w, factor);
      width / 2.0 <= l.x <= w.width - width / 2.0 && height / 2.0 <= l.y <= w.height - height / 2.0
  {
    EdgeAxisLaw(location.x, velocity.x, width, w.width, factor);
    EdgeAxisLaw(location.y, velocity.y, height, w.height, factor);
  }

  /** A reflection scaled by a factor of magnitude at most 1 does not speed an item up. */
  lemma EdgesDoNotSpeedUp(location: Vec, velocity: Vec, width: real, height: real, w: WorldView, factor: real)
    requires -1.0 <= factor <= 1.0
    ensures MagSq(CheckWorldEdges(location, velocity, width, height, w, factor).1) <= MagSq(velocity)
    ensures factor == 1.0 || factor == -1.0 ==>
      MagSq(CheckWorldEdges(location, velocity, width, height, w, factor).1) == MagSq(velocity)
  {
    ScaledSquare(velocity.x, -1.0 * factor);
    ScaledSquare(velocity.y, -1.0 * factor);
  }

  /** Scaling a number by c changes its square by the factor c*c. */
  lemma ScaledSquare(a: real, c: real)
    requires -1.0 <= c <= 1.0
    ensures Sq(Mul(a, c)) <= Sq(a)
    ensures c == 1.0 || c == -1.0 ==> Sq(Mul(a, c)) == Sq(a)
  {
    assert Sq(Mul(a, c)) == Mul(Sq(c), Sq(a));
    var d := 1.0 - Sq(c);
    assert d >= 0.0 by {
      if c >= 0.0 {
        assert Mul(c, 1.0 - c) >= 0.0;
      } else {
        assert Mul(-c, 1.0 + c) >= 0.0;
      }
    }
    assert Sq(a) == Mul(Sq(c), Sq(a)) + Mul(d, Sq(a));
  }

  // ---------------------------------------------------------------- step

  /** Whether a step runs the edge check: always in the earlier bundle, by flag where there is one. */
  predicate ChecksEdges(e: Edition, s: ItemState) {
    e == Bundle || (HasEdgeFlag(e) && s.checkWorldEdges)
  }

  /** The factor a reflection scales by: the item's bounciness, or 1 where the reflection is undamped. */
  function EdgeFactor(e: Edition, s: ItemState): real {
    if e == Tutorial8 then 1.0 else s.bounciness
  }

  /** The velocity after the forces are added and, where the edition limits speed, `limit(maxSpeed)`. */
  function Driven(e: Edition, s: ItemState, w: WorldView, sqrt: real -> real): Vec
    requires s.mass != 0.0
  {
    var v := Add(s.velocity, Accelerated(s, w));
    if LimitsSpeed(e) then Limit(v, s.maxSpeed, 0.0, sqrt) else v
  }

  /** Location and velocity after the edge check, when the edition runs it. */
  function Bounced(e: Edition, s: ItemState, w: WorldView, sqrt: real -> real): (Vec, Vec)
    requires s.mass != 0.0
  {
    var v := Driven(e, s, w, sqrt);
    if ChecksEdges(e, s) then CheckWorldEdges(s.location, v, s.width, s.height, w, EdgeFactor(e, s))
    else (s.location, v)
  }

  /**
   * `step` of each edition. With forces: the three forces, the speed
   * limit, the edge check, then the location advances by the velocity,
   * the angle follows the x coordinate and the acceleration is cleared.
   * The gravity-only step adds gravity to the velocity and the velocity
   * to the location; the earliest step moves the item one unit down.
   */
  function Step(e: Edition, s: ItemState, w: WorldView, sqrt: real -> real): (t: ItemState)
    requires Ready(e, s)
    ensures t.mass == s.mass && t.controlCamera == s.controlCamera
  {
    if UsesForces(e) then
      var (l, v) := Bounced(e, s, w, sqrt);
      var location := Add(l, v);
      s.(location := location, velocity := v,
         acceleration := Mult(Accelerated(s, w), 0.0),
         angle := if HasCamera(e) then location.x else s.angle)
    else if e == Tutorial7 then
      var v := Add(s.velocity, w.gravity);
      s.(velocity := v, location := Add(s.location, v))
    else if e == Tutorial5 then
      s.(location := Vec(s.location.x, s.location.y + 1.0))
    else s
  }

  /**
   * In every edition a step moves the item and nothing else: only the
   * location, velocity, acceleration and angle change, so the item can
   * step again.
   */
  lemma StepMovesOnly(e: Edition, s: ItemState, w: WorldView, sqrt: real -> real)
    requires Ready(e, s)
    ensures var t := Step(e, s, w, sqrt);
      t == s.(location := t.location, velocity := t.velocity, acceleration := t.acceleration, angle := t.angle) &&
      Ready(e, t)
  {
  }

  /**
   * The velocity an item that controls the camera hands to its world in
   * `_checkCameraEdges` (the one after the edge check), or None.
   */
  function CameraPush(e: Edition, s: ItemState, w: WorldView, sqrt: real -> real): (r: Option<Vec>)
    requires Ready(e, s)
    ensures r.Some? <==> HasCamera(e) && s.controlCamera
    ensures r.Some? ==> r.value == Step(e, s, w, sqrt).velocity
  {
    if HasCamera(e) && s.controlCamera then Some(Bounced(e, s, w, sqrt).1) else None
  }

  /**
   * What every step with forces guarantees: the acceleration is cleared;
   * the new location is the edge-checked location plus the new velocity;
   * the angle equals the new x coordinate where there is an angle; sizes,
   * mass and flags are unchanged, so the item stays ready.
   */
  lemma StepOutcome(e: Edition, s: ItemState, w: WorldView, sqrt: real -> real)
    requires UsesForces(e) && Ready(e, s)
    ensures var t := Step(e, s, w, sqrt);
      t.acceleration == Zero &&
      t.location == Add(Bounced(e, s, w, sqrt).0, t.velocity) &&
      t.velocity == Bounced(e, s, w, sqrt).1 &&
      (HasCamera(e) ==> t.angle == t.location.x) &&
      t.width == s.width && t.height == s.height && t.mass == s.mass &&
      t.maxSpeed == s.maxSpeed && t.bounciness == s.bounciness &&
      t.checkWorldEdges == s.checkWorldEdges && t.controlCamera == s.controlCamera &&
      Ready(e, t)
  {
  }

  /**
   * The speed bound: where speed is limited, a positive `maxSpeed` and a
   * bounciness in [-1, 1] leave the squared speed at most `maxSpeed`
   * squared after the step, reflections included.
   */
  lemma StepSpeedBound(e: Edition, s: ItemState, w: WorldView, sqrt: real -> real)
    requires LimitsSpeed(e) && Ready(e, s) && IsSqrt(sqrt)
    requires s.maxSpeed > 0.0 && -1.0 <= s.bounciness <= 1.0
    ensures MagSq(Step(e, s, w, sqrt).velocity) <= Sq(s.maxSpeed)
  {
    var v := Driven(e, s, w, sqrt);
    LimitHigh(Add(s.velocity, Accelerated(s, w)), s.maxSpeed, sqrt);
    assert MagSq(v) <= Sq(s.maxSpeed);
    if ChecksEdges(e, s) {
      EdgesDoNotSpeedUp(s.location, v, s.width, s.height, w, EdgeFactor(e, s));
    }
  }

  /**
   * The undamped step of tutorial 8: no speed limit, so the velocity is
   * the old one plus the pending acceleration (zero after any step) and the
   * net force over the mass, up to the sign of each
   * component a reflection flips; a reflection never changes the speed;
   * with the flag off there is no clamp and no reflection.
   */
  lemma UndampedStep(s: ItemState, w: WorldView, sqrt: real -> real)
    requires s.mass != 0.0
    ensures var v := Add(s.velocity, Add(s.acceleration, Div(Add(Add(w.wind, w.thermal), w.gravity), s.mass)));
      var t := Step(Tutorial8, s, w, sqrt);
      MagSq(t.velocity) == MagSq(v) &&
      (t.velocity.x == v.x || t.velocity.x == -v.x) &&
      (t.velocity.y == v.y || t.velocity.y == -v.y) &&
      (!s.checkWorldEdges ==> t.velocity == v && t.location == Add(s.location, v))
  {
    AcceleratedByNetForce(s, w);
    var v := Driven(Tutorial8, s, w, sqrt);
    assert v == Add(s.velocity, Add(s.acceleration, Div(Add(Add(w.wind, w.thermal), w.gravity), s.mass)));
    var b := Bounced(Tutorial8, s, w, sqrt).1;
    assert Step(Tutorial8, s, w, sqrt).velocity == b;
    if s.checkWorldEdges {
      EdgesDoNotSpeedUp(s.location, v, s.width, s.height, w, 1.0);
      EdgeAxisLaw(s.location.x, v.x, s.width, w.width, 1.0);
      EdgeAxisLaw(s.location.y, v.y, s.height, w.height, 1.0);
    }
  }

  /** The gravity-only step can be undone: subtracting the new velocity and then gravity recovers the old state. */
  lemma GravityStepInverse(s: ItemState, w: WorldView, sqrt: real -> real)
    ensures var t := Step(Tutorial7, s, w, sqrt);
      t.velocity == Add(s.velocity, w.gravity) &&
      Sub(t.location, t.velocity) == s.location &&
      Sub(t.velocity, w.gravity) == s.velocity
  {
    var t := Step(Tutorial7, s, w, sqrt);
    SubAddRoundTrip(s.location, t.velocity);
    SubAddRoundTrip(s.velocity, w.gravity);
  }

  /** `n` steps of an edition, one after another. */
  function Steps(e: Edition, s: ItemState, w: WorldView, sqrt: real -> real, n: nat): ItemState
    requires !UsesForces(e)
    decreases n
  {
    if n == 0 then s else Steps(e, Step(e, s, w, sqrt), w, sqrt, n - 1)
  }

  /** After `n` of the earliest steps the item is exactly `n` units lower and has not moved sideways. */
  lemma {:induction false} FallingSteps(s: ItemState, w: WorldView, sqrt: real -> real, n: nat)
    ensures Steps(Tutorial5, s, w, sqrt, n).location == Vec(s.location.x, s.location.y + n as real)
    ensures Steps(Tutorial5, s, w, sqrt, n) == s.(location := Steps(Tutorial5, s, w, sqrt, n).location)
    decreases n
  {
    if n > 0 {
      FallingSteps(Step(Tutorial5, s, w, sqrt), w, sqrt, n - 1);
    }
  }

  // ---------------------------------------------------------------- draw

  /** `draw()` of an item: its frame, with the radius and angle the edition writes. */
  function DrawItem(e: Edition, s: ItemState): Frame {
    Draw(e, s.location, s.width, s.height, Channels(s.color), s.visibility, Some(s.borderRadius), Some(s.angle))
  }
}
