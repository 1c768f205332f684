/**
 * The rules a `World` follows, as functions on its state: the properties
 * its constructor sets in each edition, what its `step` does and the frame
 * it draws. The `World` class in the `Records` module holds these
 * properties as fields.
 */
module WorldRules {
  import opened Wrappers
  import opened Vectors
  import opened Utils
  import opened Editions
  import opened Drawing
  import ItemRules

  /** The size of the browser viewport, which the constructors and `_resize` read. */
  datatype Viewport = Viewport(width: real, height: real)

  /**
   * What is passed as the world's element: nothing (or another falsy
   * value), a truthy value that is not an object, or a DOM object.
   */
  datatype ElementArg = NoElement | NonObject | DomObject

  /**
   * The options map of the released edition's constructor (a field is None
   * when the key is absent). The other editions take no options.
   */
  datatype WorldOptions = WorldOptions(
    width: Option<real>, height: Option<real>, location: Option<Vec>, angle: Option<real>,
    gravity: Option<Vec>, wind: Option<Vec>, thermal: Option<Vec>,
    color: Option<seq<real>>, visibility: Option<string>)

  /** The empty map `{}`. */
  const NoWorldOptions := WorldOptions(None, None, None, None, None, None, None, None, None)

  /**
   * The properties of a world. Those an edition's constructor does not
   * set (no camera before the split edition, no forces in the earliest
   * steps) stand at neutral values.
   */
  datatype WorldState = WorldState(
    width: real, height: real, location: Vec, angle: real,
    gravity: Vec, wind: Vec, thermal: Vec,
    paint: Paint, visibility: string, pauseStep: bool, camera: Vec)

  /** The viewport's centre, where a world is placed by default. */
  function Centre(vp: Viewport): Vec {
    Vec(vp.width / 2.0, vp.height / 2.0)
  }

  /**
   * The constructor's properties in each edition. The released edition
   * takes each from the options when they are truthy (the angle whenever
   * it is defined), the others use fixed defaults and the viewport.
   */
  function InitWorld(e: Edition, o: WorldOptions, vp: Viewport): WorldState {
    var grey := Channels([230.0, 230.0, 230.0]);
    match e
      case Release =>
        WorldState(Or(o.width, vp.width), Or(o.height, vp.height),
                   OrElse(o.location, Centre(vp)), OrElse(o.angle, 0.0),
                   OrElse(o.gravity, Vec(0.0, 0.1)), OrElse(o.wind, Zero), OrElse(o.thermal, Zero),
                   if o.color.Some? then Channels(o.color.value) else grey,
                   OrString(o.visibility, "visible"), false, Zero)
      case Source =>
        WorldState(vp.width, vp.height, Centre(vp), 0.0,
                   Vec(0.0, 0.1), Zero, Vec(0.0, -0.025), grey, "visible", false, Zero)
      case Bundle | Tutorial8 =>
        WorldState(vp.width, vp.height, Centre(vp), 0.0,
                   Vec(0.0, 0.1), Vec(0.05, 0.0), Vec(0.0, -0.025), Keyword("transparent"), "visible", false, Zero)
      case Tutorial7 =>
        WorldState(vp.width, vp.height, Centre(vp), 0.0,
                   Vec(0.0, 0.1), Zero, Zero, Keyword("transparent"), "visible", false, Zero)
      case Tutorial5 =>
        WorldState(vp.width, vp.height, Centre(vp), 0.0,
                   Zero, Zero, Zero, Keyword("transparent"), "visible", false, Zero)
      case Tutorial3 =>
        WorldState(vp.width, vp.height, Zero, 0.0, Zero, Zero, Zero, Keyword(""), "", false, Zero)
  }

  /**
   * The constructor defaults: in every edition the world starts unpaused
   * and fills the viewport (the released one unless the options give a
   * size); the forces are gravity (0, 0.1) and a thermal (0, -0.025) in
   * the split sources, plus a wind (0.05, 0) in the earlier bundle; the
   * released edition's defaults are gravity (0, 0.1) and no wind or
   * thermal, and a zero width or height option falls back to the viewport.
   */
  lemma WorldDefaults(e: Edition, o: WorldOptions, vp: Viewport)
    ensures var w := InitWorld(e, o, vp);
      !w.pauseStep && w.camera == Zero &&
      (e != Release ==> w.width == vp.width && w.height == vp.height) &&
      (e == Source ==> w.gravity == Vec(0.0, 0.1) && w.wind == Zero && w.thermal == Vec(0.0, -0.025) &&
                       w.location == Centre(vp) && w.angle == 0.0) &&
      (e == Bundle ==> w.gravity == Vec(0.0, 0.1) && w.wind == Vec(0.05, 0.0) && w.thermal == Vec(0.0, -0.025)) &&
      (e == Release && o == NoWorldOptions ==>
         w.gravity == Vec(0.0, 0.1) && w.wind == Zero && w.thermal == Zero && w.angle == 0.0 &&
         w.location == Centre(vp)) &&
      (e == Release && (o.width.None? || o.width == Some(0.0)) ==> w.width == vp.width) &&
      (e == Release && o.angle.Some? ==> w.angle == o.angle.value)
  {
  }

  /** The horizontal and vertical pull `World.step` of the split sources derives from the mouse. */
  function MouseGravity(w: WorldState, mouse: Vec): Vec {
    Vec((mouse.x - w.width / 2.0) * 0.01, (mouse.y - w.height / 2.0) * 0.05)
  }

  /** `World.step`: the split sources steer gravity with the mouse; elsewhere a world's step does nothing. */
  function StepWorld(e: Edition, w: WorldState, mouse: Vec): WorldState {
    if e == Source then w.(gravity := MouseGravity(w, mouse)) else w
  }

  /**
   * The mouse steering of the split sources: only gravity changes;
   * gravity vanishes with the mouse at the world's centre, points towards
   * the mouse, and the mouse position can be read back from it.
   */
  lemma MouseSteering(w: WorldState, mouse: Vec)
    ensures var t := StepWorld(Source, w, mouse);
      t == w.(gravity := t.gravity) &&
      (mouse == Vec(w.width / 2.0, w.height / 2.0) <==> t.gravity == Zero) &&
      (mouse.x > w.width / 2.0 <==> t.gravity.x > 0.0) &&
      (mouse.y > w.height / 2.0 <==> t.gravity.y > 0.0) &&
      mouse == Vec(w.width / 2.0 + t.gravity.x / 0.01, w.height / 2.0 + t.gravity.y / 0.05)
  {
  }

  /** In the other editions a world's step changes nothing. */
  lemma StaticWorld(e: Edition, w: WorldState, mouse: Vec)
    requires e != Source
    ensures StepWorld(e, w, mouse) == w
  {
  }

  /** What an item's step reads from this world. */
  function View(w: WorldState): ItemRules.WorldView {
    ItemRules.WorldView(w.width, w.height, w.gravity, w.wind, w.thermal)
  }

  /** `draw()` of a world: its frame; a world has no border radius. */
  function DrawWorld(e: Edition, w: WorldState): Frame {
    Draw(e, w.location, w.width, w.height, w.paint, w.visibility, None, Some(w.angle))
  }
}
