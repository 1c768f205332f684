/**
 * The demo item kinds `Pebble` and `Boulder` (public/scripts/rocks.js) and
 * the earlier `Pebble` (rocks.js). Each constructor writes a size, a
 * colour and, in the later file, a speed cap and a border radius into
 * the caller's options map and then runs the `Item` constructor on it.
 * Here each is a function from the options map to the map it leaves
 * behind; the `Item` part is done by the `Records` module.
 */
module Rocks {
  import opened Wrappers
  import opened Utils
  import opened ItemRules

  /** The values `Math.random()` returns to the constructor, in call order. */
  datatype Draws = Draws(first: real, second: real, third: real)

  predicate ValidDraws(d: Draws) {
    IsDraw(d.first) && IsDraw(d.second) && IsDraw(d.third)
  }

  /** `opt_options.index || 5`. */
  function Index(o: ItemOptions): real {
    Or(o.index, 5.0)
  }

  /** `Pebble(opt_options)`: size `15 + index`, reddish-brown colour, speed cap 15, radius from [40, 50]. */
  function PebbleOptions(opt: Option<ItemOptions>, d: Draws): Result<ItemOptions> {
    if opt.None? then Err("TypeError: opt_options is undefined")
    else
      var o := opt.value;
      var size := 15.0 + Index(o);
      Ok(o.(width := Some(size), height := Some(size),
            color := Some([RandomNumber(100.0, 255.0, false, d.first), RandomNumber(10.0, 100.0, false, d.second), 0.0]),
            maxSpeed := Some(15.0),
            borderRadius := Some(RandomNumber(40.0, 50.0, false, d.third))))
  }

  /** `Boulder(opt_options)`: size `50 + 10 * index`, yellowish colour, speed cap 15, radius from [30, 40]. */
  function BoulderOptions(opt: Option<ItemOptions>, d: Draws): Result<ItemOptions> {
    if opt.None? then Err("TypeError: opt_options is undefined")
    else
      var o := opt.value;
      var size := 50.0 + 10.0 * Index(o);
      Ok(o.(width := Some(size), height := Some(size),
            color := Some([RandomNumber(100.0, 255.0, false, d.first), RandomNumber(100.0, 255.0, false, d.second), 0.0]),
            maxSpeed := Some(15.0),
            borderRadius := Some(RandomNumber(30.0, 40.0, false, d.third))))
  }

  /** The earlier `Pebble(opt_options)`: size `index`, a red colour. */
  function EarlyPebbleOptions(opt: Option<ItemOptions>, d: Draws): Result<ItemOptions> {
    if opt.None? then Err("TypeError: opt_options is undefined")
    else
      var o := opt.value;
      var size := 1.0 * Index(o);
      Ok(o.(width := Some(size), height := Some(size),
            color := Some([RandomNumber(0.0, 255.0, false, d.first), 0.0, 0.0])))
  }

  /** An integer channel drawn from [low, high]. */
  predicate DrawnFrom(v: real, low: int, high: int) {
    v.Floor as real == v && low as real <= v <= high as real
  }

  /**
   * A pebble: the constructor fails exactly when no options map is given
   * (the index is read from it first); otherwise width and height are
   * `15 + index`, which is 20 when the index is absent or 0, the speed cap
   * is 15, the colour is [red from [100, 255], green from [10, 100], 0],
   * the radius is an integer in [40, 50], and nothing else in the map changes.
   */
  lemma PebbleShape(opt: Option<ItemOptions>, d: Draws)
    requires ValidDraws(d)
    ensures PebbleOptions(opt, d).Ok? <==> opt.Some?
    ensures opt.Some? ==>
      var o := opt.value;
      var r := PebbleOptions(opt, d).value;
      r.width == r.height == Some(15.0 + Index(o)) &&
      (o.index.None? || o.index == Some(0.0) ==> r.width == Some(20.0)) &&
      r.maxSpeed == Some(15.0) &&
      r.color.Some? && |r.color.value| == 3 && r.color.value[2] == 0.0 &&
      DrawnFrom(r.color.value[0], 100, 255) && DrawnFrom(r.color.value[1], 10, 100) &&
      r.borderRadius.Some? && DrawnFrom(r.borderRadius.value, 40, 50) &&
      r == o.(width := r.width, height := r.height, color := r.color, maxSpeed := r.maxSpeed,
              borderRadius := r.borderRadius)
  {
    RandomIntegerInRange(100, 255, d.first);
    RandomIntegerInRange(10, 100, d.second);
    RandomIntegerInRange(40, 50, d.third);
  }

  /**
   * A boulder: fails exactly without options; otherwise the size is
   * `50 + 10 * index`, 100 by default, the speed cap 15, the colour
   * [from [100, 255], from [100, 255], 0], the radius an integer in
   * [30, 40], and nothing else in the map changes.
   */
  lemma BoulderShape(opt: Option<ItemOptions>, d: Draws)
    requires ValidDraws(d)
    ensures BoulderOptions(opt, d).Ok? <==> opt.Some?
    ensures opt.Some? ==>
      var o := opt.value;
      var r := BoulderOptions(opt, d).value;
      r.width == r.height == Some(50.0 + 10.0 * Index(o)) &&
      (o.index.None? || o.index == Some(0.0) ==> r.width == Some(100.0)) &&
      r.maxSpeed == Some(15.0) &&
      r.color.Some? && |r.color.value| == 3 && r.color.value[2] == 0.0 &&
      DrawnFrom(r.color.value[0], 100, 255) && DrawnFrom(r.color.value[1], 100, 255) &&
      r.borderRadius.Some? && DrawnFrom(r.borderRadius.value, 30, 40) &&
      r == o.(width := r.width, height := r.height, color := r.color, maxSpeed := r.maxSpeed,
              borderRadius := r.borderRadius)
  {
    RandomIntegerInRange(100, 255, d.first);
    RandomIntegerInRange(100, 255, d.second);
    RandomIntegerInRange(30, 40, d.third);
  }

  /**
   * The earlier pebble: fails exactly without options; otherwise width and
   * height equal the index (5 by default), the colour is [red from
   * [0, 255], 0, 0], and nothing else in the map changes.
   */
  lemma EarlyPebbleShape(opt: Option<ItemOptions>, d: Draws)
    requires ValidDraws(d)
    ensures EarlyPebbleOptions(opt, d).Ok? <==> opt.Some?
    ensures opt.Some? ==>
      var o := opt.value;
      var r := EarlyPebbleOptions(opt, d).value;
      r.width == r.height == Some(Index(o)) &&
      (o.index.None? || o.index == Some(0.0) ==> r.width == Some(5.0)) &&
      r.color.Some? && |r.color.value| == 3 && r.color.value[1] == 0.0 && r.color.value[2] == 0.0 &&
      DrawnFrom(r.color.value[0], 0, 255) &&
      r == o.(width := r.width, height := r.height, color := r.color)
  {
    RandomIntegerInRange(0, 255, d.first);
  }
}
