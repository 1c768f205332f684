/**
 * `System._draw`: what a record's style is computed from. The CSS text
 * itself (`getCSSText`) is not modelled; a `Frame` holds the values it
 * substitutes for its placeholders.
 */
module Drawing {
  import opened Wrappers
  import opened Vectors
  import opened Editions

  /** A colour as `_draw` reads it: an array of channels, or a keyword such as 'transparent'. */
  datatype Paint = Channels(channels: seq<real>) | Keyword(word: string)

  /**
   * The values of one style update: the top-left corner, the size, colour
   * and visibility, and, in the editions that write them, the border
   * radius and the rotation angle (None when the record has no such field).
   */
  datatype Frame = Frame(
    x: real, y: real, width: real, height: real,
    paint: Paint, visibility: string,
    borderRadius: Option<real>, angle: Option<real>)

  /**
   * `_draw(obj)`: the element is placed so that its centre is the record's
   * location; the released and split editions also write radius and angle.
   */
  function Draw(e: Edition, location: Vec, width: real, height: real, paint: Paint,
                visibility: string, borderRadius: Option<real>, angle: Option<real>): (f: Frame)
    ensures f.x + width / 2.0 == location.x && f.y + height / 2.0 == location.y
    ensures f.width == width && f.height == height && f.paint == paint && f.visibility == visibility
    ensures HasCamera(e) ==> f.borderRadius == borderRadius && f.angle == angle
    ensures !HasCamera(e) ==> f.borderRadius.None? && f.angle.None?
  {
    Frame(location.x - width / 2.0, location.y - height / 2.0, width, height, paint, visibility,
          if HasCamera(e) then borderRadius else None,
          if HasCamera(e) then angle else None)
  }
}
