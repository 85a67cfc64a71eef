/**
 * What the two overlays hand to the drawing library. Every draw call is
 * recorded as a primitive, so a frame is the sequence of primitives it
 * appends to the draw list. Screen points are `Vector2` values and colours
 * are four real channels in 0..1 (red, green, blue, alpha).
 */
module Draw {
  import opened Structs

  datatype Option<T> = None | Some(value: T)

  datatype Color = Color(x: real, y: real, z: real, w: real)

  /** The text a label shows; numbers are kept as values, their `%.0f` rendering is not modelled. */
  datatype Label =
    | NameAndDistance(name: string, distance: Length)   // "%s [%.0fm]"
    | NameOnly(name: string)                             // "%s"
    | BracketedDistance(distance: Length)                // "[%.0fm]"
    | PlainDistance(distance: Length)                    // "%.0fm"

  datatype Primitive =
    | RectOutline(topLeft: Vector2, bottomRight: Vector2, color: Color, thickness: real)
    | RectFilled(topLeft: Vector2, bottomRight: Vector2, color: Color)
    | Line(from: Vector2, to: Vector2, color: Color, thickness: real)
    | Text(anchor: Vector2, caption: Label, color: Color)
    | Circle(center: Vector2, radius: real, color: Color, filled: bool)

  /** A character buffer read as a C string: everything before the first NUL. */
  function CString(buffer: seq<char>): (s: string)
    ensures |s| <= |buffer| && s == buffer[..|s|]
    ensures '\0' !in s
    ensures |s| < |buffer| ==> buffer[|s|] == '\0'
  {
    if buffer == [] then []
    else if buffer[0] == '\0' then []
    else [buffer[0]] + CString(buffer[1..])
  }
}
