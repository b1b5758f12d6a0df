// Colors as the lights and materials use them. The color class itself is
// not part of this model: a color is taken to be four components whose
// `array`, `glArray` and `toArray()` forms are all [r, g, b, alpha].
module Colors {
  datatype Color = Color(r: real, g: real, b: real, alpha: real)

  /** `Color.WHITE`, and `new Color(1, 1, 1)`. */
  const White := Color(1.0, 1.0, 1.0, 1.0)

  function ColorArray(c: Color): (s: seq<real>)
    ensures |s| == 4 && s[0] == c.r && s[1] == c.g && s[2] == c.b && s[3] == c.alpha
  {
    [c.r, c.g, c.b, c.alpha]
  }
}
