/** The parts of the DOM the renderer touches: the canvas element, the
    conversion a canvas applies to the numbers assigned to its size, and the
    lower-casing used for the CSS class name. */
module Dom {

  /** A freshly created canvas element has a 300 x 150 backing store. */
  const DefaultCanvasWidth: nat := 300
  const DefaultCanvasHeight: nat := 150

  const TwoTo32: nat := 0x1_0000_0000

  /** An HTML canvas element: backing-store size (`width`, `height`), inline
      style size and class attribute. Its laid-out size (`clientWidth`,
      `clientHeight`) is decided by the page's layout at the moment it is
      read, so it is not a field here: readers take it as an argument. */
  class Canvas {
    var width: nat
    var height: nat
    var styleWidth: string
    var styleHeight: string
    var className: string

    constructor ()
      ensures width == DefaultCanvasWidth && height == DefaultCanvasHeight
      ensures styleWidth == "" && styleHeight == "" && className == ""
    {
      width, height := DefaultCanvasWidth, DefaultCanvasHeight;
      styleWidth, styleHeight, className := "", "", "";
    }
  }

  /** Rounding toward zero. */
  function Truncate(x: real): (t: int)
    ensures x >= 0.0 ==> t >= 0 && t as real <= x < t as real + 1.0
    ensures x < 0.0 ==> t <= 0 && t as real - 1.0 < x <= t as real
  {
    if x >= 0.0 then x.Floor else -((-x).Floor)
  }

  /** The WebIDL conversion of a number assigned to an `unsigned long`
      attribute: truncated toward zero, then reduced modulo 2^32. */
  function ToUnsignedLong(x: real): (n: nat)
    ensures n < TwoTo32
    ensures (n - Truncate(x)) % TwoTo32 == 0
  {
    Truncate(x) % TwoTo32
  }

  /** The largest value a reflected `unsigned long` attribute accepts. */
  const MaxReflected: nat := 0x7FFF_FFFF

  /** The size a canvas keeps when a number is assigned to `width` or
      `height`: the converted value when it is at most 2^31 - 1, otherwise the
      attribute's default (300 for the width, 150 for the height). */
  function CanvasDimension(x: real, default: nat): (n: nat)
    ensures n <= MaxReflected || n == default
    ensures ToUnsignedLong(x) <= MaxReflected ==> n == ToUnsignedLong(x)
    ensures ToUnsignedLong(x) > MaxReflected ==> n == default
  {
    var u := ToUnsignedLong(x);
    if u <= MaxReflected then u else default
  }

  /** A whole number of pixels up to 2^31 - 1 is kept as it is. */
  lemma CanvasDimensionWhole(n: nat, default: nat)
    requires n <= MaxReflected
    ensures CanvasDimension(n as real, default) == n
  {
  }

  /** A negative size, or one from 2^31 up to 2^32 - 1, leaves the default. */
  lemma CanvasDimensionOutOfRange(x: real, default: nat)
    requires -(MaxReflected as real) - 1.0 <= x <= -1.0 || MaxReflected as real + 1.0 <= x < TwoTo32 as real
    ensures CanvasDimension(x, default) == default
  {
    var t := Truncate(x);
    if x < 0.0 {
      assert -(MaxReflected as int) - 1 <= t <= -1;
      assert ToUnsignedLong(x) == t + TwoTo32;
    } else {
      assert MaxReflected < t < TwoTo32;
    }
  }

  /** Half of a video width (an `unsigned long`) is kept rounded down. */
  lemma CanvasDimensionHalf(n: nat, default: nat)
    requires n < TwoTo32
    ensures CanvasDimension(n as real / 2.0, default) == n / 2
  {
  }

  function LowerChar(c: char): char
  {
    if 'A' <= c <= 'Z' then (c as int + 32) as char else c
  }

  /** `toLocaleLowerCase` on the ASCII letters. */
  function AsciiLower(s: string): (t: string)
    ensures |t| == |s|
    ensures forall i :: 0 <= i < |s| ==> t[i] == LowerChar(s[i])
  {
    if s == [] then [] else [LowerChar(s[0])] + AsciiLower(s[1..])
  }
}
