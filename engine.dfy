/**
 * The small part of the Unity engine that the game's scripts lean on:
 * the RGBA `Color` value type with its named constants, `Option` for a
 * reference that may be null, and the `Mathf` helpers the scripts call
 * (Clamp, Min, RoundToInt). Floats are modelled as mathematical reals.
 */
module Engine {

  /** A reference or value that may be missing (a C# `null`). */
  datatype Option<T> = None | Some(value: T)

  /** UnityEngine.Color: four float channels, normally in [0, 1]. */
  datatype Color = Color(r: real, g: real, b: real, a: real)

  /** `new Color(r, g, b)`: the three-argument constructor sets alpha to 1. */
  function Rgb(r: real, g: real, b: real): (c: Color)
  {
    Color(r, g, b, 1.0)
  }

  const White: Color := Color(1.0, 1.0, 1.0, 1.0)
  const Black: Color := Color(0.0, 0.0, 0.0, 1.0)
  const Red: Color := Color(1.0, 0.0, 0.0, 1.0)
  const Green: Color := Color(0.0, 1.0, 0.0, 1.0)
  const Blue: Color := Color(0.0, 0.0, 1.0, 1.0)
  /** Unity's yellow is not (1, 1, 0): it is (1, 235/255, 4/255, 1). */
  const Yellow: Color := Color(1.0, 235.0 / 255.0, 4.0 / 255.0, 1.0)
  /** The C# default of the Color struct, all channels zero. */
  const ClearColor: Color := Color(0.0, 0.0, 0.0, 0.0)

  /** Mathf.Clamp on ints: below the range gives `lo`, above it gives `hi`. */
  function ClampInt(value: int, lo: int, hi: int): (r: int)
    requires lo <= hi
    ensures lo <= r <= hi
    ensures lo <= value <= hi ==> r == value
    ensures value < lo ==> r == lo
    ensures value > hi ==> r == hi
  {
    if value < lo then lo else if value > hi then hi else value
  }

  /** Mathf.Clamp on floats, with the same shape as the int overload. */
  function ClampReal(value: real, lo: real, hi: real): (r: real)
    requires lo <= hi
    ensures lo <= r <= hi
    ensures lo <= value <= hi ==> r == value
    ensures value < lo ==> r == lo
    ensures value > hi ==> r == hi
  {
    if value < lo then lo else if value > hi then hi else value
  }

  /** Mathf.Min on ints. */
  function MinInt(x: int, y: int): (m: int)
    ensures m <= x && m <= y
    ensures m == x || m == y
  {
    if x < y then x else y
  }

  /** Mathf.Min on floats. */
  function MinReal(x: real, y: real): (m: real)
    ensures m <= x && m <= y
    ensures m == x || m == y
  {
    if x < y then x else y
  }

  /**
   * Mathf.RoundToInt: the nearest integer, ties going to the even
   * neighbour (the default of System.Math.Round).
   */
  function RoundToInt(x: real): (n: int)
    ensures x - 0.5 <= n as real <= x + 0.5
    ensures x - 0.5 < n as real < x + 0.5 || n % 2 == 0
    ensures x == x.Floor as real ==> n == x.Floor
  {
    var f := x.Floor;
    var d := x - f as real;
    if d < 0.5 then f
    else if d > 0.5 then f + 1
    else if f % 2 == 0 then f
    else f + 1
  }
}
