/** Engine value types the game scripts use, stated over exact numbers:
    positions (UnityEngine.Vector3) and colours (UnityEngine.Color) as
    records of reals, and an Option for lookups that may miss. */
module Common {

  datatype Option<+T> = None | Some(value: T)

  /** A position in the scene. The engine stores single-precision floats;
      the model uses exact reals. */
  datatype Vec3 = Vec3(x: real, y: real, z: real)
  {
    /** The same position raised by `dy` along the vertical axis. */
    function Raised(dy: real): (p: Vec3)
      ensures p.x == x && p.z == z && p.y - y == dy
    {
      Vec3(x, y + dy, z)
    }
  }

  /** Square of the Euclidean distance. `Vector3.Distance(a, b) <= d` for a
      non-negative `d` is the same test as `SqDistance(a, b) <= d * d`. */
  function SqDistance(a: Vec3, b: Vec3): (d: real)
    ensures d >= 0.0
    ensures a == b ==> d == 0.0
  {
    var dx, dy, dz := a.x - b.x, a.y - b.y, a.z - b.z;
    SquareNonNegative(dx); SquareNonNegative(dy); SquareNonNegative(dz);
    dx * dx + dy * dy + dz * dz
  }

  lemma SquareNonNegative(r: real)
    ensures r * r >= 0.0
  {
    if r < 0.0 {
      assert r * r == (-r) * (-r);
    }
  }

  /** A colour as red, green, blue and alpha components in [0, 1]. */
  datatype Color = Color(r: real, g: real, b: real, a: real)

  const White: Color := Color(1.0, 1.0, 1.0, 1.0)
  const Blue: Color := Color(0.0, 0.0, 1.0, 1.0)
  const Red: Color := Color(1.0, 0.0, 0.0, 1.0)
  const Green: Color := Color(0.0, 1.0, 0.0, 1.0)
  const Magenta: Color := Color(1.0, 0.0, 1.0, 1.0)
  const Black: Color := Color(0.0, 0.0, 0.0, 1.0)
}
