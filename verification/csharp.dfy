/** Integer types and operators of C# that the timer relies on. */
module CSharp {

  /** C# `int`. */
  type Int32 = x: int | -0x8000_0000 <= x < 0x8000_0000

  /** C# `uint`. */
  type UInt32 = x: int | 0 <= x < 0x1_0000_0000

  /** C# `ushort`. */
  type UInt16 = x: int | 0 <= x < 0x1_0000

  /** C#'s `%` on `int`: the remainder takes the sign of the dividend
      (truncated division), unlike Dafny's Euclidean `%`. */
  function TruncRem(a: int, b: int): (r: int)
    requires b > 0
    ensures a >= 0 ==> 0 <= r < b
    ensures a <= 0 ==> -b < r <= 0
    ensures a >= 0 ==> r == a % b
    ensures a < 0 ==> (r == 0 <==> a % b == 0)
    ensures a < 0 && r != 0 ==> r == a % b - b
  {
    if a >= 0 then a % b
    else
      ModOfNegation(a, b);
      -((-a) % b)
  }

  /** `a % b` is the unique `y` in `[0, b)` with `a == b * x + y`. */
  lemma ModUnique(a: int, b: int, x: int, y: int)
    requires b > 0 && 0 <= y < b && a == b * x + y
    ensures a % b == y
  {
    var d := a / b - x;
    assert b * d == y - a % b by {
      assert a == b * (a / b) + a % b;
      assert b * (a / b) - b * x == b * d;
    }
  }

  /** How the Euclidean remainder of `a` relates to that of `-a`. */
  lemma ModOfNegation(a: int, b: int)
    requires a < 0 && b > 0
    ensures (-a) % b == 0 ==> a % b == 0
    ensures (-a) % b != 0 ==> a % b == b - (-a) % b
  {
    var q, m := (-a) / b, (-a) % b;
    assert -a == b * q + m;
    if m == 0 {
      ModUnique(a, b, -q, 0);
    } else {
      ModUnique(a, b, -q - 1, b - m);
    }
  }
}
