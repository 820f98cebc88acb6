/** Chunk coordinates. Go's `/` and `%` truncate toward zero; the program corrects them to floor. */
module Coords {

  datatype Key = Key(cx: int, cz: int)

  function TruncDiv(a: int, b: int): int
    requires b > 0
  {
    if a >= 0 then a / b else -(-a / b)
  }

  function TruncRem(a: int, b: int): int
    requires b > 0
  {
    a - b * TruncDiv(a, b)
  }

  function FloorDiv(a: int, b: int): int
    requires b > 0
  {
    if TruncRem(a, b) < 0 then TruncDiv(a, b) - 1 else TruncDiv(a, b)
  }

  function Mod(a: int, b: int): int
    requires b > 0
  {
    if TruncRem(a, b) < 0 then TruncRem(a, b) + b else TruncRem(a, b)
  }

  function KeyOf(x: int, z: int): Key {
    Key(FloorDiv(x, 16), FloorDiv(z, 16))
  }

  /** Place of column (x, z) in its chunk's row-major array. */
  function IndexOf(x: int, z: int): int {
    Mod(z, 16) * 16 + Mod(x, 16)
  }

  function ColumnX(k: Key, i: nat): int {
    16 * k.cx + i % 16
  }

  function ColumnZ(k: Key, i: nat): int {
    16 * k.cz + i / 16
  }

  lemma TruncParts(a: int, b: int)
    requires b > 0
    ensures TruncRem(a, b) == if a >= 0 then a % b else 0 - (0 - a) % b
  {
  }

  /** Quotient and remainder put any number together again, with the remainder in range, for every positive
      divisor. */
  lemma FloorAndMod(a: int, b: int)
    requires b > 0
    ensures a == b * FloorDiv(a, b) + Mod(a, b) && 0 <= Mod(a, b) < b
  {
    TruncParts(a, b);
    var q := TruncDiv(a, b);
    assert a == b * q + TruncRem(a, b);
    assert b * (q - 1) == b * q - b;
  }

  lemma MultipleIsLarge(b: int, n: int)
    requires b > 0 && n != 0
    ensures b * n >= b || b * n <= 0 - b
  {
  }

  lemma OnlyOneQuotient(b: int, q: int, r: int, q': int, r': int)
    requires b > 0 && b * q + r == b * q' + r' && 0 <= r < b && 0 <= r' < b
    ensures q == q' && r == r'
  {
    if q != q' {
      assert b * (q - q') == r' - r;
      MultipleIsLarge(b, q - q');
    }
  }

  /** No other pair does. */
  lemma FloorAndModUnique(a: int, b: int, q: int, r: int)
    requires b > 0 && a == b * q + r && 0 <= r < b
    ensures q == FloorDiv(a, b) && r == Mod(a, b)
  {
    FloorAndMod(a, b);
    OnlyOneQuotient(b, q, r, FloorDiv(a, b), Mod(a, b));
  }

  lemma FloorOf16(a: int)
    ensures FloorDiv(a, 16) == a / 16 && Mod(a, 16) == a % 16
  {
  }

  /** Columns and (chunk, index) pairs correspond one to one, negative coordinates included. */
  lemma ColumnRoundTrip(x: int, z: int)
    ensures 0 <= IndexOf(x, z) < 256
    ensures ColumnX(KeyOf(x, z), IndexOf(x, z)) == x && ColumnZ(KeyOf(x, z), IndexOf(x, z)) == z
  {
    FloorOf16(x);
    FloorOf16(z);
    var lx, lz := x % 16, z % 16;
    assert (lz * 16 + lx) / 16 == lz && (lz * 16 + lx) % 16 == lx;
  }

  lemma IndexRoundTrip(k: Key, i: nat)
    requires i < 256
    ensures KeyOf(ColumnX(k, i), ColumnZ(k, i)) == k && IndexOf(ColumnX(k, i), ColumnZ(k, i)) == i
  {
    FloorOf16(ColumnX(k, i));
    FloorOf16(ColumnZ(k, i));
  }
}
