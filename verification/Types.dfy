/** The value types shared by the whole simulation: the integer grid vector
    `int2` and the entity enumerations. */
module Types {

  /** A grid coordinate or offset. Coordinates are unbounded here; the
      32-bit view is only needed for the hash code. */
  datatype Int2 = Int2(x: int, y: int)

  const Zero: Int2 := Int2(0, 0)

  function Add(a: Int2, b: Int2): (r: Int2)
    ensures Sub(r, b) == a
  {
    Int2(a.x + b.x, a.y + b.y)
  }

  function Sub(a: Int2, b: Int2): (r: Int2)
  {
    Int2(a.x - b.x, a.y - b.y)
  }

  function Scale(a: Int2, k: int): (r: Int2)
    ensures k == 1 ==> r == a
    ensures k == 0 ==> r == Zero
  {
    Int2(a.x * k, a.y * k)
  }

  /** The `==` operator of int2. */
  predicate Eq(a: Int2, b: Int2)
  {
    a.x == b.x && a.y == b.y
  }

  /** The `!=` operator of int2. */
  predicate NotEq(a: Int2, b: Int2)
  {
    !Eq(a, b)
  }

  /** What `Equals(object)` may be handed: a boxed int2 or anything else. */
  datatype Boxed = BoxedInt2(v: Int2) | OtherObject

  predicate EqualsObject(a: Int2, o: Boxed)
  {
    o.BoxedInt2? && Eq(a, o.v)
  }

  /** The component-wise `==` is exactly structural equality, `!=` its
      negation, and `Equals(object)` holds only for a boxed equal value. */
  lemma EqualityAgrees(a: Int2, b: Int2, o: Boxed)
    ensures Eq(a, b) <==> a == b
    ensures NotEq(a, b) <==> a != b
    ensures EqualsObject(a, o) <==> o == BoxedInt2(a)
  {
  }

  /** `Zero` is the identity of `+`, and `-` undoes `+`. */
  lemma AddZeroSubInverse(a: Int2, b: Int2)
    ensures Add(a, Zero) == a && Add(Zero, a) == a
    ensures Sub(Add(a, b), b) == a
    ensures Add(Sub(a, b), b) == a
  {
  }

  /** `a * k` scales both components, so it distributes over `+`. */
  lemma ScaleDistributes(a: Int2, b: Int2, k: int)
    ensures Scale(Add(a, b), k) == Add(Scale(a, k), Scale(b, k))
  {
    assert (a.x + b.x) * k == a.x * k + b.x * k;
    assert (a.y + b.y) * k == a.y * k + b.y * k;
  }

  // ---------------------------------------------------------------------
  // Hash code `x ^ y` on 32-bit two's complement integers. Bitwise
  // exclusive or is defined on the unsigned bit patterns, one bit at a time.

  const TwoTo31: int := 0x8000_0000
  const TwoTo32: int := 0x1_0000_0000

  predicate IsInt32(v: int)
  {
    -TwoTo31 <= v < TwoTo31
  }

  /** The two's complement bit pattern of a 32-bit integer, read unsigned. */
  function Unsigned(v: int): (u: nat)
    requires IsInt32(v)
    ensures u < TwoTo32
    ensures Signed(u) == v
  {
    if v < 0 then v + TwoTo32 else v
  }

  /** The 32-bit integer whose bit pattern, read unsigned, is `u`. */
  function Signed(u: nat): (v: int)
    requires u < TwoTo32
    ensures IsInt32(v)
  {
    if u < TwoTo31 then u else u - TwoTo32
  }

  function Pow2(k: nat): (p: nat)
    ensures p >= 1
  {
    if k == 0 then 1 else 2 * Pow2(k - 1)
  }

  /** Bitwise exclusive or of two unsigned bit patterns. */
  function Xor(a: nat, b: nat): nat
    decreases a + b
  {
    if a == 0 && b == 0 then 0
    else 2 * Xor(a / 2, b / 2) + (if a % 2 != b % 2 then 1 else 0)
  }

  lemma {:induction false} XorCommutes(a: nat, b: nat)
    ensures Xor(a, b) == Xor(b, a)
    decreases a + b
  {
    if a != 0 || b != 0 {
      XorCommutes(a / 2, b / 2);
    }
  }

  /** The exclusive or of two patterns is zero exactly when they are equal. */
  lemma {:induction false} XorZeroIffEqual(a: nat, b: nat)
    ensures Xor(a, b) == 0 <==> a == b
    decreases a + b
  {
    if a != 0 || b != 0 {
      XorZeroIffEqual(a / 2, b / 2);
      if Xor(a, b) == 0 {
        assert a / 2 == b / 2 && a % 2 == b % 2;
      }
    }
  }

  /** Exclusive or of two k-bit patterns is a k-bit pattern. */
  lemma {:induction false} XorBound(a: nat, b: nat, k: nat)
    requires a < Pow2(k) && b < Pow2(k)
    ensures Xor(a, b) < Pow2(k)
    decreases k
  {
    if k > 0 && (a != 0 || b != 0) {
      XorBound(a / 2, b / 2, k - 1);
    }
  }

  lemma {:induction false} Pow2Add(a: nat, b: nat)
    ensures Pow2(a + b) == Pow2(a) * Pow2(b)
    decreases a
  {
    if a > 0 {
      Pow2Add(a - 1, b);
    }
  }

  lemma Pow2Of32()
    ensures Pow2(32) == TwoTo32
  {
    assert Pow2(2) == 4;
    Pow2Add(2, 2);
    Pow2Add(4, 4);
    Pow2Add(8, 8);
    Pow2Add(16, 16);
  }

  function HashCode(a: Int2): (h: int)
    requires IsInt32(a.x) && IsInt32(a.y)
    ensures IsInt32(h)
  {
    Pow2Of32();
    XorBound(Unsigned(a.x), Unsigned(a.y), 32);
    Signed(Xor(Unsigned(a.x), Unsigned(a.y)))
  }

  /** Equal values hash alike, the hash ignores the order of the components,
      and it is zero exactly on the diagonal `x == y`. */
  lemma HashCodeProperties(a: Int2, b: Int2)
    requires IsInt32(a.x) && IsInt32(a.y) && IsInt32(b.x) && IsInt32(b.y)
    ensures Eq(a, b) ==> HashCode(a) == HashCode(b)
    ensures HashCode(a) == HashCode(Int2(a.y, a.x))
    ensures HashCode(a) == 0 <==> a.x == a.y
  {
    var ux, uy := Unsigned(a.x), Unsigned(a.y);
    XorCommutes(ux, uy);
    XorZeroIffEqual(ux, uy);
    assert Signed(ux) == a.x && Signed(uy) == a.y;
    Pow2Of32();
    XorBound(ux, uy, 32);
    assert HashCode(a) == Signed(Xor(ux, uy));
  }

  // ---------------------------------------------------------------------
  // Entity enumerations.

  datatype UnitType = Worker | Soldier

  datatype BuildingType =
    | NoBuilding | Base | Barracks | House | Farm | StonePit | WoodCutter | Tower | Wall

  datatype TaskType = Idle | Moving | Gathering | Building | Training | Attacking | Dead

  datatype ResourceType = NoResource | Wood | Stone | Meat

  datatype TileType = GrassTile | WaterTile | ForestTile | StoneTile | MeatBushTile
}
