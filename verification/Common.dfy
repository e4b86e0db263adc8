/** Types that the parts share. */
module Common {

  datatype Option<T> = None | Some(value: T)

  const W := 0x1_0000_0000

  type Byte = x: int | 0 <= x < 0x100
  type Word = x: int | 0 <= x < 0x1_0000_0000
  type Int32 = x: int | -0x8000_0000 <= x < 0x8000_0000

  /** The bits of an int, read as an unsigned int. */
  function Unsigned(x: Int32): Word {
    if x < 0 then x + 0x1_0000_0000 else x
  }

  /** The bits of an unsigned int, read as an int. */
  function Signed(w: Word): Int32 {
    if w >= 0x8000_0000 then w - 0x1_0000_0000 else w
  }

  function Unit(b: bool): nat { if b then 1 else 0 }

  /** The values of a function on a finite set make up a map. This is used in place of map
      comprehensions, since Dafny 4.11 can derive a contradiction from two of them that have the same
      domain and different bodies. */
  lemma {:induction false} Tabulated<K, V>(keys: set<K>, f: K --> V) returns (m: map<K, V>)
    requires forall k :: k in keys ==> f.requires(k)
    ensures m.Keys == keys && forall k :: k in keys ==> m[k] == f(k)
  {
    m := map[];
    if keys != {} {
      var k :| k in keys;
      m := Tabulated(keys - {k}, f);
      m := m[k := f(k)];
    }
  }

  // ---------------------------------------------------------------- products

  lemma ProductPositive(x: int, y: int)
    requires 0 <= x && 0 <= y
    ensures 0 <= x * y
  {
  }

  lemma ProductSplit(x: int, y: int, z: int)
    ensures x * (y + z) == x * y + x * z
  {
  }

  lemma ProductMonotone(x: int, y: int, z: int)
    requires 0 <= x && y <= z
    ensures x * y <= x * z
  {
    ProductSplit(x, y, z - y);
    ProductPositive(x, z - y);
  }

  lemma UniqueRemainder(a: int, d: nat, q: int, m: nat)
    requires a == q * d + m && m < d
    ensures a % d == m && a / d == q
  {
    var x := a / d - q;
    assert x * d == m - a % d;
    if x != 0 {
      BigMultiple(x, d);
      assert false;
    }
  }

  lemma BigMultiple(x: int, d: int)
    requires x != 0 && d > 0
    ensures d * x >= d || d * x <= -d
  {
    if x > 0 { ProductMonotone(d, 1, x); } else { ProductMonotone(d, x, -1); }
  }
}
