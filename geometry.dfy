/** Values shared by the whole model: vectors, integer triples, and the
    string keys under which the voxel world files its chunks. */
module Geometry {

  datatype Option<T> = None | Some(value: T)

  /** A point or a direction. Exact reals stand for JavaScript's doubles. */
  datatype Vec3 = Vec3(x: real, y: real, z: real)

  /** An integer triple: the coordinates of a chunk, or a voxel's position inside one. */
  datatype Coord3 = Coord3(x: int, y: int, z: int)

  /** The point `k` units back from `a` along the direction `d`, i.e. `a - k * d`. */
  function Retreat(a: Vec3, d: Vec3, k: real): Vec3
  {
    Vec3(a.x - k * d.x, a.y - k * d.y, a.z - k * d.z)
  }

  predicate IsDigit(c: char)
  {
    '0' <= c <= '9'
  }

  function DigitChar(n: nat): (c: char)
    requires n < 10
    ensures IsDigit(c)
  {
    (48 + n) as char
  }

  /** Decimal text of a natural number, without leading zeros, as
      JavaScript writes an integral number below 1e21. */
  function NatToString(n: nat): (s: string)
    ensures |s| >= 1 && forall i :: 0 <= i < |s| ==> IsDigit(s[i])
    ensures (|s| == 1) == (n < 10)
    ensures s[0] == '0' ==> n == 0
    decreases n
  {
    if n < 10 then [DigitChar(n)] else NatToString(n / 10) + [DigitChar(n % 10)]
  }

  /** Decimal text of an integer: a minus sign before the digits of a negative one. */
  function IntToString(i: int): (s: string)
    ensures |s| >= 1 && '|' !in s
    ensures (s[0] == '-') == (i < 0)
  {
    if i < 0 then "-" + NatToString(-i) else NatToString(i)
  }

  /** The chunk key `c.join('|')`: the three coordinates joined by bars, as in "0|-1|2". */
  function JoinKey(c: Coord3): string
  {
    IntToString(c.x) + "|" + IntToString(c.y) + "|" + IntToString(c.z)
  }

  lemma {:induction false} NatToStringInjective(a: nat, b: nat)
    requires NatToString(a) == NatToString(b)
    ensures a == b
    decreases a
  {
    if a >= 10 && b >= 10 {
      var sa, sb := NatToString(a), NatToString(b);
      assert sa == NatToString(a / 10) + [DigitChar(a % 10)];
      assert sb == NatToString(b / 10) + [DigitChar(b % 10)];
      assert DigitChar(a % 10) == sa[|sa| - 1] == sb[|sb| - 1] == DigitChar(b % 10);
      assert NatToString(a / 10) == sa[..|sa| - 1] == sb[..|sb| - 1] == NatToString(b / 10);
      NatToStringInjective(a / 10, b / 10);
    }
  }

  lemma {:induction false} IntToStringInjective(a: int, b: int)
    requires IntToString(a) == IntToString(b)
    ensures a == b
  {
    var sa, sb := IntToString(a), IntToString(b);
    if a < 0 {
      assert b < 0;
      assert NatToString(-a) == sa[1..] == sb[1..] == NatToString(-b);
      NatToStringInjective(-a, -b);
    } else {
      assert b >= 0;
      NatToStringInjective(a, b);
    }
  }

  /** In `u + "|" + r` with no bar in `u`, the first bar sits right after `u`. */
  lemma FirstBar(u: string, r: string)
    requires '|' !in u
    ensures (u + "|" + r)[|u|] == '|'
    ensures forall i :: 0 <= i < |u| ==> (u + "|" + r)[i] != '|'
  {
  }

  lemma {:induction false} SplitAtFirstBar(u1: string, r1: string, u2: string, r2: string)
    requires '|' !in u1 && '|' !in u2
    requires u1 + "|" + r1 == u2 + "|" + r2
    ensures u1 == u2 && r1 == r2
  {
    var s := u1 + "|" + r1;
    FirstBar(u1, r1);
    FirstBar(u2, r2);
    assert |u1| == |u2|;
    assert u1 == s[..|u1|] == u2;
    assert r1 == s[|u1| + 1..] == r2;
  }

  /** Distinct chunk coordinates never share a key, so the string-keyed
      chunk table addresses chunks exactly as a table keyed by coordinates would. */
  lemma {:induction false} JoinKeyInjective(a: Coord3, b: Coord3)
    requires JoinKey(a) == JoinKey(b)
    ensures a == b
  {
    var sax, say, saz := IntToString(a.x), IntToString(a.y), IntToString(a.z);
    var sbx, sby, sbz := IntToString(b.x), IntToString(b.y), IntToString(b.z);
    assert JoinKey(a) == sax + "|" + (say + "|" + saz);
    assert JoinKey(b) == sbx + "|" + (sby + "|" + sbz);
    SplitAtFirstBar(sax, say + "|" + saz, sbx, sby + "|" + sbz);
    SplitAtFirstBar(say, saz, sby, sbz);
    IntToStringInjective(a.x, b.x);
    IntToStringInjective(a.y, b.y);
    IntToStringInjective(a.z, b.z);
  }
}
