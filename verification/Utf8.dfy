/**
 UTF-8 text as bytes, and the byte-index boundary test that string slicing relies on
 (section 3 of RFC 3629).
 */
module Utf8 {

  newtype byte = x: int | 0 <= x < 256

  type Text = seq<byte>

  predicate Continuation(b: byte) {
    0x80 <= b < 0xC0
  }

  /** Number of bytes announced by a lead byte; 0 for a byte that cannot lead. */
  function LeadLength(b: byte): (n: nat)
    ensures n <= 4
  {
    if b < 0x80 then 1
    else if 0xC2 <= b < 0xE0 then 2
    else if 0xE0 <= b < 0xF0 then 3
    else if 0xF0 <= b < 0xF5 then 4
    else 0
  }

  /** The second-byte restrictions that exclude overlong forms, surrogates and values past U+10FFFF. */
  predicate SecondByteAllowed(lead: byte, second: byte) {
    && Continuation(second)
    && (lead == 0xE0 ==> second >= 0xA0)
    && (lead == 0xED ==> second < 0xA0)
    && (lead == 0xF0 ==> second >= 0x90)
    && (lead == 0xF4 ==> second < 0x90)
  }

  /** `t` begins with one well-formed character of n bytes. */
  predicate CharAt(t: Text, n: nat) {
    && 0 < n <= |t|
    && LeadLength(t[0]) == n
    && (n >= 2 ==> SecondByteAllowed(t[0], t[1]))
    && (forall k :: 2 <= k < n ==> Continuation(t[k]))
  }

  predicate Valid(t: Text) {
    t == [] || (var n := LeadLength(t[0]); CharAt(t, n) && Valid(t[n..]))
  }

  /** str::is_char_boundary */
  predicate Boundary(t: Text, i: nat) {
    i == 0 || i == |t| || (i < |t| && !Continuation(t[i]))
  }

  /** Cutting valid text at a boundary leaves two valid texts. */
  lemma {:induction false} BoundarySplits(t: Text, i: nat)
    requires Valid(t) && i <= |t| && Boundary(t, i)
    ensures Valid(t[..i]) && Valid(t[i..])
  {
    if i == 0 {
      assert t[..0] == [] && t[0..] == t;
    } else {
      var n := LeadLength(t[0]);
      if i < n {
        assert false;
      }
      var rest := t[n..];
      if i - n < |rest| {
        assert rest[i - n] == t[i];
      }
      BoundarySplits(rest, i - n);
      assert t[..i][n..] == rest[..i - n];
      assert rest[i - n..] == t[i..];
      assert CharAt(t[..i], n);
    }
  }

  lemma {:induction false} ValidConcat(a: Text, b: Text)
    requires Valid(a) && Valid(b)
    ensures Valid(a + b)
  {
    if a == [] {
      assert a + b == b;
    } else {
      var n := LeadLength(a[0]);
      assert (a + b)[n..] == a[n..] + b;
      ValidConcat(a[n..], b);
      assert CharAt(a + b, n);
    }
  }

  /** At most three bytes separate any index of valid text from a boundary, on either side. */
  lemma {:induction false} BoundaryNear(t: Text, i: nat)
    requires Valid(t) && i <= |t|
    ensures exists lo: nat :: lo <= i <= lo + 3 && Boundary(t, lo)
    ensures exists hi: nat :: i <= hi <= i + 3 && hi <= |t| && Boundary(t, hi)
  {
    if i == |t| || i == 0 {
      assert Boundary(t, i);
    } else {
      var n := LeadLength(t[0]);
      if i < n {
        assert Boundary(t, 0);
        if n < |t| {
          assert t[n] == t[n..][0];
        }
        assert Boundary(t, n);
      } else {
        BoundaryNear(t[n..], i - n);
        var lo: nat :| lo <= i - n <= lo + 3 && Boundary(t[n..], lo);
        var hi: nat :| i - n <= hi <= i - n + 3 && hi <= |t[n..]| && Boundary(t[n..], hi);
        BoundaryShift(t, n, lo);
        BoundaryShift(t, n, hi);
      }
    }
  }

  lemma BoundaryShift(t: Text, n: nat, k: nat)
    requires Valid(t) && t != [] && n == LeadLength(t[0]) && n + k <= |t|
    requires Boundary(t[n..], k)
    ensures Boundary(t, n + k)
  {
    if n + k < |t| {
      assert t[n..][k] == t[n + k];
    }
  }

  /** Encoding of one Unicode scalar value. */
  function EncodeChar(c: char): (t: Text)
    ensures Valid(t) && 0 < |t|
  {
    var v := c as int;
    if v < 0x80 then [v as byte]
    else if v < 0x800 then [(0xC0 + v / 0x40) as byte, Trail(v)]
    else if v < 0x10000 then ThreeBytes(v)
    else FourBytes(v)
  }

  function ThreeBytes(v: nat): (t: Text)
    requires 0x800 <= v < 0x10000 && !(0xD800 <= v < 0xE000)
    ensures Valid(t) && |t| == 3
  {
    [(0xE0 + v / 0x1000) as byte, Trail(v / 0x40), Trail(v)]
  }

  function FourBytes(v: nat): (t: Text)
    requires 0x10000 <= v < 0x110000
    ensures Valid(t) && |t| == 4
  {
    [(0xF0 + v / 0x40000) as byte, Trail(v / 0x1000), Trail(v / 0x40), Trail(v)]
  }

  function Trail(v: nat): (b: byte)
    ensures Continuation(b)
  {
    (0x80 + v % 0x40) as byte
  }

  function Encode(s: string): (t: Text)
    ensures Valid(t)
  {
    if s == [] then [] else
      ValidConcat(EncodeChar(s[0]), Encode(s[1..]));
      EncodeChar(s[0]) + Encode(s[1..])
  }
}
