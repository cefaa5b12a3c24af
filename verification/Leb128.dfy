/** LEB128 numbers: libdex/Leb128.h and Leb128.cpp. */
module Leb128 {
  type u1 = x: int | 0 <= x < 0x100
  type u2 = x: int | 0 <= x < 0x1_0000
  type u4 = x: int | 0 <= x < 0x1_0000_0000

  /**
   The byte at a position. Behind the end of the file the checking readers look at up to five bytes
   before they refuse; these read as 0 here, which no result depends on.
   */
  function At(file: seq<u1>, i: nat): (b: int)
    ensures 0 <= b < 0x100
  {
    if i < |file| then file[i] else 0
  }

  /** Bytes of the number at pos: up to the first without a high bit, five at most. */
  function Size(file: seq<u1>, pos: nat): (n: nat)
    ensures 1 <= n <= 5
  {
    if At(file, pos) <= 0x7f then 1
    else if At(file, pos + 1) <= 0x7f then 2
    else if At(file, pos + 2) <= 0x7f then 3
    else if At(file, pos + 3) <= 0x7f then 4
    else 5
  }

  /** The low seven bits of n bytes, the first byte least significant. */
  function Bits(file: seq<u1>, pos: nat, n: nat): (r: nat)
    requires 1 <= n <= 5
    ensures n <= 4 ==> r < 0x1000_0000
  {
    At(file, pos) % 0x80
    + (if n > 1 then At(file, pos + 1) % 0x80 * 0x80 else 0)
    + (if n > 2 then At(file, pos + 2) % 0x80 * 0x4000 else 0)
    + (if n > 3 then At(file, pos + 3) % 0x80 * 0x20_0000 else 0)
    + (if n > 4 then At(file, pos + 4) % 0x80 * 0x1000_0000 else 0)
  }

  function Unsigned(file: seq<u1>, pos: nat): u4 {
    Bits(file, pos, Size(file, pos)) % 0x1_0000_0000
  }

  /** 2^(7n). */
  function Span(n: nat): nat
    requires 1 <= n <= 4
  {
    if n == 1 then 0x80 else if n == 2 then 0x4000 else if n == 3 then 0x20_0000 else 0x1000_0000
  }

  /** A number of b bits' worth, the top one of them the sign. */
  function Extended(x: nat, span: nat): int {
    if x < span / 2 then x else x - span
  }

  function Signed(file: seq<u1>, pos: nat): int {
    var n := Size(file, pos);
    var b := Bits(file, pos, n);
    if n == 5 then Extended(b % 0x1_0000_0000, 0x1_0000_0000) else Extended(b, Span(n))
  }

  function Next(file: seq<u1>, pos: nat): nat {
    pos + Size(file, pos)
  }

  /** What the verifying readers insist on: no byte behind the end, no bits beyond 32. */
  predicate Valid(file: seq<u1>, pos: nat) {
    Next(file, pos) <= |file| && (Size(file, pos) == 5 ==> At(file, pos + 4) <= 0x0f)
  }

  /** The fifth byte fills up the 32 bits; what it has beyond them is dropped. */
  lemma Fifth(low: nat, cur: nat)
    requires low < 0x1000_0000 && cur < 0x100
    ensures (low + cur % 0x80 * 0x1000_0000) % 0x1_0000_0000 == low + cur % 0x10 * 0x1000_0000
  {
    assert cur % 0x80 == cur / 0x10 % 8 * 0x10 + cur % 0x10;
  }

  lemma Small(low: nat)
    requires low < 0x1000_0000
    ensures low % 0x1_0000_0000 == low
  {
  }

  /** readUnsignedLeb128. */
  method ReadUnsigned(file: seq<u1>, pos: nat) returns (result: u4, ptr: nat)
    ensures result == Unsigned(file, pos) && ptr == Next(file, pos)
  {
    var r, n, last := ReadBits(file, pos);
    ptr := pos + n;
    if n == 5 {
      Fifth(r, last);
      r := r + last % 0x10 * 0x1000_0000;
    } else {
      Small(r);
    }
    result := r;
  }

  /** The chain of reads that both readers make; the fifth byte is left to them. */
  method ReadBits(file: seq<u1>, pos: nat) returns (r: nat, n: nat, last: nat)
    ensures n == Size(file, pos) && last == At(file, pos + n - 1) && r < 0x1000_0000
    ensures if n == 5 then Bits(file, pos, 5) == r + last % 0x80 * 0x1000_0000 else r == Bits(file, pos, n)
  {
    hide At;
    var cur: int := At(file, pos);
    r, n := cur % 0x80, 1;
    if cur > 0x7f {
      cur, n := At(file, pos + 1), 2;
      r := r + cur % 0x80 * 0x80;
      if cur > 0x7f {
        cur, n := At(file, pos + 2), 3;
        r := r + cur % 0x80 * 0x4000;
        if cur > 0x7f {
          cur, n := At(file, pos + 3), 4;
          r := r + cur % 0x80 * 0x20_0000;
          if cur > 0x7f {
            cur, n := At(file, pos + 4), 5;
          }
        }
      }
    }
    last := cur;
  }

  /** readSignedLeb128. */
  method ReadSigned(file: seq<u1>, pos: nat) returns (result: int, ptr: nat)
    ensures result == Signed(file, pos) && ptr == Next(file, pos)
  {
    var r, n, last := ReadBits(file, pos);
    ptr := pos + n;
    var x: int := r;
    result := x;
    if n == 5 {
      Fifth(r, last);
      result := r + last % 0x10 * 0x1000_0000;
      if result >= 0x8000_0000 {
        result := result - 0x1_0000_0000;
      }
    } else if n == 1 {
      result := if r < 0x40 then x else x - 0x80;
    } else if n == 2 {
      result := if r < 0x2000 then x else x - 0x4000;
    } else if n == 3 {
      result := if r < 0x10_0000 then x else x - 0x20_0000;
    } else {
      result := if r < 0x800_0000 then x else x - 0x1000_0000;
    }
  }

  /** readAndVerifyUnsignedLeb128. */
  method ReadAndVerifyUnsigned(file: seq<u1>, pos: nat, okay: bool) returns (result: u4, ptr: nat, still: bool)
    ensures result == Unsigned(file, pos) && ptr == Next(file, pos)
    ensures still == (okay && Valid(file, pos))
  {
    result, ptr := ReadUnsigned(file, pos);
    still := okay;
    if ptr > |file| || (ptr - pos == 5 && At(file, pos + 4) > 0x0f) {
      still := false;
    }
  }

  /** readAndVerifySignedLeb128. */
  method ReadAndVerifySigned(file: seq<u1>, pos: nat, okay: bool) returns (result: int, ptr: nat, still: bool)
    ensures result == Signed(file, pos) && ptr == Next(file, pos)
    ensures still == (okay && Valid(file, pos))
  {
    result, ptr := ReadSigned(file, pos);
    still := okay;
    if ptr > |file| || (ptr - pos == 5 && At(file, pos + 4) > 0x0f) {
      still := false;
    }
  }

  /* ---- writing ---- */

  /** The bytes of a number, as few as possible. */
  function Encoded(x: u4): (b: seq<u1>)
    ensures 1 <= |b| <= 5
    decreases x
  {
    EncodedSize(x);
    Digits(x)
  }

  function Digits(x: nat): seq<u1>
    decreases x
  {
    if x < 0x80 then [x] else [x % 0x80 + 0x80] + Digits(x / 0x80)
  }

  lemma EncodedSize(x: u4)
    ensures 1 <= |Digits(x)| <= 5
  {
    var a := x / 0x80;
    var b := a / 0x80;
    var c := b / 0x80;
    var d := c / 0x80;
    assert d < 0x10 && |Digits(d)| == 1;
    assert |Digits(c)| <= 2;
    assert |Digits(b)| <= 3;
    assert |Digits(a)| <= 4;
  }

  /** unsignedLeb128Size. */
  method UnsignedSize(data: u4) returns (count: nat)
    ensures count == |Encoded(data)|
  {
    var rest: nat := data / 0x80;
    count := 1;
    while rest != 0
      invariant rest > 0 ==> |Digits(data)| == count + |Digits(rest)|
      invariant rest == 0 ==> |Digits(data)| == count
      decreases rest
    {
      rest := rest / 0x80;
      count := count + 1;
    }
  }

  /** writeUnsignedLeb128. */
  method WriteUnsigned(out: array<u1>, ptr: nat, data: u4) returns (end: nat)
    requires ptr + |Encoded(data)| <= out.Length
    modifies out
    ensures end == ptr + |Encoded(data)|
    ensures forall k | 0 <= k < out.Length :: out[k] == if ptr <= k < end then Encoded(data)[k - ptr] else old(out[k])
  {
    ghost var digits := Encoded(data);
    assert digits == Digits(data) && digits[0..] == digits;
    hide Encoded;
    end := ptr;
    var rest: nat := data;
    while rest >= 0x80
      invariant ptr <= end && end - ptr + |Digits(rest)| == |digits| && Digits(rest) == digits[end - ptr..]
      invariant forall k | 0 <= k < out.Length :: out[k] == if ptr <= k < end then digits[k - ptr] else old(out[k])
      decreases rest
    {
      out[end] := rest % 0x80 + 0x80;
      end := end + 1;
      rest := rest / 0x80;
    }
    out[end] := rest;
    end := end + 1;
  }

  /** What is written reads back, in as many bytes, and passes the verifying reader. */
  lemma RoundTrip(file: seq<u1>, pos: nat, x: u4)
    requires pos + |Encoded(x)| <= |file| && file[pos..pos + |Encoded(x)|] == Encoded(x)
    ensures Size(file, pos) == |Encoded(x)| && Unsigned(file, pos) == x && Valid(file, pos)
  {
    hide *;
    var e := Encoded(x);
    forall k | 0 <= k < |e|
      ensures At(file, pos + k) == e[k]
    {
      assert file[pos..pos + |e|][k] == file[pos + k];
      AtIs(file, pos + k);
    }
    var d := EncodedDigits(x);
    ReadsBack(file, pos, d);
  }

  /** The digits behind the bytes. */
  lemma EncodedDigits(x: u4) returns (d: seq<nat>)
    ensures 1 <= |d| <= 5 && |d| == |Encoded(x)| && (|d| == 5 ==> d[4] < 0x10)
    ensures forall i | 0 <= i < |d| :: d[i] < 0x80 && Encoded(x)[i] == if i == |d| - 1 then d[i] else d[i] + 0x80
    ensures Number(d) == x && x % 0x1_0000_0000 == x
  {
    EncodedBytes(x);
    Parts(x);
    hide Encoded;
    var a := x / 0x80;
    var b := a / 0x80;
    var c := b / 0x80;
    d := if x < 0x80 then [x]
      else if a < 0x80 then [x % 0x80, a]
      else if b < 0x80 then [x % 0x80, a % 0x80, b]
      else if c < 0x80 then [x % 0x80, a % 0x80, b % 0x80, c]
      else [x % 0x80, a % 0x80, b % 0x80, c % 0x80, c / 0x80];
  }

  lemma AtIs(file: seq<u1>, i: nat)
    requires i < |file|
    ensures At(file, i) == file[i]
  {
  }

  /** The number with these digits to base 128. */
  function Number(d: seq<nat>): nat
    requires 1 <= |d| <= 5
  {
    d[0]
    + (if |d| > 1 then d[1] * 0x80 else 0)
    + (if |d| > 2 then d[2] * 0x4000 else 0)
    + (if |d| > 3 then d[3] * 0x20_0000 else 0)
    + (if |d| > 4 then d[4] * 0x1000_0000 else 0)
  }

  lemma Low(d: nat)
    requires d < 0x80
    ensures (d + 0x80) % 0x80 == d && d % 0x80 == d
  {
  }

  lemma ReadsBack(file: seq<u1>, pos: nat, d: seq<nat>)
    requires 1 <= |d| <= 5 && pos + |d| <= |file| && (|d| == 5 ==> d[4] < 0x10)
    requires forall i | 0 <= i < |d| :: d[i] < 0x80 && At(file, pos + i) == if i == |d| - 1 then d[i] else d[i] + 0x80
    ensures Size(file, pos) == |d| && Unsigned(file, pos) == Number(d) % 0x1_0000_0000 && Valid(file, pos)
  {
    hide At, Number, Unsigned;
    assert At(file, pos) == At(file, pos + 0);
    assert At(file, pos + 0) == if |d| == 1 then d[0] else d[0] + 0x80;
    assert |d| > 1 ==> At(file, pos + 1) == if |d| == 2 then d[1] else d[1] + 0x80;
    assert |d| > 2 ==> At(file, pos + 2) == if |d| == 3 then d[2] else d[2] + 0x80;
    assert |d| > 3 ==> At(file, pos + 3) == if |d| == 4 then d[3] else d[3] + 0x80;
    assert |d| > 4 ==> At(file, pos + 4) == d[4];
    assert Size(file, pos) == |d|;
    BitsAre(file, pos, d);
    UnsignedIs(file, pos);
  }

  lemma UnsignedIs(file: seq<u1>, pos: nat)
    ensures Unsigned(file, pos) == Bits(file, pos, Size(file, pos)) % 0x1_0000_0000
  {
    hide Bits, Size;
  }

  lemma BitsAre(file: seq<u1>, pos: nat, d: seq<nat>)
    requires 1 <= |d| <= 5
    requires forall i | 0 <= i < |d| :: d[i] < 0x80 && At(file, pos + i) == if i == |d| - 1 then d[i] else d[i] + 0x80
    ensures Bits(file, pos, |d|) == Number(d)
  {
    hide At;
    forall i | 0 <= i < |d|
      ensures At(file, pos + i) % 0x80 == d[i]
    {
      Low(d[i]);
    }
    assert At(file, pos) == At(file, pos + 0);
  }

  lemma Parts(x: u4)
    ensures var a := x / 0x80; var b := a / 0x80; var c := b / 0x80;
      && c / 0x80 < 0x10
      && x == x % 0x80 + a % 0x80 * 0x80 + b % 0x80 * 0x4000 + c % 0x80 * 0x20_0000 + c / 0x80 * 0x1000_0000
  {
  }

  lemma EncodedBytes(x: u4)
    ensures var e, a := Encoded(x), x / 0x80; var b := a / 0x80; var c := b / 0x80; var d := c / 0x80;
      e == if x < 0x80 then [x]
           else if a < 0x80 then [x % 0x80 + 0x80, a]
           else if b < 0x80 then [x % 0x80 + 0x80, a % 0x80 + 0x80, b]
           else if c < 0x80 then [x % 0x80 + 0x80, a % 0x80 + 0x80, b % 0x80 + 0x80, c]
           else [x % 0x80 + 0x80, a % 0x80 + 0x80, b % 0x80 + 0x80, c % 0x80 + 0x80, d]
  {
    var a := x / 0x80;
    var b := a / 0x80;
    var c := b / 0x80;
    var d := c / 0x80;
    assert d < 0x10 && Digits(d) == [d];
    assert c >= 0x80 ==> Digits(c) == [c % 0x80 + 0x80, d];
    assert b >= 0x80 ==> Digits(b) == [b % 0x80 + 0x80] + Digits(c);
    assert a >= 0x80 ==> Digits(a) == [a % 0x80 + 0x80] + Digits(b);
  }
}
