/**
 Circular buffers: the replay ring of the main connection and the out_buf of each client.
 */
module Ring {
  import opened NetBytes

  /** Distance from `pos` forward to `i` in a ring of n cells. */
  function Ahead(n: nat, pos: nat, i: nat): nat
    requires pos < n && i < n
  {
    if i >= pos then i - pos else i + n - pos
  }

  /** The cell `k` places after `pos`. */
  function Cell(n: nat, pos: nat, k: nat): (i: nat)
    requires pos < n && k <= n
    ensures i < n
  {
    if pos + k >= n then pos + k - n else pos + k
  }

  /** What a ring holds after `data` is laid down from `pos` on, wrapping at the end. */
  function Laid(ring: seq<byte>, pos: nat, data: seq<byte>): (r: seq<byte>)
    requires pos < |ring| && |data| <= |ring|
    ensures |r| == |ring|
  {
    seq(|ring|, i requires 0 <= i < |ring| =>
      var k := Ahead(|ring|, pos, i);
      if k < |data| then data[k] else ring[i])
  }

  /** The `size` bytes a ring holds from `pos` on. */
  function Held(ring: seq<byte>, pos: nat, size: nat): (s: seq<byte>)
    requires pos < |ring| && size <= |ring|
    ensures |s| == size
  {
    seq(size, k requires 0 <= k < size => ring[Cell(|ring|, pos, k)])
  }

  /** Laying data down just past what is held appends it, as long as it fits. */
  lemma LaidAppends(ring: seq<byte>, pos: nat, size: nat, data: seq<byte>)
    requires pos < |ring| && size + |data| <= |ring|
    requires data != []
    ensures Held(Laid(ring, Cell(|ring|, pos, size), data), pos, size + |data|) == Held(ring, pos, size) + data
  {
  }

  /** Dropping the first bytes that are held moves the start. */
  lemma HeldDrop(ring: seq<byte>, pos: nat, size: nat, k: nat)
    requires pos < |ring| && k <= size <= |ring|
    ensures Held(ring, Cell(|ring|, pos, k), size - k) == Held(ring, pos, size)[k..]
  {
  }

  /**
   Copies `wdata` into the ring behind the `csz` bytes that start at `opos`, splitting at the wrap
   point. With `rotsz` the size itself is a position and wraps too.
   */
  method WriteCbuf(cdata: array<byte>, opos: nat, csz: nat, wdata: seq<byte>, rotsz: bool) returns (nsz: nat)
    requires opos < cdata.Length && csz <= cdata.Length && |wdata| <= cdata.Length
    requires if rotsz then csz < cdata.Length else csz + |wdata| <= cdata.Length
    modifies cdata
    ensures cdata[..] == Laid(old(cdata[..]), Cell(cdata.Length, opos, csz), wdata)
    ensures nsz == if rotsz && csz + |wdata| >= cdata.Length then csz + |wdata| - cdata.Length else csz + |wdata|
  {
    nsz := csz;
    var done := 0;
    ghost var was := cdata[..];
    ghost var at := Cell(cdata.Length, opos, csz);
    while done < |wdata|
      invariant 0 <= done <= |wdata|
      invariant nsz == if rotsz && csz + done >= cdata.Length then csz + done - cdata.Length else csz + done
      invariant cdata[..] == Laid(was, at, wdata[..done])
    {
      var cpos := opos + nsz;
      if cpos >= cdata.Length {
        cpos := cpos - cdata.Length;
      }
      assert cpos == Cell(cdata.Length, at, done);
      var amt := cdata.Length - cpos;
      if |wdata| - done < amt {
        amt := |wdata| - done;
      }
      forall i | 0 <= i < amt {
        cdata[cpos + i] := wdata[done + i];
      }
      done := done + amt;
      nsz := nsz + amt;
      if rotsz && nsz >= cdata.Length {
        nsz := nsz - cdata.Length;
      }
      assert cdata[..] == Laid(was, at, wdata[..done]);
    }
    assert wdata[..done] == wdata;
  }
}
