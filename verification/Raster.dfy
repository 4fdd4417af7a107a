/** The bit packing of `src/raster.c`: a window of a scanline centred in the 128-dot head. */
module Raster {
  import opened Bytes

  /** C's `(v >> k) & 1`. */
  predicate Bit(v: nat, k: nat) {
    if k == 0 then v % 2 == 1 else Bit(v / 2, k - 1)
  }

  lemma ZeroHasNoBits(k: nat)
    ensures !Bit(0, k)
  {}

  function Pow2(n: nat): nat {
    if n == 0 then 1 else 2 * Pow2(n - 1)
  }

  /** The number with the given bits, lowest first. */
  function FromBits(bits: seq<bool>): (v: nat)
    ensures v < Pow2(|bits|)
  {
    if bits == [] then 0 else (if bits[0] then 1 else 0) + 2 * FromBits(bits[1..])
  }

  lemma {:induction false} FromBitsHasThem(bits: seq<bool>, k: nat)
    requires k < |bits|
    ensures Bit(FromBits(bits), k) == bits[k]
  {
    assert FromBits(bits) / 2 == FromBits(bits[1..]);
    if k > 0 {
      FromBitsHasThem(bits[1..], k - 1);
    }
  }

  lemma {:induction false} BitsDetermine(a: nat, b: nat, n: nat)
    requires a < Pow2(n) && b < Pow2(n)
    requires forall k :: 0 <= k < n ==> Bit(a, k) == Bit(b, k)
    ensures a == b
  {
    if n > 0 {
      assert Bit(a, 0) == Bit(b, 0);
      forall k | 0 <= k < n - 1 ensures Bit(a / 2, k) == Bit(b / 2, k) {
        assert Bit(a, k + 1) == Bit(b, k + 1);
      }
      BitsDetermine(a / 2, b / 2, n - 1);
    }
  }

  lemma ByteRange()
    ensures Pow2(8) == 256
  {
    assert Pow2(4) == 16;
  }

  /** A byte with the given bits, lowest first. */
  function ByteOf(bits: seq<bool>): (b: byte)
    requires |bits| == 8
    ensures forall k :: 0 <= k < 8 ==> Bit(b, k) == bits[k]
  {
    ByteRange();
    assert forall k :: 0 <= k < 8 ==> Bit(FromBits(bits), k) == bits[k] by {
      forall k | 0 <= k < 8 ensures Bit(FromBits(bits), k) == bits[k] {
        FromBitsHasThem(bits, k);
      }
    }
    FromBits(bits)
  }

  lemma BitsDetermineByte(a: byte, b: byte)
    requires forall k :: 0 <= k < 8 ==> Bit(a, k) == Bit(b, k)
    ensures a == b
  {
    ByteRange();
    BitsDetermine(a, b, 8);
  }

  /** C's `b | (1 << k)` on a byte. */
  function WithBit(b: byte, k: nat): (r: byte)
    requires k < 8
    ensures forall j :: 0 <= j < 8 ==> Bit(r, j) == (j == k || Bit(b, j))
  {
    ByteOf(seq(8, j requires 0 <= j < 8 => j == k || Bit(b, j)))
  }

  /** Pixel `s` of a packed scanline, most significant bit first. */
  predicate Pixel(line: seq<byte>, s: nat)
    requires s < 8 * |line|
  {
    Bit(line[s / 8], 7 - s % 8)
  }

  /** Dot `p` of a head row; dot 0 is the lowest bit of the last byte. */
  predicate Dot(row: Row, p: nat)
    requires p < 128
  {
    Bit(row[15 - p / 8], p % 8)
  }

  /** Where the window starts on the head. */
  function Offset(width: nat): nat
    requires width <= 128
  {
    (128 - width) / 2
  }

  /** The head dot `p` shows: the window's pixel there, or nothing. */
  predicate Window(line: seq<byte>, start: nat, width: nat, p: nat)
    requires width <= 128 && start + width <= 8 * |line|
  {
    Offset(width) <= p < Offset(width) + width && Pixel(line, start + p - Offset(width))
  }

  predicate Shows(row: Row, line: seq<byte>, start: nat, width: nat)
    requires width <= 128 && start + width <= 8 * |line|
  {
    forall p :: 0 <= p < 128 ==> Dot(row, p) == Window(line, start, width, p)
  }

  method PackWindow(out: array<byte>, line: seq<byte>, start: nat, width: nat)
    requires out.Length == 16
    requires width <= 128 && start + width <= 8 * |line|
    modifies out
    ensures Shows(out[..], line, start, width)
  {
    for j := 0 to 16
      invariant forall i :: 0 <= i < j ==> out[i] == 0
    {
      out[j] := 0;
    }
    forall p | 0 <= p < 128 ensures !Dot(out[..], p) {
      ZeroHasNoBits(p % 8);
    }
    var offset := (128 - width) / 2;
    for i := 0 to width
      invariant forall p :: 0 <= p < 128 ==> Dot(out[..], p) == (p < offset + i && Window(line, start, width, p))
    {
      var s := start + i;
      var p := offset + i;
      if Bit(line[s / 8], 7 - s % 8) {
        ghost var was: Row := out[..];
        out[15 - p / 8] := WithBit(out[15 - p / 8], p % 8);
        forall q | 0 <= q < 128 ensures Dot(out[..], q) == (q == p || Dot(was, q)) {
          assert 15 - q / 8 == 15 - p / 8 && q % 8 == p % 8 ==> q == p;
        }
      }
      assert Window(line, start, width, p) == Bit(line[s / 8], 7 - s % 8);
    }
  }

  lemma DotsDetermineRow(a: Row, b: Row)
    requires forall p :: 0 <= p < 128 ==> Dot(a, p) == Dot(b, p)
    ensures a == b
  {
    forall i | 0 <= i < 16 ensures a[i] == b[i] {
      forall k | 0 <= k < 8 ensures Bit(a[i], k) == Bit(b[i], k) {
        var p := (15 - i) * 8 + k;
        assert p / 8 == 15 - i && p % 8 == k;
        assert Dot(a, p) == Dot(b, p);
      }
      BitsDetermineByte(a[i], b[i]);
    }
  }

  /** The one row that shows a window. */
  ghost function Packed(line: seq<byte>, start: nat, width: nat): (row: Row)
    requires width <= 128 && start + width <= 8 * |line|
    ensures Shows(row, line, start, width)
  {
    var row := seq(16, i requires 0 <= i < 16 => WindowByte(line, start, width, (15 - i) * 8));
    assert forall p :: 0 <= p < 128 ==> p == (15 - (15 - p / 8)) * 8 + p % 8;
    row
  }

  /** Eight consecutive head dots from `p`. */
  ghost function WindowByte(line: seq<byte>, start: nat, width: nat, p: nat): (b: byte)
    requires width <= 128 && start + width <= 8 * |line| && p + 8 <= 128
    ensures forall k :: 0 <= k < 8 ==> Bit(b, k) == Window(line, start, width, p + k)
  {
    ByteOf(seq(8, k requires 0 <= k < 8 => Window(line, start, width, p + k)))
  }

  /** Packing is a function of the window alone, and the window can be read back from the row. */
  lemma WindowRecovered(a: seq<byte>, b: seq<byte>, start: nat, width: nat)
    requires width <= 128 && start + width <= 8 * |a| && start + width <= 8 * |b|
    ensures Packed(a, start, width) == Packed(b, start, width) <==>
      forall i :: start <= i < start + width ==> Pixel(a, i) == Pixel(b, i)
  {
    hide Bit, Pixel, Dot, Packed;
    var x, y := Packed(a, start, width), Packed(b, start, width);
    if x == y {
      forall i | start <= i < start + width ensures Pixel(a, i) == Pixel(b, i) {
        var p := i - start + Offset(width);
        assert Dot(x, p) == Window(a, start, width, p) && Dot(y, p) == Window(b, start, width, p);
      }
    }
    if forall i :: start <= i < start + width ==> Pixel(a, i) == Pixel(b, i) {
      forall p | 0 <= p < 128 ensures Dot(x, p) == Dot(y, p) {
        assert Dot(x, p) == Window(a, start, width, p) && Dot(y, p) == Window(b, start, width, p);
      }
      DotsDetermineRow(x, y);
    }
  }

  lemma OnlyOneRowShows(row: Row, line: seq<byte>, start: nat, width: nat)
    requires width <= 128 && start + width <= 8 * |line|
    requires Shows(row, line, start, width)
    ensures row == Packed(line, start, width)
  {
    DotsDetermineRow(row, Packed(line, start, width));
  }
}
