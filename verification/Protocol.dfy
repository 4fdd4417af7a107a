/** The Brother raster command builders of `src/protocol.c` and the byte strings they stand for. */
module Protocol {
  import opened Bytes

  datatype Cmd =
    | Nul
    | Init
    | RasterStart(p700: bool)
    | FormFeed
    | Eject
    | PrintInfo(mm: byte)
    | PrintInfoExt(tape: byte, rows: u32, page: byte)
    | Compression(mode: byte)
    | AutoStatus(enabled: bool)
    | Mode(flags: byte)
    | Advanced(flags: byte)
    | StatusRequest
    | Margin(dots: u16)
    | RawRow(data: Row)
    | PackedRow(data: Row)

  function Le32(v: u32): (s: seq<byte>)
    ensures |s| == 4
  {
    [v % 256, v / 0x100 % 256, v / 0x1_0000 % 256, v / 0x100_0000 % 256]
  }

  function FromLe32(s: seq<byte>): nat
    requires |s| == 4
  {
    var a: int, b: int, c: int, d: int := s[0], s[1], s[2], s[3];
    a + 0x100 * b + 0x1_0000 * c + 0x100_0000 * d
  }

  lemma Le32RoundTrip(v: u32)
    ensures FromLe32(Le32(v)) == v
  {
    var a, b, c := v / 0x100, v / 0x1_0000, v / 0x100_0000;
    assert v == v % 0x100 + 0x100 * a;
    assert b == a / 0x100 && a == a % 0x100 + 0x100 * b;
    assert c == b / 0x100 && b == b % 0x100 + 0x100 * c;
    assert c % 0x100 == c;
  }

  /** The bytes of one command. */
  function Encode(c: Cmd): (s: seq<byte>)
    ensures 1 <= |s| <= 20
  {
    match c
    case Nul => [0]
    case Init => [0x1b, 0x40]
    case RasterStart(p700) => [0x1b, 0x69, if p700 then 0x61 else 0x52, 1]
    case FormFeed => [0x0c]
    case Eject => [0x1a]
    case PrintInfo(mm) => [0x1b, 0x69, 0x63, 0x84, 0, mm, 0, 0]
    case PrintInfoExt(mm, rows, page) => [0x1b, 0x69, 0x7a, 0x84, 0, mm, 0] + Le32(rows) + [page, 0]
    case Compression(mode) => [0x4d, mode]
    case AutoStatus(enabled) => [0x1b, 0x69, 0x21, if enabled then 0 else 1]
    case Mode(flags) => [0x1b, 0x69, 0x4d, flags]
    case Advanced(flags) => [0x1b, 0x69, 0x4b, flags]
    case StatusRequest => [0x1b, 0x69, 0x53]
    case Margin(dots) => [0x1b, 0x69, 0x64, dots % 256, dots / 256]
    case RawRow(data) => [0x47, |data|, 0] + data
    case PackedRow(data) => [0x47, |data| + 1, 0, |data| - 1] + data
  }

  function Serialize(cs: seq<Cmd>): seq<byte> {
    if cs == [] then [] else Serialize(cs[..|cs| - 1]) + Encode(cs[|cs| - 1])
  }

  lemma SerializeNothing()
    ensures Serialize([]) == []
  {}

  lemma SerializeOne(c: Cmd)
    ensures Serialize([c]) == Encode(c)
  {
    assert [c][..0] == [];
    assert Serialize([]) + Encode(c) == Encode(c);
  }

  lemma {:induction false} SerializeSum(a: seq<Cmd>, b: seq<Cmd>)
    ensures Serialize(a + b) == Serialize(a) + Serialize(b)
  {
    hide Encode;
    if b == [] {
      assert a + b == a;
      assert Serialize(a) + [] == Serialize(a);
    } else {
      var b' := b[..|b| - 1];
      SerializeSum(a, b');
      assert (a + b)[..|a + b| - 1] == a + b';
      assert (Serialize(a) + Serialize(b')) + Encode(b[|b| - 1]) == Serialize(a) + (Serialize(b') + Encode(b[|b| - 1]));
    }
  }

  lemma SerializeCons(c: Cmd, cs: seq<Cmd>)
    ensures Serialize([c] + cs) == Encode(c) + Serialize(cs)
  {
    SerializeSum([c], cs);
    SerializeOne(c);
  }

  lemma SerializePrefix(a: seq<Cmd>, b: seq<Cmd>)
    requires a <= b
    ensures Serialize(a) <= Serialize(b)
  {
    SerializeSum(a, b[|a|..]);
    assert b == a + b[|a|..];
  }

  /** The buffer `o` with `bytes` written at offset `at` and nothing else changed. */
  function Splice(o: seq<byte>, at: nat, bytes: seq<byte>): (r: seq<byte>)
    requires at + |bytes| <= |o|
    ensures |r| == |o|
  {
    o[..at] + bytes + o[at + |bytes|..]
  }

  lemma SpliceAt(o: seq<byte>, at: nat, bytes: seq<byte>)
    requires at + |bytes| <= |o|
    ensures forall k :: 0 <= k < |o| ==>
      Splice(o, at, bytes)[k] == if at <= k < at + |bytes| then bytes[k - at] else o[k]
  {}

  /** Stores a byte string at an offset of the caller's buffer, as the builders' assignments and memcpy do. */
  method Put(o: array<byte>, at: nat, bytes: seq<byte>) returns (n: nat)
    requires at + |bytes| <= o.Length
    modifies o
    ensures n == |bytes| && o[..] == Splice(old(o[..]), at, bytes)
  {
    n := |bytes|;
    for i := 0 to n
      invariant forall k :: 0 <= k < o.Length ==> o[k] == if at <= k < at + i then bytes[k - at] else old(o[k])
    {
      o[at + i] := bytes[i];
    }
    SpliceAt(old(o[..]), at, bytes);
    assert o[..] == Splice(old(o[..]), at, bytes);
  }

  const INVALIDATE: seq<Cmd> := Repeat(Nul, 100)

  method CmdInvalidate(o: array<byte>, at: nat) returns (n: nat)
    requires at + 100 <= o.Length
    modifies o
    ensures n == |Serialize(INVALIDATE)| == 100
    ensures o[..] == Splice(old(o[..]), at, Serialize(INVALIDATE))
  {
    n := Put(o, at, Repeat(0, 100));
    SerializeNuls(100);
  }

  lemma {:induction false} SerializeNuls(k: nat)
    ensures Serialize(Repeat(Nul, k)) == Repeat(0 as byte, k)
  {
    if k > 0 {
      SerializeNuls(k - 1);
      assert Repeat(Nul, k)[..k - 1] == Repeat(Nul, k - 1);
      assert Repeat(0 as byte, k) == Repeat(0 as byte, k - 1) + [0];
    }
  }

  method CmdInit(o: array<byte>, at: nat) returns (n: nat)
    requires at + 2 <= o.Length
    modifies o
    ensures n == |Encode(Init)| == 2
    ensures o[..] == Splice(old(o[..]), at, Encode(Init))
  {
    n := Put(o, at, [0x1b, 0x40]);
  }

  method CmdRasterStart(o: array<byte>, at: nat, p700: bool) returns (n: nat)
    requires at + 4 <= o.Length
    modifies o
    ensures n == |Encode(RasterStart(p700))| == 4
    ensures o[..] == Splice(old(o[..]), at, Encode(RasterStart(p700)))
  {
    n := Put(o, at, [0x1b, 0x69, if p700 then 0x61 else 0x52, 0x01]);
  }

  method CmdFormFeed(o: array<byte>, at: nat) returns (n: nat)
    requires at + 1 <= o.Length
    modifies o
    ensures n == |Encode(FormFeed)| == 1
    ensures o[..] == Splice(old(o[..]), at, Encode(FormFeed))
  {
    n := Put(o, at, [0x0c]);
  }

  method CmdEject(o: array<byte>, at: nat) returns (n: nat)
    requires at + 1 <= o.Length
    modifies o
    ensures n == |Encode(Eject)| == 1
    ensures o[..] == Splice(old(o[..]), at, Encode(Eject))
  {
    n := Put(o, at, [0x1a]);
  }

  method CmdPrintInfo(o: array<byte>, at: nat, mm: byte) returns (n: nat)
    requires at + 8 <= o.Length
    modifies o
    ensures n == |Encode(PrintInfo(mm))| == 8
    ensures o[..] == Splice(old(o[..]), at, Encode(PrintInfo(mm)))
  {
    n := Put(o, at, [0x1b, 0x69, 0x63, 0x84, 0, mm, 0, 0]);
  }

  method CmdPrintInfoExt(o: array<byte>, at: nat, mm: byte, rows: u32, page: byte) returns (n: nat)
    requires at + 13 <= o.Length
    modifies o
    ensures n == |Encode(PrintInfoExt(mm, rows, page))| == 13
    ensures o[..] == Splice(old(o[..]), at, Encode(PrintInfoExt(mm, rows, page)))
  {
    n := Put(o, at, [0x1b, 0x69, 0x7a, 0x84, 0, mm, 0,
                     rows % 256, rows / 0x100 % 256, rows / 0x1_0000 % 256, rows / 0x100_0000 % 256, page, 0]);
  }

  method CmdCompression(o: array<byte>, at: nat, mode: byte) returns (n: nat)
    requires at + 2 <= o.Length
    modifies o
    ensures n == |Encode(Compression(mode))| == 2
    ensures o[..] == Splice(old(o[..]), at, Encode(Compression(mode)))
  {
    n := Put(o, at, [0x4d, mode]);
  }

  method CmdAutoStatus(o: array<byte>, at: nat, enabled: bool) returns (n: nat)
    requires at + 4 <= o.Length
    modifies o
    ensures n == |Encode(AutoStatus(enabled))| == 4
    ensures o[..] == Splice(old(o[..]), at, Encode(AutoStatus(enabled)))
  {
    n := Put(o, at, [0x1b, 0x69, 0x21, if enabled then 0x00 else 0x01]);
  }

  method CmdSetMode(o: array<byte>, at: nat, flags: byte) returns (n: nat)
    requires at + 4 <= o.Length
    modifies o
    ensures n == |Encode(Mode(flags))| == 4
    ensures o[..] == Splice(old(o[..]), at, Encode(Mode(flags)))
  {
    n := Put(o, at, [0x1b, 0x69, 0x4d, flags]);
  }

  method CmdSetAdvanced(o: array<byte>, at: nat, flags: byte) returns (n: nat)
    requires at + 4 <= o.Length
    modifies o
    ensures n == |Encode(Advanced(flags))| == 4
    ensures o[..] == Splice(old(o[..]), at, Encode(Advanced(flags)))
  {
    n := Put(o, at, [0x1b, 0x69, 0x4b, flags]);
  }

  method CmdStatusRequest(o: array<byte>, at: nat) returns (n: nat)
    requires at + 3 <= o.Length
    modifies o
    ensures n == |Encode(StatusRequest)| == 3
    ensures o[..] == Splice(old(o[..]), at, Encode(StatusRequest))
  {
    n := Put(o, at, [0x1b, 0x69, 0x53]);
  }

  method CmdMargin(o: array<byte>, at: nat, dots: u16) returns (n: nat)
    requires at + 5 <= o.Length
    modifies o
    ensures n == |Encode(Margin(dots))| == 5
    ensures o[..] == Splice(old(o[..]), at, Encode(Margin(dots)))
  {
    n := Put(o, at, [0x1b, 0x69, 0x64, dots % 256, dots / 256]);
  }

  /** A raw raster command for data of any length; the size byte wraps. */
  function RawBytes(data: seq<byte>): seq<byte> {
    [0x47, |data| % 256, 0x00] + data
  }

  /** A raster command whose data is one literal PackBits run; both size bytes wrap. */
  function PackedBytes(data: seq<byte>): seq<byte> {
    [0x47, (|data| + 1) % 256, 0x00, (|data| - 1) % 256] + data
  }

  /** The size bytes tell the truth about data that a byte can count, and only about that. */
  lemma SizesTell(data: seq<byte>)
    ensures RawBytes(data)[1] == |data| <==> |data| < 256
    ensures PackedBytes(data)[1] == |PackedBytes(data)| - 3 && PackedBytes(data)[3] == |data| - 1 <==> 1 <= |data| < 255
    ensures |data| == 16 ==> RawBytes(data) == Encode(RawRow(data)) && PackedBytes(data) == Encode(PackedRow(data))
  {}

  method CmdSendRaster(o: array<byte>, at: nat, data: seq<byte>) returns (n: nat)
    requires at + |data| + 3 <= o.Length
    modifies o
    ensures n == |data| + 3 && o[..] == Splice(old(o[..]), at, RawBytes(data))
    ensures |data| == 16 ==> n == |Encode(RawRow(data))| && o[..] == Splice(old(o[..]), at, Encode(RawRow(data)))
  {
    SizesTell(data);
    n := Put(o, at, [0x47, |data| % 256, 0x00] + data);
  }

  method CmdSendRasterPackBits(o: array<byte>, at: nat, data: seq<byte>) returns (n: nat)
    requires at + |data| + 4 <= o.Length
    modifies o
    ensures n == |data| + 4 && o[..] == Splice(old(o[..]), at, PackedBytes(data))
    ensures |data| == 16 ==> n == |Encode(PackedRow(data))| && o[..] == Splice(old(o[..]), at, Encode(PackedRow(data)))
  {
    SizesTell(data);
    n := Put(o, at, [0x47, (|data| + 1) % 256, 0x00, (|data| - 1) % 256] + data);
  }

  /** Releases a held label: a one-row continued page of white, cut on, chain on, closed by FF. */
  function BlankContinuation(mm: byte): seq<Cmd> {
    [RasterStart(true), AutoStatus(true), PrintInfoExt(mm, 1, 1), Mode(0x40), Advanced(0),
     Margin(14), Compression(2), PackedRow(BLANK), FormFeed]
  }

  method CmdBlankContinuation(o: array<byte>, mm: byte) returns (n: nat)
    requires 57 <= o.Length
    modifies o
    ensures n == 57 == |Serialize(BlankContinuation(mm))|
    ensures o[..] == Splice(old(o[..]), 0, Serialize(BlankContinuation(mm)))
  {
    BlankBytes(mm);
    hide Encode;
    hide Serialize;
    hide Splice;
    ghost var was := o[..];
    n := CmdRasterStart(o, 0, true);
    var k := CmdAutoStatus(o, n, true);
    ghost var bytes := Join(was, 0, Encode(RasterStart(true)), Encode(AutoStatus(true)));
    n := n + k;
    k := CmdPrintInfoExt(o, n, mm, 1, 1);
    bytes, n := Join(was, 0, bytes, Encode(PrintInfoExt(mm, 1, 1))), n + k;
    k := CmdSetMode(o, n, 0x40);
    bytes, n := Join(was, 0, bytes, Encode(Mode(0x40))), n + k;
    k := CmdSetAdvanced(o, n, 0);
    bytes, n := Join(was, 0, bytes, Encode(Advanced(0))), n + k;
    k := CmdMargin(o, n, 14);
    bytes, n := Join(was, 0, bytes, Encode(Margin(14))), n + k;
    k := CmdCompression(o, n, 2);
    bytes, n := Join(was, 0, bytes, Encode(Compression(2))), n + k;
    k := CmdSendRasterPackBits(o, n, BLANK);
    bytes, n := Join(was, 0, bytes, Encode(PackedRow(BLANK))), n + k;
    k := CmdFormFeed(o, n);
    bytes, n := Join(was, 0, bytes, Encode(FormFeed)), n + k;
  }

  /** Two builder calls at consecutive offsets write the concatenation of their bytes. */
  ghost function Join(was: seq<byte>, at: nat, a: seq<byte>, b: seq<byte>): (r: seq<byte>)
    requires at + |a| + |b| <= |was|
    ensures r == a + b && Splice(Splice(was, at, a), at + |a|, b) == Splice(was, at, r)
  {
    a + b
  }

  lemma BlankBytes(mm: byte)
    ensures Serialize(BlankContinuation(mm)) ==
      Encode(RasterStart(true)) + Encode(AutoStatus(true)) + Encode(PrintInfoExt(mm, 1, 1)) + Encode(Mode(0x40)) +
      Encode(Advanced(0)) + Encode(Margin(14)) + Encode(Compression(2)) + Encode(PackedRow(BLANK)) + Encode(FormFeed)
  {
    hide Encode, Serialize;
    var cs := BlankContinuation(mm);
    SerializeUpTo(cs, 1);
    SerializeUpTo(cs, 2);
    SerializeUpTo(cs, 3);
    SerializeUpTo(cs, 4);
    SerializeUpTo(cs, 5);
    SerializeUpTo(cs, 6);
    SerializeUpTo(cs, 7);
    SerializeUpTo(cs, 8);
    SerializeUpTo(cs, 9);
    assert cs[..9] == cs;
  }

  lemma SerializeUpTo(cs: seq<Cmd>, i: nat)
    requires 0 < i <= |cs|
    ensures Serialize(cs[..i]) == Serialize(cs[..i - 1]) + Encode(cs[i - 1])
    ensures i == 1 ==> Serialize(cs[..i]) == Encode(cs[0])
  {
    hide Encode;
    assert cs[..i][..i - 1] == cs[..i - 1];
  }
}
