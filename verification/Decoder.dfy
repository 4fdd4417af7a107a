/** The capture decoder of `scripts/smoke-image.py`: what a wire means, command by command. */
module Decoder {
  import opened Bytes
  import opened Protocol

  // ---------- PackBits (TIFF Revision 6.0, section 9) ----------

  /** What is decoded after `done` has been, put behind `done`. */
  function Behind(done: seq<byte>, more: Option<seq<byte>>): Option<seq<byte>> {
    if more.None? then None else Some(done + more.value)
  }

  lemma BehindNothing(more: Option<seq<byte>>)
    ensures Behind([], more) == more
  {
    assert more.Some? ==> [] + more.value == more.value;
  }

  lemma BehindMore(a: seq<byte>, b: seq<byte>, more: Option<seq<byte>>)
    ensures Behind(a, Behind(b, more)) == Behind(a + b, more)
  {
    assert more.Some? ==> a + (b + more.value) == a + b + more.value;
  }

  /** Decodes a PackBits run list; the running length may never exceed one 16-byte row. */
  function Unpacked(payload: seq<byte>, done: nat): Option<seq<byte>>
    decreases |payload|
  {
    if payload == [] then Some([])
    else
      var control := payload[0];
      if control < 128 then
        var count := control + 1;
        if count > |payload| - 1 || done + count > 16 then None
        else
          Behind(payload[1..1 + count], Unpacked(payload[1 + count..], done + count))
      else if control > 128 then
        if |payload| == 1 || done + (257 - control) > 16 then None
        else
          Behind(Repeat(payload[1], 257 - control), Unpacked(payload[2..], done + (257 - control)))
      else Unpacked(payload[1..], done)
  }

  /** A whole row is exactly the 128 head dots. */
  function UnpackBits(payload: seq<byte>): (r: Option<seq<byte>>)
    ensures r.Some? ==> |r.value| == 16
  {
    match Unpacked(payload, 0)
    case None => None
    case Some(row) => if |row| == 16 then Some(row) else None
  }

  /** One run of the list: how many payload bytes it takes and which bytes it emits. */
  function Run(payload: seq<byte>): Option<(nat, seq<byte>)>
    requires payload != []
  {
    var control := payload[0];
    if control < 128 then
      if control + 1 > |payload| - 1 then None else Some((control + 2, payload[1..control + 2]))
    else if control > 128 then
      if |payload| == 1 then None else Some((2, Repeat(payload[1], 257 - control)))
    else Some((1, []))
  }

  lemma UnpackOneRun(payload: seq<byte>, done: nat)
    requires payload != [] && done <= 16
    ensures Unpacked(payload, done) ==
      var run := Run(payload);
      if run.None? || done + |run.value.1| > 16 then None
      else Behind(run.value.1, Unpacked(payload[run.value.0..], done + |run.value.1|))
  {
    BehindNothing(Unpacked(payload[1..], done));
  }

  method UnpackRow(payload: seq<byte>) returns (r: Option<seq<byte>>)
    ensures r == UnpackBits(payload)
  {
    var decoded: seq<byte>, offset := [], 0;
    assert payload[0..] == payload;
    BehindNothing(Unpacked(payload, 0));
    while offset < |payload|
      invariant offset <= |payload| && |decoded| <= 16
      invariant Unpacked(payload, 0) == Behind(decoded, Unpacked(payload[offset..], |decoded|))
    {
      var control := payload[offset];
      ghost var rest, was, start := payload[offset..], decoded, offset;
      UnpackOneRun(rest, |was|);
      hide Unpacked;
      offset := offset + 1;
      if control < 128 {
        var count := control + 1;
        if count > |payload| - offset {
          return None;
        }
        assert rest[1..control + 2] == payload[offset..offset + count];
        decoded := decoded + payload[offset..offset + count];
        offset := offset + count;
      } else if control > 128 {
        if offset == |payload| {
          return None;
        }
        assert rest[1] == payload[offset];
        decoded := decoded + Repeat(payload[offset], 257 - control);
        offset := offset + 1;
      } else {
        assert was + [] == was;
      }
      ghost var run := Run(rest);
      assert run.Some? && offset == start + run.value.0 && decoded == was + run.value.1;
      if |decoded| > 16 {
        return None;
      }
      assert payload[offset..] == rest[run.value.0..];
      BehindMore(was, run.value.1, Unpacked(payload[offset..], |decoded|));
    }
    assert payload[offset..] == [] && decoded + [] == decoded;
    r := if |decoded| == 16 then Some(decoded) else None;
  }

  /** What a PackBits encoder may write: up to 128 bytes as they are, 2 to 128 copies of one byte, or nothing. */
  datatype PackRun = Literal(bytes: seq<byte>) | Copies(n: nat, value: byte) | Skip {
    predicate Valid() {
      (Literal? ==> 1 <= |bytes| <= 128) && (Copies? ==> 2 <= n <= 128)
    }

    function Packed(): seq<byte>
      requires Valid()
    {
      match this
      case Literal(bytes) => [|bytes| - 1] + bytes
      case Copies(n, value) => [257 - n, value]
      case Skip => [128]
    }

    function Meant(): seq<byte> {
      match this
      case Literal(bytes) => bytes
      case Copies(n, value) => Repeat(value, n)
      case Skip => []
    }
  }

  function PackedRuns(runs: seq<PackRun>): seq<byte>
    requires forall i :: 0 <= i < |runs| ==> runs[i].Valid()
  {
    if runs == [] then [] else runs[0].Packed() + PackedRuns(runs[1..])
  }

  function MeantRuns(runs: seq<PackRun>): seq<byte> {
    if runs == [] then [] else runs[0].Meant() + MeantRuns(runs[1..])
  }

  lemma RunIsRead(run: PackRun, rest: seq<byte>)
    requires run.Valid()
    ensures var payload := run.Packed() + rest;
      Run(payload) == Some((|run.Packed()|, run.Meant())) && payload[|run.Packed()|..] == rest
  {
    var payload := run.Packed() + rest;
    assert payload[0] == run.Packed()[0];
    if run.Literal? {
      assert payload[1..|run.bytes| + 1] == run.bytes;
    } else if run.Copies? {
      assert payload[1] == run.value;
    }
  }

  lemma {:induction false} RunsAreRead(runs: seq<PackRun>, done: nat)
    requires (forall i :: 0 <= i < |runs| ==> runs[i].Valid()) && done <= 16
    ensures Unpacked(PackedRuns(runs), done) ==
      if done + |MeantRuns(runs)| > 16 then None else Some(MeantRuns(runs))
    decreases |runs|
  {
    hide Unpacked, Run, PackRun.Packed, PackRun.Meant, PackRun.Valid;
    if runs == [] {
      NothingToUnpack(done);
    } else {
      var run, rest := runs[0], PackedRuns(runs[1..]);
      var more := done + |run.Meant()|;
      RunIsRead(run, rest);
      PackedIsSome(run);
      UnpackOneRun(run.Packed() + rest, done);
      if more <= 16 {
        RunsAreRead(runs[1..], more);
      }
    }
  }

  lemma NothingToUnpack(done: nat)
    ensures Unpacked([], done) == Some([])
  {}

  lemma PackedIsSome(run: PackRun)
    requires run.Valid()
    ensures run.Packed() != []
  {}

  /** A row decodes from any runs that mean it, however they cut it up, and no other total is a row. */
  lemma RunsDecode(runs: seq<PackRun>)
    requires forall i :: 0 <= i < |runs| ==> runs[i].Valid()
    ensures UnpackBits(PackedRuns(runs)) == if |MeantRuns(runs)| == 16 then Some(MeantRuns(runs)) else None
  {
    RunsAreRead(runs, 0);
  }

  /** The driver's single literal run decodes to the row it carries. */
  lemma LiteralRow(row: Row)
    ensures UnpackBits([15] + row) == Some(row)
  {
    var payload: seq<byte> := [15] + row;
    UnpackOneRun(payload, 0);
    assert payload[1..17] == row && payload[17..] == [];
    assert row + [] == row;
  }

  // ---------- Tokens ----------

  datatype Model = PT2730 | P710BT

  datatype Name =
    | Invalidate | Initialize | Start | Info | Pack | Notification | SetMode | SetAdvanced | FeedMargin
    | Raster | Ff | EjectPage

  datatype Token = Token(name: Name, bytes: seq<byte>)

  /** The name and length of the command at the head of `data`, or None when no command starts so. */
  function Lex(data: seq<byte>, p710bt: bool): (r: Option<(Name, nat)>)
    requires data != []
    ensures r.Some? ==> r.value.1 >= 1
    ensures r.Some? && r.value.0 == Info ==> r.value.1 == 8 || r.value.1 == 13
    ensures r.Some? && r.value.0 == Raster ==> r.value.1 >= 3
  {
    var op := data[0];
    if op == 0 then
      if p710bt then Some((Invalidate, 1)) else None
    else if op == 0x47 then
      if |data| < 3 || data[2] != 0 then None else var length: int := data[1]; Some((Raster, 3 + length))
    else if |data| >= 2 && op == 0x1b && data[1] == 0x40 then Some((Initialize, 2))
    else if op == 0x4d then Some((Pack, 2))
    else if |data| >= 2 && op == 0x1b && data[1] == 0x69 then
      if |data| < 3 then None else Escape(data[2])
    else if op == 12 then Some((Ff, 1))
    else if op == 26 then Some((EjectPage, 1))
    else None
  }

  function Escape(letter: byte): (r: Option<(Name, nat)>)
    ensures r.Some? ==> r.value.1 >= 1 && r.value.0 != Raster
    ensures r.Some? && r.value.0 == Info ==> r.value.1 == 8 || r.value.1 == 13
  {
    if letter == 0x52 || letter == 0x61 then Some((Start, 4))
    else if letter == 0x63 then Some((Info, 8))
    else if letter == 0x7a then Some((Info, 13))
    else if letter == 0x4d then Some((SetMode, 4))
    else if letter == 0x4b then Some((SetAdvanced, 4))
    else if letter == 0x21 then Some((Notification, 4))
    else if letter == 0x64 then Some((FeedMargin, 5))
    else None
  }

  /** The decoder's variables between two commands. */
  datatype Reader = Reader(compressed: bool, isFresh: bool, pageRows: nat, expectedRows: nat)

  const START := Reader(false, false, 0, 0)

  /** Checks one whole command against the model and the loaded tapes; the script expects the one tape 12 mm. */
  function Check(model: Model, tapes: set<byte>, m: Reader, name: Name, bytes: seq<byte>): Option<(Token, Reader)>
    requires name == Info ==> |bytes| == 8 || |bytes| == 13
    requires name == Raster ==> |bytes| >= 3
  {
    var p710bt := model == P710BT;
    match name
    case Initialize => Some((Token(name, bytes), m.(isFresh := true, compressed := false)))
    case Pack =>
      if p710bt && bytes == [0x4d, 2] then Some((Token(name, bytes), m.(compressed := true))) else None
    case Start =>
      if bytes == (if p710bt then [0x1b, 0x69, 0x61, 1] else [0x1b, 0x69, 0x52, 1])
      then Some((Token(name, bytes), m)) else None
    case Notification =>
      if p710bt && bytes == [0x1b, 0x69, 0x21, 0] then Some((Token(name, bytes), m)) else None
    case FeedMargin =>
      if !p710bt || bytes == [0x1b, 0x69, 0x64, 14, 0] then Some((Token(name, bytes), m)) else None
    case Info =>
      if bytes[..4] != (if p710bt then [0x1b, 0x69, 0x7a, 0x84] else [0x1b, 0x69, 0x63, 0x84]) then None
      else if !p710bt then Some((Token(name, bytes), m))
      else if |bytes| == 13 && bytes[4] == 0 && bytes[5] in tapes && bytes[6] == 0 && bytes[12] == 0 &&
              bytes[11] == (if m.isFresh then 0 else 1) then
        Some((Token(name, bytes), m.(isFresh := false, expectedRows := FromLe32(bytes[7..11]))))
      else None
    case Raster =>
      if m.compressed != p710bt then None
      else
        var head := if m.compressed then UnpackBits(bytes[3..]) else Some(bytes[3..]);
        if head.None? || |head.value| != 16 then None
        else Some((Token(name, [0x47, 0x10, 0] + head.value), m.(pageRows := m.pageRows + 1)))
    case Ff =>
      if p710bt && m.pageRows != m.expectedRows then None else Some((Token(name, bytes), m.(pageRows := 0)))
    case EjectPage =>
      if p710bt && m.pageRows != m.expectedRows then None else Some((Token(name, bytes), m.(pageRows := 0)))
    case _ => Some((Token(name, bytes), m))
  }

  /** The tokens `done` followed by what the rest of the capture decodes to. */
  function Following(done: seq<Token>, more: Option<(seq<Token>, Reader)>): Option<(seq<Token>, Reader)> {
    if more.None? then None else Some((done + more.value.0, more.value.1))
  }

  lemma FollowingNothing(more: Option<(seq<Token>, Reader)>)
    ensures Following([], more) == more
  {
    assert more.Some? ==> [] + more.value.0 == more.value.0;
  }

  lemma FollowingMore(a: seq<Token>, b: seq<Token>, more: Option<(seq<Token>, Reader)>)
    ensures Following(a, Following(b, more)) == Following(a + b, more)
  {
    assert more.Some? ==> a + (b + more.value.0) == a + b + more.value.0;
  }

  /** The commands of a capture and the decoder's variables after the last of them. */
  function Decoded(data: seq<byte>, model: Model, tapes: set<byte>, m: Reader): Option<(seq<Token>, Reader)>
    decreases |data|
  {
    if data == [] then Some(([], m))
    else
      match Lex(data, model == P710BT)
      case None => None
      case Some((name, size)) =>
        if size > |data| then None
        else
          match Check(model, tapes, m, name, data[..size])
          case None => None
          case Some((token, m')) =>
            Following([token], Decoded(data[size..], model, tapes, m'))
  }

  /** A capture is accepted when every command checks and no page is left open. */
  function Accepted(data: seq<byte>, model: Model, tapes: set<byte>): Option<seq<Token>> {
    match Decoded(data, model, tapes, START)
    case None => None
    case Some((tokens, last)) => if last.pageRows == 0 then Some(tokens) else None
  }

  method Decode(data: seq<byte>, model: Model, tapes: set<byte>) returns (r: Option<seq<Token>>)
    ensures r == Accepted(data, model, tapes)
  {
    hide Lex;
    hide Check;
    var commands: seq<Token>, offset, m := [], 0, START;
    assert data[0..] == data;
    FollowingNothing(Decoded(data, model, tapes, START));
    while offset < |data|
      invariant offset <= |data|
      invariant Decoded(data, model, tapes, START) == Following(commands, Decoded(data[offset..], model, tapes, m))
    {
      ghost var rest, was := data[offset..], commands;
      var lexed := Lex(data[offset..], model == P710BT);
      if lexed.None? {
        return None;
      }
      var (name, size) := lexed.value;
      if size > |data| - offset {
        return None;
      }
      assert data[offset..offset + size] == rest[..size];
      var checked := Check(model, tapes, m, name, data[offset..offset + size]);
      if checked.None? {
        return None;
      }
      commands, m, offset := commands + [checked.value.0], checked.value.1, offset + size;
      assert data[offset..] == rest[size..];
      FollowingMore(was, [checked.value.0], Decoded(data[offset..], model, tapes, m));
    }
    assert data[offset..] == [] && commands + [] == commands;
    r := if m.pageRows == 0 then Some(commands) else None;
  }

  // ---------- The builders and the decoder undo each other ----------

  /** The decoder's name for a builder's command; it has none for a status request. */
  function NameOf(c: Cmd): Name
    requires !c.StatusRequest?
  {
    match c
    case Nul => Invalidate
    case Init => Initialize
    case RasterStart(_) => Start
    case FormFeed => Ff
    case Eject => EjectPage
    case PrintInfo(_) => Info
    case PrintInfoExt(_, _, _) => Info
    case Compression(_) => Pack
    case AutoStatus(_) => Notification
    case Mode(_) => SetMode
    case Advanced(_) => SetAdvanced
    case Margin(_) => FeedMargin
    case RawRow(_) => Raster
    case PackedRow(_) => Raster
  }

  /** Print output: anything but a status request, and invalidation only for the PT-P710BT. */
  predicate Output(c: Cmd, p710bt: bool) {
    !c.StatusRequest? && (c.Nul? ==> p710bt)
  }

  predicate Outputs(cs: seq<Cmd>, p710bt: bool) {
    forall i :: 0 <= i < |cs| ==> Output(cs[i], p710bt)
  }

  lemma LexCommand(c: Cmd, rest: seq<byte>, p710bt: bool)
    requires Output(c, p710bt)
    ensures Lex(Encode(c) + rest, p710bt) == Some((NameOf(c), |Encode(c)|))
  {
    var data := Encode(c) + rest;
    assert forall i :: 0 <= i < |Encode(c)| ==> data[i] == Encode(c)[i];
  }

  /** A command cut short never looks like a whole command. */
  lemma LexTruncated(c: Cmd, cut: seq<byte>, p710bt: bool)
    requires Output(c, p710bt) && [] < cut < Encode(c)
    ensures Lex(cut, p710bt).None? || Lex(cut, p710bt).value.1 > |cut|
  {
    assert forall i :: 0 <= i < |cut| ==> cut[i] == Encode(c)[i];
  }

  /** What follows a whole command does not change how it is read. */
  lemma LexStable(a: seq<byte>, b: seq<byte>, p710bt: bool)
    requires a != [] && Lex(a, p710bt).Some? && Lex(a, p710bt).value.1 <= |a|
    ensures Lex(a + b, p710bt) == Lex(a, p710bt)
  {
    assert forall i :: 0 <= i < |a| ==> (a + b)[i] == a[i];
  }

  /** The decoder's splitting of a capture into named commands, before any check. */
  function Tokenize(data: seq<byte>, p710bt: bool): Option<seq<Token>>
    decreases |data|
  {
    if data == [] then Some([])
    else
      match Lex(data, p710bt)
      case None => None
      case Some((name, size)) =>
        if size > |data| then None
        else
          match Tokenize(data[size..], p710bt)
          case None => None
          case Some(tail) => Some([Token(name, data[..size])] + tail)
  }

  function TokensOf(cs: seq<Cmd>, p710bt: bool): (r: seq<Token>)
    requires Outputs(cs, p710bt)
    ensures |r| == |cs| && forall i :: 0 <= i < |cs| ==> r[i] == Token(NameOf(cs[i]), Encode(cs[i]))
  {
    if cs == [] then [] else [Token(NameOf(cs[0]), Encode(cs[0]))] + TokensOf(cs[1..], p710bt)
  }

  /** Any list of builder commands, whatever its row payloads, splits back into itself. */
  lemma {:induction false} SplitsBack(cs: seq<Cmd>, p710bt: bool)
    requires Outputs(cs, p710bt)
    ensures Tokenize(Serialize(cs), p710bt) == Some(TokensOf(cs, p710bt))
  {
    hide Encode;
    hide Lex;
    hide NameOf;
    if cs == [] {
    } else {
      var rest := Serialize(cs[1..]);
      SplitsBack(cs[1..], p710bt);
      SerializeCons(cs[0], cs[1..]);
      assert cs == [cs[0]] + cs[1..];
      LexCommand(cs[0], rest, p710bt);
      hide Serialize;
      assert (Encode(cs[0]) + rest)[..|Encode(cs[0])|] == Encode(cs[0]);
      assert (Encode(cs[0]) + rest)[|Encode(cs[0])|..] == rest;
      assert TokensOf(cs, p710bt) == [Token(NameOf(cs[0]), Encode(cs[0]))] + TokensOf(cs[1..], p710bt);
    }
  }

  lemma EncodeInjective(a: Cmd, b: Cmd)
    requires Encode(a) == Encode(b)
    ensures a == b
  {
    if a.PrintInfoExt? && b.PrintInfoExt? {
      assert Encode(a)[7..11] == Le32(a.rows) && Encode(b)[7..11] == Le32(b.rows);
      Le32RoundTrip(a.rows);
      Le32RoundTrip(b.rows);
      assert Encode(a)[5] == a.tape && Encode(b)[5] == b.tape && Encode(a)[11] == a.page && Encode(b)[11] == b.page;
    } else if a.RawRow? && b.RawRow? {
      assert Encode(a)[3..] == a.data && Encode(b)[3..] == b.data;
    } else if a.PackedRow? && b.PackedRow? {
      assert Encode(a)[4..] == a.data && Encode(b)[4..] == b.data;
    } else {
      assert Encode(a)[0] == Encode(b)[0];
      assert |Encode(a)| == |Encode(b)|;
    }
  }

  /** One byte string is the output of at most one list of builder commands. */
  lemma {:induction false} OneReading(a: seq<Cmd>, b: seq<Cmd>, p710bt: bool)
    requires Outputs(a, p710bt)
    requires Outputs(b, p710bt)
    requires Serialize(a) == Serialize(b)
    ensures a == b
  {
    SplitsBack(a, p710bt);
    SplitsBack(b, p710bt);
    var s, t := TokensOf(a, p710bt), TokensOf(b, p710bt);
    forall i | 0 <= i < |a| ensures a[i] == b[i] {
      assert s[i].bytes == t[i].bytes;
      EncodeInjective(a[i], b[i]);
    }
  }

  function BytesOf(tokens: seq<Token>): seq<byte> {
    if tokens == [] then [] else tokens[0].bytes + BytesOf(tokens[1..])
  }

  lemma BytesOfCons(token: Token, tail: seq<Token>)
    ensures BytesOf([token] + tail) == token.bytes + BytesOf(tail)
  {
    assert ([token] + tail)[1..] == tail;
  }

  /** Whatever the decoder splits, writing its tokens out again gives the capture. */
  lemma {:induction false} WritesBack(data: seq<byte>, p710bt: bool)
    requires Tokenize(data, p710bt).Some?
    ensures BytesOf(Tokenize(data, p710bt).value) == data
    decreases |data|
  {
    if data == [] {
    } else {
      hide Lex, BytesOf;
      var (name, size) := Lex(data, p710bt).value;
      WritesBack(data[size..], p710bt);
      BytesOfCons(Token(name, data[..size]), Tokenize(data[size..], p710bt).value);
      assert data == data[..size] + data[size..];
    }
  }

  /** A capture stopped inside a command is refused: only whole commands are ever read. */
  lemma {:induction false} CutCommandRefused(cs: seq<Cmd>, c: Cmd, cut: seq<byte>, p710bt: bool)
    requires Outputs(cs, p710bt)
    requires Output(c, p710bt) && [] < cut < Encode(c)
    ensures Tokenize(Serialize(cs) + cut, p710bt) == None
  {
    hide Encode;
    hide Lex;
    if cs == [] {
      LexTruncated(c, cut, p710bt);
      assert Serialize(cs) + cut == cut;
    } else {
      var rest := Serialize(cs[1..]) + cut;
      CutCommandRefused(cs[1..], c, cut, p710bt);
      SerializeCons(cs[0], cs[1..]);
      assert cs == [cs[0]] + cs[1..];
      LexCommand(cs[0], rest, p710bt);
      hide Serialize;
      assert Serialize(cs) + cut == Encode(cs[0]) + rest;
      assert (Encode(cs[0]) + rest)[|Encode(cs[0])|..] == rest;
    }
  }

  /** Decoding is incremental: a decoded capture can be continued from where it ended. */
  lemma {:induction false} DecodedSplit(a: seq<byte>, b: seq<byte>, model: Model, tapes: set<byte>, m: Reader)
    requires Decoded(a, model, tapes, m).Some?
    ensures Decoded(a + b, model, tapes, m) ==
      Following(Decoded(a, model, tapes, m).value.0, Decoded(b, model, tapes, Decoded(a, model, tapes, m).value.1))
    decreases |a|
  {
    if a == [] {
      assert a + b == b;
      FollowingNothing(Decoded(b, model, tapes, m));
    } else {
      var (name, size) := Lex(a, model == P710BT).value;
      LexStable(a, b, model == P710BT);
      hide Lex;
      hide Check;
      assert (a + b)[..size] == a[..size] && (a + b)[size..] == a[size..] + b;
      var (token, m') := Check(model, tapes, m, name, a[..size]).value;
      DecodedSplit(a[size..], b, model, tapes, m');
      var (tail, last) := Decoded(a[size..], model, tapes, m').value;
      FollowingMore([token], tail, Decoded(b, model, tapes, last));
    }
  }

  /** A whole command is decoded by its check alone. */
  lemma DecodedOne(c: Cmd, model: Model, tapes: set<byte>, m: Reader)
    requires Output(c, model == P710BT)
    ensures NameOf(c) == Info ==> |Encode(c)| == 8 || |Encode(c)| == 13
    ensures NameOf(c) == Raster ==> |Encode(c)| >= 3
    ensures Decoded(Encode(c), model, tapes, m) ==
      match Check(model, tapes, m, NameOf(c), Encode(c))
      case None => None
      case Some((token, m')) => Some(([token], m'))
  {
    LexCommand(c, [], model == P710BT);
    assert Encode(c) + [] == Encode(c);
    assert Encode(c)[..|Encode(c)|] == Encode(c) && Encode(c)[|Encode(c)|..] == [];
    hide Lex;
    hide Check;
    assert Decoded([], model, tapes, m) == Some(([], m));
    assert forall t: Token :: [t] + [] == [t];
  }
}
