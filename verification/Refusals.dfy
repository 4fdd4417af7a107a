/** The captures of a PT-P710BT that the decoder refuses, on their bytes. */
module Refusals {
  import opened Bytes
  import opened Capture
  import opened Decoder
  import opened Protocol

  /** A command the decoder does not accept in state `m` is refused. A raw row is left out: its bytes may happen to read
      as a packed one. */
  lemma NotGoodIsRefused(tapes: set<byte>, m: Reader, c: Cmd)
    requires Output(c, true) && !c.RawRow? && !Good(P710BT, tapes, m, c)
    ensures Decoded(Encode(c), P710BT, tapes, m) == None
  {
    DecodedOne(c, P710BT, tapes, m);
    hide Decoded;
    if c.PrintInfoExt? {
      assert Encode(c)[5] == c.tape && Encode(c)[11] == c.page;
    } else if c.PrintInfo? {
      assert Encode(c)[..4][2] == 0x63;
    }
  }

  predicate NoRawRows(cs: seq<Cmd>) {
    forall i :: 0 <= i < |cs| ==> !cs[i].RawRow?
  }

  /** One command refused, everything is; one accepted, what follows is read from the state it leaves. */
  lemma CommandThenRest(tapes: set<byte>, m: Reader, c: Cmd, rest: seq<byte>)
    requires Output(c, true) && !c.RawRow?
    ensures Decoded(Encode(c) + rest, P710BT, tapes, m).Some? ==>
      && Good(P710BT, tapes, m, c) && Decoded(rest, P710BT, tapes, After(m, c)).Some?
      && Decoded(Encode(c) + rest, P710BT, tapes, m).value.1 == Decoded(rest, P710BT, tapes, After(m, c)).value.1
  {
    hide Good, After, Encode;
    if Good(P710BT, tapes, m, c) {
      GoodIsDecoded(P710BT, tapes, m, c);
      DecodedSplit(Encode(c), rest, P710BT, tapes, m);
    } else {
      NotGoodIsRefused(tapes, m, c);
      DecodedOne(c, P710BT, tapes, m);
      LexCommand(c, rest, true);
      assert (Encode(c) + rest)[..|Encode(c)|] == Encode(c);
      hide Lex, Check;
    }
  }

  lemma DecodedNothing(tapes: set<byte>, m: Reader)
    ensures Decoded([], P710BT, tapes, m) == Some(([], m))
  {}

  /** Whatever a capture goes on with, it is refused if one of the commands it begins with is. */
  lemma {:induction false} ListThenRest(tapes: set<byte>, m: Reader, cs: seq<Cmd>, rest: seq<byte>)
    requires Outputs(cs, true) && NoRawRows(cs)
    requires Decoded(Serialize(cs) + rest, P710BT, tapes, m).Some?
    ensures AfterAll(P710BT, tapes, m, cs).Some?
    ensures rest == [] ==>
      AfterAll(P710BT, tapes, m, cs).value == Decoded(Serialize(cs) + rest, P710BT, tapes, m).value.1
    decreases |cs|
  {
    hide Decoded, Good, After, Serialize;
    if cs != [] {
      var more := Serialize(cs[1..]) + rest;
      assert cs == [cs[0]] + cs[1..];
      SerializeCons(cs[0], cs[1..]);
      assert Serialize(cs) + rest == Encode(cs[0]) + more;
      CommandThenRest(tapes, m, cs[0], more);
      ListThenRest(tapes, After(m, cs[0]), cs[1..], rest);
      AfterAllOne(P710BT, tapes, m, cs[0]);
      AfterAllSum(P710BT, tapes, m, [cs[0]], cs[1..]);
    } else {
      SerializeNothing();
      assert Serialize(cs) + rest == rest;
      DecodedNothing(tapes, m);
    }
  }

  lemma AcceptedList(tapes: set<byte>, cs: seq<Cmd>, rest: seq<byte>)
    requires Outputs(cs, true) && NoRawRows(cs) && Accepted(Serialize(cs) + rest, P710BT, tapes).Some?
    ensures AfterAll(P710BT, tapes, START, cs).Some?
    ensures rest == [] ==> AfterAll(P710BT, tapes, START, cs).value.pageRows == 0
  {
    hide AfterAll, Serialize;
    ListThenRest(tapes, START, cs, rest);
  }

  // ---------- What the commands so far say ----------

  /** No page is open behind these commands: there are none, or the last one closes a page. */
  predicate PageClosed(cs: seq<Cmd>) {
    cs == [] || cs[|cs| - 1].FormFeed? || cs[|cs| - 1].Eject?
  }

  /** The printer was initialized after the last page header. */
  predicate InitializedSince(cs: seq<Cmd>) {
    exists i :: 0 <= i < |cs| && cs[i].Init? && forall k :: i < k < |cs| ==> !cs[k].PrintInfoExt?
  }

  /** The rows among these commands. */
  function RowsAmong(cs: seq<Cmd>): nat {
    if cs == [] then 0 else RowsAmong(cs[..|cs| - 1]) + if cs[|cs| - 1].PackedRow? then 1 else 0
  }

  /** Commands within a page, behind its header: no other header, and no end of page. */
  predicate WithinPage(cs: seq<Cmd>) {
    forall i :: 0 <= i < |cs| ==> !cs[i].PrintInfo? && !cs[i].PrintInfoExt? && !cs[i].FormFeed? && !cs[i].Eject?
  }

  lemma AfterLast(tapes: set<byte>, cs: seq<Cmd>)
    requires cs != [] && AfterAll(P710BT, tapes, START, cs).Some?
    ensures var n := |cs| - 1;
      var before := AfterAll(P710BT, tapes, START, cs[..n]);
      before.Some? && Good(P710BT, tapes, before.value, cs[n]) &&
      AfterAll(P710BT, tapes, START, cs).value == After(before.value, cs[n])
  {
    hide Good, After;
  }

  lemma ClosedHasNoRows(tapes: set<byte>, cs: seq<Cmd>)
    requires AfterAll(P710BT, tapes, START, cs).Some? && PageClosed(cs)
    ensures AfterAll(P710BT, tapes, START, cs).value.pageRows == 0
  {
    if cs != [] {
      AfterLast(tapes, cs);
      hide AfterAll, Good;
    }
  }

  lemma {:induction false} FreshIsInitialized(tapes: set<byte>, cs: seq<Cmd>)
    requires AfterAll(P710BT, tapes, START, cs).Some?
    ensures AfterAll(P710BT, tapes, START, cs).value.isFresh <==> InitializedSince(cs)
  {
    if cs != [] {
      var n := |cs| - 1;
      AfterLast(tapes, cs);
      FreshIsInitialized(tapes, cs[..n]);
      hide AfterAll, Good;
      if InitializedSince(cs[..n]) && !cs[n].PrintInfoExt? {
        var i :| 0 <= i < n && cs[..n][i].Init? && forall k :: i < k < n ==> !cs[..n][k].PrintInfoExt?;
        assert cs[i].Init? && forall k :: i < k < |cs| ==> k == n || cs[k] == cs[..n][k];
      }
      if InitializedSince(cs) && !cs[n].Init? {
        var i :| 0 <= i < |cs| && cs[i].Init? && forall k :: i < k < |cs| ==> !cs[k].PrintInfoExt?;
        assert cs[..n][i].Init? && forall k :: i < k < n ==> !cs[..n][k].PrintInfoExt?;
      }
    }
  }

  /** Within a page the rows are counted and the declared number stands. */
  lemma {:induction false} RowsCounted(tapes: set<byte>, m: Reader, cs: seq<Cmd>)
    requires WithinPage(cs) && NoRawRows(cs) && AfterAll(P710BT, tapes, m, cs).Some?
    ensures AfterAll(P710BT, tapes, m, cs).value.pageRows == m.pageRows + RowsAmong(cs)
    ensures AfterAll(P710BT, tapes, m, cs).value.expectedRows == m.expectedRows
  {
    hide Good;
    if cs != [] {
      RowsCounted(tapes, m, cs[..|cs| - 1]);
    }
  }

  // ---------- Refusals ----------

  /** The 13 bytes of a page header: the tape, the row count with its low byte first, and the page indication. */
  function HeaderOf(mm: byte, rows: u32, page: byte): seq<byte> {
    [0x1b, 0x69, 0x7a, 0x84, 0, mm, 0,
     rows % 256, rows / 0x100 % 256, rows / 0x1_0000 % 256, rows / 0x100_0000 % 256, page, 0]
  }

  lemma HeaderIsEncoded(mm: byte, rows: u32, page: byte)
    ensures Encode(PrintInfoExt(mm, rows, page)) == HeaderOf(mm, rows, page)
  {}

  lemma ListOfFour(before: seq<Cmd>, a: Cmd, between: seq<Cmd>, b: Cmd)
    ensures Serialize(before + [a] + between + [b]) == Serialize(before) + Encode(a) + Serialize(between) + Encode(b)
  {
    hide Serialize, Encode;
    SerializeSum(before + [a] + between, [b]);
    SerializeSum(before + [a], between);
    SerializeSum(before, [a]);
    SerializeOne(a);
    SerializeOne(b);
  }

  /** A capture is refused when a page ends with another number of rows than its header declares, wherever the page
      stands and whatever follows it. */
  lemma WrongRowCountRefused(tapes: set<byte>, before: seq<Cmd>, mm: byte, rows: u32, page: byte, between: seq<Cmd>,
                             end: byte, rest: seq<byte>)
    requires Outputs(before, true) && NoRawRows(before) && PageClosed(before)
    requires Outputs(between, true) && NoRawRows(between) && WithinPage(between)
    requires RowsAmong(between) != rows && (end == 0x0c || end == 0x1a)
    ensures Accepted(Serialize(before) + HeaderOf(mm, rows, page) + Serialize(between) + [end] + rest, P710BT,
      tapes) == None
  {
    var header, last := PrintInfoExt(mm, rows, page), if end == 0x0c then FormFeed else Eject;
    var cs := before + [header] + between + [last];
    ListOfFour(before, header, between, last);
    HeaderIsEncoded(mm, rows, page);
    hide HeaderOf, Accepted, Serialize, AfterAll, Good, RowsAmong;
    if Accepted(Serialize(cs) + rest, P710BT, tapes).Some? {
      AcceptedList(tapes, cs, rest);
      PageAccepted(tapes, before, header, between, last);
    }
  }

  /** An accepted page has the rows it declares, and says whether it is the first since an initialization. */
  lemma PageAccepted(tapes: set<byte>, before: seq<Cmd>, header: Cmd, between: seq<Cmd>, last: Cmd)
    requires AfterAll(P710BT, tapes, START, before + [header] + between + [last]).Some?
    requires header.PrintInfoExt? && PageClosed(before)
    requires WithinPage(between) && NoRawRows(between) && (last.FormFeed? || last.Eject?)
    ensures RowsAmong(between) == header.rows
  {
    hide AfterAll;
    AfterAllSum(P710BT, tapes, START, before + [header] + between, [last]);
    AfterAllSum(P710BT, tapes, START, before + [header], between);
    AfterAllSum(P710BT, tapes, START, before, [header]);
    var m := AfterAll(P710BT, tapes, START, before).value;
    AfterAllOne(P710BT, tapes, m, header);
    var m' := AfterAll(P710BT, tapes, After(m, header), between).value;
    AfterAllOne(P710BT, tapes, m', last);
    ClosedHasNoRows(tapes, before);
    RowsCounted(tapes, After(m, header), between);
  }

  /** A capture is refused when it ends within a page that has rows. */
  lemma OpenPageRefused(tapes: set<byte>, before: seq<Cmd>, mm: byte, rows: u32, page: byte, between: seq<Cmd>)
    requires Outputs(before, true) && NoRawRows(before) && PageClosed(before)
    requires Outputs(between, true) && NoRawRows(between) && WithinPage(between) && RowsAmong(between) > 0
    ensures Accepted(Serialize(before + [PrintInfoExt(mm, rows, page)] + between), P710BT, tapes) == None
  {
    var header := PrintInfoExt(mm, rows, page);
    var cs := before + [header] + between;
    hide Accepted, Serialize, AfterAll, Good, RowsAmong;
    assert Serialize(cs) + [] == Serialize(cs);
    if Accepted(Serialize(cs) + [], P710BT, tapes).Some? {
      AcceptedList(tapes, cs, []);
      AfterAllSum(P710BT, tapes, START, before + [header], between);
      AfterAllSum(P710BT, tapes, START, before, [header]);
      var m := AfterAll(P710BT, tapes, START, before).value;
      AfterAllOne(P710BT, tapes, m, header);
      RowsCounted(tapes, After(m, header), between);
    }
  }

  /** A capture is refused when a page header's indication is not 0 on the first page after an initialization and 1 on
      any other, or when its tape is not loaded. */
  lemma WrongPageHeaderRefused(tapes: set<byte>, before: seq<Cmd>, mm: byte, rows: u32, page: byte, rest: seq<byte>)
    requires Outputs(before, true) && NoRawRows(before)
    requires page != (if InitializedSince(before) then 0 else 1) || mm !in tapes
    ensures Accepted(Serialize(before) + HeaderOf(mm, rows, page) + rest, P710BT, tapes) == None
  {
    var header := PrintInfoExt(mm, rows, page);
    var cs := before + [header];
    SerializeSum(before, [header]);
    SerializeOne(header);
    HeaderIsEncoded(mm, rows, page);
    hide HeaderOf, Accepted, Serialize, Good;
    if Accepted(Serialize(cs) + rest, P710BT, tapes).Some? {
      AcceptedList(tapes, cs, rest);
      AfterLast(tapes, cs);
      assert cs[..|before|] == before;
      FreshIsInitialized(tapes, before);
      GoodHeader(tapes, AfterAll(P710BT, tapes, START, before).value, header);
    }
  }

  lemma GoodHeader(tapes: set<byte>, m: Reader, header: Cmd)
    requires Good(P710BT, tapes, m, header) && header.PrintInfoExt?
    ensures header.tape in tapes && header.page == if m.isFresh then 0 else 1
  {}

  /** A command that sets the printer up otherwise than a PT-P710BT print does. */
  predicate WrongSetting(c: Cmd) {
    || c == RasterStart(false) || c == AutoStatus(false) || c.PrintInfo?
    || (c.Compression? && c.mode != 2) || (c.Margin? && c.dots != 14)
  }

  /** A capture is refused wherever it sets another raster mode, notification, compression or feed margin, or has a
      PT-2730 page header. */
  lemma WrongSettingRefused(tapes: set<byte>, before: seq<Cmd>, c: Cmd, rest: seq<byte>)
    requires Outputs(before, true) && NoRawRows(before) && WrongSetting(c)
    ensures Accepted(Serialize(before) + Encode(c) + rest, P710BT, tapes) == None
  {
    var cs := before + [c];
    SerializeSum(before, [c]);
    SerializeOne(c);
    hide Accepted, Serialize, Encode;
    if Accepted(Serialize(cs) + rest, P710BT, tapes).Some? {
      AcceptedList(tapes, cs, rest);
      AfterLast(tapes, cs);
    }
  }
}
