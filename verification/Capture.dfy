/** Every stream the driver plans is a capture the decoder accepts. */
module Capture {
  import opened Bytes
  import opened Cutter
  import opened Decoder
  import opened Protocol
  import opened Stream

  /** A command the decoder accepts in state `m`. */
  predicate Good(model: Model, tapes: set<byte>, m: Reader, c: Cmd) {
    match c
    case Nul => model == P710BT
    case Init => true
    case RasterStart(p700) => p700 == (model == P710BT)
    case FormFeed => model == P710BT ==> m.pageRows == m.expectedRows
    case Eject => model == P710BT ==> m.pageRows == m.expectedRows
    case PrintInfo(_) => model == PT2730
    case PrintInfoExt(mm, _, page) => model == P710BT && mm in tapes && page == (if m.isFresh then 0 else 1)
    case Compression(mode) => model == P710BT && mode == 2
    case AutoStatus(enabled) => model == P710BT && enabled
    case Mode(_) => true
    case Advanced(_) => true
    case StatusRequest => false
    case Margin(dots) => model == P710BT ==> dots == 14
    case RawRow(_) => model == PT2730 && !m.compressed
    case PackedRow(_) => model == P710BT && m.compressed
  }

  /** The decoder's state after an accepted command. */
  function After(m: Reader, c: Cmd): Reader {
    match c
    case Init => m.(isFresh := true, compressed := false)
    case FormFeed => m.(pageRows := 0)
    case Eject => m.(pageRows := 0)
    case PrintInfoExt(_, rows, _) => m.(isFresh := false, expectedRows := rows)
    case Compression(_) => m.(compressed := true)
    case RawRow(_) => m.(pageRows := m.pageRows + 1)
    case PackedRow(_) => m.(pageRows := m.pageRows + 1)
    case _ => m
  }

  /** The check of one accepted command. */
  predicate Checks(model: Model, tapes: set<byte>, m: Reader, c: Cmd)
    requires !c.StatusRequest?
  {
    && (NameOf(c) == Decoder.Info ==> |Encode(c)| == 8 || |Encode(c)| == 13)
    && (NameOf(c) == Raster ==> |Encode(c)| >= 3)
    && var r := Check(model, tapes, m, NameOf(c), Encode(c));
       r.Some? && r.value.1 == After(m, c)
  }

  lemma RowChecks(model: Model, tapes: set<byte>, m: Reader, c: Cmd)
    requires Good(model, tapes, m, c) && (c.RawRow? || c.PackedRow?)
    ensures Checks(model, tapes, m, c)
  {
    if c.PackedRow? {
      LiteralRow(c.data);
      assert Encode(c)[3..] == [15] + c.data;
    } else {
      assert Encode(c)[3..] == c.data;
    }
    hide UnpackBits;
  }

  lemma InfoChecks(model: Model, tapes: set<byte>, m: Reader, c: Cmd)
    requires Good(model, tapes, m, c) && (c.PrintInfo? || c.PrintInfoExt?)
    ensures Checks(model, tapes, m, c)
  {
    if c.PrintInfoExt? {
      Le32RoundTrip(c.rows);
      assert Encode(c)[7..11] == Le32(c.rows) && Encode(c)[..4] == [0x1b, 0x69, 0x7a, 0x84];
      assert Encode(c)[11] == c.page && Encode(c)[12] == 0;
      hide Le32;
      hide FromLe32;
    } else {
      assert Encode(c)[..4] == [0x1b, 0x69, 0x63, 0x84];
    }
  }

  lemma OtherChecks(model: Model, tapes: set<byte>, m: Reader, c: Cmd)
    requires Good(model, tapes, m, c) && !c.RawRow? && !c.PackedRow? && !c.PrintInfo? && !c.PrintInfoExt?
    ensures Checks(model, tapes, m, c)
  {}

  lemma GoodIsDecoded(model: Model, tapes: set<byte>, m: Reader, c: Cmd)
    requires Good(model, tapes, m, c)
    ensures Output(c, model == P710BT)
    ensures Decoded(Encode(c), model, tapes, m).Some? && Decoded(Encode(c), model, tapes, m).value.1 == After(m, c)
  {
    hide Encode;
    hide Decoded;
    hide Check;
    hide After;
    DecodedOne(c, model, tapes, m);
    if c.RawRow? || c.PackedRow? {
      RowChecks(model, tapes, m, c);
    } else if c.PrintInfo? || c.PrintInfoExt? {
      InfoChecks(model, tapes, m, c);
    } else {
      OtherChecks(model, tapes, m, c);
    }
  }

  // ---------- Lists of commands ----------

  /** The decoder's state after a list of commands, if it accepts them all. */
  function AfterAll(model: Model, tapes: set<byte>, m: Reader, cs: seq<Cmd>): Option<Reader> {
    if cs == [] then Some(m)
    else
      var n := |cs| - 1;
      var r := AfterAll(model, tapes, m, cs[..n]);
      if r.Some? && Good(model, tapes, r.value, cs[n]) then Some(After(r.value, cs[n])) else None
  }

  lemma {:induction false} AfterAllSum(model: Model, tapes: set<byte>, m: Reader, a: seq<Cmd>, b: seq<Cmd>)
    ensures AfterAll(model, tapes, m, a + b) ==
      var r := AfterAll(model, tapes, m, a);
      if r.Some? then AfterAll(model, tapes, r.value, b) else None
  {
    hide Good;
    hide After;
    if b == [] {
      assert a + b == a;
    } else {
      var n := |b| - 1;
      assert (a + b)[..|a + b| - 1] == a + b[..n];
      AfterAllSum(model, tapes, m, a, b[..n]);
    }
  }

  lemma AfterAllOne(model: Model, tapes: set<byte>, m: Reader, c: Cmd)
    ensures AfterAll(model, tapes, m, [c]) == if Good(model, tapes, m, c) then Some(After(m, c)) else None
  {
    hide Good;
    hide After;
    assert [c][..0] == [];
  }

  lemma OutputsSnoc(cs: seq<Cmd>, c: Cmd, p710bt: bool)
    requires Outputs(cs, p710bt) && Output(c, p710bt)
    ensures Outputs(cs + [c], p710bt)
  {
    hide Output;
  }

  /** The bytes of accepted commands decode, and to the state the commands lead to. */
  lemma {:induction false} AcceptedListDecodes(model: Model, tapes: set<byte>, m: Reader, cs: seq<Cmd>)
    requires AfterAll(model, tapes, m, cs).Some?
    ensures Outputs(cs, model == P710BT)
    ensures var r := Decoded(Serialize(cs), model, tapes, m);
      r.Some? && r.value.1 == AfterAll(model, tapes, m, cs).value
  {
    hide Good, Behind, After, Encode, Output, Lex, Check;
    if cs == [] {
    } else {
      var n := |cs| - 1;
      AcceptedListDecodes(model, tapes, m, cs[..n]);
      var mid := AfterAll(model, tapes, m, cs[..n]).value;
      GoodIsDecoded(model, tapes, mid, cs[n]);
      DecodedSplit(Serialize(cs[..n]), Encode(cs[n]), model, tapes, m);
      OutputsSnoc(cs[..n], cs[n], model == P710BT);
      assert cs[..n] + [cs[n]] == cs;
    }
  }

  // ---------- The driver's streams ----------

  /** Between records: no page is open, and compression and freshness are as the model needs them. */
  predicate Idle(model: Model, m: Reader) {
    m.pageRows == 0 && if model == PT2730 then !m.compressed else !m.isFresh
  }

  lemma {:induction false} NulsAreRead(tapes: set<byte>, m: Reader, n: nat)
    ensures AfterAll(P710BT, tapes, m, Repeat(Nul, n)) == Some(m)
  {
    if n > 0 {
      NulsAreRead(tapes, m, n - 1);
      assert Repeat(Nul, n)[..n - 1] == Repeat(Nul, n - 1);
    }
  }

  /** After the lead the decoder is fresh exactly when the run was initialized. */
  lemma LeadIsRead(model: Model, tapes: set<byte>, continued: bool, m: Reader)
    requires Idle(model, m)
    ensures var r := AfterAll(model, tapes, m, Lead(model, continued));
      r.Some? && r.value.pageRows == 0 && if model == PT2730 then !r.value.compressed else r.value.isFresh == !continued
  {
    if model == PT2730 {
      AfterAllOne(model, tapes, m, Init);
      AfterAllOne(model, tapes, m, RasterStart(false));
      AfterAllOne(model, tapes, After(m, Init), RasterStart(false));
      AfterAllSum(model, tapes, m, if continued then [] else [Init], [RasterStart(false)]);
    } else {
      LeadOfP710(tapes, continued, m);
    }
  }

  lemma LeadOfP710(tapes: set<byte>, continued: bool, m: Reader)
    requires Idle(P710BT, m)
    ensures AfterAll(P710BT, tapes, m, Lead(P710BT, continued)) == Some(if continued then m else After(m, Init))
  {
    var fresh' := if continued then m else After(m, Init);
    var head := if continued then [] else INVALIDATE + [Init];
    NulsAreRead(tapes, m, 100);
    AfterAllSum(P710BT, tapes, m, INVALIDATE, [Init]);
    AfterAllOne(P710BT, tapes, m, Init);
    AfterAllOne(P710BT, tapes, fresh', RasterStart(true));
    AfterAllOne(P710BT, tapes, fresh', AutoStatus(true));
    AfterAllSum(P710BT, tapes, fresh', [RasterStart(true)], [AutoStatus(true)]);
    assert [RasterStart(true)] + [AutoStatus(true)] == [RasterStart(true), AutoStatus(true)];
    AfterAllSum(P710BT, tapes, m, head, [RasterStart(true), AutoStatus(true)]);
  }

  /** A page of `rows` declared rows is open and `n` of them have been read. */
  predicate InPage(model: Model, m: Reader, rows: nat, n: nat) {
    m.pageRows == n && if model == PT2730 then !m.compressed else m.compressed && !m.isFresh && m.expectedRows == rows
  }

  lemma SwitchesAreRead(model: Model, tapes: set<byte>, flags: byte, m: Reader)
    ensures AfterAll(model, tapes, m, [Mode(flags), Advanced(0)]) == Some(m)
  {
    AfterAllOne(model, tapes, m, Mode(flags));
    AfterAllOne(model, tapes, m, Advanced(0));
    AfterAllSum(model, tapes, m, [Mode(flags)], [Advanced(0)]);
    assert [Mode(flags)] + [Advanced(0)] == [Mode(flags), Advanced(0)];
  }

  lemma FeedSettingsAreRead(tapes: set<byte>, m: Reader)
    ensures AfterAll(P710BT, tapes, m, [Margin(END_MARGIN), Compression(2)]) == Some(m.(compressed := true))
  {
    AfterAllOne(P710BT, tapes, m, Margin(END_MARGIN));
    AfterAllOne(P710BT, tapes, m, Compression(2));
    AfterAllSum(P710BT, tapes, m, [Margin(END_MARGIN)], [Compression(2)]);
    assert [Margin(END_MARGIN)] + [Compression(2)] == [Margin(END_MARGIN), Compression(2)];
  }

  lemma NothingRead(model: Model, tapes: set<byte>, m: Reader)
    ensures AfterAll(model, tapes, m, []) == Some(m)
  {}

  lemma InfoIsRead(model: Model, tapes: set<byte>, continued: bool, mm: byte, first: bool, rows: u32, m: Reader)
    requires mm in tapes && m.pageRows == 0
    requires if model == PT2730 then !m.compressed else m.isFresh == (first && !continued)
    ensures var r := AfterAll(model, tapes, m, [PageInfo(model, continued, mm, first, rows)]);
      r.Some? && r.value.pageRows == 0 &&
      if model == PT2730 then !r.value.compressed else !r.value.isFresh && r.value.expectedRows == rows
  {
    AfterAllOne(model, tapes, m, PageInfo(model, continued, mm, first, rows));
  }

  lemma SetupIsRead(model: Model, tapes: set<byte>, continued: bool, policy: Policy, mm: byte, first: bool,
                    rows: u32, m: Reader)
    requires mm in tapes && Idle(model, m)
    ensures var r := AfterAll(model, tapes, m, Setup(model, continued, policy, mm, first, rows));
      r.Some? && InPage(model, r.value, rows, 0)
  {
    LeadIsRead(model, tapes, continued, m);
    hide AfterAll;
    hide Lead;
    hide PageInfo;
    hide ModeFlags;
    var lead := if first then Lead(model, continued) else [];
    var info := PageInfo(model, continued, mm, first, rows);
    var switches := [Mode(ModeFlags(policy, first)), Advanced(0)];
    NothingRead(model, tapes, m);
    var a := AfterAll(model, tapes, m, lead).value;
    InfoIsRead(model, tapes, continued, mm, first, rows, a);
    AfterAllSum(model, tapes, m, lead, [info]);
    var b := AfterAll(model, tapes, a, [info]).value;
    SwitchesAreRead(model, tapes, ModeFlags(policy, first), b);
    AfterAllSum(model, tapes, m, lead + [info], switches);
    FeedSettingsAreRead(tapes, b);
    NothingRead(model, tapes, b);
    AfterAllSum(model, tapes, m, lead + [info] + switches,
                if model == PT2730 then [] else [Margin(END_MARGIN), Compression(2)]);
  }

  lemma RowIsRead(model: Model, tapes: set<byte>, row: Row, declared: nat, n: nat, m: Reader)
    requires InPage(model, m, declared, n)
    ensures var r := AfterAll(model, tapes, m, [RowCmd(model, row)]);
      r.Some? && InPage(model, r.value, declared, n + 1)
  {
    AfterAllOne(model, tapes, m, RowCmd(model, row));
  }

  lemma {:induction false} RowsAreRead(model: Model, tapes: set<byte>, rows: seq<Row>, declared: nat, n: nat, m: Reader)
    requires InPage(model, m, declared, n)
    ensures var r := AfterAll(model, tapes, m, Rows(model, rows));
      r.Some? && InPage(model, r.value, declared, n + |rows|)
  {
    hide AfterAll;
    hide InPage;
    hide RowCmd;
    if rows == [] {
      NothingRead(model, tapes, m);
    } else {
      var k := |rows| - 1;
      RowsAreRead(model, tapes, rows[..k], declared, n, m);
      AfterAllSum(model, tapes, m, Rows(model, rows[..k]), [RowCmd(model, rows[k])]);
      RowIsRead(model, tapes, rows[k], declared, n + k, AfterAll(model, tapes, m, Rows(model, rows[..k])).value);
    }
  }

  lemma PageIsRead(model: Model, tapes: set<byte>, continued: bool, policy: Policy, mm: byte, first: bool,
                   page: Label, m: Reader)
    requires mm in tapes && Idle(model, m) && |page.rows| < 0x1_0000_0000
    ensures var r := AfterAll(model, tapes, m, Page(model, continued, policy, mm, first, page));
      r.Some? && InPage(model, r.value, |page.rows|, |page.rows|)
  {
    hide AfterAll;
    hide Setup;
    hide Rows;
    var setup := Setup(model, continued, policy, mm, first, |page.rows| % 0x1_0000_0000);
    SetupIsRead(model, tapes, continued, policy, mm, first, |page.rows| % 0x1_0000_0000, m);
    var mid := AfterAll(model, tapes, m, setup).value;
    RowsAreRead(model, tapes, page.rows, |page.rows|, 0, mid);
    AfterAllSum(model, tapes, m, setup, Rows(model, page.rows));
  }

  lemma EndsPage(model: Model, tapes: set<byte>, n: nat, m: Reader, c: Cmd)
    requires InPage(model, m, n, n) && (c == FormFeed || c == Eject)
    ensures var r := AfterAll(model, tapes, m, [c]);
      r.Some? && Idle(model, r.value)
  {
    AfterAllOne(model, tapes, m, c);
  }

  lemma {:induction false} BodyIsRead(model: Model, tapes: set<byte>, continued: bool, policy: Policy, mm: byte,
                                      labels: seq<Label>, m: Reader)
    requires mm in tapes && Idle(model, m) && Whole(Job(continued, policy, mm, labels))
    ensures var r := AfterAll(model, tapes, m, Body(model, continued, policy, mm, labels));
      var k := |labels[|labels| - 1].rows|;
      r.Some? && InPage(model, r.value, k, k)
    decreases |labels|
  {
    hide AfterAll;
    hide Body;
    hide Page;
    hide InPage;
    hide Idle;
    var n := |labels| - 1;
    var body := Body(model, continued, policy, mm, labels[..n]);
    var lead := body + if n > 0 then [FormFeed] else [];
    BodyUnfolds(model, continued, policy, mm, labels);
    AfterAllSum(model, tapes, m, lead, Page(model, continued, policy, mm, n == 0, labels[n]));
    if n > 0 {
      BodyIsRead(model, tapes, continued, policy, mm, labels[..n], m);
      AfterAllSum(model, tapes, m, body, [FormFeed]);
      EndsPage(model, tapes, |labels[n - 1].rows|, AfterAll(model, tapes, m, body).value, FormFeed);
    } else {
      assert lead == [];
      NothingRead(model, tapes, m);
    }
    PageIsRead(model, tapes, continued, policy, mm, n == 0, labels[n], AfterAll(model, tapes, m, lead).value);
  }

  lemma FinalIsRead(model: Model, tapes: set<byte>, policy: Policy, n: nat, m: Reader)
    requires InPage(model, m, n, n)
    ensures var r := AfterAll(model, tapes, m, Final(policy));
      r.Some? && Idle(model, r.value)
  {
    AfterAllOne(model, tapes, m, Advanced(8));
    EndsPage(model, tapes, n, m, Eject);
    EndsPage(model, tapes, n, m, FormFeed);
    AfterAllSum(model, tapes, m, [Advanced(8)], [Eject]);
    assert [Advanced(8)] + [Eject] == [Advanced(8), Eject];
  }

  lemma BlankIsRead(tapes: set<byte>, mm: byte, m: Reader)
    requires mm in tapes && Idle(P710BT, m)
    ensures var r := AfterAll(P710BT, tapes, m, BlankContinuation(mm));
      r.Some? && Idle(P710BT, r.value)
  {
    hide AfterAll;
    hide Good;
    hide After;
    var policy := Policy(false, false);
    var lead := [RasterStart(true), AutoStatus(true)];
    var page := Page(P710BT, true, policy, mm, true, Label([BLANK]));
    BlankIsAPage(mm);
    PageIsRead(P710BT, tapes, true, policy, mm, true, Label([BLANK]), m);
    AfterAllSum(P710BT, tapes, m, page, [FormFeed]);
    EndsPage(P710BT, tapes, 1, AfterAll(P710BT, tapes, m, page).value, FormFeed);
  }

  /** A record the decoder can be asked about: whole, on an expected tape, and released only by the PT-P710BT. */
  predicate Readable(model: Model, tapes: set<byte>, r: Rec) {
    Whole(r) && r.mm in tapes && (r.Release? ==> model == P710BT)
  }

  lemma RecordIsRead(model: Model, tapes: set<byte>, r: Rec, m: Reader)
    requires Readable(model, tapes, r) && Idle(model, m)
    ensures var after := AfterAll(model, tapes, m, StreamOf(model, r));
      after.Some? && Idle(model, after.value)
  {
    hide AfterAll;
    hide Body;
    hide Final;
    hide Idle;
    match r
    case Job(continued, policy, mm, labels) =>
      var body := Body(model, continued, policy, mm, labels);
      BodyIsRead(model, tapes, continued, policy, mm, labels, m);
      FinalIsRead(model, tapes, policy, |labels[|labels| - 1].rows|, AfterAll(model, tapes, m, body).value);
      AfterAllSum(model, tapes, m, body, Final(policy));
    case Release(mm) => BlankIsRead(tapes, mm, m);
  }

  lemma {:induction false} StreamsAreRead(model: Model, tapes: set<byte>, recs: seq<Rec>)
    requires forall i :: 0 <= i < |recs| ==> Readable(model, tapes, recs[i])
    ensures var after := AfterAll(model, tapes, START, Streams(model, recs));
      after.Some? && Idle(model, after.value)
  {
    hide StreamOf;
    if recs == [] {
      NothingRead(model, tapes, START);
    } else {
      var n := |recs| - 1;
      StreamsAreRead(model, tapes, recs[..n]);
      RecordIsRead(model, tapes, recs[n], AfterAll(model, tapes, START, Streams(model, recs[..n])).value);
      AfterAllSum(model, tapes, START, Streams(model, recs[..n]), StreamOf(model, recs[n]));
    }
  }

  /** Every sequence of finished batches and releases is a capture the decoder accepts as a whole. */
  lemma CaptureAccepted(model: Model, tapes: set<byte>, recs: seq<Rec>)
    requires forall i :: 0 <= i < |recs| ==> Readable(model, tapes, recs[i])
    ensures Accepted(Serialize(Streams(model, recs)), model, tapes).Some?
  {
    StreamsAreRead(model, tapes, recs);
    AcceptedListDecodes(model, tapes, START, Streams(model, recs));
  }
}
