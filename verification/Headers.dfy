/** The bytes of pages, terminators and releases, and the tape width that every page header on the wire carries. */
module Headers {
  import opened Bytes
  import opened Cutter
  import opened Decoder
  import opened Protocol
  import opened Stream

  // ---------- The bytes ----------

  lemma SerializeTwo(a: Cmd, b: Cmd)
    ensures Serialize([a, b]) == Encode(a) + Encode(b)
  {
    SerializeOne(b);
    SerializeCons(a, [b]);
    assert [a] + [b] == [a, b];
  }

  lemma LeadBytes(continued: bool)
    ensures Serialize(Lead(PT2730, continued)) == (if continued then [] else [0x1b, 0x40]) + [0x1b, 0x69, 0x52, 1]
    ensures Serialize(Lead(P710BT, continued)) ==
      (if continued then [] else Repeat(0, 100) + [0x1b, 0x40]) + [0x1b, 0x69, 0x61, 1, 0x1b, 0x69, 0x21, 0]
  {
    var head := if continued then [] else [Init];
    var head' := if continued then [] else INVALIDATE + [Init];
    assert Lead(PT2730, continued) == head + [RasterStart(false)];
    assert Lead(P710BT, continued) == head' + [RasterStart(true), AutoStatus(true)];
    SerializeOne(Init);
    SerializeOne(RasterStart(false));
    SerializeTwo(RasterStart(true), AutoStatus(true));
    SerializeNuls(100);
    hide Serialize, Lead;
    SerializeSum(head, [RasterStart(false)]);
    SerializeSum(head', [RasterStart(true), AutoStatus(true)]);
    SerializeSum(INVALIDATE, [Init]);
  }

  lemma SettingsBytes(flags: byte)
    ensures Serialize([Mode(flags), Advanced(0)]) == [0x1b, 0x69, 0x4d, flags, 0x1b, 0x69, 0x4b, 0]
    ensures Serialize([Margin(14), Compression(2)]) == [0x1b, 0x69, 0x64, 14, 0, 0x4d, 2]
  {
    SerializeTwo(Mode(flags), Advanced(0));
    SerializeTwo(Margin(14), Compression(2));
  }

  lemma HeaderBytes(mm: byte, rows: u32, page: byte)
    ensures Serialize([PrintInfo(mm)]) == [0x1b, 0x69, 0x63, 0x84, 0, mm, 0, 0]
    ensures Serialize([PrintInfoExt(mm, rows, page)]) ==
      [0x1b, 0x69, 0x7a, 0x84, 0, mm, 0,
       rows % 256, rows / 0x100 % 256, rows / 0x1_0000 % 256, rows / 0x100_0000 % 256, page, 0]
  {
    SerializeOne(PrintInfo(mm));
    SerializeOne(PrintInfoExt(mm, rows, page));
  }

  /** The bytes that set up a PT-2730 page: the run's lead before the first, the header with the tape, whether the label
      before is cut off, and no setting that cuts the end. */
  lemma SetupBytes(continued: bool, policy: Policy, mm: byte, first: bool, rows: u32)
    ensures Serialize(Setup(PT2730, continued, policy, mm, first, rows)) ==
      (if first then (if continued then [] else [0x1b, 0x40]) + [0x1b, 0x69, 0x52, 1] else []) +
      [0x1b, 0x69, 0x63, 0x84, 0, mm, 0, 0] +
      [0x1b, 0x69, 0x4d, if first || policy.cutBetween then 0x40 else 0, 0x1b, 0x69, 0x4b, 0]
  {
    var lead := if first then Lead(PT2730, continued) else [];
    var flags: byte := if first || policy.cutBetween then 0x40 else 0;
    var a, b := [PrintInfo(mm)], [Mode(flags), Advanced(0)];
    assert Setup(PT2730, continued, policy, mm, first, rows) == lead + a + b;
    SerializeNothing();
    hide Serialize, Lead, Setup;
    LeadBytes(continued);
    HeaderBytes(mm, 0, 0);
    SettingsBytes(flags);
    SerializeSum(lead + a, b);
    SerializeSum(lead, a);
  }

  /** The bytes that set up a staged PT-P710BT page: a run is opened by 100 zeros and an initialization, the header
      holds the exact row count and whether it is the first page since, and both ends are fed 14 dots. */
  lemma StagedSetupBytes(continued: bool, policy: Policy, mm: byte, first: bool, rows: u32)
    ensures Serialize(Setup(P710BT, continued, policy, mm, first, rows)) ==
      (if first then (if continued then [] else Repeat(0, 100) + [0x1b, 0x40]) +
                     [0x1b, 0x69, 0x61, 1, 0x1b, 0x69, 0x21, 0] else []) +
      [0x1b, 0x69, 0x7a, 0x84, 0, mm, 0,
       rows % 256, rows / 0x100 % 256, rows / 0x1_0000 % 256, rows / 0x100_0000 % 256,
       if first && !continued then 0 else 1, 0] +
      [0x1b, 0x69, 0x4d, if first || policy.cutBetween then 0x40 else 0, 0x1b, 0x69, 0x4b, 0] +
      [0x1b, 0x69, 0x64, 14, 0, 0x4d, 2]
  {
    var lead := if first then Lead(P710BT, continued) else [];
    var flags: byte := if first || policy.cutBetween then 0x40 else 0;
    var page: byte := if first && !continued then 0 else 1;
    var a, b, c := [PrintInfoExt(mm, rows, page)], [Mode(flags), Advanced(0)], [Margin(14), Compression(2)];
    assert Setup(P710BT, continued, policy, mm, first, rows) == lead + a + b + c;
    SerializeNothing();
    hide Serialize, Lead, Setup;
    LeadBytes(continued);
    HeaderBytes(mm, rows, page);
    SettingsBytes(flags);
    SerializeSum(lead + a + b, c);
    SerializeSum(lead + a, b);
    SerializeSum(lead, a);
  }

  /** The bytes of a row. */
  lemma RowBytes(row: Row)
    ensures Serialize([RowCmd(PT2730, row)]) == [0x47, 16, 0] + row
    ensures Serialize([RowCmd(P710BT, row)]) == [0x47, 17, 0, 15] + row
  {
    SerializeOne(RawRow(row));
    SerializeOne(PackedRow(row));
  }

  /** The bytes that close a job's last label, and those that close any label before it. */
  lemma TerminatorBytes(policy: Policy)
    ensures Serialize(Final(policy)) == if policy.cutAtEnd then [0x1b, 0x69, 0x4b, 8, 0x1a] else [0x0c]
    ensures Serialize([FormFeed]) == [0x0c]
  {
    SerializeTwo(Advanced(8), Eject);
    SerializeOne(FormFeed);
  }

  /** The 57 bytes of a release: a continued one-row page of white on the held tape, cut off before it. */
  lemma ReleaseBytes(mm: byte)
    ensures Serialize(BlankContinuation(mm)) ==
      [0x1b, 0x69, 0x61, 1, 0x1b, 0x69, 0x21, 0] +
      [0x1b, 0x69, 0x7a, 0x84, 0, mm, 0, 1, 0, 0, 0, 1, 0] +
      [0x1b, 0x69, 0x4d, 0x40, 0x1b, 0x69, 0x4b, 0] + [0x1b, 0x69, 0x64, 14, 0, 0x4d, 2] +
      ([0x47, 17, 0, 15] + Repeat(0, 16)) + [0x0c]
  {
    hide Serialize, Setup, BlankContinuation, Encode, Repeat;
    var setup := Setup(P710BT, true, Policy(false, false), mm, true, 1);
    BlankParts(mm);
    StagedSetupBytes(true, Policy(false, false), mm, true, 1);
    RowBytes(BLANK);
    TerminatorBytes(Policy(false, false));
    SerializeSum(setup + [PackedRow(BLANK)], [FormFeed]);
    SerializeSum(setup, [PackedRow(BLANK)]);
  }

  lemma BlankParts(mm: byte)
    ensures BlankContinuation(mm) ==
      Setup(P710BT, true, Policy(false, false), mm, true, 1) + [PackedRow(BLANK)] + [FormFeed]
  {}

  // ---------- The widths ----------

  /** The tape widths of the page headers in a list of commands, in order. */
  function Widths(cs: seq<Cmd>): seq<byte> {
    if cs == [] then []
    else
      Widths(cs[..|cs| - 1]) +
      match cs[|cs| - 1]
      case PrintInfo(mm) => [mm]
      case PrintInfoExt(mm, _, _) => [mm]
      case _ => []
  }

  lemma {:induction false} WidthsSum(a: seq<Cmd>, b: seq<Cmd>)
    ensures Widths(a + b) == Widths(a) + Widths(b)
  {
    if b == [] {
      assert a + b == a;
    } else {
      assert (a + b)[..|a + b| - 1] == a + b[..|b| - 1];
      WidthsSum(a, b[..|b| - 1]);
    }
  }

  predicate NoHeaders(cs: seq<Cmd>) {
    forall i :: 0 <= i < |cs| ==> !cs[i].PrintInfo? && !cs[i].PrintInfoExt?
  }

  lemma {:induction false} NoWidths(cs: seq<Cmd>)
    requires NoHeaders(cs)
    ensures Widths(cs) == []
  {
    if cs != [] {
      NoWidths(cs[..|cs| - 1]);
    }
  }

  lemma WidthsOne(c: Cmd)
    ensures c.PrintInfo? ==> Widths([c]) == [c.mm]
    ensures c.PrintInfoExt? ==> Widths([c]) == [c.tape]
  {
    assert [c][..0] == [];
  }

  lemma LeadHasNoHeaders(model: Model, continued: bool)
    ensures NoHeaders(Lead(model, continued))
  {}

  lemma PageWidth(model: Model, continued: bool, policy: Policy, mm: byte, first: bool, page: Label)
    ensures Widths(Page(model, continued, policy, mm, first, page)) == [mm]
  {
    LeadHasNoHeaders(model, continued);
    RowsCloseNothing(model, page.rows);
    hide Lead, Rows, Widths;
    var lead := if first then Lead(model, continued) else [];
    var info := PageInfo(model, continued, mm, first, |page.rows| % 0x1_0000_0000);
    var rest := [Mode(ModeFlags(policy, first)), Advanced(0)] +
      (if model == PT2730 then [] else [Margin(END_MARGIN), Compression(2)]) + Rows(model, page.rows);
    assert Page(model, continued, policy, mm, first, page) == lead + [info] + rest;
    NoWidths(lead);
    NoWidths(rest);
    WidthsSum(lead + [info], rest);
    WidthsSum(lead, [info]);
    WidthsOne(info);
  }

  lemma NoBody(model: Model, continued: bool, policy: Policy, mm: byte)
    ensures Body(model, continued, policy, mm, []) == [] && Widths([]) == []
  {}

  lemma {:induction false} BodyWidths(model: Model, continued: bool, policy: Policy, mm: byte, labels: seq<Label>)
    ensures Widths(Body(model, continued, policy, mm, labels)) == Repeat(mm, |labels|)
    decreases |labels|
  {
    hide Page, Body, Widths;
    if labels == [] {
      NoBody(model, continued, policy, mm);
      assert Repeat(mm, 0) == [];
    } else {
      var n := |labels| - 1;
      assert labels == labels[..n] + [labels[n]];
      var body := Body(model, continued, policy, mm, labels[..n]);
      var feed := if labels[..n] == [] then [] else [FormFeed];
      var page := Page(model, continued, policy, mm, n == 0, labels[n]);
      BodySnoc(model, continued, policy, mm, labels[..n], labels[n]);
      BodyWidths(model, continued, policy, mm, labels[..n]);
      NoWidths(feed);
      PageWidth(model, continued, policy, mm, n == 0, labels[n]);
      WidthsSum(body + feed, page);
      WidthsSum(body, feed);
      assert Repeat(mm, n) + [] + [mm] == Repeat(mm, n + 1);
    }
  }

  /** Every page header of a record carries the record's tape, and there is one for each label. */
  lemma HeadersCarryTheTape(model: Model, r: Rec)
    ensures Widths(StreamOf(model, r)) == Repeat(r.mm, if r.Job? then |r.labels| else 1)
  {
    match r
    case Job(continued, policy, mm, labels) =>
      BodyWidths(model, continued, policy, mm, labels);
      hide Body, Widths;
      NoWidths(Final(policy));
      WidthsSum(Body(model, continued, policy, mm, labels), Final(policy));
    case Release(mm) =>
      BlankIsAPage(mm);
      var page := Page(P710BT, true, Policy(false, false), mm, true, Label([BLANK]));
      PageWidth(P710BT, true, Policy(false, false), mm, true, Label([BLANK]));
      hide Page, Widths, BlankContinuation;
      NoWidths([FormFeed]);
      WidthsSum(page, [FormFeed]);
      assert Repeat(mm, 1) == [mm];
  }

  lemma WidthsPrefix(a: seq<Cmd>, b: seq<Cmd>)
    requires a <= b
    ensures Widths(a) <= Widths(b)
  {
    hide Widths;
    assert b == a + b[|a|..];
    WidthsSum(a, b[|a|..]);
  }

  /** The tape of each label of some records, in order; a release counts as one label. */
  function TapesOf(recs: seq<Rec>): seq<byte> {
    if recs == [] then []
    else
      var r := recs[|recs| - 1];
      TapesOf(recs[..|recs| - 1]) + Repeat(r.mm, if r.Job? then |r.labels| else 1)
  }

  /** The page headers of some records are one for each label, and carry its tape. */
  lemma {:induction false} StreamsCarryTheTapes(model: Model, recs: seq<Rec>)
    ensures Widths(Streams(model, recs)) == TapesOf(recs)
  {
    hide StreamOf, Widths;
    if recs == [] {
      NoWidths([]);
    } else {
      var n := |recs| - 1;
      StreamsCarryTheTapes(model, recs[..n]);
      HeadersCarryTheTape(model, recs[n]);
      WidthsSum(Streams(model, recs[..n]), StreamOf(model, recs[n]));
    }
  }

  /** The record whose tape stands at `p`. */
  lemma {:induction false} TapeOfRecord(recs: seq<Rec>, p: nat) returns (k: nat)
    requires p < |TapesOf(recs)|
    ensures k < |recs| && TapesOf(recs)[p] == recs[k].mm
    ensures |TapesOf(recs[..k])| <= p < |TapesOf(recs[..k + 1])|
  {
    var n := |recs| - 1;
    if p < |TapesOf(recs[..n])| {
      k := TapeOfRecord(recs[..n], p);
      assert recs[..n][..k] == recs[..k] && recs[..n][..k + 1] == recs[..k + 1];
    } else {
      k := n;
      assert recs[..n + 1] == recs;
    }
  }
}
