/** The command stream of a print batch, and the strips of labels that stream leaves on the tape. */
module Stream {
  import opened Bytes
  import opened Cutter
  import opened Decoder
  import opened Protocol
  import opened Raster

  /** The rows transmitted for one label. */
  datatype Label = Label(rows: seq<Row>)

  /** One finished batch of labels, or one release of held content by a blank page. */
  datatype Rec =
    | Job(continued: bool, policy: Policy, mm: byte, labels: seq<Label>)
    | Release(mm: byte)

  /** A finished batch has a label, and no label outgrows the 32-bit row count. */
  predicate Whole(r: Rec) {
    r.Job? ==> r.labels != [] && forall i :: 0 <= i < |r.labels| ==> |r.labels[i].rows| < 0x1_0000_0000
  }

  const END_MARGIN: u16 := 14

  /** What opens a run: a continued run is neither invalidated nor initialized. */
  function Lead(model: Model, continued: bool): seq<Cmd> {
    if model == PT2730 then (if continued then [] else [Init]) + [RasterStart(false)]
    else (if continued then [] else INVALIDATE + [Init]) + [RasterStart(true), AutoStatus(true)]
  }

  function ModeFlags(policy: Policy, first: bool): byte {
    if AutoCut(policy, first) then 0x40 else 0
  }

  /** The page header; the page indication is 0 only for the first page after initialization. */
  function PageInfo(model: Model, continued: bool, mm: byte, first: bool, rows: u32): Cmd {
    if model == PT2730 then PrintInfo(mm) else PrintInfoExt(mm, rows, if first && !continued then 0 else 1)
  }

  /** The settings of one page. */
  function Setup(model: Model, continued: bool, policy: Policy, mm: byte, first: bool, rows: u32): seq<Cmd> {
    (if first then Lead(model, continued) else []) +
    [PageInfo(model, continued, mm, first, rows)] +
    [Mode(ModeFlags(policy, first)), Advanced(0)] +
    (if model == PT2730 then [] else [Margin(END_MARGIN), Compression(2)])
  }

  function RowCmd(model: Model, row: Row): Cmd {
    if model == PT2730 then RawRow(row) else PackedRow(row)
  }

  function Rows(model: Model, rows: seq<Row>): (r: seq<Cmd>)
    ensures |r| == |rows|
  {
    if rows == [] then [] else Rows(model, rows[..|rows| - 1]) + [RowCmd(model, rows[|rows| - 1])]
  }

  function Page(model: Model, continued: bool, policy: Policy, mm: byte, first: bool, page: Label): seq<Cmd> {
    Setup(model, continued, policy, mm, first, |page.rows| % 0x1_0000_0000) + Rows(model, page.rows)
  }

  /** All labels of a batch, each but the last closed by a form feed. */
  function Body(model: Model, continued: bool, policy: Policy, mm: byte, labels: seq<Label>): seq<Cmd> {
    if labels == [] then []
    else
      var n := |labels| - 1;
      Body(model, continued, policy, mm, labels[..n]) + (if n > 0 then [FormFeed] else []) +
      Page(model, continued, policy, mm, n == 0, labels[n])
  }

  /** What closes the last label. */
  function Final(policy: Policy): seq<Cmd> {
    if policy.cutAtEnd then [Advanced(8), Eject] else [FormFeed]
  }

  function StreamOf(model: Model, r: Rec): seq<Cmd> {
    match r
    case Job(continued, policy, mm, labels) => Body(model, continued, policy, mm, labels) + Final(policy)
    case Release(mm) => BlankContinuation(mm)
  }

  function Streams(model: Model, recs: seq<Rec>): seq<Cmd> {
    if recs == [] then [] else Streams(model, recs[..|recs| - 1]) + StreamOf(model, recs[|recs| - 1])
  }

  lemma StreamsSnoc(model: Model, recs: seq<Rec>, r: Rec)
    ensures Streams(model, recs + [r]) == Streams(model, recs) + StreamOf(model, r)
  {
    assert (recs + [r])[..|recs|] == recs;
  }

  lemma BodySnoc(model: Model, continued: bool, policy: Policy, mm: byte, labels: seq<Label>, page: Label)
    ensures Body(model, continued, policy, mm, labels + [page]) ==
      Body(model, continued, policy, mm, labels) + (if labels == [] then [] else [FormFeed]) +
      Page(model, continued, policy, mm, labels == [], page)
  {
    assert (labels + [page])[..|labels|] == labels;
  }

  lemma RowsSnoc(model: Model, rows: seq<Row>, row: Row)
    ensures Rows(model, rows + [row]) == Rows(model, rows) + [RowCmd(model, row)]
  {
    assert (rows + [row])[..|rows|] == rows;
  }

  // ---------- The tape ----------

  /** What lies on the tape: strips cut free, and the content still held at the printer. */
  datatype Shown = Shown(strips: seq<seq<Label>>, held: seq<Label>) {
    /** Every label printed so far, in order. */
    function Printed(): seq<Label> {
      Flat(strips) + held
    }
  }

  function Flat<T>(parts: seq<seq<T>>): seq<T> {
    if parts == [] then [] else Flat(parts[..|parts| - 1]) + parts[|parts| - 1]
  }

  /** Cutting frees whatever is held; there is nothing to cut when nothing is held. */
  function Cut(s: Shown): Shown {
    if s.held == [] then s else Shown(s.strips + [s.held], [])
  }

  /** A printer's settings, the page in its buffer, and the tape. */
  datatype Tape = Tape(autoCut: bool, chainOff: bool, page: seq<Row>, shown: Shown)

  const BARE := Tape(false, false, [], Shown([], []))

  /** Printing a page first cuts the held end when automatic cutting is on, and keeps the page held. */
  function PrintPage(t: Tape): Tape {
    var s := if t.autoCut then Cut(t.shown) else t.shown;
    t.(shown := s.(held := s.held + [Label(t.page)]), page := [])
  }

  function Perform(t: Tape, c: Cmd): Tape {
    match c
    case Init => t.(autoCut := false, chainOff := false, page := [])
    case Mode(flags) => t.(autoCut := Bit(flags, 6))
    case Advanced(flags) => t.(chainOff := Bit(flags, 3))
    case RawRow(row) => t.(page := t.page + [row])
    case PackedRow(row) => t.(page := t.page + [row])
    case FormFeed => PrintPage(t)
    case Eject =>
      var p := PrintPage(t);
      if t.chainOff then p.(shown := Cut(p.shown)) else p
    case _ => t
  }

  function RunTape(t: Tape, cs: seq<Cmd>): Tape {
    if cs == [] then t else Perform(RunTape(t, cs[..|cs| - 1]), cs[|cs| - 1])
  }

  lemma {:induction false} RunTapeSum(t: Tape, a: seq<Cmd>, b: seq<Cmd>)
    ensures RunTape(t, a + b) == RunTape(RunTape(t, a), b)
  {
    if b == [] {
      assert a + b == a;
    } else {
      var n := |b| - 1;
      assert (a + b)[..|a + b| - 1] == a + b[..n];
      RunTapeSum(t, a, b[..n]);
    }
  }

  lemma RunTapeOne(t: Tape, c: Cmd)
    ensures RunTape(t, [c]) == Perform(t, c)
  {
    assert [c][..0] == [];
  }

  // ---------- The strips a client asked for ----------

  /** Labels of one batch are joined exactly when the policy does not cut between them. */
  function StripsOf(policy: Policy, labels: seq<Label>): (r: seq<seq<Label>>)
    requires labels != []
    ensures r != [] && |r| == if policy.cutBetween then |labels| else 1
  {
    if policy.cutBetween then seq(|labels|, i requires 0 <= i < |labels| => [labels[i]]) else [labels]
  }

  /** A batch starts a strip of its own; its last strip is held unless the policy cuts the end. */
  function Asked(s: Shown, r: Rec): Shown
    requires Whole(r)
  {
    match r
    case Job(_, policy, _, labels) =>
      var all := Cut(s).strips + StripsOf(policy, labels);
      if policy.cutAtEnd then Shown(all, []) else Shown(all[..|all| - 1], all[|all| - 1])
    case Release(_) => Cut(s).(held := [Label([BLANK])])
  }

  function AskedAll(recs: seq<Rec>): Shown
    requires forall i :: 0 <= i < |recs| ==> Whole(recs[i])
  {
    if recs == [] then Shown([], []) else Asked(AskedAll(recs[..|recs| - 1]), recs[|recs| - 1])
  }

  // ---------- The stream prints exactly those strips ----------

  lemma FlagBits()
    ensures Bit(0x40, 6) && !Bit(0x40, 3) && !Bit(0, 6) && !Bit(0, 3) && Bit(8, 3)
  {
    ZeroHasNoBits(6);
    ZeroHasNoBits(3);
    assert Bit(0x40, 6) == Bit(0x20, 5) == Bit(0x10, 4) == Bit(8, 3) == Bit(4, 2) == Bit(2, 1) == Bit(1, 0);
    assert Bit(0x40, 3) == Bit(0x20, 2) == Bit(0x10, 1) == Bit(8, 0);
  }

  lemma RunTapeSnoc(t: Tape, a: seq<Cmd>, c: Cmd)
    ensures RunTape(t, a + [c]) == Perform(RunTape(t, a), c)
  {
    assert (a + [c])[..|a|] == a;
  }

  lemma RowAddsToPage(model: Model, t: Tape, row: Row)
    ensures Perform(t, RowCmd(model, row)) == t.(page := t.page + [row])
  {}

  lemma {:induction false} RowsFillPage(model: Model, t: Tape, rows: seq<Row>)
    ensures RunTape(t, Rows(model, rows)) == t.(page := t.page + rows)
  {
    if rows == [] {
      assert t.page + rows == t.page;
    } else {
      var n := |rows| - 1;
      RowsFillPage(model, t, rows[..n]);
      RunTapeSnoc(t, Rows(model, rows[..n]), RowCmd(model, rows[n]));
      RowAddsToPage(model, t.(page := t.page + rows[..n]), rows[n]);
      hide RunTape;
      hide Perform;
      hide RowCmd;
      assert t.page + rows[..n] + [rows[n]] == t.page + rows;
    }
  }

  /** Commands that neither add to the page nor print it. */
  predicate Quiet(c: Cmd) {
    !c.RawRow? && !c.PackedRow? && !c.FormFeed? && !c.Eject?
  }

  lemma {:induction false} QuietKeepsTape(t: Tape, cs: seq<Cmd>)
    requires t.page == [] && forall i :: 0 <= i < |cs| ==> Quiet(cs[i])
    ensures RunTape(t, cs).page == [] && RunTape(t, cs).shown == t.shown
  {
    hide Bit;
    if cs != [] {
      QuietKeepsTape(t, cs[..|cs| - 1]);
    }
  }

  lemma RunTapePair(t: Tape, a: Cmd, b: Cmd)
    ensures RunTape(t, [a, b]) == Perform(Perform(t, a), b)
  {
    RunTapeOne(t, a);
    RunTapeSnoc(t, [a], b);
    assert [a] + [b] == [a, b];
  }

  lemma LeadIsQuiet(model: Model, continued: bool)
    ensures forall i :: 0 <= i < |Lead(model, continued)| ==> Quiet(Lead(model, continued)[i])
  {}

  lemma SwitchesSet(policy: Policy, first: bool, t: Tape)
    ensures RunTape(t, [Mode(ModeFlags(policy, first)), Advanced(0)]) ==
      Tape(AutoCut(policy, first), false, t.page, t.shown)
  {
    FlagBits();
    hide Bit;
    RunTapePair(t, Mode(ModeFlags(policy, first)), Advanced(0));
  }

  lemma FeedSettingsDoNothing(t: Tape)
    ensures RunTape(t, [Margin(END_MARGIN), Compression(2)]) == t
  {
    RunTapePair(t, Margin(END_MARGIN), Compression(2));
  }

  lemma SetupUnfolds(model: Model, continued: bool, policy: Policy, mm: byte, first: bool, rows: u32)
    ensures var lead := if first then Lead(model, continued) else [];
      var info := PageInfo(model, continued, mm, first, rows);
      var tail := if model == PT2730 then [] else [Margin(END_MARGIN), Compression(2)];
      && Setup(model, continued, policy, mm, first, rows) ==
        lead + [info] + [Mode(ModeFlags(policy, first)), Advanced(0)] + tail
      && forall i :: 0 <= i < |lead + [info]| ==> Quiet((lead + [info])[i])
  {
    LeadIsQuiet(model, continued);
    hide Lead;
  }

  /** A page's setup leaves an empty page, chaining on, and cutting as the policy says. */
  lemma SetupPreparesPage(model: Model, continued: bool, policy: Policy, mm: byte, first: bool, rows: u32, t: Tape)
    requires t.page == []
    ensures RunTape(t, Setup(model, continued, policy, mm, first, rows)) ==
      Tape(AutoCut(policy, first), false, [], t.shown)
  {
    hide *;
    var lead := if first then Lead(model, continued) else [];
    var info := PageInfo(model, continued, mm, first, rows);
    var switches := [Mode(ModeFlags(policy, first)), Advanced(0)];
    var tail := if model == PT2730 then [] else [Margin(END_MARGIN), Compression(2)];
    SetupUnfolds(model, continued, policy, mm, first, rows);
    QuietKeepsTape(t, lead + [info]);
    var u := RunTape(t, lead + [info]);
    RunTapeSum(t, lead + [info], switches);
    SwitchesSet(policy, first, u);
    RunTapeSum(t, lead + [info] + switches, tail);
    FeedSettingsDoNothing(RunTape(u, switches));
    RunTapeNone(RunTape(u, switches));
  }

  /** The tape once labels of a batch have been fed through, the last of them still held. */
  function Fed(s: Shown, policy: Policy, labels: seq<Label>): Shown {
    if labels == [] then s
    else
      var all := Cut(s).strips + StripsOf(policy, labels);
      Shown(all[..|all| - 1], all[|all| - 1])
  }

  lemma StripsSnoc(policy: Policy, labels: seq<Label>, next: Label)
    ensures labels == [] ==> StripsOf(policy, labels + [next]) == [[next]]
    ensures labels != [] && policy.cutBetween ==>
      StripsOf(policy, labels + [next]) == StripsOf(policy, labels) + [[next]]
  {
    if labels == [] {
      assert labels + [next] == [next];
    }
  }

  lemma FeedOne(s: Shown, policy: Policy, labels: seq<Label>, next: Label, off: bool)
    ensures PrintPage(Tape(AutoCut(policy, labels == []), off, next.rows, Fed(s, policy, labels))) ==
      Tape(AutoCut(policy, labels == []), off, [], Fed(s, policy, labels + [next]))
  {
    var before := Fed(s, policy, labels);
    var base, strips := Cut(s).strips, StripsOf(policy, labels + [next]);
    StripsSnoc(policy, labels, next);
    assert [] + [next] == [next];
    if labels == [] {
      assert (base + strips)[..|base + strips| - 1] == base;
    } else if policy.cutBetween {
      var all := base + StripsOf(policy, labels);
      hide StripsOf;
      assert base + strips == all + [[next]];
      assert all[..|all| - 1] + [all[|all| - 1]] == all;
    } else {
      assert (base + strips)[..|base|] == base;
      assert (base + [labels])[..|base|] == base;
    }
  }

  lemma PageOnTape(model: Model, continued: bool, policy: Policy, mm: byte, first: bool, page: Label, t: Tape)
    requires t.page == []
    ensures RunTape(t, Page(model, continued, policy, mm, first, page)) ==
      Tape(AutoCut(policy, first), false, page.rows, t.shown)
  {
    var setup := Setup(model, continued, policy, mm, first, |page.rows| % 0x1_0000_0000);
    RunTapeSum(t, setup, Rows(model, page.rows));
    SetupPreparesPage(model, continued, policy, mm, first, |page.rows| % 0x1_0000_0000, t);
    RowsFillPage(model, RunTape(t, setup), page.rows);
    assert [] + page.rows == page.rows;
  }

  lemma FeedPrints(t: Tape, cs: seq<Cmd>)
    ensures RunTape(t, cs + [FormFeed]) == PrintPage(RunTape(t, cs))
  {
    RunTapeSnoc(t, cs, FormFeed);
  }

  lemma FedNone(s: Shown, policy: Policy)
    ensures Fed(s, policy, []) == s
  {}

  /** While a batch prints, its last label waits in the buffer and the labels before it are on the tape. */
  lemma {:induction false} BodyOnTape(model: Model, continued: bool, policy: Policy, mm: byte, labels: seq<Label>,
                                      t: Tape)
    requires t.page == [] && labels != []
    ensures RunTape(t, Body(model, continued, policy, mm, labels)) ==
      Tape(AutoCut(policy, |labels| == 1), false, labels[|labels| - 1].rows,
           Fed(t.shown, policy, labels[..|labels| - 1]))
    decreases |labels|
  {
    hide *;
    var n := |labels| - 1;
    var before := labels[..n];
    var body := Body(model, continued, policy, mm, before);
    var lead := body + if n > 0 then [FormFeed] else [];
    BodyUnfolds(model, continued, policy, mm, labels);
    RunTapeSum(t, lead, Page(model, continued, policy, mm, n == 0, labels[n]));
    if n > 0 {
      BodyOnTape(model, continued, policy, mm, before, t);
      FeedPrints(t, body);
      assert before[..n - 1] + [before[n - 1]] == before;
      FeedOne(t.shown, policy, before[..n - 1], before[n - 1], false);
    } else {
      assert lead == [];
      RunTapeNone(t);
      FedNone(t.shown, policy);
    }
    PageOnTape(model, continued, policy, mm, n == 0, labels[n], RunTape(t, lead));
  }

  lemma BodyUnfolds(model: Model, continued: bool, policy: Policy, mm: byte, labels: seq<Label>)
    requires labels != []
    ensures var n := |labels| - 1;
      Body(model, continued, policy, mm, labels) ==
      Body(model, continued, policy, mm, labels[..n]) + (if n > 0 then [FormFeed] else []) +
      Page(model, continued, policy, mm, n == 0, labels[n])
    ensures |labels| == 1 ==> Body(model, continued, policy, mm, labels[..|labels| - 1]) == []
  {}

  lemma RunTapeNone(t: Tape)
    ensures RunTape(t, []) == t
  {}

  lemma FinalUnfolds(policy: Policy, t: Tape)
    ensures RunTape(t, Final(policy)) ==
      if policy.cutAtEnd then
        var p := PrintPage(t.(chainOff := true));
        p.(shown := Cut(p.shown))
      else PrintPage(t)
    ensures PrintPage(t.(chainOff := true)).chainOff
  {
    FlagBits();
    hide Bit;
    RunTapePair(t, Advanced(8), Eject);
    RunTapeOne(t, FormFeed);
  }

  lemma FinalOnTape(policy: Policy, labels: seq<Label>, s: Shown)
    requires labels != []
    ensures var n := |labels| - 1;
      var before := Tape(AutoCut(policy, n == 0), false, labels[n].rows, Fed(s, policy, labels[..n]));
      var t := RunTape(before, Final(policy));
      t.page == [] && t.shown == if policy.cutAtEnd then Cut(Fed(s, policy, labels)) else Fed(s, policy, labels)
  {
    hide *;
    var n := |labels| - 1;
    FeedOne(s, policy, labels[..n], labels[n], policy.cutAtEnd);
    assert labels[..n] + [labels[n]] == labels;
    FinalUnfolds(policy, Tape(AutoCut(policy, n == 0), false, labels[n].rows, Fed(s, policy, labels[..n])));
  }

  /** Feeding a whole batch through, and cutting its end if asked, leaves the strips it asked for. */
  lemma FedIsAsked(s: Shown, continued: bool, policy: Policy, mm: byte, labels: seq<Label>)
    requires Whole(Job(continued, policy, mm, labels))
    ensures Asked(s, Job(continued, policy, mm, labels)) ==
      if policy.cutAtEnd then Cut(Fed(s, policy, labels)) else Fed(s, policy, labels)
  {
    var all := Cut(s).strips + StripsOf(policy, labels);
    assert all[..|all| - 1] + [all[|all| - 1]] == all;
    assert all[|all| - 1] == StripsOf(policy, labels)[|StripsOf(policy, labels)| - 1] != [];
  }

  /** Finishing a record leaves exactly the strips that were asked for. */
  lemma RecordOnTape(model: Model, r: Rec, t: Tape)
    requires Whole(r) && t.page == []
    ensures RunTape(t, StreamOf(model, r)).page == [] && RunTape(t, StreamOf(model, r)).shown == Asked(t.shown, r)
  {
    match r
    case Job(continued, policy, mm, labels) =>
      BodyOnTape(model, continued, policy, mm, labels, t);
      RunTapeSum(t, Body(model, continued, policy, mm, labels), Final(policy));
      FinalOnTape(policy, labels, t.shown);
      FedIsAsked(t.shown, continued, policy, mm, labels);
    case Release(mm) => BlankOnTape(mm, t);
  }

  /** The blank continuation is an ordinary continued page of one white row. */
  lemma BlankIsAPage(mm: byte)
    ensures BlankContinuation(mm) == Page(P710BT, true, Policy(false, false), mm, true, Label([BLANK])) + [FormFeed]
  {
    assert [BLANK][..0] == [];
    assert Rows(P710BT, [BLANK]) == [PackedRow(BLANK)];
  }

  lemma BlankOnTape(mm: byte, t: Tape)
    requires t.page == []
    ensures RunTape(t, BlankContinuation(mm)).page == []
    ensures RunTape(t, BlankContinuation(mm)).shown == Cut(t.shown).(held := [Label([BLANK])])
  {
    hide RunTape, BlankContinuation, Page;
    var policy := Policy(false, false);
    BlankIsAPage(mm);
    PageOnTape(P710BT, true, policy, mm, true, Label([BLANK]), t);
    FeedPrints(t, Page(P710BT, true, policy, mm, true, Label([BLANK])));
    assert [] + [Label([BLANK])] == [Label([BLANK])];
  }

  /** Any sequence of finished batches and releases leaves exactly the strips that were asked for. */
  lemma {:induction false} TapeShowsWhatWasAsked(model: Model, recs: seq<Rec>)
    requires forall i :: 0 <= i < |recs| ==> Whole(recs[i])
    ensures RunTape(BARE, Streams(model, recs)).page == []
    ensures RunTape(BARE, Streams(model, recs)).shown == AskedAll(recs)
  {
    hide Asked;
    hide StreamOf;
    if recs == [] {
      RunTapeNone(BARE);
    } else {
      var n := |recs| - 1;
      TapeShowsWhatWasAsked(model, recs[..n]);
      RunTapeSum(BARE, Streams(model, recs[..n]), StreamOf(model, recs[n]));
      hide RunTape;
      RecordOnTape(model, recs[n], RunTape(BARE, Streams(model, recs[..n])));
    }
  }

  // ---------- Nothing is printed twice, lost or reordered ----------

  lemma {:induction false} FlatSum<T>(a: seq<seq<T>>, b: seq<seq<T>>)
    ensures Flat(a + b) == Flat(a) + Flat(b)
  {
    if b == [] {
      assert a + b == a;
    } else {
      var n := |b| - 1;
      assert (a + b)[..|a + b| - 1] == a + b[..n];
      FlatSum(a, b[..n]);
    }
  }

  lemma CutKeepsLabels(s: Shown)
    ensures Cut(s).Printed() == s.Printed()
  {
    if s.held != [] {
      assert (s.strips + [s.held])[..|s.strips|] == s.strips;
    }
  }

  lemma PrintingAddsOne(t: Tape)
    ensures PrintPage(t).shown.Printed() == t.shown.Printed() + [Label(t.page)]
  {
    CutKeepsLabels(t.shown);
    hide Flat, Cut;
    var s := if t.autoCut then Cut(t.shown) else t.shown;
    assert Flat(s.strips) + (s.held + [Label(t.page)]) == s.Printed() + [Label(t.page)];
  }

  lemma PerformOnlyAppends(t: Tape, c: Cmd)
    ensures t.shown.Printed() <= Perform(t, c).shown.Printed()
    ensures |Perform(t, c).shown.Printed()| <= |t.shown.Printed()| + if c.FormFeed? || c.Eject? then 1 else 0
  {
    hide Bit, Flat, PrintPage, Cut;
    CutKeepsLabels(PrintPage(t).shown);
    PrintingAddsOne(t);
  }

  /** Stopping the stream anywhere leaves a prefix of the labels the whole stream prints. */
  lemma {:induction false} PrefixPrintsPrefix(t: Tape, a: seq<Cmd>, b: seq<Cmd>)
    requires a <= b
    ensures RunTape(t, a).shown.Printed() <= RunTape(t, b).shown.Printed()
    decreases |b|
  {
    if a == b {
    } else {
      var n := |b| - 1;
      PrefixPrintsPrefix(t, a, b[..n]);
      PerformOnlyAppends(RunTape(t, b[..n]), b[n]);
      PrefixTrans(RunTape(t, a).shown.Printed(), RunTape(t, b[..n]).shown.Printed(), RunTape(t, b).shown.Printed());
    }
  }

  /** The labels of the records, in the order they were sent. */
  function LabelsOf(recs: seq<Rec>): seq<Label> {
    if recs == [] then []
    else
      var r := recs[|recs| - 1];
      LabelsOf(recs[..|recs| - 1]) + if r.Job? then r.labels else [Label([BLANK])]
  }

  lemma {:induction false} SinglesFlat(labels: seq<Label>)
    requires labels != []
    ensures Flat(StripsOf(Policy(true, false), labels)) == labels
  {
    var strips := StripsOf(Policy(true, false), labels);
    var n := |labels| - 1;
    if n == 0 {
      assert strips[..0] == [];
      assert Flat(strips) == [] + [labels[0]];
    } else {
      SinglesFlat(labels[..n]);
      assert strips[..n] == StripsOf(Policy(true, false), labels[..n]);
      assert labels == labels[..n] + [labels[n]];
    }
  }

  lemma StripsOfFlat(policy: Policy, labels: seq<Label>)
    requires labels != []
    ensures Flat(StripsOf(policy, labels)) == labels
  {
    if policy.cutBetween {
      SinglesFlat(labels);
      assert StripsOf(policy, labels) == StripsOf(Policy(true, false), labels);
    } else {
      assert [labels][..0] == [];
      assert Flat([labels]) == [] + labels;
    }
  }

  lemma CutHoldsNothing(s: Shown)
    ensures Cut(s).held == [] && Cut(s).Printed() == Flat(Cut(s).strips)
  {
    assert Flat(Cut(s).strips) + [] == Flat(Cut(s).strips);
  }

  lemma AskedAddsItsLabels(s: Shown, r: Rec)
    requires Whole(r)
    ensures Asked(s, r).Printed() == s.Printed() + if r.Job? then r.labels else [Label([BLANK])]
  {
    CutKeepsLabels(s);
    CutHoldsNothing(s);
    hide Cut, StripsOf;
    var base := Cut(s).strips;
    if r.Job? {
      var all := base + StripsOf(r.policy, r.labels);
      FlatSum(base, StripsOf(r.policy, r.labels));
      StripsOfFlat(r.policy, r.labels);
      hide Flat;
      assert Flat(all) + [] == Flat(all);
    }
  }

  /** What was asked contains every label exactly once, in order: cutting moves no content. */
  lemma {:induction false} AskedKeepsEveryLabel(recs: seq<Rec>)
    requires forall i :: 0 <= i < |recs| ==> Whole(recs[i])
    ensures AskedAll(recs).Printed() == LabelsOf(recs)
  {
    hide Asked;
    if recs != [] {
      var n := |recs| - 1;
      AskedKeepsEveryLabel(recs[..n]);
      AskedAddsItsLabels(AskedAll(recs[..n]), recs[n]);
    }
  }

  // ---------- How often a label is closed ----------

  function Count(c: Cmd, cs: seq<Cmd>): nat {
    if cs == [] then 0 else Count(c, cs[..|cs| - 1]) + if cs[|cs| - 1] == c then 1 else 0
  }

  lemma {:induction false} CountSum(c: Cmd, a: seq<Cmd>, b: seq<Cmd>)
    ensures Count(c, a + b) == Count(c, a) + Count(c, b)
  {
    if b == [] {
      assert a + b == a;
    } else {
      assert (a + b)[..|a + b| - 1] == a + b[..|b| - 1];
      CountSum(c, a, b[..|b| - 1]);
    }
  }

  lemma {:induction false} CountAbsent(c: Cmd, cs: seq<Cmd>)
    requires c !in cs
    ensures Count(c, cs) == 0
  {
    if cs != [] {
      CountAbsent(c, cs[..|cs| - 1]);
    }
  }

  lemma CountPair(c: Cmd, a: Cmd, b: Cmd)
    ensures Count(c, [a, b]) == (if a == c then 1 else 0) + (if b == c then 1 else 0)
    ensures Count(c, [a]) == if a == c then 1 else 0
  {
    CountOne(c, a);
    CountOne(c, b);
    CountSum(c, [a], [b]);
    assert [a] + [b] == [a, b];
  }

  lemma CountOne(c: Cmd, a: Cmd)
    ensures Count(c, [a]) == if a == c then 1 else 0
  {
    assert [a][..0] == [];
  }

  lemma {:induction false} RowsCloseNothing(model: Model, rows: seq<Row>)
    ensures forall i :: 0 <= i < |rows| ==> Rows(model, rows)[i] == RowCmd(model, rows[i])
  {
    if rows != [] {
      RowsCloseNothing(model, rows[..|rows| - 1]);
    }
  }

  lemma PageClosesNothing(model: Model, continued: bool, policy: Policy, mm: byte, first: bool, page: Label)
    ensures Count(FormFeed, Page(model, continued, policy, mm, first, page)) == 0
    ensures Count(Eject, Page(model, continued, policy, mm, first, page)) == 0
  {
    LeadIsQuiet(model, continued);
    RowsCloseNothing(model, page.rows);
    hide Lead;
    hide Rows;
    CountAbsent(FormFeed, Page(model, continued, policy, mm, first, page));
    CountAbsent(Eject, Page(model, continued, policy, mm, first, page));
  }

  lemma {:induction false} BodyCloses(model: Model, continued: bool, policy: Policy, mm: byte, labels: seq<Label>)
    requires labels != []
    ensures Count(FormFeed, Body(model, continued, policy, mm, labels)) == |labels| - 1
    ensures Count(Eject, Body(model, continued, policy, mm, labels)) == 0
    decreases |labels|
  {
    hide Page;
    var n := |labels| - 1;
    var body := Body(model, continued, policy, mm, labels[..n]);
    var feed := if n > 0 then [FormFeed] else [];
    var page := Page(model, continued, policy, mm, n == 0, labels[n]);
    PageClosesNothing(model, continued, policy, mm, n == 0, labels[n]);
    if n > 0 {
      BodyCloses(model, continued, policy, mm, labels[..n]);
    }
    CountPair(FormFeed, FormFeed, FormFeed);
    CountPair(Eject, FormFeed, FormFeed);
    CountSum(FormFeed, body, feed);
    CountSum(Eject, body, feed);
    CountSum(FormFeed, body + feed, page);
    CountSum(Eject, body + feed, page);
  }

  /** A batch of N labels is closed by N terminators: all form feeds, or a single eject for the last. */
  lemma BatchCloses(model: Model, continued: bool, policy: Policy, mm: byte, labels: seq<Label>)
    requires labels != []
    ensures var cs := StreamOf(model, Job(continued, policy, mm, labels));
      && Count(FormFeed, cs) == |labels| - (if policy.cutAtEnd then 1 else 0)
      && Count(Eject, cs) == if policy.cutAtEnd then 1 else 0
  {
    hide Body;
    BodyCloses(model, continued, policy, mm, labels);
    CountSum(FormFeed, Body(model, continued, policy, mm, labels), Final(policy));
    CountSum(Eject, Body(model, continued, policy, mm, labels), Final(policy));
    CountPair(FormFeed, Advanced(8), Eject);
    CountPair(Eject, Advanced(8), Eject);
    CountPair(FormFeed, FormFeed, FormFeed);
    CountPair(Eject, FormFeed, FormFeed);
  }

  // ---------- Where initialization stands ----------

  lemma LeadInits(model: Model, continued: bool)
    ensures Count(Init, Lead(model, continued)) == if continued then 0 else 1
  {
    hide Count;
    var head := if continued then [] else if model == PT2730 then [Init] else INVALIDATE + [Init];
    var tail := if model == PT2730 then [RasterStart(false)] else [RasterStart(true), AutoStatus(true)];
    assert Lead(model, continued) == head + tail;
    CountNone(Init);
    CountPair(Init, Init, Init);
    CountAbsent(Init, INVALIDATE);
    CountAbsent(Init, tail);
    CountSum(Init, INVALIDATE, [Init]);
    CountSum(Init, head, tail);
  }

  /** A page is its lead, if it is the first, and a rest that initializes nothing. */
  lemma PageRest(model: Model, continued: bool, policy: Policy, mm: byte, first: bool, page: Label)
    returns (rest: seq<Cmd>)
    ensures Page(model, continued, policy, mm, first, page) == (if first then Lead(model, continued) else []) + rest
    ensures Init !in rest
  {
    RowsCloseNothing(model, page.rows);
    hide Lead, Rows, PageInfo;
    var info := PageInfo(model, continued, mm, first, |page.rows| % 0x1_0000_0000);
    InfoIsNoInit(model, continued, mm, first, |page.rows| % 0x1_0000_0000);
    rest := [info] + [Mode(ModeFlags(policy, first)), Advanced(0)] +
      (if model == PT2730 then [] else [Margin(END_MARGIN), Compression(2)]) + Rows(model, page.rows);
    assert Page(model, continued, policy, mm, first, page) == (if first then Lead(model, continued) else []) + rest;
  }

  lemma InfoIsNoInit(model: Model, continued: bool, mm: byte, first: bool, rows: u32)
    ensures !PageInfo(model, continued, mm, first, rows).Init?
  {}

  lemma PageInits(model: Model, continued: bool, policy: Policy, mm: byte, first: bool, page: Label)
    ensures Count(Init, Page(model, continued, policy, mm, first, page)) == if first && !continued then 1 else 0
    ensures first ==> Lead(model, continued) <= Page(model, continued, policy, mm, first, page)
  {
    var lead := if first then Lead(model, continued) else [];
    hide Page, Lead;
    var rest := PageRest(model, continued, policy, mm, first, page);
    LeadInits(model, continued);
    CountAbsent(Init, rest);
    CountSum(Init, lead, rest);
  }

  lemma {:induction false} BodyInits(model: Model, continued: bool, policy: Policy, mm: byte, labels: seq<Label>)
    requires labels != []
    ensures Count(Init, Body(model, continued, policy, mm, labels)) == if continued then 0 else 1
    ensures Lead(model, continued) <= Body(model, continued, policy, mm, labels)
    decreases |labels|
  {
    hide *;
    var n := |labels| - 1;
    var body := Body(model, continued, policy, mm, labels[..n]);
    var feed := if n > 0 then [FormFeed] else [];
    var page := Page(model, continued, policy, mm, n == 0, labels[n]);
    BodyUnfolds(model, continued, policy, mm, labels);
    PageInits(model, continued, policy, mm, n == 0, labels[n]);
    CountPair(Init, FormFeed, FormFeed);
    CountNone(Init);
    CountSum(Init, body, feed);
    CountSum(Init, body + feed, page);
    if n > 0 {
      BodyInits(model, continued, policy, mm, labels[..n]);
    } else {
      assert body + feed == [];
      assert [] + page == page;
    }
  }

  lemma CountNone(c: Cmd)
    ensures Count(c, []) == 0
  {}

  /** A batch initializes the printer exactly once, in what opens its stream, unless it continues a run. */
  lemma InitializedOnce(model: Model, continued: bool, policy: Policy, mm: byte, labels: seq<Label>)
    requires labels != []
    ensures var cs := StreamOf(model, Job(continued, policy, mm, labels));
      && Lead(model, continued) <= cs
      && Count(Init, cs) == Count(Init, Lead(model, continued)) == if continued then 0 else 1
  {
    hide Body, Lead;
    LeadInits(model, continued);
    BodyInits(model, continued, policy, mm, labels);
    CountSum(Init, Body(model, continued, policy, mm, labels), Final(policy));
    CountPair(Init, Advanced(8), Eject);
    CountPair(Init, FormFeed, FormFeed);
  }
}
