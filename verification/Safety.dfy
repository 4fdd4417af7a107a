/** What every run of the driver keeps, whatever writes fail and whatever the printer reports. */
module Safety {
  import opened Bytes
  import opened Cutter
  import opened Decoder
  import opened Device
  import opened Protocol
  import opened Raster
  import opened Runs
  import opened Stream
  import opened Tables
  import opened Writes

  // ---------- Histories ----------

  /** The run state a history of finished records leaves behind. */
  function RunAfter(done: seq<Rec>): Run {
    if done == [] then Closed
    else
      var r := done[|done| - 1];
      if r.Release? then OpenBlank else RunAfterJob(r.policy)
  }

  /** A record may follow a history: it continues only a held run, and releases only held user content.
      Without a status path nothing else can close a run, so it continues exactly a held run. */
  predicate Follows(live: bool, done: seq<Rec>, r: Rec) {
    if r.Release? then RunAfter(done) == Open
    else (r.continued ==> Continues(RunAfter(done))) && (!live ==> r.continued == Continues(RunAfter(done)))
  }

  predicate History(model: Model, live: bool, done: seq<Rec>) {
    forall i :: 0 <= i < |done| ==>
      && Whole(done[i]) && Supported(done[i].mm) && (done[i].Release? ==> model == P710BT)
      && Follows(live, done[..i], done[i])
  }

  predicate Adds(model: Model, live: bool, done: seq<Rec>, r: Rec) {
    Whole(r) && Supported(r.mm) && (r.Release? ==> model == P710BT) && Follows(live, done, r)
  }

  lemma HistorySnoc(model: Model, live: bool, done: seq<Rec>, r: Rec)
    requires History(model, live, done) && Adds(model, live, done, r)
    ensures History(model, live, done + [r])
  {
    hide Follows;
    forall i | 0 <= i < |done + [r]|
      ensures Whole((done + [r])[i]) && Supported((done + [r])[i].mm) && ((done + [r])[i].Release? ==> model == P710BT)
      ensures Follows(live, (done + [r])[..i], (done + [r])[i])
    {
      if i < |done| {
        assert (done + [r])[i] == done[i] && (done + [r])[..i] == done[..i];
      } else {
        assert (done + [r])[..i] == done;
      }
    }
  }

  // ---------- The invariant ----------

  /** The bytes of a history. */
  function Written(model: Model, done: seq<Rec>): seq<byte> {
    Serialize(Streams(model, done))
  }

  /** What the live batch has written, command by command. */
  function BatchOutput(model: Model, b: Batch): seq<Cmd> {
    Body(model, b.continued, b.policy, b.tape, b.labels) +
    if model == PT2730 && b.active then
      Feed(b.labels != []) + Setup(PT2730, b.continued, b.policy, b.tape, b.labels == [], 0) + Rows(PT2730, b.raster)
    else []
  }

  /** Output stopped somewhere inside the record that would have come next. */
  predicate StoppedIn(model: Model, live: bool, out: seq<byte>, done: seq<Rec>, r: Rec) {
    Adds(model, live, done, r) && out <= Written(model, done + [r])
  }

  ghost predicate Stopped(model: Model, live: bool, out: seq<byte>, done: seq<Rec>) {
    exists r :: StoppedIn(model, live, out, done, r)
  }

  /** A healthy run is what its history left, unless an observation closed it. */
  predicate RunMatches(live: bool, run: Run, done: seq<Rec>) {
    run == RunAfter(done) || (live && run == Closed)
  }

  /** Output is complete up to the history, and no page is under way. */
  predicate Settled(model: Model, live: bool, s: S) {
    s.run != Uncertain && s.Out() == Written(model, s.done) && RunMatches(live, s.run, s.done)
  }

  predicate BatchShape(model: Model, b: Batch) {
    && Supported(b.tape) && b.height <= MAX_HEIGHT
    && (b.active ==> |b.raster| <= b.height && MIN_HEIGHT <= b.height)
    && (model == P710BT && b.active ==> EndsBlank(b.raster, b.height))
    && (forall i :: 0 <= i < |b.labels| ==> |b.labels[i].rows| <= MAX_HEIGHT)
  }

  /** A batch that has written output is uncertain until its pending label is confirmed. */
  predicate Printing(model: Model, live: bool, s: S, b: Batch) {
    && s.run == Uncertain
    && s.Out() == Serialize(Streams(model, s.done) + BatchOutput(model, b))
    && b.pending == (b.labels != [] && !(model == PT2730 && b.active))
    && (b.labels != [] || (model == PT2730 && b.active))
    && (b.continued ==> Continues(RunAfter(s.done))) && (!live ==> b.continued == Continues(RunAfter(s.done)))
  }

  ghost predicate Inv(model: Model, live: bool, s: S) {
    && Supported(s.ready) && History(model, live, s.done)
    && if s.batch.Some? && !s.batch.value.failed then
         var b := s.batch.value;
         && BatchShape(model, b)
         && if b.first then b.labels == [] && !b.pending && (model == PT2730 ==> !b.active) && Settled(model, live, s)
            else Printing(model, live, s, b)
       else
         Settled(model, live, s) || (s.run == Uncertain && Stopped(model, live, s.Out(), s.done))
  }

  lemma InitialInv(model: Model, live: bool)
    ensures Inv(model, live, INITIAL)
  {}

  // ---------- Output and records ----------

  /** The record a batch becomes when `more` is added to its labels. */
  function Would(b: Batch, more: seq<Label>): Rec {
    Job(b.continued, b.policy, b.tape, b.labels + more)
  }

  lemma BodyGrows(model: Model, b: Batch, next: Label)
    ensures Body(model, b.continued, b.policy, b.tape, b.labels + [next]) ==
      Body(model, b.continued, b.policy, b.tape, b.labels) +
      (Feed(b.labels != []) + Page(model, b.continued, b.policy, b.tape, b.labels == [], next))
  {
    BodySnoc(model, b.continued, b.policy, b.tape, b.labels, next);
    hide Body, Page;
  }

  /** A PT-2730 page header carries no row count. */
  lemma StreamedSetup(continued: bool, policy: Policy, mm: byte, first: bool, rows: u32)
    ensures Setup(PT2730, continued, policy, mm, first, rows) == Setup(PT2730, continued, policy, mm, first, 0)
  {}

  lemma StreamedPage(b: Batch, rows: seq<Row>)
    ensures Body(PT2730, b.continued, b.policy, b.tape, b.labels + [Label(rows)]) ==
      Body(PT2730, b.continued, b.policy, b.tape, b.labels) +
      (Feed(b.labels != []) + Setup(PT2730, b.continued, b.policy, b.tape, b.labels == [], 0) + Rows(PT2730, rows))
  {
    hide *;
    var first := b.labels == [];
    var setup := Setup(PT2730, b.continued, b.policy, b.tape, first, 0);
    BodyGrows(PT2730, b, Label(rows));
    PageUnfolds(PT2730, b.continued, b.policy, b.tape, first, Label(rows));
    StreamedSetup(b.continued, b.policy, b.tape, first, |rows| % 0x1_0000_0000);
    assert Feed(b.labels != []) + (setup + Rows(PT2730, rows)) == Feed(b.labels != []) + setup + Rows(PT2730, rows);
  }

  lemma PageUnfolds(model: Model, continued: bool, policy: Policy, mm: byte, first: bool, page: Label)
    ensures Page(model, continued, policy, mm, first, page) ==
      Setup(model, continued, policy, mm, first, |page.rows| % 0x1_0000_0000) + Rows(model, page.rows)
  {}

  /** The labels of a batch's output: a streamed page counts as a label of the rows so far. */
  function LabelsSoFar(model: Model, b: Batch): seq<Label> {
    if model == PT2730 && b.active then b.labels + [Label(b.raster)] else b.labels
  }

  /** The record of a batch's labels so far. */
  function Underway(model: Model, b: Batch): Rec {
    Job(b.continued, b.policy, b.tape, LabelsSoFar(model, b))
  }

  lemma OutputIsBody(model: Model, b: Batch)
    ensures BatchOutput(model, b) == Body(model, b.continued, b.policy, b.tape, LabelsSoFar(model, b))
  {
    StreamedPage(b, b.raster);
    hide Body, Setup, Rows;
  }

  /** Output that stops inside the commands of a possible next record stops inside that record. */
  lemma StopsIn(model: Model, live: bool, out: seq<byte>, done: seq<Rec>, r: Rec, cs: seq<Cmd>)
    requires Adds(model, live, done, r) && cs <= StreamOf(model, r)
    requires out <= Serialize(Streams(model, done) + cs)
    ensures StoppedIn(model, live, out, done, r) && Stopped(model, live, out, done)
  {
    hide StreamOf, Streams, Serialize, Adds, Encode;
    StreamsSnoc(model, done, r);
    assert Streams(model, done) + cs <= Streams(model, done + [r]) by {
      var rest := StreamOf(model, r)[|cs|..];
      assert StreamOf(model, r) == cs + rest;
      assert Streams(model, done + [r]) == Streams(model, done) + cs + rest;
    }
    SerializePrefix(Streams(model, done) + cs, Streams(model, done + [r]));
    PrefixTrans(out, Serialize(Streams(model, done) + cs), Written(model, done + [r]));
    assert StoppedIn(model, live, out, done, r);
  }

  /** Body output of whole labels is inside the record of those labels. */
  lemma BodyInRecord(model: Model, b: Batch, more: seq<Label>, cs: seq<Cmd>)
    requires cs <= Body(model, b.continued, b.policy, b.tape, b.labels + more)
    ensures cs <= StreamOf(model, Would(b, more))
  {
    hide Body, Final;
    var body := Body(model, b.continued, b.policy, b.tape, b.labels + more);
    assert body <= body + Final(b.policy);
    PrefixTrans(cs, body, body + Final(b.policy));
  }

  lemma SendGrows(s: S, s': S, before: seq<Cmd>, cs: seq<Cmd>, ok: bool)
    requires Sending(s, s', cs, ok) && s.Out() == Serialize(before)
    ensures s'.Out() <= Serialize(before + cs) && (ok ==> s'.Out() == Serialize(before + cs))
  {
    hide Serialize, OutputOf, Encode;
    SerializeSum(before, cs);
  }

  /** A batch, printing or about to print, that may become a record. */
  predicate MayPrint(model: Model, live: bool, done: seq<Rec>, b: Batch) {
    && BatchShape(model, b)
    && (b.continued ==> Continues(RunAfter(done))) && (!live ==> b.continued == Continues(RunAfter(done)))
  }

  lemma WouldAdd(model: Model, live: bool, done: seq<Rec>, b: Batch, more: seq<Label>)
    requires MayPrint(model, live, done, b) && b.labels + more != []
    requires forall i :: 0 <= i < |more| ==> |more[i].rows| <= MAX_HEIGHT
    ensures Adds(model, live, done, Would(b, more))
  {
    hide RunAfter, MatchingTape;
    var labels := b.labels + more;
    forall i | 0 <= i < |labels| ensures |labels[i].rows| < 0x1_0000_0000 {
      assert labels[i] == if i < |b.labels| then b.labels[i] else more[i - |b.labels|];
    }
  }

  /** A printing batch that goes no further has stopped inside the record of its labels so far. */
  lemma BrokenOff(model: Model, live: bool, s: S, b: Batch)
    requires BatchShape(model, b) && Printing(model, live, s, b)
    ensures StoppedIn(model, live, s.Out(), s.done, Underway(model, b)) && Stopped(model, live, s.Out(), s.done)
  {
    hide Body, StreamOf, Streams, Serialize, OutputOf, RunAfter, BatchOutput;
    OutputIsBody(model, b);
    var more := if model == PT2730 && b.active then [Label(b.raster)] else [];
    assert b.labels + more == LabelsSoFar(model, b);
    WouldAdd(model, live, s.done, b, more);
    BodyInRecord(model, b, more, BatchOutput(model, b));
    StopsIn(model, live, s.Out(), s.done, Would(b, more), BatchOutput(model, b));
  }

  // ---------- Each callback keeps the invariant ----------

  lemma OutputUnchanged(s: S, s': S)
    requires OnlyRequests(s.wire, s'.wire)
    ensures s.Out() == s'.Out()
  {
    RequestsAreNoOutput(s.wire, s'.wire);
  }

  lemma PublishNothing(run: Run, ready: byte)
    ensures PublishAll(run, ready, []) == (run, ready)
  {}

  /** Observing keeps a settled state settled. */
  lemma ObservingKeepsSettled(model: Model, live: bool, s: S, s': S, obs: seq<Observation>)
    requires Settled(model, live, s) && Supported(s.ready) && Observing(live, s, s', obs)
    ensures Settled(model, live, s') && Supported(s'.ready)
  {
    hide PublishAll, OutputOf, Written, RunAfter;
    OutputUnchanged(s, s');
    ObservationsOnlyClose(s.run, s.ready, obs);
    ReadyStaysSupported(s.run, s.ready, obs);
    PublishNothing(s.run, s.ready);
  }

  lemma StartJobKeeps(model: Model, live: bool, s: S, policy: Option<Policy>, oneCopy: bool, obs: seq<Observation>,
                      ok: bool, s': S)
    requires Inv(model, live, s) && StartJobStep(live, s, policy, oneCopy, obs, ok, s')
    ensures Inv(model, live, s')
  {
    hide PublishAll, OutputOf, Written, RunAfter, History, Settled, StoppedIn, Stopped;
    if s.run != Uncertain {
      SettledOrUncertain(model, live, s);
      ObservingKeepsSettled(model, live, s, s', obs);
    }
  }

  lemma SettledOrUncertain(model: Model, live: bool, s: S)
    requires Inv(model, live, s) && s.run != Uncertain
    ensures Settled(model, live, s)
  {
    hide History, BatchShape, OutputOf, Written, RunAfter;
  }

  predicate MidBatch(s: S) {
    s.batch.Some? && !s.batch.value.failed && !s.batch.value.first
  }

  /** Refusing a callback fails the batch; what it had written is inside a record that could have followed. */
  lemma RefusalKeeps(model: Model, live: bool, s: S, s': S)
    requires Inv(model, live, s) && Refused(s, s')
    ensures Inv(model, live, s')
    ensures MidBatch(s) ==> StoppedIn(model, live, s'.Out(), s.done, Underway(model, s.batch.value))
  {
    hide Serialize, Streams, BatchOutput, OutputOf, RunAfter, History, StoppedIn, StoppedIn, Stopped, BatchShape;
    if s.batch.Some? && !s.batch.value.failed && !s.batch.value.first {
      BrokenOff(model, live, s, s.batch.value);
    }
  }

  /** Broken output of a batch that has not printed in full leaves the run stopped inside a possible record. */
  lemma BrokenKeeps(model: Model, live: bool, s: S, s': S)
    requires Broken(s, s') && s'.run == Uncertain
    requires Supported(s'.ready) && History(model, live, s'.done) && Stopped(model, live, s'.Out(), s'.done)
    ensures Inv(model, live, s')
  {
    hide History, StoppedIn, Stopped, OutputOf, BatchShape, Settled;
  }

  /** A batch about to send: its output so far, and that its labels may become a record. */
  predicate Sendable(model: Model, live: bool, s: S, b: Batch) {
    && s.Out() == Serialize(Streams(model, s.done) + Body(model, b.continued, b.policy, b.tape, b.labels))
    && MayPrint(model, live, s.done, b)
    && b.first == (b.labels == []) && b.pending == (b.labels != [])
    && (b.pending ==> s.run == Uncertain)
    && History(model, live, s.done) && Supported(s.ready)
  }

  lemma ReadyToSend(model: Model, live: bool, s: S, b: Batch)
    requires s.batch == Some(b) && !b.failed && (model == PT2730 ==> !b.active) && Inv(model, live, s)
    ensures Sendable(model, live, s, b.(continued := ContinuedFrom(b, s.run)))
  {
    hide Serialize, Streams, Body, OutputOf, RunAfter, History, MatchingTape;
    if b.first {
      BodyOfNothing(model, b.(continued := ContinuedFrom(b, s.run)));
      assert Streams(model, s.done) + [] == Streams(model, s.done);
    } else {
      var body := Body(model, b.continued, b.policy, b.tape, b.labels);
      assert body + [] == body;
    }
  }

  lemma BodyOfNothing(model: Model, b: Batch)
    requires b.labels == []
    ensures Body(model, b.continued, b.policy, b.tape, b.labels) == []
  {}

  /** Output sent by a sendable batch, when `Body + cs` is the body of the labels and `more`. */
  lemma SendKeepsInside(model: Model, live: bool, s: S, s': S, b: Batch, cs: seq<Cmd>, more: seq<Label>, ok: bool)
    requires Sendable(model, live, s, b) && Sending(s, s', cs, ok) && b.labels + more != []
    requires forall i :: 0 <= i < |more| ==> |more[i].rows| <= MAX_HEIGHT
    requires Body(model, b.continued, b.policy, b.tape, b.labels) + cs <= StreamOf(model, Would(b, more))
    ensures StoppedIn(model, live, s'.Out(), s.done, Would(b, more)) && Stopped(model, live, s'.Out(), s.done)
    ensures ok ==>
      s'.Out() == Serialize(Streams(model, s.done) + (Body(model, b.continued, b.policy, b.tape, b.labels) + cs))
  {
    hide Serialize, Streams, Body, StreamOf, OutputOf, RunAfter, History, BatchShape, StoppedIn, Stopped, OnlyOutput;
    var body := Body(model, b.continued, b.policy, b.tape, b.labels);
    SendGrows(s, s', Streams(model, s.done) + body, cs, ok);
    assert Streams(model, s.done) + body + cs == Streams(model, s.done) + (body + cs);
    WouldAdd(model, live, s.done, b, more);
    StopsIn(model, live, s'.Out(), s.done, Would(b, more), body + cs);
  }

  lemma LoadedKeeps(model: Model, live: bool, s: S, h: Header, obs: seq<Observation>, mid: S)
    requires Inv(model, live, s) && Startable(s, h) && Loaded(live, s, mid, PageTape(h), obs)
    ensures Inv(model, live, mid) && mid.batch.Some? && mid.batch.value.tape == PageTape(h)
    ensures !mid.batch.value.failed && !mid.batch.value.active && mid.batch.value.first == s.batch.value.first
  {
    hide PublishAll, OutputOf, Written, RunAfter, History, TapeGeometry, WidthMatches, Settled, Serialize, Streams,
         BatchOutput;
    if s.batch.value.tape != PageTape(h) {
      ObservingKeepsSettled(model, live, s, mid, obs);
    }
  }

  /** The commands of a streamed page's start lead into a label with no rows yet. */
  lemma StartIsEmptyPage(b: Batch)
    ensures var cs := Feed(b.labels != []) + Setup(PT2730, b.continued, b.policy, b.tape, b.labels == [], 0);
      && Body(PT2730, b.continued, b.policy, b.tape, b.labels) + cs <= StreamOf(PT2730, Would(b, [Label([])]))
      && BatchOutput(PT2730, b.(active := true, raster := [])) ==
         Body(PT2730, b.continued, b.policy, b.tape, b.labels) + cs
  {
    var cs := Feed(b.labels != []) + Setup(PT2730, b.continued, b.policy, b.tape, b.labels == [], 0);
    StreamedPage(b, []);
    assert Rows(PT2730, []) == [];
    hide Body, Setup, Final;
    assert cs + [] == cs;
    var body := Body(PT2730, b.continued, b.policy, b.tape, b.labels + [Label([])]);
    assert body <= body + Final(b.policy);
  }

  lemma StreamedStartKeeps(live: bool, s: S, h: Header, ok: bool, s': S)
    requires Inv(PT2730, live, s) && s.batch.Some? && !s.batch.value.failed && !s.batch.value.active
    requires MIN_HEIGHT <= h.height <= MAX_HEIGHT
    requires Streamed(s, h, ok, s')
    ensures Inv(PT2730, live, s')
    ensures !ok ==>
      StoppedIn(PT2730, live, s'.Out(), s.done,
                Would(s.batch.value.(continued := ContinuedFrom(s.batch.value, s.run)), [Label([])]))
  {
    hide Serialize, Streams, Body, StreamOf, OutputOf, RunAfter, History, Setup, OnlyOutput, BatchOutput, StoppedIn,
         Stopped;
    var b := s.batch.value;
    var b' := b.(continued := ContinuedFrom(b, s.run));
    ReadyToSend(PT2730, live, s, b);
    StartIsEmptyPage(b');
    var cs := Feed(b.pending) + Setup(PT2730, b'.continued, b.policy, b.tape, b.first, 0);
    SendKeepsInside(PT2730, live, s, s', b', cs, [Label([])], ok);
    if ok {
      BatchOutputFrame(PT2730, b'.(active := true, raster := []), s'.batch.value);
    } else {
      BrokenKeeps(PT2730, live, s, s');
    }
  }

  lemma BatchOutputFrame(model: Model, a: Batch, b: Batch)
    requires a.continued == b.continued && a.policy == b.policy && a.tape == b.tape && a.labels == b.labels
    requires a.active == b.active && a.raster == b.raster
    ensures BatchOutput(model, a) == BatchOutput(model, b)
  {
    hide Body, Setup, Rows;
  }

  lemma StartPageKeeps(model: Model, live: bool, s: S, h: Header, obs: seq<Observation>, mid: S, ok: bool, s': S)
    requires Inv(model, live, s) && StartPageStep(model, live, s, h, obs, mid, ok, s')
    ensures Inv(model, live, s')
  {
    hide PublishAll, OutputOf, Written, RunAfter, History, TapeGeometry, WidthMatches, Serialize, Streams,
         BatchOutput, Setup, StoppedIn, Stopped, OnlyRequests, OnlyOutput, MatchingTape;
    if !ok && Refused(s, s') {
      RefusalKeeps(model, live, s, s');
    } else if !ok && GaveUp(live, s, h, obs, mid, s') {
      ObservingKeepsSettled(model, live, s, mid, obs);
      assert Inv(model, live, mid);
      RefusalKeeps(model, live, mid, s');
    } else {
      LoadedKeeps(model, live, s, h, obs, mid);
      if model == PT2730 {
        StreamedStartKeeps(live, mid, h, ok, s');
      } else if !ok {
        RefusalKeeps(model, live, mid, s');
      } else {
        BatchOutputStaged(mid.batch.value, s'.batch.value);
      }
    }
  }

  /** Staging a page changes nothing that has been written. */
  lemma BatchOutputStaged(a: Batch, b: Batch)
    requires a.continued == b.continued && a.policy == b.policy && a.tape == b.tape && a.labels == b.labels
    ensures BatchOutput(P710BT, a) == BatchOutput(P710BT, b)
  {
    hide Body;
  }

  /** One more streamed row extends the page's output by one command. */
  lemma RowExtendsOutput(b: Batch, row: Row)
    requires b.active
    ensures BatchOutput(PT2730, b.(raster := b.raster + [row])) == BatchOutput(PT2730, b) + [RawRow(row)]
  {
    RowsSnoc(PT2730, b.raster, row);
    hide Body, Setup, Rows;
    var head := Feed(b.labels != []) + Setup(PT2730, b.continued, b.policy, b.tape, b.labels == [], 0);
    assert head + (Rows(PT2730, b.raster) + [RawRow(row)]) == head + Rows(PT2730, b.raster) + [RawRow(row)];
  }

  lemma StreamedRowKeeps(live: bool, s: S, row: Row, ok: bool, s': S)
    requires Inv(PT2730, live, s) && s.batch.Some? && !s.batch.value.failed && s.batch.value.active
    requires |s.batch.value.raster| < s.batch.value.height
    requires var b := s.batch.value;
      && Sending(s, s', [RawRow(row)], ok) && s'.run == s.run && s'.done == s.done
      && s'.batch == if ok then Some(b.(raster := b.raster + [row])) else Failed(s.batch)
    ensures Inv(PT2730, live, s')
    ensures !ok ==>
      StoppedIn(PT2730, live, s'.Out(), s.done,
                Underway(PT2730, s.batch.value.(raster := s.batch.value.raster + [row])))
  {
    hide Serialize, Streams, OutputOf, RunAfter, History, OnlyOutput, BatchOutput, StoppedIn, Stopped, MatchingTape;
    var b := s.batch.value;
    var b' := b.(raster := b.raster + [row]);
    SendGrows(s, s', Streams(PT2730, s.done) + BatchOutput(PT2730, b), [RawRow(row)], ok);
    RowExtendsOutput(b, row);
    var out := Streams(PT2730, s.done);
    assert out + BatchOutput(PT2730, b) + [RawRow(row)] == out + BatchOutput(PT2730, b');
    if !ok {
      PartialRowStops(live, s', b');
    }
  }

  lemma PartialRowStops(live: bool, s: S, b: Batch)
    requires BatchShape(PT2730, b) && b.active
    requires (b.continued ==> Continues(RunAfter(s.done))) && (!live ==> b.continued == Continues(RunAfter(s.done)))
    requires s.Out() <= Serialize(Streams(PT2730, s.done) + BatchOutput(PT2730, b))
    ensures StoppedIn(PT2730, live, s.Out(), s.done, Underway(PT2730, b)) && Stopped(PT2730, live, s.Out(), s.done)
  {
    hide Body, StreamOf, Streams, Serialize, OutputOf, RunAfter, BatchOutput, MatchingTape;
    var more := [Label(b.raster)];
    OutputIsBody(PT2730, b);
    WouldAdd(PT2730, live, s.done, b, more);
    BodyInRecord(PT2730, b, more, BatchOutput(PT2730, b));
    StopsIn(PT2730, live, s.Out(), s.done, Would(b, more), BatchOutput(PT2730, b));
  }

  lemma StagedRowKeeps(live: bool, s: S, h: Header, y: nat, row: Row, s': S)
    requires Inv(P710BT, live, s) && s.batch.Some? && !s.batch.value.failed && s.batch.value.active
    requires y == |s.batch.value.raster| < s.batch.value.height == h.height
    requires EndRow(y, h.height) ==> row == BLANK
    requires s' == s.(batch := Some(s.batch.value.(raster := s.batch.value.raster + [row])))
    ensures Inv(P710BT, live, s')
  {
    hide Serialize, Streams, OutputOf, RunAfter, History, BatchOutput, StoppedIn, Stopped, MatchingTape;
    BatchOutputStaged(s.batch.value, s'.batch.value);
    assert Settled(P710BT, live, s) ==> Settled(P710BT, live, s');
  }

  lemma WriteLineKeeps(model: Model, live: bool, s: S, h: Header, y: nat, line: seq<byte>, ok: bool, s': S)
    requires Inv(model, live, s) && WriteLineStep(model, s, h, y, line, ok, s')
    ensures Inv(model, live, s')
  {
    hide Inv, Sending, WidthMatches, TapeGeometry, Packed;
    if !ok && Refused(s, s') {
      RefusalKeeps(model, live, s, s');
    } else if model == P710BT {
      StagedRowKeeps(live, s, h, y, RowOf(s.batch.value, h, line), s');
    } else {
      StreamedRowKeeps(live, s, RowOf(s.batch.value, h, line), ok, s');
    }
  }

  lemma StreamedEndKeeps(live: bool, s: S, s': S)
    requires Inv(PT2730, live, s) && s.batch.Some? && !s.batch.value.failed && s.batch.value.active
    requires var b := s.batch.value;
      s' == s.(batch := Some(b.(active := false, pending := true, labels := b.labels + [Label(b.raster)])))
    ensures Inv(PT2730, live, s')
  {
    hide Serialize, Streams, OutputOf, RunAfter, History, BatchOutput, Body, StoppedIn, Stopped, MatchingTape;
    var b, b' := s.batch.value, s'.batch.value;
    OutputIsBody(PT2730, b);
    OutputIsBody(PT2730, b');
    assert LabelsSoFar(PT2730, b) == LabelsSoFar(PT2730, b');
  }

  lemma TransmittedIsShort(model: Model, raster: seq<Row>)
    ensures |Transmitted(model, raster)| <= |raster|
  {}

  lemma StagedEndKeeps(live: bool, s: S, ok: bool, s': S)
    requires Inv(P710BT, live, s) && s.batch.Some? && !s.batch.value.failed && s.batch.value.active
    requires Released(s, ok, s')
    ensures Inv(P710BT, live, s')
    ensures !ok ==> StoppedIn(P710BT, live, s'.Out(), s.done,
      Would(s.batch.value.(continued := ContinuedFrom(s.batch.value, s.run)),
            [Label(Transmitted(P710BT, s.batch.value.raster))]))
  {
    hide Serialize, Streams, OutputOf, RunAfter, History, Body, Page, StoppedIn, Stopped, MatchingTape, Transmitted,
         OnlyOutput, StreamOf;
    var b := s.batch.value;
    var b' := b.(continued := ContinuedFrom(b, s.run));
    var page := Label(Transmitted(P710BT, b.raster));
    var cs := Feed(b.pending) + Page(P710BT, b'.continued, b.policy, b.tape, b.first, page);
    TransmittedIsShort(P710BT, b.raster);
    ReadyToSend(P710BT, live, s, b);
    BodyGrows(P710BT, b', page);
    var body := Body(P710BT, b'.continued, b.policy, b.tape, b.labels);
    BodyInRecord(P710BT, b', [page], body + cs);
    SendKeepsInside(P710BT, live, s, s', b', cs, [page], ok);
    if ok {
      assert body + cs + [] == body + cs;
    } else {
      BrokenKeeps(P710BT, live, s, s');
    }
  }

  lemma EndPageKeeps(model: Model, live: bool, s: S, ok: bool, s': S)
    requires Inv(model, live, s) && EndPageStep(model, s, ok, s')
    ensures Inv(model, live, s')
  {
    hide Inv, Sending, Page, Transmitted;
    if !ok && Refused(s, s') {
      RefusalKeeps(model, live, s, s');
    } else if model == PT2730 {
      StreamedEndKeeps(live, s, s');
    } else {
      StagedEndKeeps(live, s, ok, s');
    }
  }

  /** Leaving a batch without sending anything. */
  lemma AbandonKeeps(model: Model, live: bool, s: S, s': S)
    requires Inv(model, live, s) && s' == s.(batch := None)
    ensures Inv(model, live, s')
    ensures MidBatch(s) ==> StoppedIn(model, live, s'.Out(), s.done, Underway(model, s.batch.value))
  {
    hide Serialize, Streams, OutputOf, RunAfter, History, BatchOutput, StoppedIn, Stopped, MatchingTape;
    if s.batch.Some? && !s.batch.value.failed && !s.batch.value.first {
      BrokenOff(model, live, s, s.batch.value);
    }
    assert Settled(model, live, s) ==> Settled(model, live, s');
  }

  lemma FinishKeeps(model: Model, live: bool, s: S, ok: bool, s': S)
    requires Inv(model, live, s) && s.batch.Some?
    requires var b := s.batch.value;
      && !b.failed && !b.active && b.pending && s'.batch == None
      && Sending(s, s', Final(b.policy), ok)
      && if ok then
           s'.run == RunAfterJob(b.policy) && s'.done == s.done + [Job(b.continued, b.policy, b.tape, b.labels)]
         else s'.run == s.run && s'.done == s.done
    ensures Inv(model, live, s')
    ensures !ok ==> StoppedIn(model, live, s'.Out(), s.done, Would(s.batch.value, []))
  {
    hide Serialize, Streams, OutputOf, History, Body, Final, StoppedIn, Stopped, MatchingTape, OnlyOutput;
    var b := s.batch.value;
    var r := Job(b.continued, b.policy, b.tape, b.labels);
    assert b.labels + [] == b.labels;
    ReadyToSend(model, live, s, b);
    SendKeepsInside(model, live, s, s', b, Final(b.policy), [], ok);
    if ok {
      WouldAdd(model, live, s.done, b, []);
      HistorySnoc(model, live, s.done, r);
      StreamsSnoc(model, s.done, r);
    }
  }

  lemma EndJobKeeps(model: Model, live: bool, s: S, closing: bool, ok: bool, s': S)
    requires Inv(model, live, s) && EndJobStep(s, closing, ok, s')
    ensures Inv(model, live, s')
  {
    hide Inv, Sending, Final;
    if !closing {
      AbandonKeeps(model, live, s, s');
    } else {
      FinishKeeps(model, live, s, ok, s');
    }
  }

  lemma ObserveKeeps(model: Model, live: bool, s: S, s': S, obs: seq<Observation>)
    requires Inv(model, live, s) && s.batch == None && s'.batch == None
    requires s.run != Uncertain && Observing(live, s, s', obs)
    ensures Inv(model, live, s')
  {
    hide PublishAll, OutputOf, Written, RunAfter, History, Settled, StoppedIn, Stopped, OnlyRequests;
    SettledOrUncertain(model, live, s);
    ObservingKeepsSettled(model, live, s, s', obs);
  }

  lemma UnpluggedKeeps(model: Model, live: bool, s: S)
    requires live && Inv(model, live, s) && s.batch == None
    ensures Inv(model, live, s.(run := Invalidated(s.run)))
  {
    hide OutputOf, Written, RunAfter, History, StoppedIn, Stopped;
    var s' := s.(run := Invalidated(s.run));
    assert s'.Out() == s.Out();
  }

  lemma ReleaseKeeps(live: bool, s: S, ok: bool, s': S)
    requires Inv(P710BT, live, s) && s.batch == None && s.run == Open
    requires Sending(s, s', BlankContinuation(s.ready), ok) && s'.batch == None
    requires if ok then s'.run == OpenBlank && s'.done == s.done + [Release(s.ready)]
             else s'.run == Uncertain && s'.done == s.done
    ensures Inv(P710BT, live, s')
    ensures !ok ==> StoppedIn(P710BT, live, s'.Out(), s.done, Release(s.ready))
  {
    hide Serialize, Streams, OutputOf, History, StoppedIn, Stopped, MatchingTape, OnlyOutput, BlankContinuation;
    var r := Release(s.ready);
    SendGrows(s, s', Streams(P710BT, s.done), BlankContinuation(s.ready), ok);
    StreamsSnoc(P710BT, s.done, r);
    if ok {
      HistorySnoc(P710BT, live, s.done, r);
    } else {
      StopsIn(P710BT, live, s'.Out(), s.done, r, StreamOf(P710BT, r));
    }
  }

  lemma CutKeeps(model: Model, live: bool, s: S, obs: seq<Observation>, mid: S, ok: bool, s': S)
    requires Inv(model, live, s) && CutStep(model, live, s, obs, mid, ok, s')
    ensures Inv(model, live, s')
  {
    hide Inv, Sending, Observing, Clean, BlankContinuation;
    if live && s.run == Open {
      ObserveKeeps(model, live, s, mid, obs);
    }
    if mid.run == Open && (obs == [] || Clean(obs[0])) {
      ReleaseKeeps(live, mid, ok, s');
    }
  }

  lemma StepKeeps(model: Model, live: bool, s: S, e: Event, s': S)
    requires Inv(model, live, s) && Step(model, live, s, e, s')
    ensures Inv(model, live, s')
  {
    hide Inv, StartJobStep, StartPageStep, WriteLineStep, EndPageStep, EndJobStep, CutStep, Observing;
    match e
    case StartJob(policy, oneCopy, obs, ok) => StartJobKeeps(model, live, s, policy, oneCopy, obs, ok, s');
    case StartPage(h, obs, mid, ok) => StartPageKeeps(model, live, s, h, obs, mid, ok, s');
    case WriteLine(h, y, line, ok) => WriteLineKeeps(model, live, s, h, y, line, ok, s');
    case EndPage(ok) => EndPageKeeps(model, live, s, ok, s');
    case EndJob(closing, ok) => EndJobKeeps(model, live, s, closing, ok, s');
    case Observe(obs) => if s.run != Uncertain { ObserveKeeps(model, live, s, s', obs); }
    case Unplugged => UnpluggedKeeps(model, live, s);
    case CutHeld(obs, mid, ok) => CutKeeps(model, live, s, obs, mid, ok, s');
  }

  // ---------- Runs ----------

  /** A run of the driver: states joined by events, from a fresh start. */
  ghost predicate IsRun(model: Model, live: bool, states: seq<S>, events: seq<Event>) {
    && |states| == |events| + 1 && states[0] == INITIAL
    && forall i :: 0 <= i < |events| ==> Step(model, live, states[i], events[i], states[i + 1])
  }

  lemma {:induction false} EveryStateKept(model: Model, live: bool, states: seq<S>, events: seq<Event>, i: nat)
    requires IsRun(model, live, states, events) && i < |states|
    ensures Inv(model, live, states[i])
  {
    hide Inv, Step;
    if i == 0 {
      InitialInv(model, live);
    } else {
      EveryStateKept(model, live, states, events, i - 1);
      assert Step(model, live, states[i - 1], events[i - 1], states[i - 1 + 1]);
      StepKeeps(model, live, states[i - 1], events[i - 1], states[i]);
    }
  }

  /** A run goes on by any step: what a queue's methods do, call after call, from its construction is a run. */
  lemma RunExtends(model: Model, live: bool, states: seq<S>, events: seq<Event>, e: Event, s: S)
    requires IsRun(model, live, states, events) && Step(model, live, states[|states| - 1], e, s)
    ensures IsRun(model, live, states + [s], events + [e])
  {
    hide Step;
    forall i | 0 <= i < |events + [e]|
      ensures Step(model, live, (states + [s])[i], (events + [e])[i], (states + [s])[i + 1])
    {
      if i < |events| {
        assert Step(model, live, states[i], events[i], states[i + 1]);
      }
    }
  }
}
