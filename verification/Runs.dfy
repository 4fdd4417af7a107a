/** The run and batch state machine of `src/driver.c`: what each callback may do, and what every run keeps. */
module Runs {
  import opened Bytes
  import opened Cutter
  import opened Decoder
  import opened Device
  import opened Protocol
  import opened Raster
  import opened Stream
  import opened Tables
  import opened Writes

  // ---------- The run state and live tape observations ----------

  /** Open holds user content; OpenBlank holds only the blank page of a release. */
  datatype Run = Closed | Open | OpenBlank | Uncertain

  predicate Continues(run: Run) {
    run == Open || run == OpenBlank
  }

  /** An observation may close a healthy run, but never makes uncertain output certain. */
  function Invalidated(run: Run): Run {
    if run == Uncertain then Uncertain else Closed
  }

  /** One exchange on a live transport, whether its reading was published at all, and whether the printer accepted the
      media it would publish. */
  datatype Observation = Observation(exchange: Exchange, published: bool, granted: bool) {
    const reading: Reading := exchange.Outcome()
  }

  /** A clean, supported, accepted tape. */
  predicate Clean(o: Observation) {
    && o.published && o.reading.status.Some? && o.reading.status.value.error == 0
    && Supported(o.reading.status.value.tapeMm) && o.granted
  }

  lemma CleanStatus(o: Observation)
    requires Clean(o)
    ensures o.reading.status.Some?
  {}

  predicate Empty(o: Observation) {
    o.published && o.reading.status.Some? && o.reading.status.value.error == 0 && o.reading.status.value.tapeMm == 0
  }

  /** A clean reading that closes a healthy run: no tape, or another width than the ready one. */
  predicate Closes(o: Observation, ready: byte) {
    Empty(o) || (Clean(o) && o.reading.status.value.tapeMm != ready)
  }

  /** The run and the ready tape after one observation is published. */
  function Publish(run: Run, ready: byte, o: Observation): (Run, byte) {
    if Clean(o) then
      var tape := o.reading.status.value.tapeMm;
      (if tape == ready then run else Invalidated(run), tape)
    else if Empty(o) then (Invalidated(run), ready)
    else (run, ready)
  }

  function PublishAll(run: Run, ready: byte, obs: seq<Observation>): (Run, byte) {
    if obs == [] then (run, ready)
    else
      var (r, t) := PublishAll(run, ready, obs[..|obs| - 1]);
      Publish(r, t, obs[|obs| - 1])
  }

  /** The requests a callback's exchanges put on the wire. */
  function RequestsIn(obs: seq<Observation>): seq<Sent> {
    if obs == [] then [] else RequestsIn(obs[..|obs| - 1]) + obs[|obs| - 1].exchange.Requests()
  }

  /** What they read. */
  function ReadsIn(obs: seq<Observation>): seq<Heard> {
    if obs == [] then [] else ReadsIn(obs[..|obs| - 1]) + obs[|obs| - 1].exchange.Reads()
  }

  /** A callback's exchanges: each keeps its order, and only after one that was heard does another follow. */
  predicate Exchanges(obs: seq<Observation>) {
    && (forall i :: 0 <= i < |obs| ==> obs[i].exchange.Proper())
    && (forall i :: 0 <= i < |obs| - 1 ==> obs[i].reading.n >= 0)
  }

  /** A healthy open run closes exactly when one of the readings closes it; any other run stays as it is. */
  lemma {:induction false} ObservationsOnlyClose(run: Run, ready: byte, obs: seq<Observation>)
    ensures var r := PublishAll(run, ready, obs).0;
      && (r == run || (r == Closed && run != Uncertain))
      && (Continues(run) ==> (r != run <==> exists i :: 0 <= i < |obs| && ClosesAt(run, ready, obs, i)))
  {
    if obs != [] {
      var n := |obs| - 1;
      ObservationsOnlyClose(run, ready, obs[..n]);
      forall i | 0 <= i < n ensures ClosesAt(run, ready, obs[..n], i) == ClosesAt(run, ready, obs, i) {
        ClosesInPrefix(run, ready, obs, n, i);
      }
      var (r, t) := PublishAll(run, ready, obs[..n]);
      LastDecides(run, ready, obs);
      hide PublishAll, Publish, ClosesAt;
      if Continues(run) && r == run {
        assert PublishAll(run, ready, obs).0 != run <==> ClosesAt(run, ready, obs, n);
      }
    }
  }

  /** What the last reading does to the run the others left. */
  lemma LastDecides(run: Run, ready: byte, obs: seq<Observation>)
    requires obs != []
    ensures var r := PublishAll(run, ready, obs[..|obs| - 1]).0;
      PublishAll(run, ready, obs).0 == if ClosesAt(run, ready, obs, |obs| - 1) then Invalidated(r) else r
  {}

  /** The `i`th reading closes the run, given the tape that was ready before it. */
  predicate ClosesAt(run: Run, ready: byte, obs: seq<Observation>, i: nat)
    requires i < |obs|
  {
    Closes(obs[i], PublishAll(run, ready, obs[..i]).1)
  }

  lemma ClosesInPrefix(run: Run, ready: byte, obs: seq<Observation>, n: nat, i: nat)
    requires i < n <= |obs|
    ensures ClosesAt(run, ready, obs[..n], i) == ClosesAt(run, ready, obs, i)
  {
    assert obs[..n][..i] == obs[..i];
  }

  lemma {:induction false} ReadyStaysSupported(run: Run, ready: byte, obs: seq<Observation>)
    requires Supported(ready)
    ensures Supported(PublishAll(run, ready, obs).1)
    ensures obs != [] && Clean(obs[|obs| - 1]) ==>
      PublishAll(run, ready, obs).1 == obs[|obs| - 1].reading.status.value.tapeMm
  {
    if obs != [] {
      ReadyStaysSupported(run, ready, obs[..|obs| - 1]);
    }
  }

  // ---------- Pages ----------

  const MIN_HEIGHT := 500 * 180 / 2540
  const MAX_HEIGHT := 30000 * 180 / 2540

  /** The page header and the margins resolved for it. */
  datatype Header = Header(xDpi: nat, yDpi: nat, bitsPerPixel: nat, width: nat, height: nat,
                           sizeWidth: int, left: int, right: int)

  /** The tape a page is for, or 0 when no supported tape can take it. */
  function PageTape(h: Header): byte {
    if h.xDpi == 180 && h.yDpi == 180 && h.bitsPerPixel == 1 && MIN_HEIGHT <= h.height <= MAX_HEIGHT
    then MatchingTape(h.width, h.sizeWidth) else 0
  }

  /** Rows at a page end that the PT-P710BT replaces by feed. */
  predicate EndRow(y: nat, height: nat) {
    y < END_MARGIN || y + END_MARGIN >= height
  }

  /** The rows transmitted for a page. */
  function Transmitted(model: Model, raster: seq<Row>): seq<Row> {
    if model == PT2730 || |raster| < 2 * END_MARGIN then raster else raster[END_MARGIN..|raster| - END_MARGIN]
  }

  /** The page a label stands for: what was sent, with the feed put back as blank rows. */
  function Logical(model: Model, page: Label): seq<Row> {
    if model == PT2730 then page.rows else Repeat(BLANK, END_MARGIN) + page.rows + Repeat(BLANK, END_MARGIN)
  }

  /** On the PT-P710BT, every end row delivered so far is blank. */
  predicate EndsBlank(raster: seq<Row>, height: nat) {
    forall y :: 0 <= y < |raster| && EndRow(y, height) ==> raster[y] == BLANK
  }

  /** Staging loses nothing: a page that passed its end checks reads back, row for row, as the page
      a streaming printer would have been sent, and its declared row count is the rows that are sent. */
  lemma StagedPageIsTheStreamedPage(raster: seq<Row>, height: nat)
    requires MIN_HEIGHT <= height == |raster| && EndsBlank(raster, height)
    ensures Logical(P710BT, Label(Transmitted(P710BT, raster))) == raster
    ensures Logical(PT2730, Label(Transmitted(PT2730, raster))) == raster
    ensures |Transmitted(P710BT, raster)| == height - 2 * END_MARGIN > 0
  {
    var l := Logical(P710BT, Label(Transmitted(P710BT, raster)));
    assert |l| == height;
    forall y | 0 <= y < height ensures l[y] == raster[y] {
      if EndRow(y, height) {
        assert raster[y] == BLANK;
      }
    }
  }

  // ---------- The state ----------

  /** The per-job batch record. The last four fields are history: the current page, and what was printed. */
  datatype Batch = Batch(policy: Policy, tape: byte, first: bool, active: bool, pending: bool, failed: bool,
                         height: nat, raster: seq<Row>, continued: bool, labels: seq<Label>)

  function NewBatch(policy: Policy, tape: byte): Batch {
    Batch(policy, tape, true, false, false, false, 0, [], false, [])
  }

  /** A print queue between two callbacks. `done` is history: the records printed in full. */
  datatype S = S(run: Run, ready: byte, batch: Option<Batch>, wire: seq<Sent>, heard: seq<Heard>, done: seq<Rec>) {
    function Out(): seq<byte> {
      OutputOf(wire)
    }
  }

  const INITIAL := S(Closed, 12, None, [], [], [])

  /** Status exchanges, which only a live transport has: exactly their requests go on the wire, exactly their reads are
      heard, and the run and ready tape are as the readings leave them. */
  predicate Observing(live: bool, s: S, s': S, obs: seq<Observation>) {
    && (!live ==> obs == []) && Exchanges(obs)
    && s'.wire == s.wire + RequestsIn(obs) && OnlyRequests(s.wire, s'.wire)
    && s'.heard == s.heard + ReadsIn(obs)
    && s'.done == s.done
    && (s'.run, s'.ready) == PublishAll(s.run, s.ready, obs)
  }

  /** Page output: all of `cs` when confirmed, otherwise any prefix of its bytes. */
  predicate Sending(s: S, s': S, cs: seq<Cmd>, ok: bool) {
    Sends(s.wire, s'.wire, cs, ok) && s'.ready == s.ready && s.heard <= s'.heard
  }

  function Failed(b: Option<Batch>): Option<Batch> {
    if b.Some? then Some(b.value.(failed := true)) else None
  }

  /** A refused callback latches the job's failure and does nothing else. */
  predicate Refused(s: S, s': S) {
    s' == s.(batch := Failed(s.batch))
  }

  /** After failed output the batch is failed but otherwise kept, nothing more counts as printed, and the run is
      uncertain from the first attempt to write on. */
  predicate Broken(s: S, s': S) {
    && s.batch.Some? && s'.batch.Some?
    && s'.batch.value == s.batch.value.(failed := true, pending := s'.batch.value.pending)
    && s'.done == s.done
    && ((s'.run == Uncertain && |s'.wire| > |s.wire|) || (s.batch.value.pending && s'.run == s.run))
  }

  // ---------- The callbacks ----------

  datatype Event =
    | StartJob(policy: Option<Policy>, oneCopy: bool, obs: seq<Observation>, ok: bool)
    | StartPage(header: Header, obs: seq<Observation>, mid: S, ok: bool)
    | WriteLine(header: Header, y: nat, line: seq<byte>, ok: bool)
    | EndPage(ok: bool)
    | EndJob(closing: bool, ok: bool)
    | Observe(obs: seq<Observation>)
    | Unplugged
    | CutHeld(obs: seq<Observation>, mid: S, ok: bool)

  /** The live readings of one callback. */
  function ObsOf(e: Event): seq<Observation> {
    match e
    case StartJob(_, _, obs, _) => obs
    case StartPage(_, obs, _, _) => obs
    case Observe(obs) => obs
    case CutHeld(obs, _, _) => obs
    case _ => []
  }

  predicate StartJobStep(live: bool, s: S, policy: Option<Policy>, oneCopy: bool, obs: seq<Observation>, ok: bool,
                         s': S) {
    && s.batch == None
    && Observing(live, s, s', obs)
    && (s.run == Uncertain ==> !ok && s' == s)
    && (ok ==> policy.Some? && oneCopy && if live then obs != [] && Clean(obs[|obs| - 1]) else obs == [])
    && s'.batch == if ok then Some(NewBatch(policy.value, s'.ready)) else None
  }

  /** The checks a page passes before anything is sent or waited for. */
  predicate Startable(s: S, h: Header) {
    && s.batch.Some?
    && var b := s.batch.value;
       var tape := PageTape(h);
       && !b.failed && !b.active
       && tape != 0 && (tape == b.tape || b.first)
       && MarginsInWindow(TapeGeometry(tape).value, h.width, h.left, h.right)
       && !(s.run == Uncertain && b.first)
  }

  /** The pages that pass, on numbers: one bit per dot at 180 dpi, 35 to 2125 rows, and the width and margins of a
      supported tape, which only the first label may still have to wait for. */
  lemma StartableOnNumbers(s: S, h: Header, mm: byte)
    ensures Startable(s, h) && PageTape(h) == mm <==>
      && s.batch.Some? && !s.batch.value.failed && !s.batch.value.active
      && (s.batch.value.first || s.batch.value.tape == mm) && !(s.run == Uncertain && s.batch.value.first)
      && h.xDpi == 180 && h.yDpi == 180 && h.bitsPerPixel == 1 && 35 <= h.height <= 2125
      && (|| (mm == 6 && h.width == 42) || (mm == 9 && h.width == 63) || (mm == 12 && h.width == 85)
          || (mm == 12 && h.width == 84 && h.sizeWidth == 1199)
          || (mm == 18 && h.width == 127) || (mm == 24 && h.width == 170))
      && MarginsInWindow(TapeGeometry(mm).value, h.width, h.left, h.right)
  {
    hide WidthMatches, MarginsInWindow, TapeGeometry;
    WidthsThatMatch(h.width, h.sizeWidth, mm);
    if mm != 0 {
      MatchIsTheTape(h.width, h.sizeWidth, mm);
    }
  }

  /** The first label may wait for its tape; the wait ends well only on a clean reading of that width. */
  predicate Loaded(live: bool, s: S, mid: S, tape: byte, obs: seq<Observation>)
    requires s.batch.Some?
  {
    if s.batch.value.tape == tape then mid == s && obs == []
    else
      && Observing(live, s, mid, obs)
      && obs != [] && Clean(obs[|obs| - 1]) && mid.ready == tape
      && mid.batch == Some(s.batch.value.(tape := tape))
  }

  function Feed(pending: bool): seq<Cmd> {
    if pending then [FormFeed] else []
  }

  /** A batch continues the run it finds open at its first output. */
  function ContinuedFrom(b: Batch, run: Run): bool {
    if b.first then Continues(run) else b.continued
  }

  /** A streamed page's start: the pending label's feed and the page's setup, in one go. */
  predicate Streamed(s: S, h: Header, ok: bool, s': S)
    requires s.batch.Some?
  {
    var b := s.batch.value;
    var continued := ContinuedFrom(b, s.run);
    && Sending(s, s', Feed(b.pending) + Setup(PT2730, continued, b.policy, b.tape, b.first, 0), ok)
    && if ok then
         s'.run == Uncertain && s'.done == s.done &&
         s'.batch == Some(b.(first := false, active := true, pending := false,
                             height := h.height, raster := [], continued := continued))
       else Broken(s, s')
  }

  /** A first label that waited for its tape in vain. */
  predicate GaveUp(live: bool, s: S, h: Header, obs: seq<Observation>, mid: S, s': S) {
    Startable(s, h) && s.batch.value.first && Observing(live, s, mid, obs) && mid.batch == s.batch && Refused(mid, s')
  }

  predicate StartPageStep(model: Model, live: bool, s: S, h: Header, obs: seq<Observation>, mid: S, ok: bool, s': S) {
    || (!ok && obs == [] && Refused(s, s'))
    || (!ok && GaveUp(live, s, h, obs, mid, s'))
    || (&& Startable(s, h)
        && Loaded(live, s, mid, PageTape(h), obs)
        && var b := mid.batch.value;
           if model == PT2730 then Streamed(mid, h, ok, s')
           else if ok then s' == mid.(batch := Some(b.(active := true, height := h.height, raster := [])))
           else Refused(mid, s'))
  }

  /** The row a scanline becomes on the head for the batch's tape. */
  ghost function RowOf(b: Batch, h: Header, line: seq<byte>): Row
    requires WidthMatches(h.width, h.sizeWidth, b.tape) && h.width <= 8 * |line|
  {
    var g := TapeGeometry(b.tape).value;
    Packed(line, g.leftPx, g.imageablePx)
  }

  /** Rows arrive in order, each once, under the header the page started with. */
  predicate InOrder(b: Batch, h: Header, y: nat, line: seq<byte>) {
    y == |b.raster| < b.height == h.height && h.width <= 8 * |line|
  }

  /** The checks a delivered scanline passes; on the PT-P710BT an end row must also be blank. */
  ghost predicate LineFits(model: Model, s: S, h: Header, y: nat, line: seq<byte>) {
    && s.batch.Some?
    && var b := s.batch.value;
       && !b.failed && b.active && InOrder(b, h, y, line) && WidthMatches(h.width, h.sizeWidth, b.tape)
       && (model == P710BT && EndRow(y, h.height) ==> RowOf(b, h, line) == BLANK)
  }

  ghost predicate WriteLineStep(model: Model, s: S, h: Header, y: nat, line: seq<byte>, ok: bool, s': S) {
    || (!ok && Refused(s, s'))
    || (&& LineFits(model, s, h, y, line)
        && var b := s.batch.value;
           var row := RowOf(b, h, line);
           if model == P710BT then
             ok && s' == s.(batch := Some(b.(raster := b.raster + [row])))
           else
             && Sending(s, s', [RawRow(row)], ok)
             && s'.run == s.run && s'.done == s.done
             && s'.batch == if ok then Some(b.(raster := b.raster + [row])) else Failed(s.batch))
  }

  /** A staged page's end: the pending label's feed and the whole page, in one go. */
  predicate Released(s: S, ok: bool, s': S)
    requires s.batch.Some?
  {
    var b := s.batch.value;
    var continued := ContinuedFrom(b, s.run);
    var page := Label(Transmitted(P710BT, b.raster));
    && Sending(s, s', Feed(b.pending) + Page(P710BT, continued, b.policy, b.tape, b.first, page), ok)
    && if ok then
         s'.run == Uncertain && s'.done == s.done &&
         s'.batch == Some(b.(first := false, active := false, pending := true,
                             continued := continued, labels := b.labels + [page]))
       else Broken(s, s')
  }

  predicate EndPageStep(model: Model, s: S, ok: bool, s': S) {
    || (!ok && Refused(s, s'))
    || (&& s.batch.Some?
        && var b := s.batch.value;
           && !b.failed && b.active && |b.raster| == b.height
           && if model == PT2730 then
                var ended := b.(active := false, pending := true, labels := b.labels + [Label(b.raster)]);
                ok && s' == s.(batch := Some(ended))
              else Released(s, ok, s'))
  }

  function RunAfterJob(policy: Policy): Run {
    if policy.cutAtEnd then Closed else Open
  }

  /** The end of a job drops its batch; only a complete, healthy one closes its last label first. */
  predicate EndJobStep(s: S, closing: bool, ok: bool, s': S) {
    if !closing then s' == s.(batch := None) && (!ok ==> s.batch.Some? && s.batch.value.active)
    else
      && s.batch.Some?
      && var b := s.batch.value;
         && !b.failed && !b.active && b.pending && s'.batch == None
         && Sending(s, s', Final(b.policy), ok)
         && if ok then
              s'.run == RunAfterJob(b.policy) && s'.done == s.done + [Job(b.continued, b.policy, b.tape, b.labels)]
            else s'.run == s.run && s'.done == s.done
  }

  predicate CutStep(model: Model, live: bool, s: S, obs: seq<Observation>, mid: S, ok: bool, s': S) {
    && model == P710BT && s.batch == None && mid.batch == None
    && (if live && s.run == Open then |obs| == 1 && Observing(live, s, mid, obs) else obs == [] && mid == s)
    && if mid.run == Uncertain || (obs != [] && !Clean(obs[0])) then !ok && s' == mid
       else if mid.run != Open then ok && s' == mid
       else
         && Sending(mid, s', BlankContinuation(mid.ready), ok)
         && s'.batch == None
         && if ok then s'.run == OpenBlank && s'.done == mid.done + [Release(mid.ready)]
            else s'.run == Uncertain && s'.done == mid.done && |s'.wire| > |mid.wire|
  }

  ghost predicate Step(model: Model, live: bool, s: S, e: Event, s': S) {
    match e
    case StartJob(policy, oneCopy, obs, ok) => StartJobStep(live, s, policy, oneCopy, obs, ok, s')
    case StartPage(h, obs, mid, ok) => StartPageStep(model, live, s, h, obs, mid, ok, s')
    case WriteLine(h, y, line, ok) => WriteLineStep(model, s, h, y, line, ok, s')
    case EndPage(ok) => EndPageStep(model, s, ok, s')
    case EndJob(closing, ok) => EndJobStep(s, closing, ok, s')
    case Observe(obs) =>
      && s.batch == None && s'.batch == None
      && if s.run == Uncertain then s' == s && obs == [] else Observing(live, s, s', obs)
    case Unplugged => live && s.batch == None && s' == s.(run := Invalidated(s.run))
    case CutHeld(obs, mid, ok) => CutStep(model, live, s, obs, mid, ok, s')
  }

  // ---------- How observations add up ----------

  lemma BatchUnobserved(live: bool, a: S, b: S, c: S, obs: seq<Observation>)
    requires Observing(live, a, b, obs) && c == b.(batch := c.batch)
    ensures Observing(live, a, c, obs)
  {}

  lemma PublishOne(run: Run, ready: byte, o: Observation)
    ensures PublishAll(run, ready, [o]) == Publish(run, ready, o)
  {
    assert [o][..0] == [];
  }

  lemma ObservingNothing(live: bool, s: S)
    ensures Observing(live, s, s, [])
  {}

  lemma ObservingHears(live: bool, s: S, s': S, obs: seq<Observation>)
    requires Observing(live, s, s', obs)
    ensures s.heard <= s'.heard
  {}

  /** One exchange on the wire and in what was heard. */
  ghost function Exchanged(s: S, x: Exchange): S {
    s.(wire := s.wire + x.Requests(), heard := s.heard + x.Reads())
  }

  lemma InOne(o: Observation)
    ensures RequestsIn([o]) == o.exchange.Requests() && ReadsIn([o]) == o.exchange.Reads()
  {
    assert [o][..0] == [];
  }

  lemma ObservingOne(s: S, s': S, o: Observation)
    requires o.exchange.Proper() && (s'.run, s'.ready) == Publish(s.run, s.ready, o)
    requires s'.wire == Exchanged(s, o.exchange).wire && s'.heard == Exchanged(s, o.exchange).heard && s'.done == s.done
    ensures Observing(true, s, s', [o])
  {
    hide Encode;
    InOne(o);
    PublishOne(s.run, s.ready, o);
  }

  /** An exchange whose reading nobody publishes. */
  lemma ObservingUnpublished(s: S, x: Exchange)
    requires x.Proper()
    ensures Observing(true, s, Exchanged(s, x), [Observation(x, false, false)])
  {
    ObservingOne(s, Exchanged(s, x), Observation(x, false, false));
  }

  lemma {:induction false} PublishOn(run: Run, ready: byte, obs: seq<Observation>, more: seq<Observation>)
    ensures var (r, t) := PublishAll(run, ready, obs);
      PublishAll(run, ready, obs + more) == PublishAll(r, t, more)
  {
    hide Publish, Exchange.Outcome;
    if more == [] {
      assert obs + more == obs;
    } else {
      assert (obs + more)[..|obs + more| - 1] == obs + more[..|more| - 1];
      PublishOn(run, ready, obs, more[..|more| - 1]);
    }
  }

  lemma {:induction false} InAll(obs: seq<Observation>, more: seq<Observation>)
    ensures RequestsIn(obs + more) == RequestsIn(obs) + RequestsIn(more)
    ensures ReadsIn(obs + more) == ReadsIn(obs) + ReadsIn(more)
  {
    hide Exchange.Requests, Exchange.Reads, Exchange.Outcome;
    if more == [] {
      assert obs + more == obs;
    } else {
      var n := |more| - 1;
      assert (obs + more)[..|obs + more| - 1] == obs + more[..n];
      InAll(obs, more[..n]);
      AddsUp(RequestsIn(obs), RequestsIn(more[..n]), more[n].exchange.Requests());
      AddsUp(ReadsIn(obs), ReadsIn(more[..n]), more[n].exchange.Reads());
    }
  }

  /** Observations accumulate. */
  ghost function ObservingOn(live: bool, a: S, b: S, c: S, obs: seq<Observation>,
                             more: seq<Observation>): (all: seq<Observation>)
    requires Observing(live, a, b, obs) && Observing(live, b, c, more)
    requires forall i :: 0 <= i < |obs| ==> obs[i].reading.n >= 0
    ensures all == obs + more && Observing(live, a, c, all)
  {
    RequestsAddUp(a.wire, b.wire, c.wire);
    PublishOn(a.run, a.ready, obs, more);
    InAll(obs, more);
    AllExchanges(obs, more);
    AddsUp(a.wire, RequestsIn(obs), RequestsIn(more));
    AddsUp(a.heard, ReadsIn(obs), ReadsIn(more));
    obs + more
  }

  lemma AllExchanges(obs: seq<Observation>, more: seq<Observation>)
    requires Exchanges(obs) && Exchanges(more) && forall i :: 0 <= i < |obs| ==> obs[i].reading.n >= 0
    ensures Exchanges(obs + more)
  {
    hide Exchange.Proper, Exchange.Outcome;
    forall i | 0 <= i < |obs + more| ensures (obs + more)[i].exchange.Proper() {
      assert (obs + more)[i] == if i < |obs| then obs[i] else more[i - |obs|];
    }
  }

  lemma AddsUp<T>(a: seq<T>, b: seq<T>, c: seq<T>)
    ensures a + b + c == a + (b + c)
  {}
}
