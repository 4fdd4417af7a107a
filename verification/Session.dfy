/** Sessions: whatever calls a print server makes on a queue, one after another, are a run of the state machine. */
module Session {
  import opened Bytes
  import opened Decoder
  import opened Device
  import opened Driver
  import opened Finishing
  import opened LiveWire
  import opened Protocol
  import opened Runs
  import opened Safety
  import opened Stream
  import opened Tables

  /** One call of the server; a scanline is for the page under way, and for the row that comes next. */
  datatype Call =
    | CallRefresh
    | CallStartJob(values: Option<Attribute>, col: Option<Attribute>, defaults: Option<Attribute>, raster: bool,
                   copies: int)
    | CallStartPage(header: Header, leftGiven: bool, rightGiven: bool)
    | CallWriteLine(line: seq<byte>)
    | CallEndPage
    | CallEndJob(alive: bool)
    | CallPoll(processing: bool, due: bool, devices: nat, opens: bool)
    | CallCut

  /** The page under way is the one last started, and as many of its rows have come as were delivered. */
  ghost predicate Tracks(s: S, page: Option<Header>, rows: nat) {
    s.batch.Some? && !s.batch.value.failed && s.batch.value.active ==>
      page.Some? && s.batch.value.height == page.value.height && |s.batch.value.raster| == rows
  }

  /** A queue between two calls, with the page last started and how many of its rows have been delivered. */
  datatype Moment = Moment(s: S, page: Option<Header>, rows: nat)

  /** The page and the row that come next after a call: only a page start changes the page, only a row that was taken
      counts. */
  predicate Advances(m: Moment, e: Option<Event>, m': Moment) {
    match e
    case Some(StartPage(h, _, _, _)) => m'.page == Some(h) && m'.rows == 0
    case Some(WriteLine(h, y, _, ok)) =>
      m.page == Some(h) && y == m.rows && m'.page == m.page && m'.rows == if ok then y + 1 else y
    case _ => m'.page == m.page && m'.rows == m.rows
  }

  predicate LivePage(s: S) {
    s.batch.Some? && !s.batch.value.failed && s.batch.value.active
  }

  /** When the server makes a call: jobs one at a time, rows in order and on the page that was started, pages ended when
      complete, cuts and polls that touch the printer only between jobs. */
  predicate Due(model: Model, s: S, call: Call, page: Option<Header>, rows: nat) {
    match call
    case CallRefresh => s.batch == None
    case CallStartJob(_, _, _, _, _) => s.batch == None
    case CallWriteLine(line) =>
      page.Some? && (LivePage(s) ==> rows < page.value.height && page.value.width <= 8 * |line|)
    case CallEndPage => page.Some? && (LivePage(s) ==> rows == page.value.height)
    case CallPoll(processing, _, _, _) => !processing && s.batch == None
    case CallCut => s.batch == None && model == P710BT
    case _ => true
  }

  /** The event is the call's, with the call's own arguments. */
  ghost predicate Answers(call: Call, e: Event) {
    match call
    case CallRefresh => e.Observe?
    case CallStartJob(values, col, defaults, raster, copies) =>
      e.StartJob? && e.policy == PolicyOf(values, col, defaults) && e.oneCopy == (raster ==> copies == 1)
    case CallStartPage(h, _, _) => e.StartPage? && e.header.(left := h.left, right := h.right) == h
    case CallWriteLine(line) => e.WriteLine? && e.line == line
    case CallEndPage => e.EndPage?
    case CallEndJob(_) => e.EndJob?
    case CallPoll(_, _, _, _) => e.Observe? || e.Unplugged?
    case CallCut => e.CutHeld?
  }

  lemma StartPageTracks(model: Model, live: bool, s: S, h: Header, obs: seq<Observation>, mid: S, ok: bool, s': S)
    requires Step(model, live, s, Event.StartPage(h, obs, mid, ok), s')
    ensures Tracks(s', Some(h), 0)
  {
    hide Sending, Observing, Clean, PageTape, MarginsInWindow, Setup;
  }

  lemma WriteLineTracks(model: Model, live: bool, s: S, h: Header, y: nat, line: seq<byte>, ok: bool, s': S)
    requires Step(model, live, s, Event.WriteLine(h, y, line, ok), s') && Tracks(s, Some(h), y)
    ensures Tracks(s', Some(h), if ok then y + 1 else y)
  {
    hide Sending, RowOf, WidthMatches;
  }

  lemma PageOver(model: Model, live: bool, s: S, e: Event, s': S, page: Option<Header>, rows: nat)
    requires Step(model, live, s, e, s') && (e.EndPage? || e.EndJob? || e.StartJob?)
    ensures Tracks(s', page, rows)
  {
    hide Sending, Observing, Clean, Transmitted, Page;
  }

  ghost function PageOf(page: PageOptions?): Option<Header>
    reads page
  {
    if page == null then None else Some(page.h)
  }

  predicate PageCall(call: Call) {
    call.CallStartPage? || call.CallWriteLine? || call.CallEndPage?
  }

  /** Makes a call if it is due, and does nothing otherwise. */
  method MakeCall(q: Queue, call: Call, page: PageOptions?, rows: nat)
    returns (now: PageOptions?, count: nat, ghost e: Option<Event>)
    requires q.Valid() && Tracks(q.Abs(), PageOf(page), rows)
    modifies q.Repr()
    ensures q.Valid() && fresh(q.Repr() - old(q.Repr())) && (now == page || fresh(now))
    ensures Tracks(q.Abs(), PageOf(now), count)
    ensures e.Some? <==> Due(q.model, old(q.Abs()), call, old(PageOf(page)), rows)
    ensures Advances(Moment(old(q.Abs()), old(PageOf(page)), rows), e, Moment(q.Abs(), PageOf(now), count))
    ensures if e.Some? then Step(q.model, q.live, old(q.Abs()), e.value, q.Abs()) else q.Abs() == old(q.Abs())
    ensures e.Some? ==> Answers(call, e.value)
  {
    hide Step, Tracks, Due;
    if PageCall(call) {
      now, count, e := MakePageCall(q, call, page, rows);
    } else {
      now, count := page, rows;
      e := MakeJobCall(q, call, PageOf(page), rows);
    }
  }

  method MakeJobCall(q: Queue, call: Call, ghost page: Option<Header>, ghost rows: nat) returns (ghost e: Option<Event>)
    requires q.Valid() && Tracks(q.Abs(), page, rows) && !PageCall(call)
    modifies q.Repr()
    ensures q.Valid() && fresh(q.Repr() - old(q.Repr())) && Tracks(q.Abs(), page, rows)
    ensures e.Some? <==> Due(q.model, old(q.Abs()), call, page, rows)
    ensures if e.Some? then Step(q.model, q.live, old(q.Abs()), e.value, q.Abs()) else q.Abs() == old(q.Abs())
    ensures e.Some? ==> Answers(call, e.value)
  {
    hide Step, Tracks, PolicyOf;
    e := None;
    ghost var was := q.Abs();
    var ok;
    match call
    case CallRefresh =>
      if q.batch == null {
        ghost var obs;
        ok, obs := q.RefreshReadyMedia();
        e := Some(Event.Observe(obs));
        RefreshIsStep(q.model, q.live, was, obs, q.Abs());
        NoBatchTracks(q.Abs(), page, rows);
      }
    case CallStartJob(values, col, defaults, raster, copies) =>
      if q.batch == null {
        ghost var obs;
        ok, obs := q.StartJob(values, col, defaults, raster, copies);
        e := Some(Event.StartJob(PolicyOf(values, col, defaults), !raster || copies == 1, obs, ok));
        PageOver(q.model, q.live, was, e.value, q.Abs(), page, rows);
      }
    case CallEndJob(alive) =>
      ghost var closing;
      ok, closing := q.EndJob(alive);
      e := Some(Event.EndJob(closing, ok));
      NoBatchTracks(q.Abs(), page, rows);
    case CallPoll(processing, due, devices, opens) =>
      if processing || q.batch == null {
        ghost var polled := q.IdlePoll(processing, due, devices, opens);
        if !processing {
          e := Some(polled);
          NoBatchTracks(q.Abs(), page, rows);
        }
      }
    case CallCut =>
      if q.batch == null && q.model == P710BT {
        ghost var obs, mid;
        ok, obs, mid := q.CutHeld();
        e := Some(Event.CutHeld(obs, mid, ok));
        NoBatchTracks(q.Abs(), page, rows);
      }
    case _ =>
  }

  method MakePageCall(q: Queue, call: Call, page: PageOptions?, rows: nat)
    returns (now: PageOptions?, count: nat, ghost e: Option<Event>)
    requires q.Valid() && Tracks(q.Abs(), PageOf(page), rows) && PageCall(call)
    modifies q.Repr()
    ensures q.Valid() && fresh(q.Repr() - old(q.Repr())) && (now == page || fresh(now))
    ensures Tracks(q.Abs(), PageOf(now), count)
    ensures e.Some? <==> Due(q.model, old(q.Abs()), call, old(PageOf(page)), rows)
    ensures Advances(Moment(old(q.Abs()), old(PageOf(page)), rows), e, Moment(q.Abs(), PageOf(now), count))
    ensures if e.Some? then Step(q.model, q.live, old(q.Abs()), e.value, q.Abs()) else q.Abs() == old(q.Abs())
    ensures e.Some? ==> Answers(call, e.value)
  {
    hide Step, Tracks, TapeGeometry, MatchingTape, Queue.Valid, PrintBatch.Staged, OutputOf;
    now, count, e := page, rows, None;
    ghost var was := q.Abs();
    var live := q.batch != null && !q.batch.failed && q.batch.active;
    LiveTracks(was, PageOf(page), rows);
    var ok;
    match call
    case CallStartPage(header, leftGiven, rightGiven) =>
      now, e := MakePageStart(q, header, leftGiven, rightGiven);
      count := 0;
    case CallWriteLine(line) =>
      if page != null && (!live || (rows < page.h.height && page.h.width <= 8 * |line|)) {
        ghost var h := page.h;
        ok := q.WriteLine(page, rows, line);
        e := Some(Event.WriteLine(h, rows, line, ok));
        WriteLineTracks(q.model, q.live, was, h, rows, line, ok, q.Abs());
        count := if ok then rows + 1 else rows;
      }
    case CallEndPage =>
      if page != null && (!live || rows == page.h.height) {
        ok := q.EndPage(page);
        e := Some(Event.EndPage(ok));
        PageOver(q.model, q.live, was, e.value, q.Abs(), PageOf(now), count);
      }
    case _ =>
  }

  method MakePageStart(q: Queue, header: Header, leftGiven: bool, rightGiven: bool)
    returns (now: PageOptions, ghost e: Option<Event>)
    requires q.Valid()
    modifies q.Repr()
    ensures q.Valid() && fresh(q.Repr() - old(q.Repr())) && fresh(now)
    ensures Tracks(q.Abs(), Some(now.h), 0) && e.Some? && e.value.StartPage? && e.value.header == now.h
    ensures Answers(CallStartPage(header, leftGiven, rightGiven), e.value)
    ensures Step(q.model, q.live, old(q.Abs()), e.value, q.Abs())
  {
    hide Step, Tracks, TapeGeometry, MatchingTape, Queue.Valid, PrintBatch.Staged, OutputOf;
    ghost var was := q.Abs();
    now := new PageOptions(header, leftGiven, rightGiven);
    ghost var obs, mid;
    var ok;
    ok, obs, mid := q.StartPage(now);
    e := Some(Event.StartPage(now.h, obs, mid, ok));
    StartPageTracks(q.model, q.live, was, now.h, obs, mid, ok, q.Abs());
  }

  lemma RefreshIsStep(model: Model, live: bool, s: S, obs: seq<Observation>, s': S)
    requires Observing(live, s, s', obs) && s.batch == s'.batch == None && (s.run == Uncertain ==> s' == s && obs == [])
    ensures Step(model, live, s, Event.Observe(obs), s')
  {}

  lemma NoBatchTracks(s: S, page: Option<Header>, rows: nat)
    requires s.batch == None
    ensures Tracks(s, page, rows)
  {}

  lemma LiveTracks(s: S, page: Option<Header>, rows: nat)
    requires Tracks(s, page, rows)
    ensures s.batch.Some? && !s.batch.value.failed && s.batch.value.active ==>
      page.Some? && s.batch.value.height == page.value.height && |s.batch.value.raster| == rows
  {}

  /** The calls that were made. */
  function Made(outcomes: seq<Option<Event>>): seq<Event> {
    if outcomes == [] then []
    else
      var last := outcomes[|outcomes| - 1];
      Made(outcomes[..|outcomes| - 1]) + if last.Some? then [last.value] else []
  }

  lemma MadeSnoc(outcomes: seq<Option<Event>>, e: Option<Event>)
    ensures Made(outcomes + [e]) == Made(outcomes) + if e.Some? then [e.value] else []
  {
    assert (outcomes + [e])[..|outcomes|] == outcomes;
  }

  /** One call between two moments: made exactly when due, and then a step with the call's own arguments. */
  ghost predicate Joins(model: Model, live: bool, m: Moment, call: Call, e: Option<Event>, m': Moment) {
    && (e.Some? <==> Due(model, m.s, call, m.page, m.rows)) && Advances(m, e, m')
    && if e.Some? then Answers(call, e.value) && Step(model, live, m.s, e.value, m'.s) else m'.s == m.s
  }

  /** Any session on a new queue, over any world, is a run, made of the session's own calls in order: what is proved of
      every run is true of every session. */
  method Serve(model: Model, live: bool, script: seq<Answer>, calls: seq<Call>)
    returns (q: Queue, ghost moments: seq<Moment>, ghost outcomes: seq<Option<Event>>, ghost states: seq<S>)
    ensures fresh(q.Repr()) && q.Valid() && q.model == model && q.live == live
    ensures |moments| == |calls| + 1 && |outcomes| == |calls|
    ensures moments[0] == Moment(INITIAL, None, 0) && moments[|calls|].s == q.Abs()
    ensures forall i :: 0 <= i < |calls| ==> Joins(model, live, moments[i], calls[i], outcomes[i], moments[i + 1])
    ensures IsRun(model, live, states, Made(outcomes)) && states[|Made(outcomes)|] == q.Abs()
    ensures Inv(model, live, q.Abs())
  {
    hide Step, Tracks, Inv, Made, Answers, Due, Advances;
    var world := new World(script);
    q := new Queue(model, live, world);
    states, outcomes, moments := [q.Abs()], [], [Moment(q.Abs(), None, 0)];
    MadeNothing();
    var page: PageOptions?, rows := null, 0;
    NoBatchTracks(q.Abs(), None, 0);
    for i := 0 to |calls|
      invariant q.Valid() && fresh(q.Repr()) && q.model == model && q.live == live
      invariant Tracks(q.Abs(), PageOf(page), rows) && (page != null ==> fresh(page))
      invariant IsRun(model, live, states, Made(outcomes)) && states[|Made(outcomes)|] == q.Abs()
      invariant |outcomes| == i && |moments| == i + 1
      invariant moments[0] == Moment(INITIAL, None, 0) && moments[i] == Moment(q.Abs(), PageOf(page), rows)
      invariant forall k :: 0 <= k < i ==> Joins(model, live, moments[k], calls[k], outcomes[k], moments[k + 1])
    {
      ghost var e;
      page, rows, e := MakeCall(q, calls[i], page, rows);
      MadeSnoc(outcomes, e);
      if e.Some? {
        RunExtends(model, live, states, Made(outcomes), e.value, q.Abs());
        states := states + [q.Abs()];
      }
      outcomes, moments := outcomes + [e], moments + [Moment(q.Abs(), PageOf(page), rows)];
    }
    EveryStateKept(model, live, states, Made(outcomes), |Made(outcomes)|);
  }

  lemma MadeNothing()
    ensures Made([]) == []
  {}

  // ---------- A request that is cut inside ----------

  const QUIET := Answer(false, true, 0, Some([]), false, false)
  const CUT_AFTER_ONE := Answer(false, false, 1, None, false, false)

  /** When no input is waiting, an exchange goes on to its request, of which the next answer lets as much through. */
  lemma RequestGoesOut(script: seq<Answer>, x: Exchange)
    requires x.Proper() && Answered(script, x) && |script| > 0 && script[0].chunk == Some([])
    ensures x.drain == [Some([])]
    ensures x.Requests() == [Request(SentBy(From(script, 1), Encode(StatusRequest)))]
    ensures !Confirmed(From(script, 1)) ==> x.Outcome().status == None && x.Questions() == 2
  {
    hide Encode, SentBy, Confirmed;
    assert x.drain[0] == HeardBy(From(script, 0), 32) == Some([]);
  }

  lemma PollAsks(s: S, e: Event, s': S)
    requires Step(P710BT, true, s, e, s') && s.run != Uncertain && e.Observe? && |e.obs| == 1
    ensures e.obs[0].exchange.Proper() && s'.wire == s.wire + e.obs[0].exchange.Requests()
    ensures e.obs[0].reading == e.obs[0].exchange.Outcome() && s'.run != Uncertain
  {
    hide PublishAll, OnlyRequests, Exchange.Proper, Exchange.Requests, Exchange.Outcome;
    InOne(e.obs[0]);
    assert e.obs == [e.obs[0]];
    ObservationsOnlyClose(s.run, s.ready, e.obs);
  }

  /** It does happen: the request of an idle poll is cut after one byte, the run stays certain, the next poll writes its
      own request behind it, and the wire is no stream of commands any more. */
  method TornRequestHappens() returns (q: Queue, ghost states: seq<S>, ghost events: seq<Event>)
    ensures IsRun(P710BT, true, states, events) && states[|events|] == q.Abs() && |events| == 2
    ensures q.world.wire == [Request([0x1b]), Request(Encode(StatusRequest))]
    ensures q.run != Uncertain && WrittenAfterTorn(q.world.wire) && !Commands(AllBytes(q.world.wire))
  {
    hide Step, Commands, Exchange.Requests, Exchange.Outcome, Exchange.Proper, Exchange.Questions, Answered;
    var world := new World([QUIET, CUT_AFTER_ONE, QUIET, QUIET]);
    q := new Queue(P710BT, true, world);
    ghost var a := q.Abs();
    ghost var script := world.script;
    ghost var first := q.IdlePoll(false, true, 1, true);
    ghost var b := q.Abs();
    PollAsks(a, first, b);
    RequestGoesOut(script, first.obs[0].exchange);
    assert From(script, 1)[0] == CUT_AFTER_ONE;
    assert SentBy(From(script, 1), Encode(StatusRequest)) == [0x1b];
    assert world.script == From(script, 2) == [QUIET, QUIET];
    script := world.script;
    ghost var second := q.IdlePoll(false, true, 1, true);
    PollAsks(b, second, q.Abs());
    RequestGoesOut(script, second.obs[0].exchange);
    assert From(script, 1)[0] == QUIET;
    states, events := [a, b, q.Abs()], [first, second];
    assert TornAt(q.world.wire, 0) && q.world.wire[1].bytes != [];
    WireIsCommandsUnlessTorn(P710BT, true, states, events, 2);
  }
}
