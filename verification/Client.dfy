/** What clients ask for, read off the callbacks alone, and that finished records are exactly that. */
module Client {
  import opened Bytes
  import opened Cutter
  import opened Decoder
  import opened Device
  import opened Protocol
  import opened Raster
  import opened Runs
  import opened Safety
  import opened Stream
  import opened Tables

  /** One finished request: a job's pages under its cut policy, the header of each, and the tape that the job's last
      clean status reply named; or a release, and the tape that was named last. */
  datatype Work =
    | Printed(policy: Policy, pages: seq<seq<Row>>, headers: seq<Header>, tape: Option<byte>)
    | Freed(tape: Option<byte>)

  /** What the callbacks so far have asked for: finished work, and the job under way; and the tape that the last clean
      status reply of any callback named. */
  datatype View = View(finished: seq<Work>, open: bool, policy: Policy, pages: seq<seq<Row>>, rows: seq<Row>,
                       headers: seq<Header>, tape: Option<byte>, loaded: Option<byte>)

  const NOTHING_ASKED := View([], false, Policy(false, false), [], [], [], None, None)

  /** The tape that the last clean one of these readings named, or the one named before them. */
  function LastNamed(tape: Option<byte>, obs: seq<Observation>): Option<byte> {
    if obs == [] then tape
    else
      var o := obs[|obs| - 1];
      if Clean(o) then Some(o.reading.status.value.tapeMm) else LastNamed(tape, obs[..|obs| - 1])
  }

  /** The head row of a scanline, by the tape its page is for. */
  ghost function HeadRow(h: Header, line: seq<byte>): Row {
    var tape := MatchingTape(h.width, h.sizeWidth);
    if tape == 0 || h.width > 8 * |line| then BLANK
    else
      var g := TapeGeometry(tape).value;
      Packed(line, g.leftPx, g.imageablePx)
  }

  /** Neither model, transport, run state nor ready tape plays a part in what is asked. */
  ghost function See(v: View, e: Event): View {
    var loaded := LastNamed(v.loaded, ObsOf(e));
    match e
    case StartJob(policy, _, obs, ok) =>
      if ok && policy.Some? then View(v.finished, true, policy.value, [], [], [], LastNamed(None, obs), loaded)
      else v.(loaded := loaded)
    case StartPage(h, obs, _, ok) =>
      v.(rows := [], headers := v.headers + (if ok then [h] else []), tape := LastNamed(v.tape, obs), loaded := loaded)
    case WriteLine(h, _, line, ok) => if ok then v.(rows := v.rows + [HeadRow(h, line)]) else v
    case EndPage(ok) => if ok then v.(pages := v.pages + [v.rows]) else v
    case EndJob(closing, ok) =>
      var work := if closing && ok then [Printed(v.policy, v.pages, v.headers, v.tape)] else [];
      v.(open := false, finished := v.finished + work)
    case CutHeld(_, mid, ok) =>
      v.(finished := v.finished + (if ok && mid.run == Open then [Freed(loaded)] else []), loaded := loaded)
    case Observe(_) => v.(loaded := loaded)
    case Unplugged => v
  }

  ghost function SeeAll(events: seq<Event>): View {
    if events == [] then NOTHING_ASKED else See(SeeAll(events[..|events| - 1]), events[|events| - 1])
  }

  // ---------- Records and requests ----------

  predicate SamePages(model: Model, labels: seq<Label>, pages: seq<seq<Row>>) {
    |labels| == |pages| && forall i :: 0 <= i < |labels| ==> Logical(model, labels[i]) == pages[i]
  }

  /** Every page was for this tape. */
  predicate UnderOneTape(headers: seq<Header>, mm: byte) {
    forall k :: 0 <= k < |headers| ==> PageTape(headers[k]) == mm
  }

  /** A record is what was asked for, on the tape that was asked for and that the printer named. */
  predicate SameWork(model: Model, live: bool, r: Rec, w: Work) {
    match r
    case Job(_, policy, mm, labels) =>
      && w.Printed? && w.policy == policy && SamePages(model, labels, w.pages)
      && |w.headers| == |w.pages| && UnderOneTape(w.headers, mm) && (live ==> w.tape == Some(mm))
    case Release(mm) => w.Freed? && (live ==> w.tape == Some(mm))
  }

  predicate SameWorks(model: Model, live: bool, done: seq<Rec>, finished: seq<Work>) {
    |done| == |finished| && forall i :: 0 <= i < |done| ==> SameWork(model, live, done[i], finished[i])
  }

  lemma SameWorksSnoc(model: Model, live: bool, done: seq<Rec>, finished: seq<Work>, r: Rec, w: Work)
    requires SameWorks(model, live, done, finished) && SameWork(model, live, r, w)
    ensures SameWorks(model, live, done + [r], finished + [w])
  {}

  /** The driver's history is what was asked, page by page and row by row. */
  predicate Seen(model: Model, live: bool, s: S, v: View) {
    && SameWorks(model, live, s.done, v.finished)
    && (s.batch.Some? && !s.batch.value.failed ==>
          var b := s.batch.value;
          && v.open && v.policy == b.policy && SamePages(model, b.labels, v.pages)
          && (b.active ==> v.rows == b.raster)
          && |v.headers| == |b.labels| + (if b.active then 1 else 0) && UnderOneTape(v.headers, b.tape)
          && (live ==> v.tape == Some(b.tape)))
  }

  lemma RowIsHeadRow(b: Batch, h: Header, line: seq<byte>)
    requires WidthMatches(h.width, h.sizeWidth, b.tape) && h.width <= 8 * |line|
    ensures RowOf(b, h, line) == HeadRow(h, line)
  {
    MatchIsTheTape(h.width, h.sizeWidth, b.tape);
    hide Packed, TapeGeometry;
  }

  lemma NamedLast(tape: Option<byte>, run: Run, ready: byte, obs: seq<Observation>)
    requires obs != [] && Clean(obs[|obs| - 1])
    ensures LastNamed(tape, obs) == Some(PublishAll(run, ready, obs).1)
  {}

  /** A label that waited for its tape is still the job's first. */
  lemma LoadedIsSeen(model: Model, live: bool, s: S, h: Header, obs: seq<Observation>, mid: S, v: View)
    requires Inv(model, live, s) && Startable(s, h) && Loaded(live, s, mid, PageTape(h), obs) && Seen(model, live, s, v)
    ensures Seen(model, live, mid, v.(tape := LastNamed(v.tape, obs)))
  {
    hide PublishAll, OutputOf, History, Settled, Printing, PageTape, MarginsInWindow, OnlyRequests, Clean, LastNamed,
         SameWorks, SamePages, Exchanges, Stopped, BatchShape;
    NothingNamed(v.tape);
    if s.batch.value.tape != PageTape(h) {
      NamedLast(v.tape, s.run, s.ready, obs);
    }
  }

  lemma NothingNamed(tape: Option<byte>)
    ensures LastNamed(tape, []) == tape
  {}

  lemma StartPageIsSeen(model: Model, live: bool, s: S, h: Header, obs: seq<Observation>, mid: S, ok: bool, s': S,
                        v: View)
    requires Inv(model, live, s) && StartPageStep(model, live, s, h, obs, mid, ok, s') && Seen(model, live, s, v)
    ensures Seen(model, live, s', See(v, Event.StartPage(h, obs, mid, ok)))
  {
    hide Inv, Sending, PublishAll, PageTape, MarginsInWindow, OnlyRequests, Clean, LastNamed, SameWorks, SamePages,
         Exchanges, Loaded;
    if !ok && obs == [] && Refused(s, s') {
    } else if !ok && GaveUp(live, s, h, obs, mid, s') {
    } else {
      LoadedKeeps(model, live, s, h, obs, mid);
      LoadedIsSeen(model, live, s, h, obs, mid, v);
      LoadedUnfolds(live, s, h, obs, mid);
    }
  }

  lemma LoadedUnfolds(live: bool, s: S, h: Header, obs: seq<Observation>, mid: S)
    requires s.batch.Some? && Loaded(live, s, mid, PageTape(h), obs)
    ensures mid.done == s.done && mid.batch.Some? && mid.batch.value.tape == PageTape(h)
  {
    hide PublishAll, PageTape, OnlyRequests, Clean;
  }

  lemma PageEnds(model: Model, live: bool, s: S, ok: bool, s': S, v: View)
    requires Inv(model, live, s) && Seen(model, live, s, v) && EndPageStep(model, s, ok, s')
    ensures Seen(model, live, s', See(v, Event.EndPage(ok)))
  {
    hide Sending, Printing, Settled, History, StoppedIn;
    if ok {
      var b := s.batch.value;
      if model == P710BT {
        StagedPageIsTheStreamedPage(b.raster, b.height);
      }
    }
  }

  /** A release of held content is for the tape that the printer has just named. */
  lemma ReleaseIsNamed(model: Model, live: bool, s: S, obs: seq<Observation>, mid: S, ok: bool, s': S, v: View)
    requires CutStep(model, live, s, obs, mid, ok, s') && mid.run == Open && (obs == [] || Clean(obs[0]))
    ensures live ==> LastNamed(v.loaded, obs) == Some(mid.ready)
  {
    hide Sending, OnlyRequests, Exchanges, PublishAll, Clean, LastNamed, BlankContinuation;
    if live {
      NamedLast(v.loaded, s.run, s.ready, obs);
    }
  }

  /** Every callback does to the history exactly what it asks for. */
  lemma StepIsSeen(model: Model, live: bool, s: S, e: Event, s': S, v: View)
    requires Inv(model, live, s) && Step(model, live, s, e, s') && Seen(model, live, s, v)
    ensures Seen(model, live, s', See(v, e))
  {
    hide Inv, Sending, OnlyRequests, RowOf, HeadRow, EndPageStep, StartPageStep, SameWorks, PublishAll, LastNamed,
         Clean, MarginsInWindow, PageTape;
    match e
    case StartJob(policy, oneCopy, obs, ok) =>
      if ok && live {
        NamedLast(None, s.run, s.ready, obs);
      }
    case StartPage(h, obs, mid, ok) => StartPageIsSeen(model, live, s, h, obs, mid, ok, s', v);
    case WriteLine(h, y, line, ok) =>
      if LineFits(model, s, h, y, line) {
        RowIsHeadRow(s.batch.value, h, line);
      }
    case EndPage(ok) => PageEnds(model, live, s, ok, s', v);
    case EndJob(closing, ok) =>
      assert v.finished + [] == v.finished;
      if closing && ok {
        var b := s.batch.value;
        var r, w := Job(b.continued, b.policy, b.tape, b.labels), Printed(v.policy, v.pages, v.headers, v.tape);
        SameWorksSnoc(model, live, s.done, v.finished, r, w);
      }
    case CutHeld(obs, mid, ok) =>
      assert v.finished + [] == v.finished;
      if ok && mid.run == Open {
        ReleaseIsNamed(model, live, s, obs, mid, ok, s', v);
        SameWorksSnoc(model, live, s.done, v.finished, Release(mid.ready), Freed(LastNamed(v.loaded, obs)));
      }
    case _ =>
  }

  // ---------- Output that broke off ----------

  /** Uncertain output that no live batch can still confirm. */
  predicate Stuck(s: S) {
    s.run == Uncertain && (s.batch.None? || s.batch.value.failed)
  }

  /** An interrupted record is the client's own: the pages it finished, and at most the one it was sending, on the tape
      that all the pages it started were for and that the job's last clean status reply named. */
  predicate Belongs(model: Model, live: bool, r: Rec, v: View) {
    if r.Release? then live ==> v.loaded == Some(r.mm)
    else
      var n := |v.pages|;
      && r.policy == v.policy && n <= |r.labels| <= n + 1
      && SamePages(model, r.labels[..n], v.pages)
      && (|r.labels| == n + 1 ==> v.rows <= Logical(model, r.labels[n]))
      && UnderOneTape(v.headers, r.mm) && (live ==> v.tape == Some(r.mm))
  }

  predicate Interrupted(model: Model, live: bool, s: S, v: View, r: Rec) {
    StoppedIn(model, live, s.Out(), s.done, r) && Belongs(model, live, r, v)
  }

  ghost predicate Explained(model: Model, live: bool, s: S, v: View) {
    Stuck(s) ==> exists r :: Interrupted(model, live, s, v, r)
  }

  lemma UnderwayBelongs(model: Model, live: bool, b: Batch, v: View, rows: seq<Row>)
    requires v.policy == b.policy && SamePages(model, b.labels, v.pages)
    requires UnderOneTape(v.headers, b.tape) && (live ==> v.tape == Some(b.tape))
    requires model == PT2730 && b.active ==> rows <= b.raster
    ensures Belongs(model, live, Underway(model, b), v.(rows := rows))
  {
    var r := Underway(model, b);
    assert r.labels[..|v.pages|] == b.labels;
  }

  lemma NextPageBelongs(model: Model, live: bool, r: Rec, v: View, labels: seq<Label>, page: Label)
    requires r.Job? && r.policy == v.policy && SamePages(model, labels, v.pages) && r.labels == labels + [page]
    requires UnderOneTape(v.headers, r.mm) && (live ==> v.tape == Some(r.mm))
    requires v.rows <= Logical(model, page)
    ensures Belongs(model, live, r, v)
  {
    assert r.labels[..|v.pages|] == labels;
  }

  /** A refusal or the end of a job in the middle of a batch leaves the record under way. */
  lemma MidBatchExplained(model: Model, live: bool, s: S, s': S, v: View, rows: seq<Row>)
    requires Seen(model, live, s, v) && s.batch.Some? && !s.batch.value.failed && (s.batch.value.active ==>
      rows <= s.batch.value.raster)
    requires StoppedIn(model, live, s'.Out(), s.done, Underway(model, s.batch.value)) && s'.done == s.done
    ensures Interrupted(model, live, s', v.(rows := rows), Underway(model, s.batch.value))
  {
    hide StoppedIn, Belongs, Underway, SameWorks, SamePages, OutputOf;
    UnderwayBelongs(model, live, s.batch.value, v, rows);
  }

  /** A state with an unfinished batch that has not printed yet is certain. */
  lemma UnprintedIsCertain(model: Model, live: bool, s: S)
    requires Inv(model, live, s) && s.batch.Some? && !s.batch.value.failed && s.run == Uncertain
    ensures MidBatch(s)
  {
    hide BatchShape, History, OutputOf, Printing;
  }

  lemma RefusalExplained(model: Model, live: bool, s: S, s': S, v: View, rows: seq<Row>)
    requires Inv(model, live, s) && Seen(model, live, s, v) && Explained(model, live, s, v)
    requires Refused(s, s') || s' == s.(batch := None)
    requires rows == v.rows || rows == []
    ensures Explained(model, live, s', v.(rows := rows))
  {
    hide Inv, StoppedIn, Belongs, Underway, SameWorks, SamePages, OutputOf, MidBatch, Logical;
    if Stuck(s') {
      if Stuck(s) {
        var r :| Interrupted(model, live, s, v, r);
        BelongsToFewerRows(model, live, r, v, rows);
        assert s'.Out() == s.Out();
        assert Interrupted(model, live, s', v.(rows := rows), r);
      } else {
        UnprintedIsCertain(model, live, s);
        if Refused(s, s') {
          RefusalKeeps(model, live, s, s');
        } else {
          AbandonKeeps(model, live, s, s');
        }
        MidBatchExplained(model, live, s, s', v, rows);
      }
    }
  }

  lemma BelongsToFewerRows(model: Model, live: bool, r: Rec, v: View, rows: seq<Row>)
    requires Belongs(model, live, r, v) && (rows == v.rows || rows == [])
    ensures Belongs(model, live, r, v.(rows := rows))
  {
    hide Logical;
  }

  lemma StartPageExplained(model: Model, live: bool, s: S, h: Header, obs: seq<Observation>, mid: S, ok: bool,
                           s': S, v: View)
    requires Inv(model, live, s) && Seen(model, live, s, v) && Explained(model, live, s, v)
    requires StartPageStep(model, live, s, h, obs, mid, ok, s')
    ensures Explained(model, live, s', See(v, Event.StartPage(h, obs, mid, ok)))
  {
    hide Inv, StoppedIn, Belongs, Underway, SameWorks, SamePages, OutputOf, Logical, PublishAll, MarginsInWindow,
         Supported, MatchingTape, OnlyRequests, Sending, LastNamed, UnderOneTape;
    NothingNamed(v.tape);
    NothingNamed(v.loaded);
    assert v.headers + [] == v.headers;
    if !ok && obs == [] && Refused(s, s') {
      RefusalExplained(model, live, s, s', v, []);
    } else if !ok && GaveUp(live, s, h, obs, mid, s') {
      ObservationsOnlyClose(s.run, s.ready, obs);
    } else if !ok && Stuck(s') {
      LoadedKeeps(model, live, s, h, obs, mid);
      LoadedIsSeen(model, live, s, h, obs, mid, v);
      if model == PT2730 {
        var b := mid.batch.value;
        StreamedStartKeeps(live, mid, h, ok, s');
        var r := Would(b.(continued := ContinuedFrom(b, mid.run)), [Label([])]);
        var v' := v.(rows := [], tape := LastNamed(v.tape, obs), loaded := LastNamed(v.loaded, obs));
        NextPageBelongs(model, live, r, v', b.labels, Label([]));
        assert Interrupted(model, live, s', v', r);
      } else {
        var v' := v.(tape := LastNamed(v.tape, obs), loaded := LastNamed(v.loaded, obs));
        RefusalExplained(model, live, mid, s', v', []);
      }
    }
  }

  lemma WriteLineExplained(model: Model, live: bool, s: S, h: Header, y: nat, line: seq<byte>, ok: bool, s': S, v: View)
    requires Inv(model, live, s) && Seen(model, live, s, v) && Explained(model, live, s, v)
    requires !ok && WriteLineStep(model, s, h, y, line, ok, s')
    ensures Explained(model, live, s', v)
  {
    hide Inv, StoppedIn, Belongs, SameWorks, SamePages, OutputOf, Sending, RowOf, WidthMatches;
    if Refused(s, s') {
      RefusalExplained(model, live, s, s', v, v.rows);
    } else {
      var b, row := s.batch.value, RowOf(s.batch.value, h, line);
      StreamedRowKeeps(live, s, row, ok, s');
      var b' := b.(raster := b.raster + [row]);
      UnderwayBelongs(model, live, b', v, v.rows);
      assert Interrupted(model, live, s', v, Underway(model, b'));
    }
  }

  lemma EndPageExplained(model: Model, live: bool, s: S, ok: bool, s': S, v: View)
    requires Inv(model, live, s) && Seen(model, live, s, v) && Explained(model, live, s, v)
    requires !ok && EndPageStep(model, s, ok, s')
    ensures Explained(model, live, s', v)
  {
    hide Inv, StoppedIn, Belongs, SameWorks, SamePages, OutputOf, Sending, Logical, Transmitted;
    if Refused(s, s') {
      RefusalExplained(model, live, s, s', v, v.rows);
    } else {
      var b := s.batch.value;
      var page := Label(Transmitted(P710BT, b.raster));
      StagedEndKeeps(live, s, ok, s');
      StagedLogical(live, s);
      var r := Would(b.(continued := ContinuedFrom(b, s.run)), [page]);
      NextPageBelongs(model, live, r, v, b.labels, page);
      assert Interrupted(model, live, s', v, r);
    }
  }

  lemma StagedLogical(live: bool, s: S)
    requires Inv(P710BT, live, s) && s.batch.Some? && !s.batch.value.failed && s.batch.value.active
    requires |s.batch.value.raster| == s.batch.value.height
    ensures Logical(P710BT, Label(Transmitted(P710BT, s.batch.value.raster))) == s.batch.value.raster
  {
    hide Settled, Printing, History, Stopped;
    StagedPageIsTheStreamedPage(s.batch.value.raster, s.batch.value.height);
  }

  lemma EndJobExplained(model: Model, live: bool, s: S, closing: bool, ok: bool, s': S, v: View)
    requires Inv(model, live, s) && Seen(model, live, s, v) && Explained(model, live, s, v)
    requires EndJobStep(s, closing, ok, s')
    ensures Explained(model, live, s', See(v, Event.EndJob(closing, ok)))
  {
    hide Inv, Sending, Belongs, StoppedIn, SameWorks, SamePages, OutputOf, Final;
    var v' := See(v, Event.EndJob(closing, ok));
    assert v.finished + [] == v.finished;
    if !closing {
      RefusalExplained(model, live, s, s', v, v.rows);
      ViewOfSamePages(model, live, s', v, v');
    } else if !ok {
      var b := s.batch.value;
      FinishKeeps(model, live, s, ok, s');
      assert b.labels + [] == b.labels;
      UnderwayBelongs(model, live, b.(active := false), v, v.rows);
      var r := Would(b, []);
      assert r == Underway(model, b.(active := false));
      assert Interrupted(model, live, s', v, r);
      ViewOfSamePages(model, live, s', v, v');
    }
  }

  lemma ViewOfSamePages(model: Model, live: bool, s: S, v: View, v': View)
    requires Explained(model, live, s, v) && v'.policy == v.policy && v'.pages == v.pages && v'.rows == v.rows
    requires v'.headers == v.headers && v'.tape == v.tape && v'.loaded == v.loaded
    ensures Explained(model, live, s, v')
  {
    hide StoppedIn, SamePages, OutputOf, Logical;
    if Stuck(s) {
      var r :| Interrupted(model, live, s, v, r);
      assert Interrupted(model, live, s, v', r);
    }
  }

  lemma CutExplained(model: Model, live: bool, s: S, obs: seq<Observation>, mid: S, ok: bool, s': S, v: View)
    requires Inv(model, live, s) && Explained(model, live, s, v) && CutStep(model, live, s, obs, mid, ok, s')
    ensures Explained(model, live, s', See(v, Event.CutHeld(obs, mid, ok)))
  {
    hide Inv, Sending, Belongs, StoppedIn, OutputOf, Clean, BlankContinuation, PublishAll, OnlyRequests, LastNamed;
    NothingNamed(v.loaded);
    assert v.finished + [] == v.finished;
    if Stuck(s') {
      if s.run == Open && live {
        ObserveKeeps(model, live, s, mid, obs);
        ObservationsOnlyClose(s.run, s.ready, obs);
      }
      if mid.run == Open {
        var v' := See(v, Event.CutHeld(obs, mid, ok));
        ReleaseKeeps(live, mid, ok, s');
        ReleaseIsNamed(model, live, s, obs, mid, ok, s', v);
        ReleaseBelongs(model, live, mid.ready, v');
        assert Interrupted(model, live, s', v', Release(mid.ready));
      }
    }
  }

  lemma ReleaseBelongs(model: Model, live: bool, mm: byte, v: View)
    requires live ==> v.loaded == Some(mm)
    ensures Belongs(model, live, Release(mm), v)
  {}

  lemma ExchangesRead(obs: seq<Observation>)
    requires Exchanges(obs) && obs != []
    ensures ReadsIn(obs) != []
  {
    hide Exchange.Outcome;
    assert obs[|obs| - 1].exchange.Proper();
  }

  lemma NothingObserved(live: bool, s: S, obs: seq<Observation>)
    requires Observing(live, s, s, obs)
    ensures obs == []
  {
    hide OnlyRequests, PublishAll, Exchanges, ReadsIn;
    if obs != [] {
      ExchangesRead(obs);
    }
  }

  /** Observing never makes output uncertain, and uncertain output is never observed. */
  lemma ObservingExplained(model: Model, live: bool, s: S, s': S, obs: seq<Observation>, v: View, v': View)
    requires Explained(model, live, s, v) && (obs == [] && s'.run == Uncertain ==> v' == v)
    requires s.batch == None && if s.run == Uncertain then s' == s && obs == [] else Observing(live, s, s', obs)
    ensures Explained(model, live, s', v')
  {
    hide StoppedIn, Belongs, OutputOf, PublishAll, OnlyRequests, Exchanges;
    if s.run != Uncertain {
      ObservationsOnlyClose(s.run, s.ready, obs);
    }
  }

  lemma StartJobExplained(model: Model, live: bool, s: S, policy: Option<Policy>, oneCopy: bool, obs: seq<Observation>,
                          ok: bool, s': S, v: View)
    requires StartJobStep(live, s, policy, oneCopy, obs, ok, s') && Explained(model, live, s, v)
    ensures Explained(model, live, s', See(v, Event.StartJob(policy, oneCopy, obs, ok)))
  {
    hide Observing, Clean, LastNamed, Interrupted, PublishAll;
    NothingNamed(v.loaded);
    if s.run == Uncertain {
      NothingObserved(live, s, obs);
    }
    if !ok {
      ObservingExplained(model, live, s, s', obs, v, See(v, Event.StartJob(policy, oneCopy, obs, ok)));
    }
  }

  /** Whatever breaks off, it breaks off inside the client's own next record. */
  lemma StepIsExplained(model: Model, live: bool, s: S, e: Event, s': S, v: View)
    requires Inv(model, live, s) && Step(model, live, s, e, s')
    requires Seen(model, live, s, v) && Explained(model, live, s, v)
    ensures Explained(model, live, s', See(v, e))
  {
    hide Inv, Sending, Interrupted, Observing, SameWorks, SamePages, StartPageStep, WriteLineStep, EndPageStep,
         EndJobStep, CutStep, OutputOf;
    match e
    case StartJob(policy, oneCopy, obs, ok) => StartJobExplained(model, live, s, policy, oneCopy, obs, ok, s', v);
    case StartPage(h, obs, mid, ok) =>
      StartPageExplained(model, live, s, h, obs, mid, ok, s', v);
    case WriteLine(h, y, line, ok) =>
      if !ok {
        WriteLineExplained(model, live, s, h, y, line, ok, s', v);
      } else {
        LineIsLive(model, s, h, y, line, s');
      }
    case EndPage(ok) =>
      if !ok {
        EndPageExplained(model, live, s, ok, s', v);
      } else {
        PageIsLive(model, s, s');
      }
    case EndJob(closing, ok) => EndJobExplained(model, live, s, closing, ok, s', v);
    case CutHeld(obs, mid, ok) => CutExplained(model, live, s, obs, mid, ok, s', v);
    case Observe(obs) =>
      NothingNamed(v.loaded);
      ObservingExplained(model, live, s, s', obs, v, See(v, e));
    case Unplugged =>
  }

  lemma LineIsLive(model: Model, s: S, h: Header, y: nat, line: seq<byte>, s': S)
    requires WriteLineStep(model, s, h, y, line, true, s')
    ensures !Stuck(s')
  {
    hide RowOf, WidthMatches, Sending;
  }

  lemma PageIsLive(model: Model, s: S, s': S)
    requires EndPageStep(model, s, true, s')
    ensures !Stuck(s')
  {
    hide Sending;
  }
}
