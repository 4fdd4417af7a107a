/** The raster callbacks and the cut operation of `src/driver.c`, over a device that may fail at any byte. */
module Driver {
  import opened Bytes
  import opened Cutter
  import opened Decoder
  import opened Device
  import opened Finishing
  import opened Protocol
  import opened Raster
  import opened Runs
  import opened Status
  import opened Stream
  import opened Tables
  import opened Writes

  /** One staged page: a packed row for every logical row of the longest roll. */
  const PAGE_BYTES: nat := 16 * MAX_HEIGHT

  /** The dots of a margin, in C's 32-bit unsigned arithmetic. */
  function MarginDots(margin: int, dpi: nat): nat {
    margin * dpi % 0x1_0000_0000 / 2540
  }

  /** The options of one page, whose margins are resolved in place, and the image box with them. */
  class PageOptions {
    var h: Header
    var boxLeft: nat
    var boxRight: nat
    /** Which margins the job's media-col names itself. */
    const leftGiven: bool
    const rightGiven: bool

    constructor (h: Header, leftGiven: bool, rightGiven: bool)
      ensures this.h == h && this.leftGiven == leftGiven && this.rightGiven == rightGiven
    {
      this.h, this.leftGiven, this.rightGiven, boxLeft, boxRight := h, leftGiven, rightGiven, 0, 0;
    }

    /** The page under the published margins of its tape, except for margins the job gave. */
    function Resolved(): Header
      reads this
    {
      var tape := MatchingTape(h.width, h.sizeWidth);
      if tape == 0 then h
      else
        var g := TapeGeometry(tape).value;
        h.(left := if leftGiven then h.left else g.leftMarginCmm,
           right := if rightGiven then h.right else g.rightMarginCmm)
    }

    /** Finds the tape that takes the page, resolves its margins, and boxes the page less their whole dots. */
    method ResolveMargins() returns (tape: byte)
      modifies this
      ensures tape == MatchingTape(h.width, h.sizeWidth) && h == old(Resolved())
      ensures tape == 0 ==> boxLeft == old(boxLeft) && boxRight == old(boxRight)
      ensures tape != 0 ==> boxLeft == h.left * h.xDpi % 0x1_0000_0000 / 2540
      ensures tape != 0 ==>
        boxRight == (h.width - h.right * h.xDpi % 0x1_0000_0000 / 2540 - 1) % 0x1_0000_0000
      ensures leftGiven || tape == 0 ==> h.left == old(h.left)
      ensures rightGiven || tape == 0 ==> h.right == old(h.right)
      ensures tape != 0 && !leftGiven ==> h.left == map[6 := 74, 9 := 83, 12 := 63, 18 := 53, 24 := 297][tape]
      ensures tape != 0 && !rightGiven ==> h.right == map[6 := 74, 9 := 85, 12 := 71, 18 := 57, 24 := 297][tape]
      ensures h == old(h).(left := h.left, right := h.right)
      ensures tape != 0 && !leftGiven && !rightGiven && h.xDpi == 180 ==>
        var g := TapeGeometry(tape).value;
        h.width == g.nominalPx ==> boxLeft == g.leftPx && boxRight + 1 == g.rightPx
    {
      hide MarginDots, TapeGeometry;
      var i := 0;
      while i < |TAPES|
        invariant 0 <= i <= |TAPES| && h == old(h) && boxLeft == old(boxLeft) && boxRight == old(boxRight)
        invariant forall k :: 0 <= k < i ==> !WidthMatches(h.width, h.sizeWidth, TAPES[k])
      {
        if WidthMatches(h.width, h.sizeWidth, TAPES[i]) {
          tape := TAPES[i];
          MatchIsTheTape(h.width, h.sizeWidth, tape);
          OnlySupportedTapes(tape);
          GeometryOfTape(tape);
          var g := TapeGeometry(tape).value;
          if !leftGiven {
            h := h.(left := g.leftMarginCmm);
          }
          if !rightGiven {
            h := h.(right := g.rightMarginCmm);
          }
          boxLeft := MarginDots(h.left, h.xDpi);
          boxRight := (h.width - MarginDots(h.right, h.xDpi) - 1) % 0x1_0000_0000;
          BoxIsTheWindow(tape);
          DotsOf(h.left, h.xDpi);
          DotsOf(h.right, h.xDpi);
          return;
        }
        i := i + 1;
      }
      assert TAPES[0] == 6 && TAPES[1] == 9 && TAPES[2] == 12 && TAPES[3] == 18 && TAPES[4] == 24;
      tape := 0;
    }
  }

  /** Under the published margins the image box is the tape's window. */
  lemma BoxIsTheWindow(mm: int)
    requires Supported(mm)
    ensures var g := TapeGeometry(mm).value;
      && MarginDots(g.leftMarginCmm, 180) == g.leftPx
      && g.nominalPx - MarginDots(g.rightMarginCmm, 180) == g.rightPx && 0 < g.rightPx < 0x1_0000_0000
  {
    GeometryOfTape(mm);
    hide TapeGeometry, MarginDots;
    var g := TapeGeometry(mm).value;
    DotsOfSmall(g.leftMarginCmm);
    DotsOfSmall(g.rightMarginCmm);
  }

  lemma DotsOf(margin: int, dpi: nat)
    ensures MarginDots(margin, dpi) == margin * dpi % 0x1_0000_0000 / 2540
  {}

  lemma DotsOfSmall(margin: nat)
    requires margin < 1000
    ensures MarginDots(margin, 180) == margin * 180 / 2540
  {}

  /** The statuses read since `from` say ready before they say fault. */
  ghost predicate ReadySince(heard: seq<Heard>, from: nat) {
    from <= |heard| && SaysReady(Delivered(heard[from..]))
  }

  /** Statuses read since `from` say fault before they say ready. */
  ghost predicate FaultySince(heard: seq<Heard>, from: nat) {
    exists k :: from <= k <= |heard| && SaysFault(Delivered(heard[k..]))
  }

  /** Something stood in the way since `faults` and `heard` were noted: the world, or a printer that reported a
      fault. */
  ghost predicate Troubled(world: World, faults: nat, heard: nat)
    reads world
  {
    world.faults > faults || FaultySince(world.heard, heard)
  }

  /** A page buffer holds every row so far that will be sent, each behind the ones before it. */
  predicate Holds(page: seq<byte>, raster: seq<Row>, height: nat)
    requires |page| == PAGE_BYTES && height <= MAX_HEIGHT && |raster| <= height
  {
    forall y :: 0 <= y < |raster| && !EndRow(y, height) ==>
      page[16 * (y - END_MARGIN)..16 * (y - END_MARGIN) + 16] == raster[y]
  }

  lemma HoldsOneMore(page: seq<byte>, next: seq<byte>, raster: seq<Row>, row: Row, height: nat)
    requires |page| == |next| == PAGE_BYTES && |raster| < height <= MAX_HEIGHT && Holds(page, raster, height)
    requires if EndRow(|raster|, height) then next == page else next == Splice(page, 16 * (|raster| - END_MARGIN), row)
    ensures Holds(next, raster + [row], height)
  {
    forall y | 0 <= y < |raster + [row]| && !EndRow(y, height)
      ensures next[16 * (y - END_MARGIN)..16 * (y - END_MARGIN) + 16] == (raster + [row])[y]
    {
      if y < |raster| {
        var at := 16 * (y - END_MARGIN);
        assert next[at..at + 16] == page[at..at + 16];
      }
    }
  }

  /** The record a job carries from its start to its end. */
  class PrintBatch {
    const policy: Policy
    var tape: byte
    var first: bool
    var active: bool
    var pending: bool
    var failed: bool
    var page: array?<byte>
    ghost var height: nat
    ghost var raster: seq<Row>
    ghost var continued: bool
    ghost var labels: seq<Label>

    constructor (policy: Policy, tape: byte)
      ensures Value() == NewBatch(policy, tape) && page == null
    {
      this.policy, this.tape := policy, tape;
      first, active, pending, failed, page := true, false, false, false, null;
      height, raster, continued, labels := 0, [], false, [];
    }

    ghost function Value(): Batch
      reads this
    {
      Batch(policy, tape, first, active, pending, failed, height, raster, continued, labels)
    }

    method BeginPage(height: nat, ghost continued: bool)
      modifies this`active, this`height, this`raster, this`continued
      ensures Value() == old(Value()).(active := true, height := height, raster := [], continued := continued)
    {
      active, this.height, raster, this.continued := true, height, [], continued;
    }

    method KeepPending()
      modifies this`active, this`pending, this`labels
      ensures Value() == old(Value()).(active := false, pending := true, labels := old(labels) + [Label(old(raster))])
    {
      active, pending, labels := false, true, labels + [Label(raster)];
    }

    method Finish(ghost page: Label, ghost continued: bool)
      modifies this`first, this`active, this`pending, this`continued, this`labels
      ensures Value() == old(Value()).(first := false, active := false, pending := true,
                                       continued := continued, labels := old(labels) + [page])
    {
      first, active, pending, this.continued, labels := false, false, true, continued, labels + [page];
    }

    /** Row `y` of a staged page lies behind the rows before it that are sent too. */
    ghost predicate Staged()
      reads this, page
    {
      page != null && page.Length == PAGE_BYTES && MIN_HEIGHT <= height <= MAX_HEIGHT && |raster| <= height &&
      Holds(page[..], raster, height)
    }
  }

  /** How many questions a try asks before it is decided whether another follows. */
  function Took(o: Observation): nat {
    o.exchange.Questions()
  }

  /** How many questions tries ask that each lead to another, with the two that decide it. */
  function TriesTook(obs: seq<Observation>): nat {
    if obs == [] then 0 else TriesTook(obs[..|obs| - 1]) + Took(obs[|obs| - 1]) + 2
  }

  /** Another try follows: the job is not canceled, and there is time left. */
  predicate GoesOn(script: seq<Answer>, at: nat) {
    !CanceledBy(From(script, at)) && !ExpiredBy(From(script, at + 1))
  }

  lemma NoTries(script: seq<Answer>)
    ensures From(script, TriesTook([])) == script
  {}

  /** A try behind others starts where they ended. */
  lemma TryTook(script: seq<Answer>, obs: seq<Observation>, o: Observation)
    ensures var at := TriesTook(obs);
      && GoesOn(From(script, at), Took(o)) == GoesOn(script, at + Took(o))
      && From(From(script, at), Took(o) + 2) == From(script, TriesTook(obs + [o]))
  {
    hide Took, From, CanceledBy, ExpiredBy;
    assert (obs + [o])[..|obs|] == obs;
    FromFrom(script, TriesTook(obs), Took(o));
    FromFrom(script, TriesTook(obs), Took(o) + 1);
    FromFrom(script, TriesTook(obs), Took(o) + 2);
  }

  /** One print queue: its run state, its ready tape, and the batch of the job being printed. */
  class Queue {
    const model: Model
    const live: bool
    const world: World
    var run: Run
    var ready: byte
    var batch: PrintBatch?
    ghost var done: seq<Rec>

    constructor (model: Model, live: bool, world: World)
      requires world.wire == [] && world.heard == []
      ensures Valid() && fresh(Repr() - {world}) && this.model == model && this.live == live && this.world == world
      ensures Abs() == INITIAL
    {
      this.model, this.live, this.world := model, live, world;
      run, ready, batch, done := Closed, 12, null, [];
    }

    ghost function Repr(): set<object>
      reads this, batch
    {
      {this, world} + (if batch == null then {} else {batch} + if batch.page == null then {} else {batch.page})
    }

    ghost function Abs(): S
      reads this, world, batch
    {
      S(run, ready, if batch == null then None else Some(batch.Value()), world.wire, world.heard, done)
    }

    ghost predicate Valid()
      reads `batch, batch, if batch == null || batch.page == null then {} else {batch.page}
    {
      && (batch != null && batch.first ==> !batch.pending && (model == PT2730 ==> !batch.active))
      && (batch != null && batch.page != null ==> batch.page.Length == PAGE_BYTES)
      && (batch != null && !batch.failed && batch.active && model == P710BT ==> batch.Staged())
    }

    /** Publishes one reading; only a clean tape that the printer accepts counts as confirmed. */
    method PublishTape(r: Reading) returns (ok: bool, ghost granted: bool)
      modifies this`run, this`ready, world`script, world`faults
      ensures |world.script| <= |old(world.script)| && world.faults >= old(world.faults)
      ensures forall x: Exchange :: x.Outcome() == r ==>
        && (run, ready) == Publish(old(run), old(ready), Observation(x, true, granted))
        && (ok <==> Clean(Observation(x, true, granted)))
      ensures ok <==>
        && r.status.Some? && r.status.value.error == 0 && r.status.value.tapeMm in {6, 9, 12, 18, 24}
        && old(world.script) != [] && old(world.script)[0].granted
      ensures ready == if ok then r.status.value.tapeMm else old(ready)
      ensures var gone := r.status.Some? && r.status.value.error == 0 && r.status.value.tapeMm == 0;
        run == if old(run) != Uncertain && (gone || (ok && ready != old(ready))) then Closed else old(run)
      ensures r.status.None? ==> world.script == old(world.script)
    {
      granted := false;
      if r.status.None? || r.status.value.error != 0 {
        return false, false;
      }
      var tape := r.status.value.tapeMm;
      if tape == 0 {
        InvalidateRun();
        return false, false;
      }
      OnlySupportedTapes(tape);
      if TapeGeometry(tape).Some? {
        ok := world.Granted();
        granted := ok;
        if ok {
          if tape != ready {
            InvalidateRun();
          }
          ready := tape;
          return;
        }
      }
      ok := false;
    }

    method InvalidateRun()
      modifies this`run
      ensures run == Invalidated(old(run))
    {
      if run != Uncertain {
        run := Closed;
      }
    }

    /** One status exchange, not yet published. */
    method Listen() returns (r: Reading, ghost x: Exchange)
      requires Valid()
      modifies world
      ensures Valid() && Abs() == if live then Exchanged(old(Abs()), x) else old(Abs())
      ensures live ==> x.Proper() && r == x.Outcome()
      ensures live ==> Answered(old(world.script), x) && world.script == From(old(world.script), x.Questions())
      ensures |world.script| <= |old(world.script)|
      ensures r.n >= 0 ==> live && |world.script| < |old(world.script)|
      ensures world.faults == old(world.faults) + if live && r.n < 0 then 1 else 0
      ensures world.cancels == old(world.cancels)
    {
      hide Answered, Reported;
      r, x := ReadLiveTape(world, live);
    }

    /** Publishes the reading of the exchange since `before`. */
    method PublishReading(r: Reading, ghost x: Exchange, ghost before: S) returns (ok: bool, ghost o: Observation)
      requires Valid() && live && x.Proper() && r == x.Outcome() && Abs() == Exchanged(before, x)
      modifies this`run, this`ready, world`script, world`faults
      ensures Valid() && |world.script| <= |old(world.script)| && world.faults >= old(world.faults)
      ensures Observing(live, before, Abs(), [o]) && Abs().batch == before.batch
      ensures o.exchange == x && o.published && (ok <==> Clean(o))
      ensures ok ==> r.status.Some? && ready == r.status.value.tapeMm
      ensures r.status.None? ==> world.script == old(world.script)
    {
      hide OnlyRequests, Reported;
      ghost var granted;
      ok, granted := PublishTape(r);
      o := Observation(x, true, granted);
      ObservingOne(before, Abs(), o);
    }

    /** One exchange, published. */
    method ConfirmTape() returns (ok: bool, r: Reading, ghost obs: seq<Observation>)
      requires Valid() && live
      modifies this`run, this`ready, world
      ensures Valid() && Observing(live, old(Abs()), Abs(), obs) && |obs| == 1 && obs[0].reading == r
      ensures Abs().batch == old(Abs().batch) && world.faults >= old(world.faults)
      ensures world.cancels == old(world.cancels) && old(world.heard) <= world.heard
      ensures (ok <==> Clean(obs[0])) && (run == old(run) || (run == Closed && old(run) != Uncertain))
      ensures |world.script| <= |old(world.script)| && (r.n >= 0 ==> |world.script| < |old(world.script)|)
      ensures Answered(old(world.script), obs[0].exchange)
      ensures r.status.None? ==> world.script == From(old(world.script), obs[0].exchange.Questions())
    {
      hide OutputOf, Clean, OnlyRequests, Exchange.Proper, Exchange.Outcome, Answered;
      ghost var start, x, o := Abs(), *, *;
      r, x := Listen();
      ok, o := PublishReading(r, x, start);
      obs := [o];
      ObservationsOnlyClose(start.run, start.ready, obs);
    }

    /** One try: an exchange, its publication, and whether another try follows, which it does only when nothing at all
        was read, the job is not canceled and there is time left. */
    method TryMedia() returns (ok: bool, again: bool, ghost obs: seq<Observation>)
      requires Valid() && live
      modifies this`run, this`ready, world
      ensures Valid() && Observing(live, old(Abs()), Abs(), obs) && |obs| == 1
      ensures Abs().batch == old(Abs().batch) && world.faults >= old(world.faults)
      ensures (ok <==> Clean(obs[0])) && (ok ==> !again)
      ensures var nothing := obs[0].reading.status == None && obs[0].reading.n == 0;
        && (again <==> !ok && nothing && GoesOn(old(world.script), Took(obs[0])))
        && (!ok && !again && nothing ==> world.faults > old(world.faults))
      ensures again ==> world.script == From(old(world.script), Took(obs[0]) + 2)
      ensures |world.script| <= |old(world.script)| && (again ==> |world.script| < |old(world.script)|)
    {
      hide PublishAll, OnlyRequests, Clean, Observing, Exchange.Proper, Exchange.Outcome, Exchange.Questions, Answered,
           OutputOf, From, ExpiredBy, CanceledBy, PrintBatch.Staged;
      var r;
      ok, r, obs := ConfirmTape();
      FromFrom(old(world.script), Took(obs[0]), 1);
      FromFrom(old(world.script), Took(obs[0]) + 1, 1);
      if ok {
        CleanStatus(obs[0]);
        return ok, false, obs;
      }
      again := r.Silent();
      if again {
        var canceled := world.Canceled();
        again := !canceled;
      }
      if again {
        var expired := world.Expired();
        again := !expired;
      }
    }

    /** Confirms clean live tape within a bounded number of tries; a sink without status keeps its media. */
    method RefreshReadyMedia() returns (ok: bool, ghost obs: seq<Observation>)
      requires Valid()
      modifies this`run, this`ready, world
      ensures Valid()
      ensures old(run) == Uncertain ==> !ok && Abs() == old(Abs()) && obs == [] && world.faults == old(world.faults)
      ensures Observing(live, old(Abs()), Abs(), obs) && Abs().batch == old(Abs().batch)
      ensures old(run) != Uncertain ==> (ok <==> if live then obs != [] && Clean(obs[|obs| - 1]) else obs == [])
      ensures old(run) != Uncertain && live ==> obs != []
      ensures old(run) != Uncertain && live && !ok ==>
        var last := obs[|obs| - 1].reading;
        last.status == None && last.n == 0 ==> world.faults > old(world.faults)
      ensures world.faults >= old(world.faults)
      ensures forall i :: 0 <= i < |obs| - 1 ==> obs[i].reading.status == None && obs[i].reading.n == 0
      ensures forall i :: 0 <= i < |obs| - 1 ==> GoesOn(old(world.script), TriesTook(obs[..i]) + Took(obs[i]))
    {
      hide PublishAll, OnlyRequests, Clean, Observing, OutputOf, GoesOn, Took, From, PrintBatch.Staged, TriesTook;
      obs := [];
      ObservingNothing(live, Abs());
      NoTries(world.script);
      if run == Uncertain {
        return false, [];
      }
      if !live {
        return true, [];
      }
      var trying := true;
      ok := false;
      while trying
        invariant Observing(live, old(Abs()), Abs(), obs) && Abs().batch == old(Abs().batch) && Valid()
        invariant ok ==> !trying
        invariant !trying ==> obs != [] && (ok <==> Clean(obs[|obs| - 1]))
        invariant !trying && !ok ==>
          var last := obs[|obs| - 1].reading;
          last.status == None && last.n == 0 ==> world.faults > old(world.faults)
        invariant trying ==> world.script == From(old(world.script), TriesTook(obs))
        invariant forall i :: 0 <= i < |obs| - (if trying then 0 else 1) ==>
          && obs[i].reading.status == None && obs[i].reading.n == 0
          && GoesOn(old(world.script), TriesTook(obs[..i]) + Took(obs[i]))
        invariant world.faults >= old(world.faults)
        decreases |world.script|, trying
      {
        ghost var before, was, more := Abs(), obs, *;
        ok, trying, more := TryMedia();
        obs := ObservingOn(live, old(Abs()), before, Abs(), obs, more);
        assert more == [more[0]];
        TryTook(old(world.script), was, more[0]);
        assert forall i :: 0 <= i <= |was| ==> obs[..i] == was[..i];
      }
    }

    /** The start of a job: a policy from its finishing attributes, one copy of raster, no uncertain output, and
        confirmed tape. */
    method StartJob(values: Option<Attribute>, col: Option<Attribute>, defaults: Option<Attribute>, raster: bool,
                    copies: int)
      returns (ok: bool, ghost obs: seq<Observation>)
      requires Valid() && batch == null
      modifies this, world
      ensures Valid() && fresh(Repr() - old(Repr()))
      ensures Step(model, live, old(Abs()),
                   Event.StartJob(PolicyOf(values, col, defaults), !raster || copies == 1, obs, ok), Abs())
      ensures world.faults == old(world.faults) ==>
        (ok <==> PolicyOf(values, col, defaults).Some? && (raster ==> copies == 1) && old(run) != Uncertain &&
                 (live ==> obs != [] && Clean(obs[|obs| - 1])))
      ensures CanceledBy(old(world.script)) ==> !ok && obs == [] && Abs() == old(Abs())
      ensures ok ==>
        && batch != null && (batch.policy.cutBetween <==> CutsApart(values, col, defaults))
        && (batch.policy.cutAtEnd <==> CutsEnd(values, col, defaults))
    {
      hide PolicyOf, CutsApart, CutsEnd, Clean, PublishAll, OnlyRequests, Exchanges, OutputOf, StartPageStep,
           WriteLineStep, EndPageStep, EndJobStep, CutStep, CanceledBy, From;
      obs := [];
      ObservingNothing(live, Abs());
      var canceled := world.Canceled();
      if canceled {
        return false, [];
      }
      var policy := JobPolicy(values, col, defaults);
      if policy.None? {
        return false, [];
      }
      if raster && copies != 1 {
        return false, [];
      }
      if run == Uncertain {
        return false, [];
      }
      ok, obs := RefreshReadyMedia();
      if !ok {
        return;
      }
      var granted := world.Granted();
      if !granted {
        return false, obs;
      }
      batch := new PrintBatch(policy.value, ready);
    }

    /** One try of the wait: an exchange and, when it was heard and not canceled, its publication. */
    method TryTape(wanted: byte) returns (ok: bool, again: bool, ghost obs: seq<Observation>)
      requires Valid()
      modifies this`run, this`ready, world
      ensures Valid() && Observing(live, old(Abs()), Abs(), obs) && Abs().batch == old(Abs().batch)
      ensures |world.script| <= |old(world.script)| && (again ==> |world.script| < |old(world.script)|)
      ensures world.faults >= old(world.faults) && (live && !ok && !again ==> world.faults > old(world.faults))
      ensures again ==> forall i :: 0 <= i < |obs| ==> obs[i].reading.n >= 0
      ensures live ==> |obs| == 1
      ensures live ==>
        (obs[0].published <==>
          obs[0].reading.n >= 0 && !CanceledBy(From(old(world.script), obs[0].exchange.Questions())))
      ensures ok ==> !again && obs != [] && Clean(obs[|obs| - 1]) && ready == wanted && live
    {
      hide PublishAll, OnlyRequests, Clean, Publish, Observing, OutputOf, Answered, Exchange.Outcome, CanceledBy, From,
           Exchange.Questions, Exchange.Proper;
      ghost var before, x, o := Abs(), *, *;
      var r;
      r, x := Listen();
      obs := if live then [Observation(x, false, false)] else [];
      if live {
        ObservingUnpublished(before, x);
      } else {
        ObservingNothing(live, Abs());
      }
      var canceled := world.Canceled();
      if canceled {
        return false, false, obs;
      }
      if r.n < 0 {
        return false, false, obs;
      }
      ok, o := PublishReading(r, x, before);
      obs := [o];
      ok := ok && r.status.value.tapeMm == wanted;
      again := !ok;
    }

    /** The first label holds the device until the wanted tape is loaded; only status requests are written. */
    method WaitForTape(wanted: byte) returns (ok: bool, ghost obs: seq<Observation>)
      requires Valid() && batch != null
      modifies this`run, this`ready, batch`tape, world
      ensures Valid() && Observing(live, old(Abs()), Abs(), obs)
      ensures world.faults >= old(world.faults) && (live && !ok ==> world.faults > old(world.faults))
      ensures old(world.heard) <= world.heard
      ensures ok ==> obs != [] && Clean(obs[|obs| - 1]) && ready == wanted && live
      ensures batch.Value() == if ok then old(batch.Value()).(tape := wanted) else old(batch.Value())
      ensures CanceledBy(old(world.script)) ==> !ok && obs == []
    {
      hide PublishAll, OnlyRequests, Clean, Publish, Observing, OutputOf, Valid, PrintBatch.Value, PrintBatch.Staged,
           Supported;
      ok, obs := false, [];
      ObservingNothing(live, Abs());
      var again := true;
      var canceled := world.Canceled();
      while again && !canceled
        invariant Valid() && Observing(live, old(Abs()), Abs(), obs) && Abs().batch == old(Abs().batch)
        invariant ok ==> !again && obs != [] && Clean(obs[|obs| - 1]) && ready == wanted && live
        invariant again ==> forall i :: 0 <= i < |obs| ==> obs[i].reading.n >= 0
        invariant world.faults >= old(world.faults) && (live && (canceled || !(ok || again)) ==>
          world.faults > old(world.faults))
        invariant canceled ==> !ok
        invariant CanceledBy(old(world.script)) ==> canceled && obs == []
        decreases |world.script|, again
        modifies this`run, this`ready, world
      {
        ghost var before, more := Abs(), *;
        ok, again, more := TryTape(wanted);
        obs := ObservingOn(live, old(Abs()), before, Abs(), obs, more);
        if again {
          canceled := world.Canceled();
        }
      }
      ObservingHears(live, old(Abs()), Abs(), obs);
      if ok {
        ghost var before := Abs();
        LoadTape(wanted);
        BatchUnobserved(live, old(Abs()), before, Abs(), obs);
      }
    }

    method LoadTape(tape: byte)
      requires Valid() && batch != null
      modifies batch`tape
      ensures Valid() && batch.Value() == old(batch.Value()).(tape := tape)
    {
      batch.tape := tape;
    }

    /** Writes a label's terminator, looking for cancellation before each command, and waits for the printer. */
    method Terminate(cut: bool) returns (ok: bool)
      modifies world
      ensures Sends(old(world.wire), world.wire, Terminator(cut), ok) && |world.wire| >= |old(world.wire)|
      ensures old(world.heard) <= world.heard
      ensures if ok then world.faults == old(world.faults) else Troubled(world, old(world.faults), |old(world.heard)|)
      ensures ok && live ==> ReadySince(world.heard, |old(world.heard)|)
      ensures CanceledBy(old(world.script)) ==> !ok && world.wire == old(world.wire)
      ensures CanceledBy(From(old(world.script), if cut then 2 else 1)) ==>
        !ok && |world.wire| <= |old(world.wire)| + if cut then 1 else 0
    {
      hide Sends, OutputOf, CanceledBy, From;
      FromFrom(world.script, 1, 1);
      ghost var start, sent := world.wire, [];
      SendsNothing(start);
      assert [] + Terminator(cut) == Terminator(cut) + [] == Terminator(cut);
      var canceled := world.Canceled();
      if canceled {
        SendsLess(start, world.wire, [], Terminator(cut));
        return false;
      }
      ok := true;
      if cut {
        ok, sent := AndWrite(world, ok, Advanced(8), start, sent);
      }
      ghost var last := [if cut then Eject else FormFeed];
      assert sent + last == Terminator(cut);
      if ok {
        canceled := world.Canceled();
        ok := !canceled;
      }
      if !ok {
        SendsLess(start, world.wire, sent, last);
        return;
      }
      ok, sent := AndWrite(world, ok, if cut then Eject else FormFeed, start, sent);
      if ok {
        ghost var replies;
        ok, replies := AwaitReady(world, live, true);
        assert world.heard[|old(world.heard)|..] == replies;
      }
      SendsLess(start, world.wire, Terminator(cut), []);
    }

    /** Closes the one complete pending label, as the next label or the end of the job decides. */
    method PrintPending(final: bool) returns (ok: bool)
      requires Valid() && batch != null
      modifies this`run, batch`pending, world
      ensures Valid()
      ensures Sends(old(world.wire), world.wire, if final then Final(batch.policy) else [FormFeed], ok)
      ensures |world.wire| >= |old(world.wire)| && old(world.heard) <= world.heard
      ensures if ok then world.faults == old(world.faults) else Troubled(world, old(world.faults), |old(world.heard)|)
      ensures ok && live ==> ReadySince(world.heard, |old(world.heard)|)
      ensures batch.Value() == if ok then old(batch.Value()).(pending := false) else old(batch.Value())
      ensures run == if !ok then old(run) else if final then RunAfterJob(batch.policy) else Open
      ensures CanceledBy(old(world.script)) ==> !ok && world.wire == old(world.wire)
    {
      hide Sends, OutputOf;
      var cut := final && batch.policy.cutAtEnd;
      ok := Terminate(cut);
      if ok {
        batch.pending := false;
        run := if cut then Closed else Open;
      }
    }

    /** C's `pt_fail_job`: every failed callback latches the job's failure. */
    method FailBatch()
      requires Valid() && batch != null
      modifies batch`failed
      ensures Valid() && batch.Value() == old(batch.Value()).(failed := true)
    {
      batch.failed := true;
    }

    /** Sends a streamed page's setup behind the pending label's feed. */
    method StreamPageStart(h: Header) returns (ok: bool)
      requires Valid() && model == PT2730 && batch != null && !batch.failed && !batch.active
      modifies this`run, batch, world
      ensures Valid() && batch.page == old(batch.page) && Streamed(old(Abs()), h, ok, Abs())
      ensures if ok then world.faults == old(world.faults) else Troubled(world, old(world.faults), |old(world.heard)|)
      ensures ok && live && old(batch.pending) ==> ReadySince(world.heard, |old(world.heard)|)
    {
      hide Sends, Setup, OutputOf, PrintBatch.Staged;
      ghost var start, feed := world.wire, Feed(batch.pending);
      ghost var continued := ContinuedFrom(batch.Value(), run);
      ghost var setup := Setup(PT2730, continued, batch.policy, batch.tape, batch.first, 0);
      SendsNothing(start);
      if batch.pending {
        ok := PrintPending(false);
        if !ok {
          SendsLess(start, world.wire, feed, setup);
          FailBatch();
          return;
        }
      }
      var continuation := Continues(run);
      LaterSetup(PT2730, continuation, continued, batch.policy, batch.tape, 0);
      run := Uncertain;
      ghost var sent;
      ok, sent := SendSetup(world, PT2730, continuation, batch.policy, batch.tape, batch.first, 0, true, start, feed);
      if !ok {
        FailBatch();
        return;
      }
      batch.BeginPage(h.height, continued);
      batch.first, batch.pending := false, false;
    }

    /** The checks a page passes before anything is sent or waited for; 0 refuses it. */
    method CheckPage(o: PageOptions) returns (tape: byte)
      requires Valid()
      modifies o, world`script, world`faults, world`cancels
      ensures world.faults == old(world.faults) ==> (tape != 0 <==> Startable(Abs(), old(o.Resolved())))
      ensures tape == 0 || world.faults == old(world.faults)
      ensures o.h == old(o.h) || o.h == old(o.Resolved())
      ensures world.faults >= old(world.faults)
      ensures tape != 0 ==> Startable(Abs(), o.h) && tape == PageTape(o.h) == PageTape(old(o.h))
      ensures CanceledBy(old(world.script)) ==> tape == 0
    {
      hide PrintBatch.Staged, OutputOf, WidthMatches, TapeGeometry;
      if batch == null || batch.failed || batch.active {
        return 0;
      }
      var canceled := world.Canceled();
      if canceled {
        return 0;
      }
      tape := 0;
      if o.h.xDpi == 180 && o.h.yDpi == 180 && o.h.bitsPerPixel == 1 && MIN_HEIGHT <= o.h.height <= MAX_HEIGHT {
        tape := o.ResolveMargins();
      }
      OnlySupportedTapes(tape);
      if tape == 0 || (tape != batch.tape && !batch.first) || TapeGeometry(tape).None? {
        return 0;
      }
      var g := TapeGeometry(tape).value;
      var left, span := SpanLeft(o.h.left), Span(o.h.width, o.h.left, o.h.right);
      if left < g.leftPx || span <= 0 || left + span > g.rightPx {
        return 0;
      }
      if run == Uncertain && batch.first {
        return 0;
      }
    }

    /** Gives a staged page its buffer, once per job. */
    method StagePage(height: nat) returns (ok: bool)
      requires Valid() && model == P710BT && batch != null && MIN_HEIGHT <= height <= MAX_HEIGHT
      modifies batch, world`script, world`faults
      ensures Valid() && (batch.page == old(batch.page) || fresh(batch.page))
      ensures if ok then world.faults == old(world.faults) else world.faults > old(world.faults)
      ensures batch.Value() == if ok then old(batch.Value()).(active := true, height := height, raster := [])
                               else old(batch.Value()).(failed := true)
    {
      if batch.page == null {
        var granted := world.Granted();
        if !granted {
          FailBatch();
          return false;
        }
        batch.page := new byte[PAGE_BYTES];
      }
      batch.BeginPage(height, batch.continued);
      ok := true;
    }

    method StartPage(o: PageOptions) returns (ok: bool, ghost obs: seq<Observation>, ghost mid: S)
      requires Valid()
      modifies this`run, this`ready, batch, world, o
      ensures Valid() && fresh(Repr() - old(Repr()))
      ensures Step(model, live, old(Abs()), Event.StartPage(o.h, obs, mid, ok), Abs())
      ensures o.h == old(o.h) || o.h == old(o.Resolved())
      ensures !Troubled(world, old(world.faults), |old(world.heard)|) ==>
        (ok <==> Startable(old(Abs()), old(o.Resolved())) && (live || PageTape(old(o.h)) == old(batch.tape)))
      ensures ok && live && model == PT2730 && old(batch.pending) ==> ReadySince(world.heard, |old(world.heard)|)
      ensures CanceledBy(old(world.script)) ==>
        !ok && obs == [] && world.wire == old(world.wire) && world.heard == old(world.heard)
    {
      hide Valid, PrintBatch.Staged, Observing, Clean, Startable, Streamed, OutputOf, PageTape, Supported,
           PageOptions.Resolved, FaultySince, ReadySince;
      obs, mid := [], Abs();
      var tape := CheckPage(o);
      if tape == 0 {
        if batch != null {
          FailBatch();
        }
        return false, obs, mid;
      }
      StartableUnfolds(Abs(), o.h);
      FirstIsNotPending(this);
      if tape != batch.tape {
        ok, obs := WaitForTape(tape);
        mid := Abs();
        if !ok {
          FailBatch();
          return;
        }
      }
      ghost var faults, heard := world.faults, |world.heard|;
      if model == P710BT {
        ok := StagePage(o.h.height);
      } else {
        ok := StreamPageStart(o.h);
        TroubledEarlier(world, old(world.faults), |old(world.heard)|, faults, heard);
      }
    }

    method PackLine(h: Header, line: seq<byte>) returns (packed: array<byte>)
      requires batch != null && WidthMatches(h.width, h.sizeWidth, batch.tape) && h.width <= 8 * |line|
      ensures fresh(packed) && packed.Length == 16 && packed[..] == RowOf(batch.Value(), h, line)
    {
      WindowInScanline(h.width, h.sizeWidth, batch.tape);
      WindowInPage(batch.tape);
      var g := TapeGeometry(batch.tape).value;
      packed := new byte[16];
      PackWindow(packed, line, g.leftPx, g.imageablePx);
      OnlyOneRowShows(packed[..], line, g.leftPx, g.imageablePx);
    }

    static method AllBlank(packed: array<byte>) returns (blank: bool)
      requires packed.Length == 16
      ensures blank <==> packed[..] == BLANK
    {
      for i := 0 to 16
        invariant forall k :: 0 <= k < i ==> packed[k] == 0
      {
        if packed[i] != 0 {
          return false;
        }
      }
      assert packed[..] == BLANK;
      blank := true;
    }

    /** Checks an end row, or keeps any other row for the end of the page. */
    method StageRow(y: nat, height: nat, packed: array<byte>) returns (ok: bool)
      requires Valid() && model == P710BT && batch != null && !batch.failed && batch.active
      requires y == |batch.raster| < batch.height == height && packed.Length == 16 && packed != batch.page
      modifies batch, batch.page
      ensures Valid() && batch.page == old(batch.page)
      ensures ok <==> (EndRow(y, height) ==> packed[..] == BLANK)
      ensures batch.Value() == if ok then old(batch.Value()).(raster := old(batch.raster) + [packed[..]])
                               else old(batch.Value()).(failed := true)
    {
      hide Holds, BLANK;
      ghost var row, was: seq<byte> := packed[..], batch.page[..];
      if EndRow(y, height) {
        var blank := AllBlank(packed);
        if !blank {
          FailBatch();
          return false;
        }
      } else {
        var size := Put(batch.page, 16 * (y - END_MARGIN), packed[..]);
      }
      HoldsOneMore(was, batch.page[..], batch.raster, row, height);
      batch.raster := batch.raster + [row];
      ok := true;
    }

    method StreamRow(row: Row) returns (ok: bool)
      requires Valid() && model == PT2730 && batch != null
      modifies batch, world
      ensures Valid() && batch.page == old(batch.page) && world.heard == old(world.heard)
      ensures Sends(old(world.wire), world.wire, [RawRow(row)], ok)
      ensures world.faults == old(world.faults) + if ok then 0 else 1
      ensures batch.Value() == if ok then old(batch.Value()).(raster := old(batch.raster) + [row])
                               else old(batch.Value()).(failed := true)
    {
      ok := JobWrite(world, RawRow(row));
      if ok {
        batch.raster := batch.raster + [row];
      } else {
        FailBatch();
      }
    }

    /** One scanline, packed to one head row: checked and staged, or sent. */
    method WriteLine(o: PageOptions, y: nat, line: seq<byte>) returns (ok: bool)
      requires Valid()
      requires batch != null && !batch.failed && batch.active ==> InOrder(batch.Value(), o.h, y, line)
      modifies batch, world, if batch == null || batch.page == null then {} else {batch.page}
      ensures Valid() && Repr() == old(Repr())
      ensures Step(model, live, old(Abs()), Event.WriteLine(o.h, y, line, ok), Abs())
      ensures world.faults == old(world.faults) ==>
        (ok <==> LineFits(model, old(Abs()), o.h, y, line))
      ensures CanceledBy(old(world.script)) ==> !ok && world.wire == old(world.wire)
    {
      hide OutputOf, WidthMatches, RowOf, Valid, PrintBatch.Staged, StartJobStep, StartPageStep, EndPageStep,
           EndJobStep, CutStep, OnlyOutput, CanceledBy, From;
      if batch == null {
        return false;
      }
      if batch.failed || !batch.active {
        FailBatch();
        return false;
      }
      var canceled := world.Canceled();
      if canceled || !WidthMatches(o.h.width, o.h.sizeWidth, batch.tape) {
        FailBatch();
        return false;
      }
      var packed := PackLine(o.h, line);
      if model == P710BT {
        ok := StageRow(y, o.h.height, packed);
      } else {
        ok := StreamRow(packed[..]);
      }
    }

    /** Sends the staged rows behind what a chain of confirmed writes has already sent. */
    method SendRows(rows: nat, ghost start: seq<Sent>, ghost sent: seq<Cmd>) returns (ok: bool)
      requires Valid() && model == P710BT && batch != null && !batch.failed && batch.active
      requires |batch.raster| == batch.height && rows == batch.height - 2 * END_MARGIN
      requires Sends(start, world.wire, sent, true)
      modifies world
      ensures Sends(start, world.wire, sent + Rows(P710BT, Transmitted(P710BT, batch.raster)), ok)
      ensures |world.wire| >= |old(world.wire)| && world.heard == old(world.heard)
      ensures if ok then world.faults == old(world.faults) else world.faults > old(world.faults)
    {
      hide Sends, Rows, OutputOf;
      ghost var page := Transmitted(P710BT, batch.raster);
      RowsOfNone(P710BT);
      assert sent + [] == sent && page[..0] == [];
      for y := 0 to rows
        invariant world.faults == old(world.faults) && world.heard == old(world.heard)
        invariant |world.wire| >= |old(world.wire)|
        invariant Sends(start, world.wire, sent + Rows(P710BT, page[..y]), true)
      {
        assert batch.page[16 * y..16 * y + 16] == batch.page[..][16 * y..16 * y + 16];
        assert batch.page[16 * y..16 * y + 16] == batch.raster[y + END_MARGIN] == page[y];
        ghost var before := world.wire;
        ok := JobWrite(world, PackedRow(batch.page[16 * y..16 * y + 16]));
        SendsMore(start, before, world.wire, sent + Rows(P710BT, page[..y]), [PackedRow(page[y])], ok);
        RowsUpTo(P710BT, page, y);
        assert sent + Rows(P710BT, page[..y]) + [PackedRow(page[y])] == sent + Rows(P710BT, page[..y + 1]);
        if !ok {
          var more := RowsSplit(P710BT, page, y + 1);
          SendsLess(start, world.wire, sent + Rows(P710BT, page[..y + 1]), more);
          assert sent + Rows(P710BT, page[..y + 1]) + more == sent + Rows(P710BT, page);
          return;
        }
      }
      assert page[..rows] == page;
      ok := true;
    }

    /** Sends a staged page, setup first, behind what a chain of confirmed writes has already sent. */
    method SendPage(height: nat, ghost start: seq<Sent>, ghost sent: seq<Cmd>, ghost continued: bool) returns (ok: bool)
      requires Valid() && model == P710BT && batch != null && !batch.failed && batch.active
      requires |batch.raster| == batch.height == height && MIN_HEIGHT <= height <= MAX_HEIGHT
      requires Sends(start, world.wire, sent, true) && (batch.first ==> continued == Continues(run))
      modifies this`run, world
      ensures Valid() && run == Uncertain && |world.wire| > |old(world.wire)| && world.heard == old(world.heard)
      ensures var page := Label(Transmitted(P710BT, batch.raster));
        Sends(start, world.wire, sent + Page(P710BT, continued, batch.policy, batch.tape, batch.first, page), ok)
      ensures if ok then world.faults == old(world.faults) else world.faults > old(world.faults)
    {
      hide Sends, Setup, OutputOf, Rows, PrintBatch.Staged;
      ghost var page := Label(Transmitted(P710BT, batch.raster));
      var rows := height - 2 * END_MARGIN;
      ghost var setup := Setup(P710BT, continued, batch.policy, batch.tape, batch.first, rows);
      assert sent + setup + Rows(P710BT, page.rows) == sent + (setup + Rows(P710BT, page.rows));
      var continuation := Continues(run);
      LaterSetup(P710BT, continuation, continued, batch.policy, batch.tape, rows);
      run := Uncertain;
      ghost var now;
      ok, now := SendSetup(world, P710BT, continuation, batch.policy, batch.tape, batch.first, rows, true, start, sent);
      if ok {
        ok := SendRows(rows, start, now);
      } else {
        SendsLess(start, world.wire, now, Rows(P710BT, page.rows));
      }
    }

    /** Closes the pending label, then sends the staged page. */
    method ReleasePage(height: nat) returns (ok: bool)
      requires Valid() && model == P710BT && batch != null && !batch.failed && batch.active
      requires |batch.raster| == batch.height == height && MIN_HEIGHT <= height <= MAX_HEIGHT
      modifies this`run, batch, world
      ensures Valid() && batch.page == old(batch.page) && Released(old(Abs()), ok, Abs())
      ensures if ok then world.faults == old(world.faults) else Troubled(world, old(world.faults), |old(world.heard)|)
      ensures ok && live && old(batch.pending) ==> ReadySince(world.heard, |old(world.heard)|)
    {
      hide Sends, Page, Transmitted, OutputOf, PrintBatch.Staged;
      ghost var start, feed, page := world.wire, Feed(batch.pending), Label(Transmitted(P710BT, batch.raster));
      ghost var continued := ContinuedFrom(batch.Value(), run);
      SendsNothing(start);
      if batch.pending {
        ok := PrintPending(false);
        if !ok {
          SendsLess(start, world.wire, feed, Page(P710BT, continued, batch.policy, batch.tape, batch.first, page));
          FailBatch();
          return;
        }
      }
      ok := SendPage(height, start, feed, continued);
      if !ok {
        FailBatch();
        return;
      }
      batch.Finish(page, continued);
    }

    method EndPage(o: PageOptions) returns (ok: bool)
      requires Valid()
      requires batch != null && !batch.failed && batch.active ==> |batch.raster| == batch.height == o.h.height
      modifies this`run, batch, world
      ensures Valid() && Repr() == old(Repr())
      ensures Step(model, live, old(Abs()), Event.EndPage(ok), Abs())
      ensures !Troubled(world, old(world.faults), |old(world.heard)|) ==>
        (ok <==> old(batch != null && !batch.failed && batch.active))
      ensures ok && live && model == P710BT && old(batch.pending) ==> ReadySince(world.heard, |old(world.heard)|)
      ensures CanceledBy(old(world.script)) ==> !ok && world.wire == old(world.wire) && run == old(run)
    {
      hide OutputOf, Released, Transmitted;
      if batch == null {
        return false;
      }
      if batch.failed || !batch.active {
        FailBatch();
        return false;
      }
      var canceled := world.Canceled();
      if canceled {
        FailBatch();
        return false;
      }
      if model == PT2730 {
        batch.KeepPending();
        return true;
      }
      ok := ReleasePage(o.h.height);
    }

    /** The end of a job: only a healthy, complete batch closes its last label; nothing is ever sent again. */
    method EndJob(alive: bool) returns (ok: bool, ghost closing: bool)
      requires Valid()
      modifies this`run, this`batch, this`done, batch, world
      ensures Valid() && batch == null
      ensures Step(model, live, old(Abs()), Event.EndJob(closing, ok), Abs())
      ensures old(batch) == null ==> ok && Abs() == old(Abs())
      ensures !Troubled(world, old(world.faults), |old(world.heard)|) && Completes(old(Abs()), alive) ==>
        closing && ok && done == old(Finished(Abs()))
      ensures closing && ok && live ==> ReadySince(world.heard, |old(world.heard)|)
      ensures !alive || old(batch == null || batch.failed || batch.active || !batch.pending) ==>
        !closing && done == old(done) && world.wire == old(world.wire) && run == old(run)
      ensures CanceledBy(old(world.script)) ==>
        !closing && done == old(done) && world.wire == old(world.wire) && run == old(run)
    {
      hide OutputOf, Sends;
      closing := false;
      if batch == null {
        return true, false;
      }
      var normal := !batch.failed;
      if normal {
        var canceled := world.Canceled();
        normal := !canceled && alive;
      }
      ok := true;
      if normal && batch.active {
        ok := false;
      } else if normal && batch.pending {
        ghost var after := Finished(Abs());
        closing := true;
        ok := PrintPending(true);
        done := if ok then after else done;
      }
      batch := null;
    }

    /** Releases held user content; runs between jobs, while owning the device. */
    method CutHeld() returns (ok: bool, ghost obs: seq<Observation>, ghost mid: S)
      requires Valid() && batch == null && model == P710BT
      modifies this`run, this`ready, this`done, world
      ensures Valid() && Step(model, live, old(Abs()), Event.CutHeld(obs, mid, ok), Abs())
      ensures ok ==> run == Closed || run == OpenBlank
      ensures old(run) != Open ==>
        world.script == old(world.script) && world.wire == old(world.wire) && world.heard == old(world.heard)
      ensures !Troubled(world, old(world.faults), |old(world.heard)|) ==>
        (ok <==> old(run) != Uncertain && (obs != [] ==> Clean(obs[0])))
      ensures ok && live && run == OpenBlank && old(run) == Open ==>
        |old(world.heard)| <= |mid.heard| && ReadySince(world.heard, |mid.heard|)
      ensures world.cancels == old(world.cancels)
    {
      hide OutputOf, Sends, Clean, PublishAll, Observing, BlankContinuation, Serialize, OnlyRequests, ReadySince,
           Answered, Exchange.Outcome;
      obs := [];
      if run == Open && live {
        var clean, r;
        clean, r, obs := ConfirmTape();
        if !clean {
          return false, obs, Abs();
        }
      }
      mid := Abs();
      if run == Uncertain {
        return false, obs, mid;
      }
      if run != Open {
        return true, obs, mid;
      }
      ok := ReleaseHeld();
    }

    /** One write of the blank continuation; the run is uncertain until the printer is ready again. */
    method ReleaseHeld() returns (ok: bool)
      requires Valid() && batch == null && run == Open
      modifies this`run, this`done, world
      ensures Valid() && Sending(old(Abs()), Abs(), BlankContinuation(ready), ok)
      ensures if ok then world.faults == old(world.faults) else Troubled(world, old(world.faults), |old(world.heard)|)
      ensures ok && live ==> ReadySince(world.heard, |old(world.heard)|)
      ensures |world.wire| > |old(world.wire)| && world.cancels == old(world.cancels) && old(world.heard) <= world.heard
      ensures run == (if ok then OpenBlank else Uncertain) && done == old(done) + if ok then [Release(ready)] else []
    {
      hide BlankContinuation, Serialize, OutputOf, Splice, Sends;
      var blank := new byte[64];
      ghost var was := blank[..];
      var n := CmdBlankContinuation(blank, ready);
      SpliceHead(was, Serialize(BlankContinuation(ready)));
      run := Uncertain;
      ok := world.Write(blank[..n], false);
      OneWrite(old(world.wire), world.wire, BlankContinuation(ready), ok);
      if !ok {
        return;
      }
      ghost var replies;
      ok, replies := AwaitReady(world, live, false);
      assert world.heard[|old(world.heard)|..] == replies;
      if !ok {
        SendsLess(old(world.wire), world.wire, BlankContinuation(ready), []);
        assert BlankContinuation(ready) + [] == BlankContinuation(ready);
        return;
      }
      run := OpenBlank;
      done := done + [Release(ready)];
    }

    /** The status callback between jobs: `devices` printers answer, and the one found may refuse to open. */
    method IdlePoll(processing: bool, due: bool, devices: nat, opens: bool) returns (ghost e: Event)
      requires Valid() && (!processing ==> batch == null)
      modifies this`run, this`ready, world
      ensures Valid() && batch == old(batch)
      ensures processing || old(run) == Uncertain || !live || !due || (devices == 1 && !opens) ==> Abs() == old(Abs())
      ensures (!processing ==> Step(model, live, old(Abs()), e, Abs())) && (e.Observe? || e.Unplugged?)
      ensures !processing && old(run) != Uncertain && live && due && devices == 0 ==> e.Unplugged?
      ensures !processing && old(run) != Uncertain && live && due && devices > 1 ==> Abs() == old(Abs())
      ensures !processing && old(run) != Uncertain && live && due && devices == 1 && opens ==>
        && e.Observe? && |e.obs| == 1 && Answered(old(world.script), e.obs[0].exchange)
        && (e.obs[0].reading.status.None? ==> world.script == From(old(world.script), e.obs[0].exchange.Questions()))
    {
      hide OutputOf, Clean, PublishAll, OnlyRequests, Answered;
      e := Event.Observe([]);
      ObservingNothing(live, Abs());
      if processing || run == Uncertain || !live || !due {
        return;
      }
      if devices != 1 {
        if devices == 0 {
          InvalidateRun();
          e := Event.Unplugged;
        }
        return;
      }
      if !opens {
        return;
      }
      ghost var obs;
      var clean, r;
      clean, r, obs := ConfirmTape();
      e := Event.Observe(obs);
    }
  }

  lemma RowsOfNone(model: Model)
    ensures Rows(model, []) == []
  {}

  lemma RowsUpTo(model: Model, rows: seq<Row>, y: nat)
    requires y < |rows|
    ensures Rows(model, rows[..y + 1]) == Rows(model, rows[..y]) + [RowCmd(model, rows[y])]
  {
    assert rows[..y + 1] == rows[..y] + [rows[y]];
    RowsSnoc(model, rows[..y], rows[y]);
  }

  /** The commands of the rows from `k` on. */
  lemma {:induction false} RowsSplit(model: Model, rows: seq<Row>, k: nat) returns (more: seq<Cmd>)
    requires k <= |rows|
    ensures Rows(model, rows) == Rows(model, rows[..k]) + more
    decreases |rows| - k
  {
    hide Rows;
    if k == |rows| {
      assert rows[..k] == rows;
      more := [];
    } else {
      RowsUpTo(model, rows, k);
      more := RowsSplit(model, rows, k + 1);
      more := [RowCmd(model, rows[k])] + more;
    }
  }

  function Terminator(cut: bool): seq<Cmd> {
    if cut then [Advanced(8), Eject] else [FormFeed]
  }

  lemma SpliceHead(was: seq<byte>, bytes: seq<byte>)
    requires |bytes| <= |was|
    ensures Splice(was, 0, bytes)[..|bytes|] == bytes
  {}

  /** A job that ends well closes its last label. */
  predicate Completes(s: S, alive: bool) {
    alive && s.batch.Some? && !s.batch.value.failed && !s.batch.value.active && s.batch.value.pending
  }

  /** The history a batch leaves when its last label is closed. */
  ghost function Finished(s: S): seq<Rec>
    requires s.batch.Some?
  {
    var b := s.batch.value;
    s.done + [Job(b.continued, b.policy, b.tape, b.labels)]
  }

  lemma FirstIsNotPending(q: Queue)
    requires q.Valid() && q.batch != null
    ensures q.batch.first ==> !q.batch.pending
  {}

  lemma TroubledEarlier(world: World, faults: nat, heard: nat, faults': nat, heard': nat)
    requires faults <= faults' && heard <= heard'
    ensures Troubled(world, faults', heard') ==> Troubled(world, faults, heard)
  {}

  lemma StartableUnfolds(s: S, h: Header)
    requires Startable(s, h)
    ensures s.batch.Some? && !s.batch.value.failed && !s.batch.value.active
    ensures s.batch.value.tape == PageTape(h) || s.batch.value.first
    ensures MIN_HEIGHT <= h.height <= MAX_HEIGHT && PageTape(h) != 0
  {}

  /** Only a batch's first setup depends on how its run began. */
  lemma LaterSetup(model: Model, a: bool, b: bool, policy: Policy, mm: byte, rows: u32)
    ensures Setup(model, a, policy, mm, false, rows) == Setup(model, b, policy, mm, false, rows)
  {}
}
