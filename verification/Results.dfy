/** The promises of the driver over whole runs: any jobs, any failures, any status replies. */
module Results {
  import opened Bytes
  import opened Capture
  import opened Client
  import opened Decoder
  import opened Device
  import opened Protocol
  import opened Runs
  import opened Safety
  import opened Status
  import opened Stream
  import opened Tables
  import opened Writes

  const WIDTHS: set<byte> := {6, 9, 12, 18, 24}

  // ---------- The wire is a capture, and prints what was asked ----------

  lemma {:induction false} EveryStateExplained(model: Model, live: bool, states: seq<S>, events: seq<Event>, i: nat)
    requires IsRun(model, live, states, events) && i < |states|
    ensures Inv(model, live, states[i]) && Seen(model, live, states[i], SeeAll(events[..i]))
    ensures Explained(model, live, states[i], SeeAll(events[..i]))
  {
    hide Inv, Step, See;
    if i == 0 {
      InitialInv(model, live);
    } else {
      EveryStateExplained(model, live, states, events, i - 1);
      assert Step(model, live, states[i - 1], events[i - 1], states[i - 1 + 1]);
      StepKeeps(model, live, states[i - 1], events[i - 1], states[i]);
      assert events[..i][..i - 1] == events[..i - 1];
      hide SeeAll, Seen, Explained;
      SeeOneMore(events, i - 1);
      StepIsSeen(model, live, states[i - 1], events[i - 1], states[i], SeeAll(events[..i - 1]));
      StepIsExplained(model, live, states[i - 1], events[i - 1], states[i], SeeAll(events[..i - 1]));
    }
  }

  lemma SeeOneMore(events: seq<Event>, i: nat)
    requires i < |events|
    ensures SeeAll(events[..i + 1]) == See(SeeAll(events[..i]), events[i])
  {
    hide See;
    assert events[..i + 1][..i] == events[..i];
  }

  lemma HistoryIsAccepted(model: Model, live: bool, recs: seq<Rec>)
    requires History(model, live, recs)
    ensures Accepted(Serialize(Streams(model, recs)), model, WIDTHS).Some?
  {
    hide Follows, Streams, Serialize, Accepted;
    forall i | 0 <= i < |recs| ensures Readable(model, WIDTHS, recs[i]) {}
    CaptureAccepted(model, WIDTHS, recs);
  }

  /** On every run, wherever writes fail, the page output is a prefix of a stream the decoder accepts: the finished
      records, and at most one more, which is the client's own. */
  lemma OutputIsPrefixOfCapture(model: Model, live: bool, states: seq<S>, events: seq<Event>, i: nat)
    returns (recs: seq<Rec>)
    requires IsRun(model, live, states, events) && i < |states|
    ensures states[i].done <= recs && |recs| <= |states[i].done| + 1 && History(model, live, recs)
    ensures states[i].Out() <= Serialize(Streams(model, recs))
    ensures Accepted(Serialize(Streams(model, recs)), model, WIDTHS).Some?
    ensures SameWorks(model, live, states[i].done, SeeAll(events[..i]).finished)
    ensures |recs| > |states[i].done| ==> Belongs(model, live, recs[|states[i].done|], SeeAll(events[..i]))
  {
    hide Step, Inv, SeeAll, Belongs, SameWorks, History, StreamOf, Serialize, Accepted, OutputOf;
    EveryStateExplained(model, live, states, events, i);
    recs := NextRecords(model, live, states[i], SeeAll(events[..i]));
    HistoryIsAccepted(model, live, recs);
  }

  /** The finished records, and the one under way if any. */
  lemma NextRecords(model: Model, live: bool, s: S, v: View) returns (recs: seq<Rec>)
    requires Inv(model, live, s) && Seen(model, live, s, v) && Explained(model, live, s, v)
    ensures s.done <= recs && |recs| <= |s.done| + 1 && History(model, live, recs)
    ensures s.Out() <= Written(model, recs)
    ensures |recs| > |s.done| ==> Belongs(model, live, recs[|s.done|], v)
  {
    hide Belongs, SamePages, SameWorks, History, Written, OutputOf, BatchShape, Adds, StoppedIn, Stopped, Underway,
         BatchOutput, Streams, Serialize;
    if Stuck(s) {
      var r :| Interrupted(model, live, s, v, r);
      recs := s.done + [r];
      StoppedUnfolds(model, live, s.Out(), s.done, r);
      HistorySnoc(model, live, s.done, r);
    } else if s.run == Uncertain {
      UnprintedIsCertain(model, live, s);
      var b := s.batch.value;
      BrokenOff(model, live, s, b);
      var r := Underway(model, b);
      BelongsAnyRows(model, live, b, v);
      recs := s.done + [r];
      StoppedUnfolds(model, live, s.Out(), s.done, r);
      HistorySnoc(model, live, s.done, r);
    } else {
      SettledOrUncertain(model, live, s);
      recs := s.done;
    }
  }

  /** An unbroken batch's record belongs to the client whatever rows it still has to send. */
  lemma BelongsAnyRows(model: Model, live: bool, b: Batch, v: View)
    requires v.policy == b.policy && SamePages(model, b.labels, v.pages) && (b.active ==> v.rows == b.raster)
    requires UnderOneTape(v.headers, b.tape) && (live ==> v.tape == Some(b.tape))
    ensures Belongs(model, live, Underway(model, b), v)
  {
    assert Underway(model, b).labels[..|v.pages|] == b.labels;
  }

  lemma StoppedUnfolds(model: Model, live: bool, out: seq<byte>, done: seq<Rec>, r: Rec)
    requires StoppedIn(model, live, out, done, r)
    ensures Adds(model, live, done, r) && out <= Written(model, done + [r])
  {}

  /** Whenever no output is uncertain, the page output is an accepted capture whose tape shows exactly the strips the
      finished requests asked for, with every page of every request, in order, once. */
  lemma OutputAsAsked(model: Model, live: bool, states: seq<S>, events: seq<Event>, i: nat)
    requires IsRun(model, live, states, events) && i < |states| && states[i].run != Uncertain
    ensures states[i].Out() == Serialize(Streams(model, states[i].done))
    ensures Accepted(states[i].Out(), model, WIDTHS).Some?
    ensures forall k :: 0 <= k < |states[i].done| ==> Whole(states[i].done[k])
    ensures RunTape(BARE, Streams(model, states[i].done)).shown == AskedAll(states[i].done)
    ensures AskedAll(states[i].done).Printed() == LabelsOf(states[i].done)
    ensures SameWorks(model, live, states[i].done, SeeAll(events[..i]).finished)
  {
    hide IsRun, SeeAll, SameWorks, StreamOf, Streams, Serialize, Accepted, OutputOf, RunTape, AskedAll, LabelsOf,
         Follows;
    EveryStateExplained(model, live, states, events, i);
    SettledOrUncertain(model, live, states[i]);
    HistoryIsAccepted(model, live, states[i].done);
    TapeShowsWhatWasAsked(model, states[i].done);
    AskedKeepsEveryLabel(states[i].done);
  }

  lemma EndIsHeld(s: Shown, r: Rec)
    requires Whole(r) && r.Job?
    ensures Asked(s, r).held ==
      if r.policy.cutAtEnd then []
      else if r.policy.cutBetween then [r.labels[|r.labels| - 1]]
      else r.labels
  {
    hide Cut;
    var strips := StripsOf(r.policy, r.labels);
    var all := Cut(s).strips + strips;
    assert all[|all| - 1] == strips[|strips| - 1];
  }

  /** The run state a history leaves says what is held: nothing, user content, or one blank row. */
  lemma HistorySaysWhatIsHeld(done: seq<Rec>)
    requires forall k :: 0 <= k < |done| ==> Whole(done[k])
    ensures var held := AskedAll(done).held;
      match RunAfter(done)
      case Closed => held == []
      case OpenBlank => held == [Label([BLANK])]
      case Open => HoldsItsEnd(done, held)
      case Uncertain => false
  {
    hide Cut, StripsOf, Flat;
    if done != [] {
      var r := done[|done| - 1];
      if r.Job? {
        EndIsHeld(AskedAll(done[..|done| - 1]), r);
        hide Asked;
      }
    }
  }

  /** The last label of the last batch is held, joined to the labels before it unless they were cut apart. */
  predicate HoldsItsEnd(done: seq<Rec>, held: seq<Label>) {
    done != [] && done[|done| - 1].Job? &&
    var r := done[|done| - 1];
    r.labels != [] && held == if r.policy.cutBetween then [r.labels[|r.labels| - 1]] else r.labels
  }

  /** In every certain state, a run that counts as open really holds what it says, and a queue without a status path
      counts as closed exactly when nothing is held. */
  lemma RunMatchesHistory(model: Model, live: bool, states: seq<S>, events: seq<Event>, i: nat)
    requires IsRun(model, live, states, events) && i < |states| && states[i].run != Uncertain
    ensures forall k :: 0 <= k < |states[i].done| ==> Whole(states[i].done[k])
    ensures states[i].run == OpenBlank ==> AskedAll(states[i].done).held == [Label([BLANK])]
    ensures states[i].run == Open ==> HoldsItsEnd(states[i].done, AskedAll(states[i].done).held)
    ensures !live ==> (states[i].run == Closed <==> AskedAll(states[i].done).held == [])
  {
    hide Step, AskedAll, OutputOf, Written, Follows, RunAfter;
    EveryStateKept(model, live, states, events, i);
    SettledOrUncertain(model, live, states[i]);
    HistorySaysWhatIsHeld(states[i].done);
  }

  lemma HistoryIsOutput(model: Model, live: bool, recs: seq<Rec>)
    requires History(model, live, recs)
    ensures Outputs(Streams(model, recs), model == P710BT)
    ensures forall i :: 0 <= i < |recs| ==> Whole(recs[i])
  {
    hide Follows, Streams, Serialize, AfterAll;
    forall i | 0 <= i < |recs| ensures Readable(model, WIDTHS, recs[i]) {}
    StreamsAreRead(model, WIDTHS, recs);
    AcceptedListDecodes(model, WIDTHS, START, Streams(model, recs));
  }

  // ---------- Status requests never meet unconfirmed output ----------

  /** A callback's status requests all come before its output, which follows only a clean reading; none is written while
      output is uncertain. */
  lemma RequestsThenOutput(model: Model, live: bool, s: S, e: Event, s': S) returns (asked: seq<Sent>)
    requires Inv(model, live, s) && Step(model, live, s, e, s')
    ensures OnlyRequests(s.wire, asked) && OnlyOutput(asked, s'.wire) && s.done <= s'.done
    ensures Exchanges(ObsOf(e)) && asked == s.wire + RequestsIn(ObsOf(e))
    ensures asked != s'.wire && ObsOf(e) != [] ==> Clean(ObsOf(e)[|ObsOf(e)| - 1])
    ensures s.run == Uncertain || !live ==> asked == s.wire
  {
    hide PublishAll, OutputOf, Serialize, RowOf, WidthMatches, Clean, MarginsInWindow, PageTape, InOrder, Setup, Page,
         BlankContinuation, History, Settled, Printing, Stopped, BatchShape, Exchanges;
    NothingAsked(s.wire);
    match e
    case StartJob(_, _, obs, _) => asked := s'.wire;
    case StartPage(h, obs, mid, ok) => asked := if !ok && obs == [] && Refused(s, s') then s.wire else mid.wire;
    case WriteLine(_, _, _, _) => asked := s.wire;
    case EndPage(_) => asked := s.wire;
    case EndJob(_, _) => asked := s.wire;
    case Observe(_) => asked := s'.wire;
    case Unplugged => asked := s.wire;
    case CutHeld(_, mid, _) => asked := mid.wire;
  }

  lemma NothingAsked(wire: seq<Sent>)
    ensures Exchanges([]) && wire + RequestsIn([]) == wire
  {}

  predicate Between(model: Model, out: seq<byte>, done: seq<Rec>) {
    exists n :: 0 <= n <= |done| && out == Written(model, done[..n])
  }

  /** Every request on the wire stands between complete records. */
  predicate RequestsBetween(model: Model, wire: seq<Sent>, done: seq<Rec>) {
    forall k :: 0 <= k < |wire| && wire[k].Request? ==> Between(model, OutputOf(wire[..k]), done)
  }

  lemma RequestsStayBetween(model: Model, a: seq<Sent>, b: seq<Sent>, done: seq<Rec>, done': seq<Rec>)
    requires RequestsBetween(model, a, done) && OnlyOutput(a, b) && done <= done'
    ensures RequestsBetween(model, b, done')
  {
    hide OutputOf, Written;
    forall k | 0 <= k < |b| && b[k].Request? ensures Between(model, OutputOf(b[..k]), done') {
      assert k < |a| && b[..k] == a[..k];
      var n :| 0 <= n <= |done| && OutputOf(a[..k]) == Written(model, done[..n]);
      assert done[..n] == done'[..n];
    }
  }

  lemma RequestsComeBetween(model: Model, a: seq<Sent>, b: seq<Sent>, done: seq<Rec>)
    requires RequestsBetween(model, a, done) && OnlyRequests(a, b)
    requires OutputOf(a) == Written(model, done) || a == b
    ensures RequestsBetween(model, b, done)
  {
    hide OutputOf, Written;
    forall k | 0 <= k < |b| && b[k].Request? ensures Between(model, OutputOf(b[..k]), done) {
      if k < |a| {
        assert b[..k] == a[..k];
      } else {
        assert done[..|done|] == done && a <= b[..k];
        RequestsAreNoOutput(a, b[..k]);
      }
    }
  }

  /** On every run, each status request was written when the output before it was whole records, all confirmed. */
  lemma {:induction false} RequestsOnlyBetweenRecords(model: Model, live: bool, states: seq<S>, events: seq<Event>,
                                                      i: nat)
    requires IsRun(model, live, states, events) && i < |states|
    ensures RequestsBetween(model, states[i].wire, states[i].done)
    ensures !live ==> forall k :: 0 <= k < |states[i].wire| ==> states[i].wire[k].Output?
  {
    hide Inv, Step, RequestsBetween, OutputOf, Written, RunMatches;
    if i == 0 {
      NoneBetween(model);
    } else {
      var s, s' := states[i - 1], states[i];
      RequestsOnlyBetweenRecords(model, live, states, events, i - 1);
      EveryStateKept(model, live, states, events, i - 1);
      assert Step(model, live, s, events[i - 1], states[i - 1 + 1]);
      var asked := RequestsThenOutput(model, live, s, events[i - 1], s');
      if s.run != Uncertain {
        SettledOrUncertain(model, live, s);
      }
      RequestsComeBetween(model, s.wire, asked, s.done);
      RequestsStayBetween(model, asked, s'.wire, s.done, s'.done);
    }
  }

  lemma NoneBetween(model: Model)
    ensures RequestsBetween(model, [], [])
  {}

  // ---------- Uncertainty is final ----------

  lemma StuckStays(model: Model, live: bool, s: S, e: Event, s': S)
    requires Stuck(s) && Step(model, live, s, e, s')
    ensures Stuck(s') && s'.wire == s.wire && s'.done == s.done && s'.ready == s.ready
  {
    hide PublishAll, OutputOf, Serialize, RowOf, WidthMatches, Clean, MarginsInWindow, PageTape, InOrder, Setup, Page,
         BlankContinuation;
  }

  /** Once output is uncertain and no live batch can confirm it, nothing is ever written, printed or observed again:
      not by a later job, a refresh, an idle poll or a cut, whatever the printer would reply. */
  lemma {:induction false} UncertaintyIsFinal(model: Model, live: bool, states: seq<S>, events: seq<Event>, i: nat,
                                              j: nat)
    requires IsRun(model, live, states, events) && i <= j < |states| && Stuck(states[i])
    ensures Stuck(states[j]) && states[j].wire == states[i].wire
    ensures states[j].done == states[i].done && states[j].ready == states[i].ready
    decreases j
  {
    hide Step;
    if i < j {
      UncertaintyIsFinal(model, live, states, events, i, j - 1);
      assert Step(model, live, states[j - 1], events[j - 1], states[j - 1 + 1]);
      StuckStays(model, live, states[j - 1], events[j - 1], states[j]);
    }
  }

  // ---------- A failed job is silent ----------

  lemma FailedStays(model: Model, live: bool, s: S, e: Event, s': S)
    requires s.batch.Some? && s.batch.value.failed && Step(model, live, s, e, s')
    ensures s'.wire == s.wire && s'.run == s.run && s'.done == s.done && (s'.batch == s.batch || s'.batch == None)
    ensures e.EndJob? ==> s'.batch == None
  {
    hide PublishAll, OutputOf, Serialize, RowOf, WidthMatches, Clean, MarginsInWindow, PageTape, InOrder, Setup, Page,
         BlankContinuation;
  }

  /** The callbacks that carry a page. */
  predicate PageCallback(e: Event) {
    e.StartPage? || e.WriteLine? || e.EndPage?
  }

  /** A page callback that returns false leaves its job failed, if there is one. */
  lemma FailureLatches(model: Model, live: bool, s: S, e: Event, s': S)
    requires Step(model, live, s, e, s') && PageCallback(e) && !e.ok
    ensures s'.batch.Some? ==> s'.batch.value.failed
  {
    hide Sending, PublishAll, Clean, RowOf, WidthMatches, MarginsInWindow, PageTape, Transmitted, Setup;
  }

  /** Once a page callback of a job has returned false, no later callback of that job writes or prints anything. */
  lemma {:induction false} FailureIsFinal(model: Model, live: bool, states: seq<S>, events: seq<Event>, i: nat, j: nat)
    requires IsRun(model, live, states, events) && i < j < |states| && PageCallback(events[i]) && !events[i].ok
    requires forall k :: i < k < j ==> states[k].batch.Some?
    ensures states[j].wire == states[i + 1].wire && states[j].run == states[i + 1].run
    ensures states[j].done == states[i + 1].done
    ensures states[j].batch == states[i + 1].batch || states[j].batch == None
    decreases j
  {
    hide Step;
    assert Step(model, live, states[i], events[i], states[i + 1]);
    FailureLatches(model, live, states[i], events[i], states[i + 1]);
    if i + 1 < j {
      FailureIsFinal(model, live, states, events, i, j - 1);
      assert Step(model, live, states[j - 1], events[j - 1], states[j - 1 + 1]);
      FailedStays(model, live, states[j - 1], events[j - 1], states[j]);
    }
  }

  /** Ending a job twice changes nothing. */
  lemma EndJobTwice(model: Model, live: bool, s: S, closing: bool, ok: bool, s': S, closing': bool, ok': bool, s'': S)
    requires Step(model, live, s, Event.EndJob(closing, ok), s')
    requires Step(model, live, s', Event.EndJob(closing', ok'), s'')
    ensures s'' == s' && ok'
  {
    hide Sending, Final;
  }

  // ---------- Jobs that send nothing ----------

  lemma {:induction false} SomeBytes(cs: seq<Cmd>)
    requires cs != []
    ensures Serialize(cs) != []
  {
    hide Encode;
  }

  /** One of the callback's clean readings reported no tape, or another width than the one ready before it. */
  predicate ReadsClosed(s: S, e: Event) {
    exists k :: 0 <= k < |ObsOf(e)| && ClosesAt(s.run, s.ready, ObsOf(e), k)
  }

  lemma NotBoth(wire: seq<Sent>, i: nat)
    requires i < |wire|
    ensures wire[i].Output? != wire[i].Request?
  {}

  lemma NeverBoth(a: seq<Sent>, b: seq<Sent>)
    requires OnlyRequests(a, b) && OnlyOutput(a, b)
    ensures a == b
  {
    if |a| < |b| {
      NotBoth(b, |a|);
      assert false;
    }
  }

  lemma NothingSent(s: S, s': S, cs: seq<Cmd>, ok: bool)
    requires Sending(s, s', cs, ok) && cs != [] && OnlyRequests(s.wire, s'.wire)
    ensures !ok && s'.wire == s.wire
  {
    hide Serialize, OutputOf;
    SomeBytes(cs);
    RequestsAreNoOutput(s.wire, s'.wire);
    NeverBoth(s.wire, s'.wire);
  }

  lemma StreamedQuietly(s: S, h: Header, ok: bool, s': S)
    requires s.batch.Some? && Streamed(s, h, ok, s') && OnlyRequests(s.wire, s'.wire)
    ensures !ok && s'.run == s.run && s'.done == s.done
  {
    hide Sending, OnlyRequests, OutputOf, Lead;
    var b := s.batch.value;
    NothingSent(s, s', Feed(b.pending) + Setup(PT2730, ContinuedFrom(b, s.run), b.policy, b.tape, b.first, 0), ok);
  }

  lemma ReleasedQuietly(s: S, ok: bool, s': S)
    requires s.batch.Some? && Released(s, ok, s') && OnlyRequests(s.wire, s'.wire)
    ensures !ok && s'.run == s.run && s'.done == s.done
  {
    hide Sending, OnlyRequests, OutputOf, Lead, Rows, Transmitted;
    var b := s.batch.value;
    var page := Label(Transmitted(P710BT, b.raster));
    NothingSent(s, s', Feed(b.pending) + Page(P710BT, ContinuedFrom(b, s.run), b.policy, b.tape, b.first, page), ok);
  }

  lemma LaterRequests(a: seq<Sent>, b: seq<Sent>, c: seq<Sent>)
    requires OnlyRequests(a, c) && a <= b <= c
    ensures OnlyRequests(b, c)
  {}

  lemma QuietStartPage(model: Model, live: bool, s: S, h: Header, obs: seq<Observation>, mid: S, ok: bool, s': S)
    requires StartPageStep(model, live, s, h, obs, mid, ok, s') && OnlyRequests(s.wire, s'.wire)
    ensures s'.done == s.done && (s'.run == s.run || s'.run == PublishAll(s.run, s.ready, obs).0)
  {
    hide PublishAll, Clean, Streamed, OutputOf, PageTape, MarginsInWindow;
    if !ok && Refused(s, s') {
    } else if !ok && GaveUp(live, s, h, obs, mid, s') {
    } else if model == PT2730 {
      StreamedGrows(mid, h, ok, s');
      LaterRequests(s.wire, mid.wire, s'.wire);
      StreamedQuietly(mid, h, ok, s');
    }
  }

  lemma StreamedGrows(s: S, h: Header, ok: bool, s': S)
    requires s.batch.Some? && Streamed(s, h, ok, s')
    ensures s.wire <= s'.wire
  {
    hide OutputOf, Serialize, Setup;
  }

  lemma QuietCut(model: Model, live: bool, s: S, obs: seq<Observation>, mid: S, ok: bool, s': S)
    requires CutStep(model, live, s, obs, mid, ok, s') && OnlyRequests(s.wire, s'.wire)
    ensures s'.done == s.done && s'.run == PublishAll(s.run, s.ready, obs).0
  {
    hide PublishAll, Clean, OutputOf, BlankContinuation, Serialize;
    PublishNothing(s.run, s.ready);
    if mid.run == Open && Sending(mid, s', BlankContinuation(mid.ready), ok) {
      LaterRequests(s.wire, mid.wire, s'.wire);
      BlankIsSomething(mid.ready);
      NothingSent(mid, s', BlankContinuation(mid.ready), ok);
    }
  }

  lemma BlankIsSomething(mm: byte)
    ensures BlankContinuation(mm) != []
  {}

  /** A callback that attempts no page output leaves the run alone, unless the printer was unplugged or read as
      changed. */
  lemma QuietStep(model: Model, live: bool, s: S, e: Event, s': S)
    requires Step(model, live, s, e, s') && OnlyRequests(s.wire, s'.wire)
    ensures s'.done == s.done
    ensures s'.run == s.run || (s'.run == Closed && s.run != Uncertain && (e.Unplugged? || ReadsClosed(s, e)))
  {
    hide Sending, OnlyRequests, PublishAll, RowOf, StartPageStep, CutStep, Released, LineFits, Closes;
    ObservationsOnlyClose(s.run, s.ready, ObsOf(e));
    match e
    case StartPage(h, obs, mid, ok) => QuietStartPage(model, live, s, h, obs, mid, ok, s');
    case EndPage(ok) =>
      if s.batch.Some? && Released(s, ok, s') {
        ReleasedQuietly(s, ok, s');
      }
    case EndJob(closing, ok) =>
      if closing {
        NothingSent(s, s', Final(s.batch.value.policy), ok);
      }
    case CutHeld(obs, mid, ok) => QuietCut(model, live, s, obs, mid, ok, s');
    case _ =>
  }

  /** A stretch of a run with no page output, such as a job whose every page is refused or whose tape never comes,
      prints nothing and leaves the run as it was, or closed. */
  lemma {:induction false} QuietRun(model: Model, live: bool, states: seq<S>, events: seq<Event>, i: nat, j: nat)
    requires IsRun(model, live, states, events) && i <= j < |states| && OnlyRequests(states[i].wire, states[j].wire)
    ensures states[j].done == states[i].done
    ensures states[j].run == states[i].run || (states[j].run == Closed && states[i].run != Uncertain)
    ensures states[j].run != states[i].run ==>
      exists k :: i <= k < j && (events[k].Unplugged? || ReadsClosed(states[k], events[k]))
    decreases j
  {
    hide Inv, Step, OnlyRequests, ReadsClosed;
    if i < j {
      var s, e, s' := states[j - 1], events[j - 1], states[j];
      assert Step(model, live, s, e, states[j - 1 + 1]);
      WireGrows(model, live, states, events, i, j - 1);
      EveryStateKept(model, live, states, events, j - 1);
      var asked := RequestsThenOutput(model, live, s, e, s');
      QuietHalves(states[i].wire, s.wire, asked, s'.wire);
      QuietStep(model, live, s, e, s');
      QuietRun(model, live, states, events, i, j - 1);
    }
  }

  lemma QuietHalves(a: seq<Sent>, b: seq<Sent>, asked: seq<Sent>, c: seq<Sent>)
    requires OnlyRequests(a, c) && a <= b && OnlyRequests(b, asked) && OnlyOutput(asked, c)
    ensures OnlyRequests(a, b) && OnlyRequests(b, c)
  {
    PrefixTrans(b, asked, c);
    forall k | |a| <= k < |b| ensures b[k].Request? && b[k].bytes <= Encode(StatusRequest) {
      assert b[k] == c[k];
    }
  }

  lemma {:induction false} WireGrows(model: Model, live: bool, states: seq<S>, events: seq<Event>, i: nat, j: nat)
    requires IsRun(model, live, states, events) && i <= j < |states|
    ensures states[i].wire <= states[j].wire && states[i].done <= states[j].done
    decreases j
  {
    hide Inv, Step;
    if i < j {
      WireGrows(model, live, states, events, i, j - 1);
      EveryStateKept(model, live, states, events, j - 1);
      assert Step(model, live, states[j - 1], events[j - 1], states[j - 1 + 1]);
      var asked := RequestsThenOutput(model, live, states[j - 1], events[j - 1], states[j]);
      PrefixTrans(states[j - 1].wire, asked, states[j].wire);
      PrefixTrans(states[i].wire, states[j - 1].wire, states[j].wire);
      PrefixTrans(states[i].done, states[j - 1].done, states[j].done);
    }
  }

  // ---------- One tape for a job ----------

  /** A clean status reply of this callback named the tape. */
  predicate Reports(e: Event, tape: byte) {
    exists k :: 0 <= k < |ObsOf(e)| && ReportsAt(ObsOf(e), k, tape)
  }

  predicate ReportsAt(obs: seq<Observation>, k: nat, tape: byte)
    requires k < |obs|
  {
    Clean(obs[k]) && obs[k].reading.status.value.tapeMm == tape
  }

  /** The first aligned 32-byte block of type 0 is a status block with zero error bytes that names the tape. */
  ghost predicate NamesTape(got: seq<byte>, tape: byte) {
    exists k: nat ::
      && ReplyAt(got, k) && got[32 * k] == 0x80 && got[32 * k + 1] == 0x20
      && got[32 * k + 8] == 0 && got[32 * k + 9] == 0 && got[32 * k + 10] == tape
  }

  /** What was heard: reads `a` to `b` drain the input down to an empty one, request `w` goes out whole, and reads `b`
      to `c` deliver a clean status that names the tape. */
  ghost predicate RepliedAt(heard: seq<Heard>, wire: seq<Sent>, a: nat, b: nat, c: nat, w: nat, tape: byte) {
    && a < b <= c <= |heard| && w < |wire|
    && (forall i :: a <= i < b - 1 ==> heard[i].Some? && heard[i].value != []) && heard[b - 1] == Some([])
    && wire[w] == Request([0x1b, 0x69, 0x53])
    && NamesTape(Delivered(heard[b..c]), tape)
  }

  /** Between two states the printer itself named the tape, asked afresh. */
  ghost predicate Named(s: S, s': S, tape: byte) {
    exists a, b, c, w :: |s.heard| <= a && |s.wire| <= w && RepliedAt(s'.heard, s'.wire, a, b, c, w, tape)
  }

  lemma RepliedLater(heard: seq<Heard>, wire: seq<Sent>, heard': seq<Heard>, wire': seq<Sent>, a: nat, b: nat, c: nat,
                     w: nat, tape: byte)
    requires RepliedAt(heard, wire, a, b, c, w, tape) && heard <= heard' && wire <= wire'
    ensures RepliedAt(heard', wire', a, b, c, w, tape)
  {
    hide NamesTape, Delivered;
    assert heard'[b..c] == heard[b..c];
  }

  /** A clean reading is what one exchange heard in answer to its own request. */
  lemma CleanExchange(o: Observation)
    requires Clean(o) && o.exchange.Proper()
    ensures var x := o.exchange;
      && Drained(x.drain) && x.Requests() == [Request([0x1b, 0x69, 0x53])]
      && NamesTape(Delivered(x.replies), o.reading.status.value.tapeMm)
  {
    hide FirstReply, Delivered, ParseStatus, Drained, Supported, NamesTape;
    ReportedInBytes(o.exchange.replies);
    CleanStatusNames(Delivered(o.exchange.replies), o.reading.status.value);
  }

  lemma CleanStatusNames(got: seq<byte>, status: Snapshot)
    requires status.error == 0
    ensures StatusIn(got, status) ==> NamesTape(got, status.tapeMm)
  {
    hide ReplyAt;
  }

  predicate StandsAt<T(==)>(all: seq<T>, at: nat, x: seq<T>) {
    at + |x| <= |all| && all[at..at + |x|] == x
  }

  lemma StandsBetween<T>(a: seq<T>, b: seq<T>, x: seq<T>, c: seq<T>)
    ensures StandsAt(a + (b + x + c), |a + b|, x)
  {}

  /** The exchange at `k` stands on the wire and in what was heard where the ones before it end. */
  lemma ExchangeAt(live: bool, s: S, s': S, obs: seq<Observation>, k: nat) returns (a: nat, w: nat)
    requires Observing(live, s, s', obs) && k < |obs|
    ensures |s.heard| <= a && |s.wire| <= w
    ensures StandsAt(s'.heard, a, obs[k].exchange.Reads()) && StandsAt(s'.wire, w, obs[k].exchange.Requests())
  {
    hide OnlyRequests, PublishAll, Exchanges, Exchange.Reads, Exchange.Requests, StandsAt;
    var x, before, later := obs[k].exchange, obs[..k], obs[k + 1..];
    InAll(before + [obs[k]], later);
    InAll(before, [obs[k]]);
    InOne(obs[k]);
    assert before + [obs[k]] + later == obs;
    a, w := |s.heard + ReadsIn(before)|, |s.wire + RequestsIn(before)|;
    StandsBetween(s.heard, ReadsIn(before), x.Reads(), ReadsIn(later));
    StandsBetween(s.wire, RequestsIn(before), x.Requests(), RequestsIn(later));
  }

  lemma ObservedIsHeard(live: bool, s: S, s': S, obs: seq<Observation>, k: nat, tape: byte)
    requires Observing(live, s, s', obs) && k < |obs| && ReportsAt(obs, k, tape)
    ensures Named(s, s', tape)
  {
    hide OnlyRequests, PublishAll, Delivered, NamesTape, Drained, Supported, Exchange.Outcome, Exchange.Proper,
         Exchange.Requests, Clean, RequestsIn, ReadsIn;
    var x := obs[k].exchange;
    CleanExchange(obs[k]);
    CleanStatus(obs[k]);
    var a, w := ExchangeAt(live, s, s', obs, k);
    var b := a + |x.drain|;
    var c := b + |x.replies|;
    ReadsApart(s'.heard, a, x);
    assert s'.wire[w..w + 1][0] == x.Requests()[0];
    DrainedReads(s'.heard, a, b, x.drain);
    assert RepliedAt(s'.heard, s'.wire, a, b, c, w, tape);
  }

  lemma ReadsApart(heard: seq<Heard>, a: nat, x: Exchange)
    requires StandsAt(heard, a, x.Reads())
    ensures var b := a + |x.drain|;
      var c := b + |x.replies|;
      c <= |heard| && heard[a..b] == x.drain && heard[b..c] == x.replies
  {
    var all := heard[a..a + |x.Reads()|];
    assert all[..|x.drain|] == x.drain && all[|x.drain|..] == x.replies;
  }

  lemma DrainedReads(heard: seq<Heard>, a: nat, b: nat, drain: seq<Heard>)
    requires Drained(drain) && b == a + |drain| <= |heard| && heard[a..b] == drain
    ensures a < b && heard[b - 1] == Some([])
    ensures forall i :: a <= i < b - 1 ==> heard[i].Some? && heard[i].value != []
  {
    assert heard[b - 1] == heard[a..b][|drain| - 1];
    assert forall i :: a <= i < b ==> heard[i] == heard[a..b][i - a];
  }

  /** A tape that a callback goes by was named by the printer, in answer to a request of that callback. */
  lemma ReportIsHeard(model: Model, live: bool, s: S, e: Event, s': S, tape: byte)
    requires Inv(model, live, s) && Step(model, live, s, e, s') && Reports(e, tape)
    ensures Named(s, s', tape)
  {
    hide Observing, ReportsAt, Inv, Named, Sending, BlankContinuation, Streamed, PageTape, MarginsInWindow, Supported;
    var obs := ObsOf(e);
    var k :| 0 <= k < |obs| && ReportsAt(obs, k, tape);
    match e
    case StartJob(_, _, _, _) => ObservedIsHeard(live, s, s', obs, k, tape);
    case Observe(_) => ObservedIsHeard(live, s, s', obs, k, tape);
    case CutHeld(_, mid, ok) =>
      ObservedIsHeard(live, s, mid, obs, k, tape);
      if mid != s' {
        NamedLater(s, mid, s', BlankContinuation(mid.ready), ok, tape);
      }
    case StartPage(h, _, mid, ok) => StartPageIsHeard(model, live, s, e, s', k, tape);
    case _ =>
  }

  lemma StartPageIsHeard(model: Model, live: bool, s: S, e: Event, s': S, k: nat, tape: byte)
    requires e.StartPage? && StartPageStep(model, live, s, e.header, e.obs, e.mid, e.ok, s')
    requires k < |e.obs| && ReportsAt(e.obs, k, tape)
    ensures Named(s, s', tape)
  {
    hide Observing, ReportsAt, Named, Sending, Setup, Clean, PageTape, Startable;
    ObservedIsHeard(live, s, e.mid, e.obs, k, tape);
    if !e.ok && GaveUp(live, s, e.header, e.obs, e.mid, s') {
      SameIsNamed(s, e.mid, s', tape);
    } else if model == PT2730 {
      var b := e.mid.batch.value;
      var cs := Feed(b.pending) + Setup(PT2730, ContinuedFrom(b, e.mid.run), b.policy, b.tape, b.first, 0);
      NamedLater(s, e.mid, s', cs, e.ok, tape);
    } else {
      SameIsNamed(s, e.mid, s', tape);
    }
  }

  lemma SameIsNamed(s: S, mid: S, s': S, tape: byte)
    requires Named(s, mid, tape) && s'.heard == mid.heard && s'.wire == mid.wire
    ensures Named(s, s', tape)
  {
    hide RepliedAt;
  }

  lemma NamedLater(s: S, mid: S, s': S, cs: seq<Cmd>, ok: bool, tape: byte)
    requires Named(s, mid, tape) && Sending(mid, s', cs, ok)
    ensures Named(s, s', tape)
  {
    hide RepliedAt, OutputOf, Serialize;
    var a, b, c, w :| |s.heard| <= a && |s.wire| <= w && RepliedAt(mid.heard, mid.wire, a, b, c, w, tape);
    RepliedLater(mid.heard, mid.wire, s'.heard, s'.wire, a, b, c, w, tape);
  }

  /** A batch's tape is set from a clean reply on a live transport, matches every page it starts, and is fixed
      once a label has been sent. */
  lemma TapeIsReported(model: Model, live: bool, s: S, e: Event, s': S)
    requires live && Step(model, live, s, e, s') && s'.batch.Some?
    ensures (s.batch.Some? && s'.batch.value.tape == s.batch.value.tape) || Reports(e, s'.batch.value.tape)
    ensures s.batch.Some? && !s.batch.value.first ==> s'.batch.value.tape == s.batch.value.tape && !s'.batch.value.first
    ensures e.StartPage? && e.ok ==> s'.batch.value.tape == PageTape(e.header)
  {
    hide Sending, OnlyRequests, RowOf, InOrder, WidthMatches, PageTape, MarginsInWindow, Supported, Clean, PublishAll,
         Reports, StartPageStep;
    match e
    case StartJob(_, _, obs, ok) =>
      assert obs == ObsOf(e);
      LastReports(s, e);
    case StartPage(_, _, _, _) => PageTapeIsReported(model, live, s, e, s');
    case _ =>
  }

  lemma PageTapeIsReported(model: Model, live: bool, s: S, e: Event, s': S)
    requires e.StartPage? && StartPageStep(model, live, s, e.header, e.obs, e.mid, e.ok, s') && s'.batch.Some?
    ensures s.batch.Some? && (s'.batch.value.tape == s.batch.value.tape || Reports(e, s'.batch.value.tape))
    ensures !s.batch.value.first ==> s'.batch.value.tape == s.batch.value.tape && !s'.batch.value.first
    ensures e.ok ==> s'.batch.value.tape == PageTape(e.header)
  {
    hide Sending, OnlyRequests, Clean, PageTape, MarginsInWindow, PublishAll, Reports;
    if !e.ok && Refused(s, s') {
    } else if !e.ok && GaveUp(live, s, e.header, e.obs, e.mid, s') {
    } else if s.batch.value.tape != PageTape(e.header) {
      LastReports(s, e);
    }
  }

  lemma LastReports(s: S, e: Event)
    requires ObsOf(e) != [] && Clean(ObsOf(e)[|ObsOf(e)| - 1])
    ensures Reports(e, PublishAll(s.run, s.ready, ObsOf(e)).1)
  {
    hide Clean;
    ReadyIsLast(s.run, s.ready, ObsOf(e));
    assert ReportsAt(ObsOf(e), |ObsOf(e)| - 1, PublishAll(s.run, s.ready, ObsOf(e)).1);
  }

  lemma ReadyIsLast(run: Run, ready: byte, obs: seq<Observation>)
    requires obs != [] && Clean(obs[|obs| - 1])
    ensures PublishAll(run, ready, obs).1 == obs[|obs| - 1].reading.status.value.tapeMm
  {}

  /** On a live transport, the one tape width of every job under way was named by the printer within that job, in
      answer to a status request of one of its callbacks. */
  lemma {:induction false} TapeNamedWithinJob(model: Model, states: seq<S>, events: seq<Event>, i: nat)
    returns (j: nat)
    requires IsRun(model, true, states, events) && i < |states| && states[i].batch.Some?
    ensures j < i && Named(states[j], states[j + 1], states[i].batch.value.tape)
    ensures forall k :: j < k <= i ==> states[k].batch.Some?
  {
    hide Step, Reports, Named, Inv;
    assert i > 0;
    assert Step(model, true, states[i - 1], events[i - 1], states[i - 1 + 1]);
    TapeIsReported(model, true, states[i - 1], events[i - 1], states[i]);
    if Reports(events[i - 1], states[i].batch.value.tape) {
      EveryStateKept(model, true, states, events, i - 1);
      ReportIsHeard(model, true, states[i - 1], events[i - 1], states[i], states[i].batch.value.tape);
      j := i - 1;
    } else {
      j := TapeNamedWithinJob(model, states, events, i - 1);
    }
  }

  /** The callback that added a record. */
  lemma {:induction false} RecordAdded(model: Model, live: bool, states: seq<S>, events: seq<Event>, i: nat, n: nat)
    returns (m: nat)
    requires IsRun(model, live, states, events) && i < |states| && n < |states[i].done|
    ensures m < i && |states[m].done| == n && states[m].done + [states[i].done[n]] == states[m + 1].done
    decreases i
  {
    hide Step, Inv;
    assert i > 0;
    assert Step(model, live, states[i - 1], events[i - 1], states[i - 1 + 1]);
    EveryStateKept(model, live, states, events, i - 1);
    OneRecordAtMost(model, live, states[i - 1], events[i - 1], states[i]);
    if n < |states[i - 1].done| {
      m := RecordAdded(model, live, states, events, i - 1, n);
    } else {
      m := i - 1;
    }
  }

  /** A callback adds one record at most: a job's at its end, or a release. */
  lemma OneRecordAtMost(model: Model, live: bool, s: S, e: Event, s': S)
    requires Step(model, live, s, e, s')
    ensures s.done <= s'.done && |s'.done| <= |s.done| + 1
    ensures |s'.done| > |s.done| && s'.done[|s.done|].Job? ==>
      && e.EndJob? && e.closing && e.ok && s.batch.Some? && s'.done[|s.done|].mm == s.batch.value.tape
  {
    hide Sending, PublishAll, Clean, RowOf, WidthMatches, MarginsInWindow, PageTape, Transmitted, Setup, Page,
         BlankContinuation, InOrder;
  }

  /** Every finished job of a live run was printed on one tape: the tape that each of its pages was for, that the
      printer named last, and that it named within the job in answer to a request written for it. */
  lemma OneTapePerJob(model: Model, states: seq<S>, events: seq<Event>, i: nat, n: nat) returns (j: nat, m: nat)
    requires IsRun(model, true, states, events) && i < |states| && n < |states[i].done| && states[i].done[n].Job?
    ensures SameWorks(model, true, states[i].done, SeeAll(events[..i]).finished)
    ensures var w := SeeAll(events[..i]).finished[n];
      && w.Printed? && |w.headers| == |states[i].done[n].labels| && UnderOneTape(w.headers, states[i].done[n].mm)
      && w.tape == Some(states[i].done[n].mm)
    ensures j < m < i && events[m].EndJob? && |states[m].done| == n < |states[m + 1].done|
    ensures Named(states[j], states[j + 1], states[i].done[n].mm)
    ensures forall k :: j < k <= m ==> states[k].batch.Some?
  {
    hide Step, Named, Inv, SeeAll, SamePages, UnderOneTape, Explained;
    EveryStateExplained(model, true, states, events, i);
    m := RecordAdded(model, true, states, events, i, n);
    assert Step(model, true, states[m], events[m], states[m + 1]);
    OneRecordAtMost(model, true, states[m], events[m], states[m + 1]);
    j := TapeNamedWithinJob(model, states, events, m);
    assert SameWork(model, true, states[i].done[n], SeeAll(events[..i]).finished[n]);
    SameLengths(model, true, states[i].done[n], SeeAll(events[..i]).finished[n]);
  }

  lemma SameLengths(model: Model, live: bool, r: Rec, w: Work)
    requires SameWork(model, live, r, w) && r.Job?
    ensures |w.headers| == |r.labels|
  {}

  lemma {:induction false} NamedIsReported(tape: Option<byte>, obs: seq<Observation>)
    ensures LastNamed(tape, obs) == tape ||
      (LastNamed(tape, obs).Some? &&
       exists k :: 0 <= k < |obs| && ReportsAt(obs, k, LastNamed(tape, obs).value))
  {
    hide Clean;
    if obs != [] {
      var n := |obs| - 1;
      NamedIsReported(tape, obs[..n]);
      if Clean(obs[n]) {
        assert ReportsAt(obs, n, LastNamed(tape, obs).value);
      } else if LastNamed(tape, obs) != tape {
        var k :| 0 <= k < n && ReportsAt(obs[..n], k, LastNamed(tape, obs).value);
        assert ReportsAt(obs, k, LastNamed(tape, obs).value);
      }
    }
  }

  /** A callback that changes the tape a client's view carries reports that tape. */
  lemma ViewTapeIsReported(v: View, e: Event)
    requires See(v, e).tape.Some? && (See(v, e).tape != v.tape || Starts(e))
    ensures Reports(e, See(v, e).tape.value)
  {
    hide LastNamed, ReportsAt, HeadRow;
    var obs, t := ObsOf(e), See(v, e).tape;
    NamedIsReported(None, obs);
    NamedIsReported(v.tape, obs);
    assert t == LastNamed(None, obs) || t == LastNamed(v.tape, obs);
    var k :| 0 <= k < |obs| && ReportsAt(obs, k, t.value);
  }

  /** The start of a job, from which on the view is about that job. */
  predicate Starts(e: Event) {
    e.StartJob? && e.ok && e.policy.Some?
  }

  /** The tape a client's view carries was named by the printer since the job the view is about was started. */
  lemma {:induction false} ViewTapeIsNamed(model: Model, live: bool, states: seq<S>, events: seq<Event>, i: nat)
    returns (j: nat)
    requires IsRun(model, live, states, events) && i < |states| && SeeAll(events[..i]).tape.Some?
    ensures j < i && Named(states[j], states[j + 1], SeeAll(events[..i]).tape.value)
    ensures forall k :: j < k < i ==> !Starts(events[k])
  {
    hide Inv, Step, See, Named, Reports;
    assert i > 0;
    SeeOneMore(events, i - 1);
    var v, e := SeeAll(events[..i - 1]), events[i - 1];
    if See(v, e).tape != v.tape || Starts(e) {
      ViewTapeIsReported(v, e);
      EveryStateKept(model, live, states, events, i - 1);
      assert Step(model, live, states[i - 1], e, states[i - 1 + 1]);
      ReportIsHeard(model, live, states[i - 1], e, states[i], See(v, e).tape.value);
      j := i - 1;
    } else {
      j := ViewTapeIsNamed(model, live, states, events, i - 1);
    }
  }

  /** The same for the record that output stopped in, on any live run: one tape for every page that was started, and a
      tape that the printer named since that job's start. */
  lemma InterruptedOnOneTape(model: Model, states: seq<S>, events: seq<Event>, i: nat)
    returns (recs: seq<Rec>, j: nat)
    requires IsRun(model, true, states, events) && i < |states|
    ensures states[i].done <= recs && |recs| <= |states[i].done| + 1
    ensures states[i].Out() <= Serialize(Streams(model, recs))
    ensures |recs| > |states[i].done| && recs[|states[i].done|].Job? ==>
      var r, v := recs[|states[i].done|], SeeAll(events[..i]);
      && Belongs(model, true, r, v) && UnderOneTape(v.headers, r.mm)
      && j < i && Named(states[j], states[j + 1], r.mm) && forall k :: j < k < i ==> !Starts(events[k])
  {
    hide Step, SeeAll, SameWorks, History, Serialize, Streams, Accepted, OutputOf, Named, Belongs, UnderOneTape;
    recs := OutputIsPrefixOfCapture(model, true, states, events, i);
    j := 0;
    if |recs| > |states[i].done| && recs[|states[i].done|].Job? {
      BelongsOnTape(model, recs[|states[i].done|], SeeAll(events[..i]));
      j := ViewTapeIsNamed(model, true, states, events, i);
    }
  }

  lemma BelongsOnTape(model: Model, r: Rec, v: View)
    requires Belongs(model, true, r, v) && r.Job?
    ensures UnderOneTape(v.headers, r.mm) && v.tape == Some(r.mm)
  {}

  // ---------- Releasing held content ----------

  /** A release succeeds only into a certain run with nothing of the user's held, and after its output has begun
      anything but success is uncertain. */
  lemma CutAnswers(model: Model, live: bool, s: S, obs: seq<Observation>, mid: S, ok: bool, s': S)
    requires Step(model, live, s, Event.CutHeld(obs, mid, ok), s')
    ensures ok ==> s'.run == Closed || s'.run == OpenBlank
    ensures !ok && !OnlyRequests(s.wire, s'.wire) ==> s'.run == Uncertain
    ensures s.run != Open ==> s'.wire == s.wire && s'.run == s.run && (ok <==> s.run != Uncertain)
  {
    hide Sending, PublishAll, Clean, BlankContinuation;
  }

  /** A second release writes and reads nothing, and answers as the first did. */
  lemma ReleaseTwice(model: Model, live: bool, s: S, e: Event, s': S, e': Event, s'': S)
    requires Step(model, live, s, e, s') && e.CutHeld? && e.ok
    requires Step(model, live, s', e', s'') && e'.CutHeld?
    ensures e'.ok && s'' == s' && e'.obs == []
  {
    hide Sending, PublishAll, Clean, BlankContinuation;
    CutAnswers(model, live, s, e.obs, e.mid, e.ok, s');
  }

  /** The run is as it was found, or the job that found it so is printing. */
  predicate Since(s: S, run: Run) {
    && (s.run != Uncertain ==> s.run == run)
    && (s.run == Uncertain && !Stuck(s) ==> s.batch.value.continued == (run != Closed))
  }

  /** Nothing closes the run here. */
  predicate Undisturbed(s: S, e: Event) {
    !e.Unplugged? && !ReadsClosed(s, e)
  }

  /** What the next record makes of the run it finds: a job goes on from it unless it is closed, and a release frees
      what is held in an open one. */
  predicate Takes(r: Rec, run: Run) {
    if r.Job? then r.continued == (run != Closed) else run == Open
  }

  /** As long as nothing closes the run, the next record takes it as it was found. */
  lemma StepContinues(model: Model, live: bool, s: S, e: Event, s': S, run: Run)
    requires Inv(model, live, s) && Step(model, live, s, e, s') && run != Uncertain && Since(s, run)
    requires run != Closed ==> Undisturbed(s, e)
    ensures s'.done == s.done ==> Since(s', run)
    ensures s'.done != s.done ==> s.done < s'.done && Takes(s'.done[|s.done|], run)
  {
    hide Sending, PublishAll, RowOf, InOrder, WidthMatches, PageTape, MarginsInWindow, Setup, Page, Transmitted,
         ClosesAt, BlankContinuation, History, Settled, Printing, BatchShape, Stopped, OnlyRequests, Exchanges,
         StartPageStep, EndPageStep;
    ObservationsOnlyClose(s.run, s.ready, ObsOf(e));
    PublishNothing(s.run, s.ready);
    match e
    case StartPage(h, obs, mid, ok) => StartPageContinues(model, live, s, h, obs, mid, ok, s', run);
    case EndPage(ok) => EndPageContinues(model, live, s, ok, s', run);
    case EndJob(closing, ok) =>
      if s.batch.Some? && !s.batch.value.failed && s.run != Uncertain {
        CertainIsFirst(model, live, s);
      }
    case _ =>
  }

  /** A live batch on a certain run has sent nothing yet. */
  lemma CertainIsFirst(model: Model, live: bool, s: S)
    requires Inv(model, live, s) && s.batch.Some? && !s.batch.value.failed && s.run != Uncertain
    ensures s.batch.value.first && !s.batch.value.pending && (model == PT2730 ==> !s.batch.value.active)
  {
    hide BatchShape, History, Settled, BatchOutput, OutputOf;
  }

  lemma UncertainIsLater(model: Model, live: bool, s: S)
    requires Inv(model, live, s) && s.batch.Some? && !s.batch.value.failed && s.run == Uncertain
    ensures !s.batch.value.first
  {
    hide BatchShape, History, Printing, BatchOutput, OutputOf;
  }

  lemma StartPageContinues(model: Model, live: bool, s: S, h: Header, obs: seq<Observation>, mid: S, ok: bool, s': S,
                           run: Run)
    requires Inv(model, live, s) && StartPageStep(model, live, s, h, obs, mid, ok, s')
    requires run != Uncertain && Since(s, run)
    requires run != Closed ==> !exists k :: 0 <= k < |obs| && ClosesAt(s.run, s.ready, obs, k)
    ensures s'.done == s.done && Since(s', run)
  {
    hide Inv, Sending, PublishAll, PageTape, MarginsInWindow, Setup, ClosesAt, OnlyRequests, Exchanges, Clean;
    ObservationsOnlyClose(s.run, s.ready, obs);
    if !ok && obs == [] && Refused(s, s') {
    } else if !ok && GaveUp(live, s, h, obs, mid, s') {
    } else if s.run == Uncertain {
      UncertainIsLater(model, live, s);
    } else {
      CertainIsFirst(model, live, s);
    }
  }

  lemma EndPageContinues(model: Model, live: bool, s: S, ok: bool, s': S, run: Run)
    requires Inv(model, live, s) && EndPageStep(model, s, ok, s') && run != Uncertain && Since(s, run)
    ensures s'.done == s.done && Since(s', run)
  {
    hide Inv, Sending, Page, Transmitted;
    if !ok && Refused(s, s') {
    } else if s.run == Uncertain {
      UncertainIsLater(model, live, s);
    } else {
      CertainIsFirst(model, live, s);
    }
  }

  lemma {:induction false} StaysSince(model: Model, live: bool, states: seq<S>, events: seq<Event>, i: nat, j: nat)
    requires IsRun(model, live, states, events) && i <= j < |states| && states[i].run != Uncertain
    requires states[i].run != Closed ==> forall k :: i <= k < j ==> Undisturbed(states[k], events[k])
    requires |states[j].done| == |states[i].done|
    ensures Since(states[j], states[i].run)
    decreases j
  {
    hide Inv, Step, Undisturbed, Takes;
    if i < j {
      hide Since;
      WireGrows(model, live, states, events, i, j - 1);
      WireGrows(model, live, states, events, j - 1, j);
      StaysSince(model, live, states, events, i, j - 1);
      EveryStateKept(model, live, states, events, j - 1);
      assert Step(model, live, states[j - 1], events[j - 1], states[j - 1 + 1]);
      StepContinues(model, live, states[j - 1], events[j - 1], states[j], states[i].run);
    }
  }

  /** The record that follows a certain run state takes it as it is. On a closed run it is a job, which initializes the
      printer once. On an open one, unless the printer is unplugged or read as changed in between, it is a release, or a
      job that goes on without initializing; and on the blank page of a release it is such a job. */
  lemma NextRecordContinues(model: Model, live: bool, states: seq<S>, events: seq<Event>, i: nat, j: nat)
    requires IsRun(model, live, states, events) && i < j < |states| && states[i].run != Uncertain
    requires states[i].run != Closed ==>
      forall k :: i <= k < j ==> !events[k].Unplugged? && !ReadsClosed(states[k], events[k])
    requires |states[i].done| < |states[j].done|
    ensures var r := states[j].done[|states[i].done|];
      && (r.Release? ==> states[i].run == Open)
      && (r.Job? ==> (r.continued <==> states[i].run == Open || states[i].run == OpenBlank))
      && (r.Job? ==> Count(Init, StreamOf(model, r)) == if states[i].run == Closed then 1 else 0)
  {
    hide Inv, Step, ReadsClosed, StreamOf, Count, Since;
    var n := |states[i].done|;
    var m := RecordAdded(model, live, states, events, j, n);
    if m < i {
      WireGrows(model, live, states, events, m + 1, i);
      assert false;
    }
    WireGrows(model, live, states, events, i, m);
    StaysSince(model, live, states, events, i, m);
    EveryStateKept(model, live, states, events, m);
    assert Step(model, live, states[m], events[m], states[m + 1]);
    StepContinues(model, live, states[m], events[m], states[m + 1], states[i].run);
    var r := states[j].done[n];
    EveryStateKept(model, live, states, events, j);
    RecordIsWhole(model, live, states[j], n);
    if r.Job? {
      InitializedOnce(model, r.continued, r.policy, r.mm, r.labels);
    }
  }

  lemma RecordIsWhole(model: Model, live: bool, s: S, n: nat)
    requires Inv(model, live, s) && n < |s.done|
    ensures Whole(s.done[n])
  {
    hide Settled, Printing, Stopped, Follows, BatchShape;
  }
}
