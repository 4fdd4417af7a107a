/** The tape width in every page header on the wire of a run, and where the printer named it. */
module WireTapes {
  import opened Bytes
  import opened Client
  import opened Decoder
  import opened Device
  import opened Headers
  import opened LiveWire
  import opened Protocol
  import opened Results
  import opened Runs
  import opened Safety
  import opened Stream
  import opened Tables

  lemma {:induction false} RequestsHaveNoWidth(cs: seq<Cmd>)
    ensures Widths(Strip(cs)) == Widths(cs)
  {
    if cs != [] {
      var n := |cs| - 1;
      RequestsHaveNoWidth(cs[..n]);
      assert cs == cs[..n] + [cs[n]];
      WidthsSum(cs[..n], [cs[n]]);
      WidthsSum(Strip(cs[..n]), [cs[n]]);
      if cs[n].StatusRequest? {
        NoWidths([cs[n]]);
        assert Strip(cs[..n]) + [] == Strip(cs[..n]);
      }
    }
  }

  /** On every run, whatever whole commands have reached the printer, their page headers are one for each label that was
      finished or begun, in order, and each carries its label's tape: that of the finished request, under which all its
      pages were started, or that of the one under way. */
  lemma WidthsOnTheWire(model: Model, live: bool, states: seq<S>, events: seq<Event>, i: nat, got: seq<Cmd>)
    returns (recs: seq<Rec>)
    requires IsRun(model, live, states, events) && i < |states| && Serialize(got) <= AllBytes(states[i].wire)
    ensures states[i].done <= recs && |recs| <= |states[i].done| + 1
    ensures SameWorks(model, live, states[i].done, SeeAll(events[..i]).finished)
    ensures |recs| > |states[i].done| ==> Belongs(model, live, recs[|states[i].done|], SeeAll(events[..i]))
    ensures Widths(got) <= TapesOf(recs)
  {
    hide IsRun, SeeAll, Belongs, SameWorks, History, StreamOf, Streams, Serialize, Accepted, OutputOf, Strip, AllBytes,
         Known, Widths, TapesOf;
    EveryWireKnown(model, live, states, events, i);
    ReceivedWasSent(states[i], got);
    recs := OutputIsPrefixOfCapture(model, live, states, events, i);
    PrefixTrans(Serialize(Strip(got)), states[i].Out(), Serialize(Streams(model, recs)));
    BytesSayCommands(Strip(got), Streams(model, recs));
    WidthsPrefix(Strip(got), Streams(model, recs));
    StreamsCarryTheTapes(model, recs);
    RequestsHaveNoWidth(got);
  }

  // ---------- Who named the width ----------

  /** The callback that finished record `n`: the end of its job, or its release. */
  predicate Finishes(states: seq<S>, events: seq<Event>, m: nat, n: nat, r: Rec)
    requires m < |events| && |states| == |events| + 1
  {
    && |states[m].done| == n && states[m + 1].done == states[m].done + [r]
    && (if r.Job? then events[m].EndJob? else events[m].CutHeld?)
  }

  /** A release is on the tape that its own exchange has just named. */
  lemma ReleaseNamed(model: Model, s: S, e: Event, s': S)
    requires Inv(model, true, s) && Step(model, true, s, e, s')
    requires |s'.done| > |s.done| && s'.done[|s.done|].Release?
    ensures e.CutHeld? && Named(s, s', s'.done[|s.done|].mm)
  {
    hide Inv, Sending, PublishAll, Clean, RowOf, WidthMatches, MarginsInWindow, PageTape, Transmitted, Setup, Page,
         BlankContinuation, InOrder, Named, OnlyRequests, Exchanges, Reports;
    match e
    case CutHeld(obs, mid, ok) =>
      LastReports(s, e);
      ReportIsHeard(model, true, s, e, s', s'.done[|s.done|].mm);
    case _ =>
  }

  /** The tape of a finished record of a live run was named by the printer within its job, or by its release's own
      exchange. */
  lemma FinishedIsNamed(model: Model, states: seq<S>, events: seq<Event>, i: nat, n: nat) returns (j: nat, m: nat)
    requires IsRun(model, true, states, events) && i < |states| && n < |states[i].done|
    ensures j <= m < i && Finishes(states, events, m, n, states[i].done[n])
    ensures Named(states[j], states[j + 1], states[i].done[n].mm)
    ensures forall k :: j < k <= m ==> states[k].batch.Some?
  {
    hide Step, Named, Inv;
    m := RecordAdded(model, true, states, events, i, n);
    EveryStateKept(model, true, states, events, m);
    assert Step(model, true, states[m], events[m], states[m + 1]);
    OneRecordAtMost(model, true, states[m], events[m], states[m + 1]);
    if states[i].done[n].Job? {
      j := TapeNamedWithinJob(model, states, events, m);
    } else {
      ReleaseNamed(model, states[m], events[m], states[m + 1]);
      j := m;
    }
  }

  /** The callback's exchanges named a tape. */
  predicate Reporting(e: Event) {
    exists k :: 0 <= k < |ObsOf(e)| && Clean(ObsOf(e)[k])
  }

  lemma {:induction false} SilenceNamesNothing(tape: Option<byte>, obs: seq<Observation>)
    requires forall k :: 0 <= k < |obs| ==> !Clean(obs[k])
    ensures LastNamed(tape, obs) == tape
  {
    hide Clean;
    if obs != [] {
      SilenceNamesNothing(tape, obs[..|obs| - 1]);
    }
  }

  lemma SilenceKeepsLoaded(v: View, e: Event)
    requires !Reporting(e)
    ensures See(v, e).loaded == v.loaded
  {
    hide Clean, HeadRow, LastNamed;
    SilenceNamesNothing(v.loaded, ObsOf(e));
  }

  lemma {:induction false} LastNamedOne(tape: Option<byte>, obs: seq<Observation>, k: nat)
    requires k < |obs| && Clean(obs[k])
    ensures LastNamed(tape, obs).Some?
    ensures exists l :: 0 <= l < |obs| && ReportsAt(obs, l, LastNamed(tape, obs).value)
  {
    hide Clean;
    var n := |obs| - 1;
    if Clean(obs[n]) {
      assert ReportsAt(obs, n, LastNamed(tape, obs).value);
    } else {
      LastNamedOne(tape, obs[..n], k);
      var l :| 0 <= l < n && ReportsAt(obs[..n], l, LastNamed(tape, obs[..n]).value);
      assert ReportsAt(obs, l, LastNamed(tape, obs).value);
    }
  }

  /** What a callback's exchanges named, its view carries. */
  lemma ReportIsLoaded(v: View, e: Event)
    requires Reporting(e)
    ensures See(v, e).loaded.Some? && Reports(e, See(v, e).loaded.value)
  {
    hide Clean, HeadRow, LastNamed, ReportsAt;
    var k :| 0 <= k < |ObsOf(e)| && Clean(ObsOf(e)[k]);
    LastNamedOne(v.loaded, ObsOf(e), k);
  }

  /** The tape a view holds loaded is the one that the printer named last. */
  lemma {:induction false} LoadedIsNamed(model: Model, live: bool, states: seq<S>, events: seq<Event>, i: nat)
    returns (j: nat)
    requires IsRun(model, live, states, events) && i < |states| && SeeAll(events[..i]).loaded.Some?
    ensures j < i && Named(states[j], states[j + 1], SeeAll(events[..i]).loaded.value)
    ensures forall k :: j < k < i ==> !Reporting(events[k])
  {
    hide Inv, Step, See, Named, Reports, Reporting;
    assert i > 0;
    SeeOneMore(events, i - 1);
    var v, e := SeeAll(events[..i - 1]), events[i - 1];
    if Reporting(e) {
      ReportIsLoaded(v, e);
      EveryStateKept(model, live, states, events, i - 1);
      assert Step(model, live, states[i - 1], e, states[i - 1 + 1]);
      ReportIsHeard(model, live, states[i - 1], e, states[i], See(v, e).loaded.value);
      j := i - 1;
    } else {
      SilenceKeepsLoaded(v, e);
      j := LoadedIsNamed(model, live, states, events, i - 1);
    }
  }

  /** The tape of the record under way: for a job, named since its start; for a release, the last one named at all. */
  lemma UnderwayIsNamed(model: Model, states: seq<S>, events: seq<Event>, i: nat, r: Rec) returns (j: nat)
    requires IsRun(model, true, states, events) && i < |states| && Belongs(model, true, r, SeeAll(events[..i]))
    ensures j < i && Named(states[j], states[j + 1], r.mm)
    ensures forall k :: j < k < i ==> if r.Job? then !Starts(events[k]) else !Reporting(events[k])
  {
    hide IsRun, SeeAll, Named, SamePages, UnderOneTape, Logical, Starts, Reporting;
    if r.Job? {
      j := ViewTapeIsNamed(model, true, states, events, i);
    } else {
      j := LoadedIsNamed(model, true, states, events, i);
    }
  }

  /** Every page header that has reached the printer of a live run carries a width that the printer itself named, in
      answer to a fresh request: for a finished job within that job, for a finished release in its own exchange, for the
      job under way since its start, and for a release under way last of all. */
  lemma WidthOnTheWire(model: Model, states: seq<S>, events: seq<Event>, i: nat, got: seq<Cmd>, p: nat)
    returns (recs: seq<Rec>, k: nat, j: nat, m: nat)
    requires IsRun(model, true, states, events) && i < |states| && Serialize(got) <= AllBytes(states[i].wire)
    requires p < |Widths(got)|
    ensures states[i].done <= recs && |recs| <= |states[i].done| + 1 && k < |recs|
    ensures |TapesOf(recs[..k])| <= p < |TapesOf(recs[..k + 1])| && Widths(got)[p] == recs[k].mm
    ensures j < i && Named(states[j], states[j + 1], Widths(got)[p])
    ensures k < |states[i].done| ==> j <= m < i && Finishes(states, events, m, k, recs[k])
    ensures k < |states[i].done| ==> forall l :: j < l <= m ==> states[l].batch.Some?
    ensures k == |states[i].done| && recs[k].Job? ==> forall l :: j < l < i ==> !Starts(events[l])
    ensures k == |states[i].done| && recs[k].Release? ==> forall l :: j < l < i ==> !Reporting(events[l])
  {
    hide SeeAll, Belongs, SameWorks, Serialize, AllBytes, Named, Finishes, Starts, Reporting, Widths, TapesOf, Step;
    recs := WidthsOnTheWire(model, true, states, events, i, got);
    k := TapeOfRecord(recs, p);
    if k < |states[i].done| {
      j, m := FinishedIsNamed(model, states, events, i, k);
    } else {
      j := UnderwayIsNamed(model, states, events, i, recs[k]);
      m := 0;
    }
  }
}
