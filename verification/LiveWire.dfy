/** The whole wire of a live transport, requests included: when it is a stream of commands, and what they print. */
module LiveWire {
  import opened Bytes
  import opened Client
  import opened Cutter
  import opened Decoder
  import opened Device
  import opened Protocol
  import opened Results
  import opened Runs
  import opened Safety
  import opened Stream
  import opened Tables
  import opened Writes

  /** Everything written, in order. */
  function AllBytes(wire: seq<Sent>): seq<byte> {
    if wire == [] then [] else AllBytes(wire[..|wire| - 1]) + wire[|wire| - 1].bytes
  }

  /** The bytes are whole commands, the last of them perhaps cut short. */
  ghost predicate Commands(bytes: seq<byte>) {
    exists cs :: bytes <= Serialize(cs)
  }

  /** A status request was cut after its first or second byte. */
  predicate TornAt(wire: seq<Sent>, k: nat)
    requires k < |wire|
  {
    wire[k].Request? && 0 < |wire[k].bytes| < 3
  }

  /** Something was written after a status request that was cut inside. */
  predicate WrittenAfterTorn(wire: seq<Sent>) {
    exists k, l :: 0 <= k < l < |wire| && TornAt(wire, k) && wire[l].bytes != []
  }

  // ---------- One byte string, one list of commands ----------

  lemma RequestIsNoOutput(rest: seq<byte>)
    ensures Lex(Encode(StatusRequest) + rest, true) == None
  {
    var data := Encode(StatusRequest) + rest;
    assert data[0] == 0x1b && data[1] == 0x69 && data[2] == 0x53;
  }

  /** No command's bytes begin another's. */
  lemma PrefixFree(a: Cmd, b: Cmd, x: seq<byte>, y: seq<byte>)
    requires Encode(a) + x == Encode(b) + y
    ensures a == b
  {
    hide Lex, Encode, NameOf;
    if !a.StatusRequest? {
      LexCommand(a, x, true);
    } else {
      RequestIsNoOutput(x);
    }
    if !b.StatusRequest? {
      LexCommand(b, y, true);
    } else {
      RequestIsNoOutput(y);
    }
    if !a.StatusRequest? && !b.StatusRequest? {
      assert Encode(a) == (Encode(a) + x)[..|Encode(a)|] == (Encode(b) + y)[..|Encode(b)|] == Encode(b);
      EncodeInjective(a, b);
    }
  }

  /** What follows whole commands on a wire of commands is a wire of commands again. */
  lemma {:induction false} AfterWhole(a: seq<Cmd>, rest: seq<byte>)
    requires Commands(Serialize(a) + rest)
    ensures Commands(rest)
  {
    hide Encode, Serialize;
    if a == [] {
      SerializeNothing();
      assert Serialize(a) + rest == rest;
    } else {
      var all := Serialize(a) + rest;
      var more := Serialize(a[1..]) + rest;
      assert a == [a[0]] + a[1..];
      SerializeCons(a[0], a[1..]);
      assert all == Encode(a[0]) + more;
      var cs :| all <= Serialize(cs);
      if cs == [] {
        SerializeNothing();
        assert false;
      } else {
        assert cs == [cs[0]] + cs[1..];
        SerializeCons(cs[0], cs[1..]);
        var tail := Serialize(cs)[|all|..];
        assert Serialize(cs) == Encode(a[0]) + (more + tail);
        PrefixFree(a[0], cs[0], more + tail, Serialize(cs[1..]));
        assert Serialize(cs[1..]) == Serialize(cs)[|Encode(a[0])|..] == more + tail;
        AfterWhole(a[1..], rest);
      }
    }
  }

  /** The first byte of a command that opens a record or asks for status. */
  predicate Opening(b: byte) {
    b == 0 || b == 0x1b
  }

  /** A cut request followed by the start of anything the driver writes next begins no command at all. */
  lemma TornIsGarbage(t: seq<byte>, b: byte, rest: seq<byte>)
    requires t <= Encode(StatusRequest) && 0 < |t| < 3 && Opening(b)
    ensures !Commands(t + [b] + rest)
  {
    hide Serialize;
    var data := t + [b] + rest;
    if Commands(data) {
      var cs :| data <= Serialize(cs);
      if cs == [] {
        SerializeNothing();
      } else {
        assert cs == [cs[0]] + cs[1..];
        SerializeCons(cs[0], cs[1..]);
        NoCommandStartsSo(data, cs[0], Serialize(cs[1..]));
        assert false;
      }
    }
  }

  lemma NoCommandStartsSo(data: seq<byte>, c: Cmd, rest: seq<byte>)
    requires 2 <= |data| && data <= Encode(c) + rest && data[0] == 0x1b
    ensures !Opening(data[1]) && (data[1] == 0x69 && |data| > 2 ==> !Opening(data[2]))
  {
    var all := Encode(c) + rest;
    assert data[0] == all[0] && data[1] == all[1] && (|data| > 2 ==> data[2] == all[2]);
  }

  /** Bytes say which commands they are: a list whose bytes begin another's bytes begins that list. */
  lemma {:induction false} BytesSayCommands(a: seq<Cmd>, b: seq<Cmd>)
    requires Serialize(a) <= Serialize(b)
    ensures a <= b
  {
    hide Encode, Serialize;
    if a != [] {
      var rest := Serialize(b)[|Serialize(a)|..];
      assert a == [a[0]] + a[1..];
      SerializeCons(a[0], a[1..]);
      assert Serialize(b) == Encode(a[0]) + (Serialize(a[1..]) + rest);
      if b == [] {
        SerializeNothing();
        assert false;
      } else {
        assert b == [b[0]] + b[1..];
        SerializeCons(b[0], b[1..]);
        PrefixFree(a[0], b[0], Serialize(a[1..]) + rest, Serialize(b[1..]));
        assert Serialize(b[1..]) == Serialize(b)[|Encode(a[0])|..] == Serialize(a[1..]) + rest;
        BytesSayCommands(a[1..], b[1..]);
      }
    }
  }

  lemma OneOrder(a: seq<Cmd>, b: seq<Cmd>, bytes: seq<byte>)
    requires Serialize(a) <= bytes && Serialize(b) <= bytes
    ensures a <= b || b <= a
  {
    hide Serialize;
    if |Serialize(a)| <= |Serialize(b)| {
      BytesSayCommands(a, b);
    } else {
      BytesSayCommands(b, a);
    }
  }

  /** The whole commands among these bytes are `cs`, and at most a beginning of another follows. */
  ghost predicate Received(bytes: seq<byte>, cs: seq<Cmd>) {
    Serialize(cs) <= bytes && exists c :: bytes < Serialize(cs + [c])
  }

  /** Bytes hold one list of whole commands at most. */
  lemma ReceivedOnce(bytes: seq<byte>, a: seq<Cmd>, b: seq<Cmd>)
    requires Received(bytes, a) && Received(bytes, b)
    ensures a == b
  {
    hide Serialize;
    OneOrder(a, b, bytes);
    if a < b {
      NotReceived(bytes, a, b);
    }
    if b < a {
      NotReceived(bytes, b, a);
    }
  }

  lemma NotReceived(bytes: seq<byte>, a: seq<Cmd>, b: seq<Cmd>)
    requires a < b && Serialize(b) <= bytes
    ensures !Received(bytes, a)
  {
    hide Serialize;
    forall c ensures !(bytes < Serialize(a + [c])) {
      if bytes < Serialize(a + [c]) {
        PrefixTrans(Serialize(b), bytes, Serialize(a + [c]));
        BytesSayCommands(b, a + [c]);
        OneMore(a, b, c);
      }
    }
  }

  lemma OneMore(a: seq<Cmd>, b: seq<Cmd>, c: Cmd)
    requires a < b <= a + [c]
    ensures b == a + [c]
  {}

  lemma ReceivedIsCommands(bytes: seq<byte>, cs: seq<Cmd>)
    requires Received(bytes, cs)
    ensures Commands(bytes)
  {
    hide Serialize;
    var c :| bytes < Serialize(cs + [c]);
    assert bytes <= Serialize(cs + [c]);
  }

  // ---------- Page output among the commands ----------

  /** The commands but for status requests. */
  function Strip(cs: seq<Cmd>): seq<Cmd> {
    if cs == [] then []
    else Strip(cs[..|cs| - 1]) + if cs[|cs| - 1].StatusRequest? then [] else [cs[|cs| - 1]]
  }

  predicate NoRequests(cs: seq<Cmd>) {
    forall i :: 0 <= i < |cs| ==> !cs[i].StatusRequest?
  }

  lemma {:induction false} StripSum(a: seq<Cmd>, b: seq<Cmd>)
    ensures Strip(a + b) == Strip(a) + Strip(b)
  {
    if b == [] {
      assert a + b == a;
    } else {
      assert (a + b)[..|a + b| - 1] == a + b[..|b| - 1];
      StripSum(a, b[..|b| - 1]);
    }
  }

  lemma {:induction false} StripNothing(cs: seq<Cmd>)
    requires NoRequests(cs)
    ensures Strip(cs) == cs
  {
    if cs != [] {
      StripNothing(cs[..|cs| - 1]);
      assert cs == cs[..|cs| - 1] + [cs[|cs| - 1]];
    }
  }

  lemma StripRequest(cs: seq<Cmd>)
    ensures Strip(cs + [StatusRequest]) == Strip(cs)
  {
    assert (cs + [StatusRequest])[..|cs|] == cs;
    assert Strip(cs) + [] == Strip(cs);
  }

  lemma StripPrefix(a: seq<Cmd>, b: seq<Cmd>)
    requires a <= b
    ensures Strip(a) <= Strip(b) && Serialize(Strip(a)) <= Serialize(Strip(b))
  {
    hide Strip, Serialize;
    assert b == a + b[|a|..];
    StripSum(a, b[|a|..]);
    SerializePrefix(Strip(a), Strip(b));
  }

  /** A status request prints nothing, cuts nothing and sets nothing. */
  lemma {:induction false} RequestsPrintNothing(t: Tape, cs: seq<Cmd>)
    ensures RunTape(t, Strip(cs)) == RunTape(t, cs)
  {
    hide PrintPage, Stream.Cut;
    if cs != [] {
      var n := |cs| - 1;
      RequestsPrintNothing(t, cs[..n]);
      if cs[n].StatusRequest? {
        assert Strip(cs) == Strip(cs[..n]);
      } else {
        RunTapeSnoc(t, Strip(cs[..n]), cs[n]);
      }
    }
  }

  // ---------- Scanning a wire ----------

  /** What a wire ends in: whole writes, a request cut short, or something written after one. */
  datatype Mark = Sound | Cut(t: seq<byte>) | Garbled

  function Scan(wire: seq<Sent>): Mark {
    if wire == [] then Sound
    else
      var m, x := Scan(wire[..|wire| - 1]), wire[|wire| - 1];
      if x.bytes == [] then m
      else if m != Sound then Garbled
      else if x.Request? && |x.bytes| < 3 then Cut(x.bytes)
      else Sound
  }

  /** Some request was cut short. */
  predicate SomeTorn(wire: seq<Sent>) {
    exists k :: 0 <= k < |wire| && TornAt(wire, k)
  }

  lemma {:induction false} ScanFindsSomeTorn(wire: seq<Sent>)
    ensures Scan(wire) != Sound <==> SomeTorn(wire)
  {
    if wire != [] {
      var n := |wire| - 1;
      ScanFindsSomeTorn(wire[..n]);
      if SomeTorn(wire[..n]) {
        var k :| 0 <= k < n && TornAt(wire[..n], k);
        assert TornAt(wire, k);
      }
      if SomeTorn(wire) && !TornAt(wire, n) {
        var k :| 0 <= k < |wire| && TornAt(wire, k);
        assert TornAt(wire[..n], k);
      }
      assert TornAt(wire, n) ==> wire[n].bytes != [];
    }
  }

  lemma {:induction false} ScanFindsTorn(wire: seq<Sent>)
    ensures Scan(wire) == Garbled <==> WrittenAfterTorn(wire)
  {
    if wire != [] {
      var n := |wire| - 1;
      var before := wire[..n];
      ScanFindsTorn(before);
      ScanFindsSomeTorn(before);
      hide Scan;
      TornGrows(wire);
      ScanUnfolds(wire);
    }
  }

  lemma ScanUnfolds(wire: seq<Sent>)
    requires wire != []
    ensures var m := Scan(wire[..|wire| - 1]);
      Scan(wire) == Garbled <==> m == Garbled || (m != Sound && wire[|wire| - 1].bytes != [])
  {}

  lemma TornGrows(wire: seq<Sent>)
    requires wire != []
    ensures var before := wire[..|wire| - 1];
      WrittenAfterTorn(wire) <==> WrittenAfterTorn(before) || (SomeTorn(before) && wire[|wire| - 1].bytes != [])
  {
    var n := |wire| - 1;
    var before := wire[..n];
    if WrittenAfterTorn(before) {
      var k, l :| 0 <= k < l < n && TornAt(before, k) && before[l].bytes != [];
      assert TornAt(wire, k) && wire[l].bytes != [];
    }
    if SomeTorn(before) && wire[n].bytes != [] {
      var k :| 0 <= k < n && TornAt(before, k);
      assert TornAt(wire, k);
    }
    if WrittenAfterTorn(wire) {
      var k, l :| 0 <= k < l < |wire| && TornAt(wire, k) && wire[l].bytes != [];
      assert TornAt(before, k);
      if l < n {
        assert before[l].bytes != [];
      }
    }
  }

  // ---------- What a callback writes ----------

  /** A callback's writes: requests first, then the commands `cmds`, whole or broken off for good. */
  predicate Writing(s: S, s': S, asked: seq<Sent>, cmds: seq<Cmd>, ok: bool) {
    && OnlyRequests(s.wire, asked) && Sends(asked, s'.wire, cmds, ok) && NoRequests(cmds)
    && (s.run == Uncertain ==> asked == s.wire)
    && (ok || Stuck(s'))
    && (s.run != Uncertain && cmds != [] ==> Opening(Encode(cmds[0])[0]))
    && (s.run != Uncertain && cmds == [] ==> s'.run != Uncertain || Stuck(s'))
  }

  lemma SetupOpens(model: Model, continued: bool, policy: Policy, mm: byte, rows: u32)
    ensures var cs := Setup(model, continued, policy, mm, true, rows);
      cs != [] && Opening(Encode(cs[0])[0])
  {
    assert INVALIDATE[0] == Nul;
  }

  lemma {:induction false} RowsAskNothing(model: Model, rows: seq<Row>)
    ensures NoRequests(Rows(model, rows))
  {
    if rows != [] {
      RowsAskNothing(model, rows[..|rows| - 1]);
    }
  }

  lemma SetupAsksNothing(model: Model, continued: bool, policy: Policy, mm: byte, first: bool, rows: u32)
    ensures NoRequests(Setup(model, continued, policy, mm, first, rows))
  {}

  /** What a page's start or end writes holds no request. */
  lemma PagesAskNothing(model: Model, continued: bool, b: Batch, rows: u32, page: Label)
    ensures NoRequests(Feed(b.pending) + Setup(model, continued, b.policy, b.tape, b.first, rows))
    ensures NoRequests(Feed(b.pending) + Page(model, continued, b.policy, b.tape, b.first, page))
  {
    hide Setup, Rows;
    SetupAsksNothing(model, continued, b.policy, b.tape, b.first, rows);
    SetupAsksNothing(model, continued, b.policy, b.tape, b.first, |page.rows| % 0x1_0000_0000);
    RowsAskNothing(model, page.rows);
  }

  lemma EndsAskNothing(mm: byte, policy: Policy)
    ensures NoRequests([]) && NoRequests(BlankContinuation(mm)) && NoRequests(Final(policy))
  {}

  lemma QuietWriting(s: S, s': S)
    requires OnlyRequests(s.wire, s'.wire) && (s.run == Uncertain ==> s'.wire == s.wire)
    requires s.run != Uncertain ==> s'.run != Uncertain || Stuck(s')
    ensures Writing(s, s', s'.wire, [], true)
  {
    hide OutputOf, Serialize;
    SendsNothing(s'.wire);
  }

  lemma SameWire(s: S, s': S)
    requires s'.wire == s.wire && (s.run != Uncertain ==> s'.run != Uncertain || Stuck(s'))
    ensures Writing(s, s', s'.wire, [], true)
  {
    QuietWire(s.wire);
    QuietWriting(s, s');
  }

  lemma QuietWire(wire: seq<Sent>)
    ensures OnlyRequests(wire, wire)
  {}

  lemma ObservingIsQuiet(live: bool, s: S, s': S, obs: seq<Observation>)
    requires s.run != Uncertain && Observing(live, s, s', obs)
    ensures s'.run != Uncertain && Writing(s, s', s'.wire, [], true)
  {
    hide PublishAll, OnlyRequests, Writing;
    ObservationsOnlyClose(s.run, s.ready, obs);
    QuietWriting(s, s');
  }

  lemma StartPageWrites(model: Model, live: bool, s: S, h: Header, obs: seq<Observation>, mid: S, ok: bool, s': S)
    returns (asked: seq<Sent>, cmds: seq<Cmd>, sent: bool)
    requires Inv(model, live, s) && StartPageStep(model, live, s, h, obs, mid, ok, s')
    ensures Writing(s, s', asked, cmds, sent)
  {
    hide Inv, OnlyRequests, Sends, Setup, PublishAll, Clean, PageTape, MarginsInWindow, Opening, Encode, NoRequests,
         Feed;
    asked, cmds, sent := s'.wire, [], true;
    if !ok && Refused(s, s') {
      SameWire(s, s');
    } else if !ok && GaveUp(live, s, h, obs, mid, s') {
      ObservingIsQuiet(live, s, mid, obs);
    } else {
      QuietWire(s.wire);
      if s.batch.value.tape != PageTape(h) {
        ObservingIsQuiet(live, s, mid, obs);
      }
      if model == PT2730 {
        var b := mid.batch.value;
        var continued := ContinuedFrom(b, mid.run);
        asked, cmds, sent := mid.wire, Feed(b.pending) + Setup(PT2730, continued, b.policy, b.tape, b.first, 0), ok;
        SetupOpens(PT2730, continued, b.policy, b.tape, 0);
        PagesAskNothing(PT2730, continued, b, 0, Label([]));
        if s.run != Uncertain {
          CertainIsFirst(model, live, s);
          NothingToFeed(b.pending);
        }
      } else {
        SendsNothing(s'.wire);
        EndsAskNothing(s.ready, s.batch.value.policy);
      }
    }
  }

  lemma NothingToFeed(pending: bool)
    ensures !pending ==> Feed(pending) == []
  {}

  lemma EndPageWrites(model: Model, live: bool, s: S, ok: bool, s': S)
    returns (asked: seq<Sent>, cmds: seq<Cmd>, sent: bool)
    requires Inv(model, live, s) && EndPageStep(model, s, ok, s')
    ensures Writing(s, s', asked, cmds, sent)
  {
    hide Inv, OnlyRequests, Sends, Setup, Transmitted, Rows, Opening, Encode, NoRequests, Feed;
    asked, cmds, sent := s.wire, [], true;
    QuietWire(s.wire);
    if !ok && Refused(s, s') {
      SameWire(s, s');
    } else {
      var b := s.batch.value;
      if s.run != Uncertain {
        CertainIsFirst(model, live, s);
      }
      if model == PT2730 {
        SameWire(s, s');
      } else {
        var continued := ContinuedFrom(b, s.run);
        var page := Label(Transmitted(P710BT, b.raster));
        cmds, sent := Feed(b.pending) + Page(P710BT, continued, b.policy, b.tape, b.first, page), ok;
        SetupOpens(P710BT, continued, b.policy, b.tape, |page.rows| % 0x1_0000_0000);
        PagesAskNothing(P710BT, continued, b, 0, page);
        NothingToFeed(b.pending);
      }
    }
  }

  lemma CutWrites(model: Model, live: bool, s: S, obs: seq<Observation>, mid: S, ok: bool, s': S)
    returns (asked: seq<Sent>, cmds: seq<Cmd>, sent: bool)
    requires CutStep(model, live, s, obs, mid, ok, s')
    ensures Writing(s, s', asked, cmds, sent)
  {
    hide OnlyRequests, Sends, PublishAll, Clean;
    QuietWire(s.wire);
    if s.run == Open && live {
      ObservingIsQuiet(live, s, mid, obs);
    }
    SendsNothing(s'.wire);
    if mid.run == Uncertain || (obs != [] && !Clean(obs[0])) || mid.run != Open {
      asked, cmds, sent := s'.wire, [], true;
    } else {
      asked, cmds, sent := mid.wire, BlankContinuation(mid.ready), ok;
      EndsAskNothing(mid.ready, Policy(false, false));
    }
  }

  lemma StepWrites(model: Model, live: bool, s: S, e: Event, s': S)
    returns (asked: seq<Sent>, cmds: seq<Cmd>, sent: bool)
    requires Inv(model, live, s) && Step(model, live, s, e, s')
    ensures Writing(s, s', asked, cmds, sent)
  {
    hide Inv, OnlyRequests, Sends, PublishAll, Clean, StartPageStep, EndPageStep, CutStep, RowOf, WidthMatches,
         Encode, Opening, Final;
    asked, cmds, sent := s'.wire, [], true;
    match e
    case StartPage(h, obs, mid, ok) => asked, cmds, sent := StartPageWrites(model, live, s, h, obs, mid, ok, s');
    case EndPage(ok) => asked, cmds, sent := EndPageWrites(model, live, s, ok, s');
    case CutHeld(obs, mid, ok) => asked, cmds, sent := CutWrites(model, live, s, obs, mid, ok, s');
    case StartJob(_, _, obs, _) =>
      if s.run == Uncertain {
        SameWire(s, s');
      } else {
        ObservingIsQuiet(live, s, s', obs);
      }
    case Observe(obs) =>
      if s.run == Uncertain {
        SameWire(s, s');
      } else {
        ObservingIsQuiet(live, s, s', obs);
      }
    case Unplugged => SameWire(s, s');
    case WriteLine(h, y, line, ok) =>
      if (!ok && Refused(s, s')) || model == P710BT {
        SameWire(s, s');
      } else {
        UncertainWhileActive(live, s);
        QuietWire(s.wire);
        asked, cmds, sent := s.wire, [RawRow(RowOf(s.batch.value, h, line))], ok;
      }
    case EndJob(closing, ok) =>
      if !closing {
        SameWire(s, s');
      } else {
        UncertainWhilePending(model, live, s);
        QuietWire(s.wire);
        asked, cmds, sent := s.wire, Final(s.batch.value.policy), ok;
        EndsAskNothing(s.ready, s.batch.value.policy);
      }
  }

  lemma UncertainWhileActive(live: bool, s: S)
    requires Inv(PT2730, live, s) && s.batch.Some? && !s.batch.value.failed && s.batch.value.active
    ensures s.run == Uncertain
  {
    if s.run != Uncertain {
      CertainIsFirst(PT2730, live, s);
    }
  }

  lemma UncertainWhilePending(model: Model, live: bool, s: S)
    requires Inv(model, live, s) && s.batch.Some? && !s.batch.value.failed && s.batch.value.pending
    ensures s.run == Uncertain
  {
    if s.run != Uncertain {
      CertainIsFirst(model, live, s);
    }
  }

  // ---------- What every wire looks like ----------

  /** Whole commands, of which `out` is the page output. */
  ghost predicate Unbroken(bytes: seq<byte>, out: seq<byte>) {
    exists cs :: bytes == Serialize(cs) && out == Serialize(Strip(cs))
  }

  predicate CutOffAt(bytes: seq<byte>, out: seq<byte>, cs: seq<Cmd>, cmds: seq<Cmd>, x: seq<byte>) {
    NoRequests(cmds) && x <= Serialize(cmds) && bytes == Serialize(cs) + x && out == Serialize(Strip(cs)) + x
  }

  /** Whole commands, and then page output that broke off. */
  ghost predicate CutOff(bytes: seq<byte>, out: seq<byte>) {
    exists cs, cmds, x :: CutOffAt(bytes, out, cs, cmds, x)
  }

  /** Part of a status request. */
  predicate Torn(t: seq<byte>) {
    t <= Encode(StatusRequest) && 0 < |t| < 3
  }

  /** Whole commands, and then a request that broke off. */
  ghost predicate Dangling(bytes: seq<byte>, out: seq<byte>, t: seq<byte>) {
    Torn(t) && exists cs :: bytes == Serialize(cs) + t && out == Serialize(Strip(cs))
  }

  predicate GarbageAt(bytes: seq<byte>, out: seq<byte>, cs: seq<Cmd>, t: seq<byte>) {
    && Torn(t) && Serialize(cs) + t < bytes && Opening(bytes[|Serialize(cs) + t|])
    && Serialize(Strip(cs)) <= out
  }

  /** Something that opens a record or asks for status, in the middle of a request. */
  ghost predicate Garbage(bytes: seq<byte>, out: seq<byte>) {
    exists cs, t :: GarbageAt(bytes, out, cs, t)
  }

  ghost predicate Looks(wire: seq<Sent>) {
    match Scan(wire)
    case Sound => Unbroken(AllBytes(wire), OutputOf(wire))
    case Cut(t) => Dangling(AllBytes(wire), OutputOf(wire), t)
    case Garbled => Garbage(AllBytes(wire), OutputOf(wire))
  }

  lemma GarbageGrows(bytes: seq<byte>, out: seq<byte>, more: seq<byte>, x: seq<byte>)
    requires Garbage(bytes, out)
    ensures Garbage(bytes + more, out + x)
  {
    hide Serialize, Strip, Torn, Opening;
    var cs, t :| GarbageAt(bytes, out, cs, t);
    PrefixTrans(Serialize(cs) + t, bytes, bytes + more);
    PrefixTrans(Serialize(Strip(cs)), out, out + x);
    assert GarbageAt(bytes + more, out + x, cs, t);
  }

  /** A cut request and then an opening byte. */
  lemma DanglingThenMore(bytes: seq<byte>, out: seq<byte>, t: seq<byte>, more: seq<byte>, x: seq<byte>)
    requires Dangling(bytes, out, t) && more != [] && Opening(more[0])
    ensures Garbage(bytes + more, out + x)
  {
    hide Serialize, Strip, Torn, Opening;
    var cs :| bytes == Serialize(cs) + t && out == Serialize(Strip(cs));
    assert GarbageAt(bytes + more, out + x, cs, t);
  }

  lemma UnbrokenThenRequest(bytes: seq<byte>, out: seq<byte>)
    requires Unbroken(bytes, out)
    ensures Unbroken(bytes + Encode(StatusRequest), out)
  {
    hide Serialize, Encode, Strip;
    var cs :| bytes == Serialize(cs) && out == Serialize(Strip(cs));
    SerializeSum(cs, [StatusRequest]);
    SerializeOne(StatusRequest);
    StripRequest(cs);
    assert bytes + Encode(StatusRequest) == Serialize(cs + [StatusRequest]);
  }

  lemma UnbrokenThenTorn(bytes: seq<byte>, out: seq<byte>, t: seq<byte>)
    requires Unbroken(bytes, out) && Torn(t)
    ensures Dangling(bytes + t, out, t)
  {
    hide Serialize, Strip, Torn;
    var cs :| bytes == Serialize(cs) && out == Serialize(Strip(cs));
    assert bytes + t == Serialize(cs) + t;
  }

  lemma {:induction false} RequestsLook(a: seq<Sent>, b: seq<Sent>)
    requires Looks(a) && OnlyRequests(a, b)
    ensures Looks(b)
    decreases |b|
  {
    hide Unbroken, Dangling, Garbage, Encode, AllBytes, OutputOf, Opening;
    if |b| > |a| {
      var before, x := b[..|b| - 1], b[|b| - 1];
      assert a <= before;
      RequestsLook(a, before);
      OneMoreRequest(b);
      var bytes, out := AllBytes(before), OutputOf(before);
      assert bytes + [] == bytes && out + [] == out;
      RequestIsOpening();
      if x.bytes != [] {
        match Scan(before)
        case Sound =>
          UnbrokenThenRequest(bytes, out);
          assert |x.bytes| >= 3 ==> x.bytes == Encode(StatusRequest);
          if |x.bytes| < 3 {
            UnbrokenThenTorn(bytes, out, x.bytes);
          }
        case Cut(t) => DanglingThenMore(bytes, out, t, x.bytes, []);
        case Garbled => GarbageGrows(bytes, out, x.bytes, []);
      }
    } else {
      assert a == b;
    }
  }

  lemma OneMoreRequest(wire: seq<Sent>)
    requires wire != [] && wire[|wire| - 1].Request?
    ensures AllBytes(wire) == AllBytes(wire[..|wire| - 1]) + wire[|wire| - 1].bytes
    ensures OutputOf(wire) == OutputOf(wire[..|wire| - 1])
  {}

  lemma RequestIsOpening()
    ensures |Encode(StatusRequest)| == 3 && Opening(Encode(StatusRequest)[0])
  {}

  /** The bytes some outputs add. */
  lemma {:induction false} OutputAdds(a: seq<Sent>, b: seq<Sent>) returns (x: seq<byte>)
    requires OnlyOutput(a, b)
    ensures AllBytes(b) == AllBytes(a) + x && OutputOf(b) == OutputOf(a) + x
    ensures Scan(b) == if x == [] then Scan(a) else if Scan(a) == Sound then Sound else Garbled
    decreases |b|
  {
    if |b| > |a| {
      var before, last := b[..|b| - 1], b[|b| - 1];
      assert a <= before;
      var y := OutputAdds(a, before);
      x := y + last.bytes;
      assert AllBytes(a) + y + last.bytes == AllBytes(a) + x;
      assert OutputOf(a) + y + last.bytes == OutputOf(a) + x;
    } else {
      assert a == b;
      x := [];
      assert AllBytes(a) + [] == AllBytes(a) && OutputOf(a) + [] == OutputOf(a);
    }
  }

  lemma UnbrokenThenCommands(bytes: seq<byte>, out: seq<byte>, cmds: seq<Cmd>, x: seq<byte>)
    requires Unbroken(bytes, out) && NoRequests(cmds) && x <= Serialize(cmds)
    ensures CutOff(bytes + x, out + x) && (x == Serialize(cmds) ==> Unbroken(bytes + x, out + x))
  {
    hide Serialize, Strip, NoRequests;
    var cs :| bytes == Serialize(cs) && out == Serialize(Strip(cs));
    SerializeSum(cs, cmds);
    StripSum(cs, cmds);
    StripNothing(cmds);
    SerializeSum(Strip(cs), cmds);
    assert CutOffAt(bytes + x, out + x, cs, cmds, x);
  }

  lemma FirstByteSent(cmds: seq<Cmd>, x: seq<byte>)
    requires x != [] && x <= Serialize(cmds)
    ensures cmds != [] && x[0] == Encode(cmds[0])[0]
  {
    hide Serialize, Encode;
    if cmds == [] {
      SerializeNothing();
      assert false;
    } else {
      assert cmds == [cmds[0]] + cmds[1..];
      SerializeCons(cmds[0], cmds[1..]);
      assert x[0] == Serialize(cmds)[0];
    }
  }

  /** The state of a wire, given whether its run can still go on. */
  ghost predicate Known(s: S) {
    var bytes := AllBytes(s.wire);
    match Scan(s.wire)
    case Sound => if Stuck(s) then CutOff(bytes, s.Out()) else Unbroken(bytes, s.Out())
    case Cut(t) => (s.run != Uncertain || Stuck(s)) && Dangling(bytes, s.Out(), t)
    case Garbled => Garbage(bytes, s.Out())
  }

  lemma WritesKnown(s: S, s': S, asked: seq<Sent>, cmds: seq<Cmd>, ok: bool)
    requires !Stuck(s) && Known(s) && Writing(s, s', asked, cmds, ok)
    ensures Known(s')
  {
    hide Unbroken, CutOff, Dangling, Garbage, Encode, Serialize, Opening, NoRequests, AllBytes, OutputOf;
    RequestsLook(s.wire, asked);
    var x := OutputAdds(asked, s'.wire);
    SentBytes(asked, s'.wire, cmds, ok, x);
    var bytes, out := AllBytes(asked), OutputOf(asked);
    assert bytes + [] == bytes && out + [] == out;
    if Scan(asked) == Sound {
      UnbrokenThenCommands(bytes, out, cmds, x);
    } else if x != [] {
      FirstByteSent(cmds, x);
      if Scan(asked).Cut? {
        DanglingThenMore(bytes, out, Scan(asked).t, x, x);
      } else {
        GarbageGrows(bytes, out, x, x);
      }
    } else if ok && cmds != [] {
      SomeBytes(cmds);
    }
  }

  lemma SentBytes(a: seq<Sent>, b: seq<Sent>, cmds: seq<Cmd>, ok: bool, x: seq<byte>)
    requires Sends(a, b, cmds, ok) && OutputOf(b) == OutputOf(a) + x
    ensures x <= Serialize(cmds) && (ok ==> x == Serialize(cmds))
  {
    hide Serialize;
    assert x == OutputOf(b)[|OutputOf(a)|..];
    assert Serialize(cmds) == (OutputOf(a) + Serialize(cmds))[|OutputOf(a)|..];
  }

  lemma {:induction false} EveryWireKnown(model: Model, live: bool, states: seq<S>, events: seq<Event>, i: nat)
    requires IsRun(model, live, states, events) && i < |states|
    ensures Known(states[i])
  {
    hide Inv, Step, Writing;
    if i == 0 {
      NothingWritten();
    } else {
      var s, s' := states[i - 1], states[i];
      EveryWireKnown(model, live, states, events, i - 1);
      EveryStateKept(model, live, states, events, i - 1);
      assert Step(model, live, s, events[i - 1], states[i - 1 + 1]);
      if Stuck(s) {
        StuckStays(model, live, s, events[i - 1], s');
      } else {
        var asked, cmds, ok := StepWrites(model, live, s, events[i - 1], s');
        WritesKnown(s, s', asked, cmds, ok);
      }
    }
  }

  lemma NothingWritten()
    ensures Known(INITIAL)
  {
    var none: seq<Cmd> := [];
    assert AllBytes([]) == Serialize(none) && OutputOf([]) == Serialize(Strip(none));
  }

  // ---------- When the whole wire is a stream of commands ----------

  /** On every run, with any write failing after any prefix, everything on the wire is a stream of whole commands, the
      last perhaps cut short, if and only if nothing was written after a status request that was cut inside. */
  lemma WireIsCommandsUnlessTorn(model: Model, live: bool, states: seq<S>, events: seq<Event>, i: nat)
    requires IsRun(model, live, states, events) && i < |states|
    ensures Commands(AllBytes(states[i].wire)) <==> !WrittenAfterTorn(states[i].wire)
  {
    hide IsRun, Inv;
    var wire := states[i].wire;
    EveryWireKnown(model, live, states, events, i);
    ScanFindsTorn(wire);
    hide Scan, Encode, Serialize, WrittenAfterTorn, OutputOf;
    var bytes, out := AllBytes(wire), states[i].Out();
    match Scan(wire)
    case Sound =>
      if Stuck(states[i]) {
        CutOffIsCommands(bytes, out);
      } else {
        UnbrokenIsReceived(bytes, out);
        var cs :| Received(bytes, cs) && Serialize(Strip(cs)) == out;
        ReceivedIsCommands(bytes, cs);
      }
    case Cut(t) =>
      DanglingIsReceived(bytes, out, t);
      var cs :| Received(bytes, cs) && Serialize(Strip(cs)) == out;
      ReceivedIsCommands(bytes, cs);
    case Garbled => GarbageIsNoCommands(bytes, out);
  }

  lemma CutOffIsCommands(bytes: seq<byte>, out: seq<byte>)
    requires CutOff(bytes, out)
    ensures Commands(bytes)
  {
    hide Serialize, Strip, NoRequests;
    var cs, cmds, x :| CutOffAt(bytes, out, cs, cmds, x);
    SerializeSum(cs, cmds);
    assert bytes <= Serialize(cs + cmds);
  }

  lemma UnbrokenIsReceived(bytes: seq<byte>, out: seq<byte>)
    requires Unbroken(bytes, out)
    ensures exists cs :: Received(bytes, cs) && Serialize(Strip(cs)) == out
  {
    hide Serialize, Encode, Strip;
    var cs :| bytes == Serialize(cs) && out == Serialize(Strip(cs));
    AndABeginning(cs, []);
    assert Serialize(cs) + [] == bytes;
    assert Received(bytes, cs);
  }

  lemma DanglingIsReceived(bytes: seq<byte>, out: seq<byte>, t: seq<byte>)
    requires Dangling(bytes, out, t)
    ensures exists cs :: Received(bytes, cs) && Serialize(Strip(cs)) == out
  {
    hide Serialize, Encode, Strip;
    var cs :| bytes == Serialize(cs) + t && out == Serialize(Strip(cs));
    AndABeginning(cs, t);
    assert Received(bytes, cs);
  }

  /** Less than a request behind whole commands. */
  lemma AndABeginning(cs: seq<Cmd>, t: seq<byte>)
    requires t <= Encode(StatusRequest) && |t| < 3
    ensures Serialize(cs) + t < Serialize(cs + [StatusRequest])
  {
    hide Serialize, Encode;
    RequestIsOpening();
    SerializeSum(cs, [StatusRequest]);
    SerializeOne(StatusRequest);
  }

  /** Behind a cut request and an opening byte nothing reads as a command. */
  lemma NothingReceivedPast(bytes: seq<byte>, out: seq<byte>, cs: seq<Cmd>, t: seq<byte>, got: seq<Cmd>)
    requires GarbageAt(bytes, out, cs, t)
    ensures !(bytes <= Serialize(got))
  {
    hide Serialize, Encode, Strip;
    var rest := bytes[|Serialize(cs)|..];
    assert bytes == Serialize(cs) + rest;
    assert rest == t + [rest[|t|]] + rest[|t| + 1..];
    TornIsGarbage(t, rest[|t|], rest[|t| + 1..]);
    if bytes <= Serialize(got) {
      AfterWhole(cs, rest);
    }
  }

  lemma GarbageIsNoCommands(bytes: seq<byte>, out: seq<byte>)
    requires Garbage(bytes, out)
    ensures !Commands(bytes)
  {
    hide Serialize;
    var cs, t :| GarbageAt(bytes, out, cs, t);
    if Commands(bytes) {
      var got :| bytes <= Serialize(got);
      NothingReceivedPast(bytes, out, cs, t, got);
    }
  }

  // ---------- What the printer makes of the whole wire ----------

  /** Whatever whole commands stand at the front of the wire, their page output has all been sent as page output. */
  lemma ReceivedWasSent(s: S, got: seq<Cmd>)
    requires Known(s) && Serialize(got) <= AllBytes(s.wire)
    ensures Serialize(Strip(got)) <= s.Out()
  {
    hide Scan, Serialize, Strip, AllBytes, OutputOf, NoRequests;
    var bytes, out := AllBytes(s.wire), s.Out();
    match Scan(s.wire)
    case Sound =>
      if Stuck(s) {
        var cs, cmds, x :| CutOffAt(bytes, out, cs, cmds, x);
        SentUpTo(bytes, out, cs, cmds, x, got);
      } else {
        var cs :| bytes == Serialize(cs) && out == Serialize(Strip(cs));
        BytesSayCommands(got, cs);
        StripPrefix(got, cs);
      }
    case Cut(t) =>
      var cs :| bytes == Serialize(cs) + t && out == Serialize(Strip(cs));
      AndABeginning(cs, t);
      PrefixTrans(Serialize(got), bytes, Serialize(cs + [StatusRequest]));
      BytesSayCommands(got, cs + [StatusRequest]);
      StripPrefix(got, cs + [StatusRequest]);
      StripRequest(cs);
    case Garbled =>
      var cs, t :| GarbageAt(bytes, out, cs, t);
      SentBeforeGarbage(bytes, out, cs, t, got);
  }

  lemma SentUpTo(bytes: seq<byte>, out: seq<byte>, cs: seq<Cmd>, cmds: seq<Cmd>, x: seq<byte>, got: seq<Cmd>)
    requires CutOffAt(bytes, out, cs, cmds, x) && Serialize(got) <= bytes
    ensures Serialize(Strip(got)) <= out
  {
    hide Serialize, Strip;
    SerializeSum(cs, cmds);
    assert bytes <= Serialize(cs + cmds);
    PrefixTrans(Serialize(got), bytes, Serialize(cs + cmds));
    BytesSayCommands(got, cs + cmds);
    if |got| <= |cs| {
      assert got <= cs;
      StripPrefix(got, cs);
      PrefixTrans(Serialize(Strip(got)), Serialize(Strip(cs)), out);
    } else {
      var more := cmds[..|got| - |cs|];
      assert got == cs + more;
      SerializeSum(cs, more);
      assert Serialize(more) == Serialize(got)[|Serialize(cs)|..] <= x;
      StripSum(cs, more);
      StripNothing(more);
      SerializeSum(Strip(cs), more);
    }
  }

  lemma SentBeforeGarbage(bytes: seq<byte>, out: seq<byte>, cs: seq<Cmd>, t: seq<byte>, got: seq<Cmd>)
    requires GarbageAt(bytes, out, cs, t) && Serialize(got) <= bytes
    ensures Serialize(Strip(got)) <= out
  {
    hide Serialize, Strip, Encode;
    PrefixTrans(Serialize(cs), Serialize(cs) + t, bytes);
    OneOrder(got, cs, bytes);
    if cs < got {
      AndABeginning(cs, t);
      if |Serialize(got)| <= |Serialize(cs) + t| {
        PrefixTrans(Serialize(got), Serialize(cs) + t, Serialize(cs + [StatusRequest]));
        BytesSayCommands(got, cs + [StatusRequest]);
        OneMore(cs, got, StatusRequest);
      } else {
        var part := Serialize(got);
        assert GarbageAt(part, out, cs, t) by {
          assert Serialize(cs) + t < part && part[|Serialize(cs) + t|] == bytes[|Serialize(cs) + t|];
        }
        NothingReceivedPast(part, out, cs, t, got);
      }
    }
    StripPrefix(got, cs);
    PrefixTrans(Serialize(Strip(got)), Serialize(Strip(cs)), out);
  }

  /** In a certain state the printer has received exactly the streams of the finished records, but for requests. */
  lemma CertainIsReceived(model: Model, live: bool, states: seq<S>, events: seq<Event>, i: nat)
    requires IsRun(model, live, states, events) && i < |states| && states[i].run != Uncertain
    ensures var bytes := AllBytes(states[i].wire);
      && (!WrittenAfterTorn(states[i].wire) <==> exists cs :: Received(bytes, cs))
      && forall cs :: Received(bytes, cs) ==> Strip(cs) == Streams(model, states[i].done)
  {
    hide IsRun, Serialize, Streams, Strip, Accepted, RunTape, AskedAll, Whole, SameWorks, OutputOf, WrittenAfterTorn,
         Received, Unbroken, Dangling, Garbage;
    var s := states[i];
    var bytes, all := AllBytes(s.wire), Streams(model, s.done);
    OutputAsAsked(model, live, states, events, i);
    EveryWireKnown(model, live, states, events, i);
    WireIsCommandsUnlessTorn(model, live, states, events, i);
    ScanFindsTorn(s.wire);
    hide Scan;
    if Scan(s.wire) == Sound {
      UnbrokenIsReceived(bytes, s.Out());
    } else if Scan(s.wire).Cut? {
      DanglingIsReceived(bytes, s.Out(), Scan(s.wire).t);
    }
    forall cs | Received(bytes, cs) ensures Strip(cs) == all && !WrittenAfterTorn(s.wire) {
      ReceivedIsCommands(bytes, cs);
      var known :| Received(bytes, known) && Serialize(Strip(known)) == s.Out();
      ReceivedOnce(bytes, cs, known);
      BytesSayCommands(Strip(cs), all);
      BytesSayCommands(all, Strip(cs));
    }
  }

  /** Whenever output is certain, the printer has received one list of whole commands, unless something was written
      after a request that was cut inside. Run on a bare tape, requests and all, the list shows exactly the strips that
      the finished requests asked for, every page of every request once and in order; without its requests it is an
      accepted capture. */
  lemma PrintedAsAsked(model: Model, live: bool, states: seq<S>, events: seq<Event>, i: nat)
    requires IsRun(model, live, states, events) && i < |states| && states[i].run != Uncertain
    ensures !WrittenAfterTorn(states[i].wire) <==> exists cs :: Received(AllBytes(states[i].wire), cs)
    ensures forall k :: 0 <= k < |states[i].done| ==> Whole(states[i].done[k])
    ensures forall cs :: Received(AllBytes(states[i].wire), cs) ==>
      && RunTape(BARE, cs).shown == AskedAll(states[i].done)
      && Accepted(Serialize(Strip(cs)), model, WIDTHS).Some?
    ensures AskedAll(states[i].done).Printed() == LabelsOf(states[i].done)
    ensures SameWorks(model, live, states[i].done, SeeAll(events[..i]).finished)
  {
    hide IsRun, SeeAll, SameWorks, Streams, Serialize, Strip, Accepted, OutputOf, RunTape, AskedAll, LabelsOf, Received,
         WrittenAfterTorn, AllBytes;
    CertainIsReceived(model, live, states, events, i);
    OutputAsAsked(model, live, states, events, i);
    forall cs | Received(AllBytes(states[i].wire), cs)
      ensures RunTape(BARE, cs).shown == AskedAll(states[i].done)
      ensures Accepted(Serialize(Strip(cs)), model, WIDTHS).Some?
    {
      RequestsPrintNothing(BARE, cs);
    }
  }

  /** A run state that counts as certain says what the commands the printer has received left held. */
  lemma RunSaysWhatIsHeld(model: Model, live: bool, states: seq<S>, events: seq<Event>, i: nat, cs: seq<Cmd>)
    requires IsRun(model, live, states, events) && i < |states| && states[i].run != Uncertain
    requires Received(AllBytes(states[i].wire), cs)
    ensures var held := RunTape(BARE, cs).shown.held;
      && (states[i].run == OpenBlank ==> held == [Label([BLANK])])
      && (states[i].run == Open ==> HoldsItsEnd(states[i].done, held))
      && (!live ==> (states[i].run == Closed <==> held == []))
  {
    hide IsRun, Serialize, Strip, OutputOf, RunTape, AskedAll, Received, AllBytes, Whole, HoldsItsEnd, SeeAll,
         SameWorks, Accepted;
    PrintedAsAsked(model, live, states, events, i);
    RunMatchesHistory(model, live, states, events, i);
  }

  /** Whatever whole commands have reached the printer on any run, requests included and whatever followed them, the
      labels they print are the client's own pages in order, each at most once: those of the finished requests, then
      those of the one under way. */
  lemma NothingPrintedTwice(model: Model, live: bool, states: seq<S>, events: seq<Event>, i: nat, got: seq<Cmd>)
    returns (recs: seq<Rec>)
    requires IsRun(model, live, states, events) && i < |states| && Serialize(got) <= AllBytes(states[i].wire)
    ensures states[i].done <= recs && |recs| <= |states[i].done| + 1
    ensures SameWorks(model, live, states[i].done, SeeAll(events[..i]).finished)
    ensures |recs| > |states[i].done| ==> Belongs(model, live, recs[|states[i].done|], SeeAll(events[..i]))
    ensures RunTape(BARE, got).shown.Printed() <= LabelsOf(recs)
  {
    hide IsRun, SeeAll, Belongs, SameWorks, History, StreamOf, Streams, Serialize, Accepted, OutputOf, RunTape,
         LabelsOf, AskedAll, Strip, AllBytes, Known;
    EveryWireKnown(model, live, states, events, i);
    ReceivedWasSent(states[i], got);
    recs := OutputIsPrefixOfCapture(model, live, states, events, i);
    HistoryIsOutput(model, live, recs);
    PrefixTrans(Serialize(Strip(got)), states[i].Out(), Serialize(Streams(model, recs)));
    BytesSayCommands(Strip(got), Streams(model, recs));
    PrefixPrintsPrefix(BARE, Strip(got), Streams(model, recs));
    RequestsPrintNothing(BARE, got);
    TapeShowsWhatWasAsked(model, recs);
    AskedKeepsEveryLabel(recs);
  }

  // ---------- One callback after another ----------

  predicate TornExchange(x: Exchange) {
    x.asking.Some? && 0 < |x.asking.value.bytes| < 3
  }

  /** One of the callback's own requests was cut inside. */
  predicate Tears(e: Event) {
    exists k :: 0 <= k < |ObsOf(e)| && TornExchange(ObsOf(e)[k].exchange)
  }

  lemma HeardIsNotTorn(x: Exchange)
    requires x.Proper() && x.Outcome().n >= 0
    ensures !TornExchange(x)
  {
    hide Reported;
    RequestIsOpening();
  }

  /** Of a callback's requests only the last can be cut inside. */
  lemma {:induction false} RequestsTear(obs: seq<Observation>)
    requires Exchanges(obs)
    ensures forall k :: 0 <= k < |RequestsIn(obs)| && TornAt(RequestsIn(obs), k) ==> k == |RequestsIn(obs)| - 1
    ensures SomeTorn(RequestsIn(obs)) <==> obs != [] && TornExchange(obs[|obs| - 1].exchange)
    ensures SomeTorn(RequestsIn(obs)) <==> exists k :: 0 <= k < |obs| && TornExchange(obs[k].exchange)
  {
    hide Exchange.Outcome, Exchange.Proper;
    forall k | 0 <= k < |obs| - 1 ensures !TornExchange(obs[k].exchange) {
      HeardIsNotTorn(obs[k].exchange);
    }
    if obs != [] {
      var n := |obs| - 1;
      var before := RequestsIn(obs[..n]);
      RequestsTear(obs[..n]);
      assert !SomeTorn(before);
      assert forall k :: 0 <= k < |before| ==> RequestsIn(obs)[k] == before[k] && !TornAt(before, k);
      if TornExchange(obs[n].exchange) {
        assert TornAt(RequestsIn(obs), |before|);
      }
    }
  }

  /** Adding writes that leave no part of a request keeps the scan, unless it had already found one. */
  lemma {:induction false} ScanGrows(a: seq<Sent>, b: seq<Sent>)
    requires a <= b
    ensures AllBytes(a) <= AllBytes(b)
    ensures AllBytes(a) == AllBytes(b) ==> Scan(a) == Scan(b)
    ensures AllBytes(a) != AllBytes(b) && Scan(a) != Sound ==> Scan(b) == Garbled
    decreases |b|
  {
    if |b| > |a| {
      var before, last := b[..|b| - 1], b[|b| - 1].bytes;
      assert a <= before;
      ScanGrows(a, before);
      assert AllBytes(before) <= AllBytes(b);
      PrefixTrans(AllBytes(a), AllBytes(before), AllBytes(b));
      assert AllBytes(a) == AllBytes(b) ==> |last| == 0;
    } else {
      assert a == b;
    }
  }

  /** A sound wire, some requests of which only the last may be cut, and then output only if none is. */
  lemma SoundThenCallback(a: seq<Sent>, asked: seq<Sent>, b: seq<Sent>, obs: seq<Observation>)
    requires Exchanges(obs) && asked == a + RequestsIn(obs) && OnlyOutput(asked, b) && !SomeTorn(a)
    requires asked != b && obs != [] ==> Clean(obs[|obs| - 1])
    ensures !WrittenAfterTorn(b)
    ensures SomeTorn(b) <==> exists k :: 0 <= k < |obs| && TornExchange(obs[k].exchange)
  {
    hide RequestsIn, Exchanges, Clean, TornExchange;
    RequestsTear(obs);
    var more := RequestsIn(obs);
    forall k | 0 <= k < |b| && TornAt(b, k) ensures |a| <= k < |asked| && TornAt(more, k - |a|) {
      NotTornBefore(a, b, k);
    }
    if SomeTorn(more) {
      var k :| 0 <= k < |more| && TornAt(more, k);
      assert TornAt(b, |a| + k);
      if asked != b {
        CleanIsNotTorn(obs);
      }
    }
  }

  lemma NotTornBefore(a: seq<Sent>, b: seq<Sent>, k: nat)
    requires a <= b && !SomeTorn(a) && k < |b| && TornAt(b, k)
    ensures k >= |a|
  {
    assert k < |a| ==> TornAt(a, k);
  }

  lemma CleanIsNotTorn(obs: seq<Observation>)
    requires Exchanges(obs) && obs != [] && Clean(obs[|obs| - 1])
    ensures !TornExchange(obs[|obs| - 1].exchange)
  {
    var x := obs[|obs| - 1].exchange;
    assert x.Outcome().n == 32;
    HeardIsNotTorn(x);
  }

  /** What can be told before and after each single callback. While no request on the wire is cut inside, a callback,
      whatever happens in it, leaves a stream of commands, and its requests are the only ones it can leave cut. Once one
      is cut, the wire stays a stream of commands only as long as nothing more is written; after that it never is. */
  lemma CallbackOnWire(model: Model, live: bool, states: seq<S>, events: seq<Event>, i: nat)
    requires IsRun(model, live, states, events) && i < |events|
    ensures var before, after := states[i].wire, states[i + 1].wire;
      && (!SomeTorn(before) ==> Commands(AllBytes(after)) && (SomeTorn(after) <==> Tears(events[i])))
      && (SomeTorn(before) && Commands(AllBytes(before)) ==>
            (Commands(AllBytes(after)) <==> AllBytes(after) == AllBytes(before)))
      && (!Commands(AllBytes(before)) ==> !Commands(AllBytes(after)))
  {
    hide Inv, Step, Commands, Exchanges, Clean, RequestsIn, TornExchange;
    var before, after := states[i].wire, states[i + 1].wire;
    WireIsCommandsUnlessTorn(model, live, states, events, i);
    WireIsCommandsUnlessTorn(model, live, states, events, i + 1);
    EveryStateKept(model, live, states, events, i);
    assert Step(model, live, states[i], events[i], states[i + 1]);
    var asked := RequestsThenOutput(model, live, states[i], events[i], states[i + 1]);
    if !SomeTorn(before) {
      SoundThenCallback(before, asked, after, ObsOf(events[i]));
    } else {
      PrefixTrans(before, asked, after);
      ScanFindsTorn(before);
      ScanFindsTorn(after);
      ScanFindsSomeTorn(before);
      ScanGrows(before, after);
    }
  }
}
