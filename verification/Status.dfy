/** The 32-byte status packets of `src/status.c`, and what a stream of them means to the driver. */
module Status {
  import opened Bytes

  datatype Snapshot = Snapshot(tapeMm: byte, error: u16)

  /** A packet is a status block only under its two header bytes. */
  function ParseStatus(packet: seq<byte>): Option<Snapshot>
    requires |packet| == 32
  {
    if packet[0] != 0x80 || packet[1] != 0x20 then None
    else
      var low: int, high: int := packet[8], packet[9];
      Some(Snapshot(packet[10], low + 256 * high))
  }

  /** The first aligned packet of a byte stream that is a reply (type 0) rather than a notification. */
  function FirstReply(stream: seq<byte>): (r: Option<seq<byte>>)
    ensures r.Some? ==> |r.value| == 32
    decreases |stream|
  {
    if |stream| < 32 then None
    else if stream[18] == 0 then Some(stream[..32])
    else FirstReply(stream[32..])
  }

  datatype Verdict = Pending | Ready | Faulty

  /** What one whole packet says while a page is being printed. */
  function PacketVerdict(packet: seq<byte>): Verdict
    requires |packet| == 32
  {
    var status := ParseStatus(packet);
    if status.None? || status.value.error != 0 then Faulty
    else if packet[18] == 6 && packet[19] == 0 && packet[20] == 0 && packet[21] == 0 then Ready
    else Pending
  }

  /** The first packet of a stream that decides whether the printer is ready. */
  function StreamVerdict(stream: seq<byte>): Verdict
    decreases |stream|
  {
    if |stream| < 32 then Pending
    else if PacketVerdict(stream[..32]) != Pending then PacketVerdict(stream[..32])
    else StreamVerdict(stream[32..])
  }

  /** Later bytes never change a decision, so it depends on the stream and not on how reads cut it up. */
  lemma {:induction false} VerdictStable(a: seq<byte>, b: seq<byte>)
    requires StreamVerdict(a) != Pending
    ensures StreamVerdict(a + b) == StreamVerdict(a)
    decreases |a|
  {
    assert (a + b)[..32] == a[..32];
    if PacketVerdict(a[..32]) == Pending {
      assert (a + b)[32..] == a[32..] + b;
      VerdictStable(a[32..], b);
    }
  }

  lemma {:induction false} ReplyStable(a: seq<byte>, b: seq<byte>)
    requires FirstReply(a).Some?
    ensures FirstReply(a + b) == FirstReply(a)
    decreases |a|
  {
    assert (a + b)[..32] == a[..32] && (a + b)[18] == a[18];
    if a[18] != 0 {
      assert (a + b)[32..] == a[32..] + b;
      ReplyStable(a[32..], b);
    }
  }

  /** Two exchanges that both decide on prefixes of one stream decide the same. */
  lemma SameStreamSameVerdict(a: seq<byte>, b: seq<byte>, stream: seq<byte>)
    requires a <= stream && b <= stream
    requires StreamVerdict(a) != Pending && StreamVerdict(b) != Pending
    ensures StreamVerdict(a) == StreamVerdict(b) == StreamVerdict(stream)
  {
    VerdictStable(a, stream[|a|..]);
    VerdictStable(b, stream[|b|..]);
    assert a + stream[|a|..] == stream && b + stream[|b|..] == stream;
  }

  lemma SameStreamSameReply(a: seq<byte>, b: seq<byte>, stream: seq<byte>)
    requires a <= stream && b <= stream
    requires FirstReply(a).Some? && FirstReply(b).Some?
    ensures FirstReply(a) == FirstReply(b) == FirstReply(stream)
  {
    ReplyStable(a, stream[|a|..]);
    ReplyStable(b, stream[|b|..]);
    assert a + stream[|a|..] == stream && b + stream[|b|..] == stream;
  }

  // ---------- Which bytes say so ----------

  /** Block `k` of a stream is a status block without an error. */
  predicate SoundAt(stream: seq<byte>, k: nat) {
    && 32 * k + 32 <= |stream| && stream[32 * k] == 0x80 && stream[32 * k + 1] == 0x20
    && stream[32 * k + 8] == 0 && stream[32 * k + 9] == 0
  }

  /** Block `k` is a phase change (type 6) to phase 0, receiving. */
  predicate ReceivingAt(stream: seq<byte>, k: nat) {
    && 32 * k + 32 <= |stream| && stream[32 * k + 18] == 6
    && stream[32 * k + 19] == 0 && stream[32 * k + 20] == 0 && stream[32 * k + 21] == 0
  }

  /** Every block before block `k` is sound, and none of them says receiving. */
  predicate BusyUntil(stream: seq<byte>, k: nat) {
    forall j :: 0 <= j < k ==> SoundAt(stream, j) && !ReceivingAt(stream, j)
  }

  /** After blocks that decide nothing comes one that is sound and says receiving. */
  ghost predicate SaysReady(stream: seq<byte>) {
    exists k: nat :: BusyUntil(stream, k) && SoundAt(stream, k) && ReceivingAt(stream, k)
  }

  /** After blocks that decide nothing comes one that is no status block, or has an error. */
  ghost predicate SaysFault(stream: seq<byte>) {
    exists k: nat :: BusyUntil(stream, k) && 32 * k + 32 <= |stream| && !SoundAt(stream, k)
  }

  lemma BlocksShift(stream: seq<byte>, k: nat)
    requires |stream| >= 32
    ensures SoundAt(stream, k + 1) == SoundAt(stream[32..], k)
    ensures ReceivingAt(stream, k + 1) == ReceivingAt(stream[32..], k)
  {}

  lemma BusyShifts(stream: seq<byte>, k: nat)
    requires |stream| >= 32 && SoundAt(stream, 0) && !ReceivingAt(stream, 0)
    ensures BusyUntil(stream, k + 1) == BusyUntil(stream[32..], k)
  {
    hide SoundAt, ReceivingAt;
    forall j: nat ensures SoundAt(stream, j + 1) == SoundAt(stream[32..], j)
      ensures ReceivingAt(stream, j + 1) == ReceivingAt(stream[32..], j)
    {
      BlocksShift(stream, j);
    }
    if BusyUntil(stream, k + 1) {
      forall j | 0 <= j < k ensures SoundAt(stream[32..], j) && !ReceivingAt(stream[32..], j) {
        assert SoundAt(stream, j + 1) && !ReceivingAt(stream, j + 1);
      }
    }
    if BusyUntil(stream[32..], k) {
      forall j | 0 <= j < k + 1 ensures SoundAt(stream, j) && !ReceivingAt(stream, j) {
        if j > 0 {
          assert SoundAt(stream[32..], j - 1) && !ReceivingAt(stream[32..], j - 1);
          BlocksShift(stream, j - 1);
        }
      }
    }
  }

  lemma FirstBlock(stream: seq<byte>)
    requires |stream| >= 32
    ensures PacketVerdict(stream[..32]) ==
      if !SoundAt(stream, 0) then Faulty else if ReceivingAt(stream, 0) then Ready else Pending
  {}

  /** When the first block decides nothing, the rest of the stream decides. */
  lemma RestSays(stream: seq<byte>)
    requires |stream| >= 32 && SoundAt(stream, 0) && !ReceivingAt(stream, 0)
    ensures SaysReady(stream) == SaysReady(stream[32..]) && SaysFault(stream) == SaysFault(stream[32..])
  {
    hide SoundAt, ReceivingAt, BusyUntil;
    var rest := stream[32..];
    forall k: nat
      ensures BusyUntil(stream, k + 1) == BusyUntil(rest, k) && SoundAt(stream, k + 1) == SoundAt(rest, k)
      ensures ReceivingAt(stream, k + 1) == ReceivingAt(rest, k)
    {
      BusyShifts(stream, k);
      BlocksShift(stream, k);
    }
    if SaysReady(stream) {
      var k: nat :| BusyUntil(stream, k) && SoundAt(stream, k) && ReceivingAt(stream, k);
      assert k > 0;
      assert BusyUntil(rest, k - 1) == BusyUntil(stream, k - 1 + 1);
    }
    if SaysFault(stream) {
      var k: nat :| BusyUntil(stream, k) && 32 * k + 32 <= |stream| && !SoundAt(stream, k);
      assert k > 0;
      assert BusyUntil(rest, k - 1) == BusyUntil(stream, k - 1 + 1);
    }
    if SaysReady(rest) {
      var k: nat :| BusyUntil(rest, k) && SoundAt(rest, k) && ReceivingAt(rest, k);
      assert BusyUntil(stream, k + 1);
    }
    if SaysFault(rest) {
      var k: nat :| BusyUntil(rest, k) && 32 * k + 32 <= |rest| && !SoundAt(rest, k);
      assert BusyUntil(stream, k + 1);
    }
  }

  /** The verdict on a stream is ready, or a fault, exactly when its bytes say so. */
  lemma {:induction false} VerdictIsSaid(stream: seq<byte>)
    ensures StreamVerdict(stream) == Ready <==> SaysReady(stream)
    ensures StreamVerdict(stream) == Faulty <==> SaysFault(stream)
    decreases |stream|
  {
    if |stream| < 32 {
      assert forall k: nat :: !SoundAt(stream, k);
    } else {
      FirstBlock(stream);
      hide SoundAt, ReceivingAt, PacketVerdict;
      assert BusyUntil(stream, 0);
      if SoundAt(stream, 0) && !ReceivingAt(stream, 0) {
        RestSays(stream);
        VerdictIsSaid(stream[32..]);
      } else {
        assert forall k: nat :: k > 0 && BusyUntil(stream, k) ==> SoundAt(stream, 0) && !ReceivingAt(stream, 0);
      }
    }
  }

  /** Block `k` is the first reply (type 0) of the stream. */
  predicate ReplyAt(stream: seq<byte>, k: nat) {
    32 * k + 32 <= |stream| && stream[32 * k + 18] == 0 && forall j :: 0 <= j < k ==> stream[32 * j + 18] != 0
  }

  /** The first reply is the first aligned block of type 0. */
  lemma {:induction false} ReplyIsFound(stream: seq<byte>)
    ensures forall k: nat :: ReplyAt(stream, k) ==> FirstReply(stream) == Some(stream[32 * k..32 * k + 32])
    ensures FirstReply(stream).Some? ==> exists k: nat :: ReplyAt(stream, k)
    decreases |stream|
  {
    if |stream| < 32 {
    } else if stream[18] == 0 {
      assert ReplyAt(stream, 0);
      assert forall k: nat :: k > 0 ==> !ReplyAt(stream, k) by {
        assert stream[32 * 0 + 18] == 0;
      }
    } else {
      var rest := stream[32..];
      ReplyIsFound(rest);
      forall k: nat | ReplyAt(stream, k) ensures FirstReply(stream) == Some(stream[32 * k..32 * k + 32]) {
        assert k > 0;
        ReplyShifts(stream, k - 1);
      }
      if FirstReply(stream).Some? {
        var k: nat :| ReplyAt(rest, k);
        ReplyShifts(stream, k);
        assert ReplyAt(stream, k + 1);
      }
    }
  }

  lemma ReplyShifts(stream: seq<byte>, k: nat)
    requires |stream| >= 32 && stream[18] != 0
    ensures ReplyAt(stream, k + 1) == ReplyAt(stream[32..], k)
    ensures ReplyAt(stream, k + 1) ==> stream[32..][32 * k..32 * k + 32] == stream[32 * k + 32..32 * k + 64]
  {
    var rest := stream[32..];
    if ReplyAt(rest, k) {
      forall j | 0 <= j < k + 1 ensures stream[32 * j + 18] != 0 {
        assert j > 0 ==> rest[32 * (j - 1) + 18] == stream[32 * j + 18];
      }
    }
    if ReplyAt(stream, k + 1) {
      forall j | 0 <= j < k ensures rest[32 * j + 18] != 0 {
        assert rest[32 * j + 18] == stream[32 * (j + 1) + 18];
      }
    }
  }

  /** `done` is made of whole packets that leave the decision to what follows them. */
  ghost predicate Undecided(done: seq<byte>) {
    |done| % 32 == 0 && forall s: seq<byte> :: StreamVerdict(done + s) == StreamVerdict(s)
  }

  /** `done` is made of whole notifications, so the first reply is in what follows them. */
  ghost predicate Notifications(done: seq<byte>) {
    |done| % 32 == 0 && forall s: seq<byte> :: FirstReply(done + s) == FirstReply(s)
  }

  lemma NothingSkipped()
    ensures Undecided([]) && Notifications([])
  {
    assert forall s: seq<byte> :: [] + s == s;
  }

  lemma SkipUndecided(done: seq<byte>, packet: seq<byte>)
    requires Undecided(done) && |packet| == 32 && PacketVerdict(packet) == Pending
    ensures Undecided(done + packet)
  {
    forall s: seq<byte> ensures StreamVerdict(done + packet + s) == StreamVerdict(s) {
      assert done + packet + s == done + (packet + s);
      assert (packet + s)[..32] == packet && (packet + s)[32..] == s;
    }
  }

  lemma SkipNotification(done: seq<byte>, packet: seq<byte>)
    requires Notifications(done) && |packet| == 32 && packet[18] != 0
    ensures Notifications(done + packet)
  {
    forall s: seq<byte> ensures FirstReply(done + packet + s) == FirstReply(s) {
      assert done + packet + s == done + (packet + s);
      assert (packet + s)[32..] == s && (packet + s)[18] == packet[18];
    }
  }

  /** The packet after undecided ones decides for the whole stream. */
  lemma DecidedBy(done: seq<byte>, packet: seq<byte>)
    requires Undecided(done)
    ensures |packet| == 32 && PacketVerdict(packet) != Pending ==> StreamVerdict(done + packet) == PacketVerdict(packet)
    ensures |packet| < 32 ==> StreamVerdict(done + packet) == Pending
  {
    assert |packet| == 32 ==> packet[..32] == packet;
  }

  lemma RepliedBy(done: seq<byte>, packet: seq<byte>)
    requires Notifications(done)
    ensures |packet| == 32 && packet[18] == 0 ==> FirstReply(done + packet) == Some(packet)
    ensures |packet| < 32 ==> FirstReply(done + packet) == None && |done + packet| % 32 == |packet|
  {
    assert |packet| == 32 ==> packet[..32] == packet;
  }
}
