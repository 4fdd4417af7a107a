/** The device as a job sees it: confirmed or partial writes, status reads, cancellation and deadlines. */
module Device {
  import opened Bytes
  import opened Protocol
  import opened Status

  /** The outside world's answer to one question; each question looks at the part it asks about. */
  datatype Answer = Answer(canceled: bool, confirmed: bool, delivered: nat, chunk: Option<seq<byte>>, expired: bool,
                           granted: bool)

  /** Bytes one write put on the wire: page output or a status request, whole or cut short. */
  datatype Sent = Output(bytes: seq<byte>) | Request(bytes: seq<byte>)

  function OutputOf(wire: seq<Sent>): seq<byte> {
    if wire == [] then []
    else OutputOf(wire[..|wire| - 1]) + if wire[|wire| - 1].Output? then wire[|wire| - 1].bytes else []
  }

  /** `more` only adds status requests, none longer than the whole command. */
  predicate OnlyRequests(before: seq<Sent>, more: seq<Sent>) {
    && before <= more
    && forall i :: |before| <= i < |more| ==> more[i].Request? && more[i].bytes <= Encode(StatusRequest)
  }

  lemma RequestsAddUp(a: seq<Sent>, b: seq<Sent>, c: seq<Sent>)
    requires OnlyRequests(a, b) && OnlyRequests(b, c)
    ensures OnlyRequests(a, c)
  {
    PrefixTrans(a, b, c);
  }

  lemma {:induction false} RequestsAreNoOutput(a: seq<Sent>, b: seq<Sent>)
    requires OnlyRequests(a, b)
    ensures OutputOf(a) == OutputOf(b)
    decreases |b|
  {
    if |b| > |a| {
      assert a <= b[..|b| - 1];
      RequestsAreNoOutput(a, b[..|b| - 1]);
    } else {
      assert a == b;
    }
  }

  /** The result of one status read: failed, or the bytes it delivered. */
  type Heard = Option<seq<byte>>

  /** The bytes a list of reads delivered, up to the first failed read. */
  function Delivered(results: seq<Heard>): seq<byte> {
    if results == [] || results[0].None? then [] else results[0].value + Delivered(results[1..])
  }

  /** One more read adds its bytes to the packet being collected. */
  lemma PacketGrows(results: seq<Heard>, next: Heard, done: seq<byte>, packet: seq<byte>)
    requires forall i :: 0 <= i < |results| ==> results[i].Some?
    requires Delivered(results) == done + packet
    ensures Delivered(results + [next]) == done + (packet + if next.Some? then next.value else [])
  {
    hide Delivered;
    DeliveredSnoc(results, next);
    var more := if next.Some? then next.value else [];
    assert done + packet + more == done + (packet + more);
  }

  lemma {:induction false} DeliveredSnoc(results: seq<Heard>, next: Heard)
    requires forall i :: 0 <= i < |results| ==> results[i].Some?
    ensures Delivered(results + [next]) == Delivered(results) + if next.Some? then next.value else []
  {
    if results != [] {
      assert (results + [next])[1..] == results[1..] + [next];
      DeliveredSnoc(results[1..], next);
    }
  }

  /** A script after its first `n` answers. */
  function From(script: seq<Answer>, n: nat): (rest: seq<Answer>)
    ensures |rest| <= |script| && (n > 0 && script != [] ==> |rest| < |script|)
  {
    if n <= |script| then script[n..] else []
  }

  /** A write is confirmed only by an answer that says so. */
  predicate Confirmed(script: seq<Answer>) {
    script != [] && script[0].confirmed
  }

  /** A job counts as canceled when the answer says so, and when there is none. */
  predicate CanceledBy(script: seq<Answer>) {
    script == [] || script[0].canceled
  }

  /** A deadline counts as passed in the same way. */
  predicate ExpiredBy(script: seq<Answer>) {
    script == [] || script[0].expired
  }

  /** What a write leaves on the wire: all of it when confirmed, otherwise as much as the answer says got through. */
  function SentBy(script: seq<Answer>, bytes: seq<byte>): (sent: seq<byte>)
    ensures sent <= bytes && (Confirmed(script) ==> sent == bytes)
  {
    if !Confirmed(script) && script != [] && script[0].delivered < |bytes| then bytes[..script[0].delivered] else bytes
  }

  /** What a read gives: a failure, or at most `max` bytes. */
  function HeardBy(script: seq<Answer>, max: nat): (heard: Heard)
    ensures heard.Some? ==> script != [] && |heard.value| <= max
  {
    if script == [] || script[0].chunk.None? then None
    else if |script[0].chunk.value| > max then Some(script[0].chunk.value[..max])
    else script[0].chunk
  }

  /** A finite script of answers; once it runs out, every question gets the answer that stops the asker. */
  class World {
    var script: seq<Answer>
    /** Everything written to the device, write by write. */
    ghost var wire: seq<Sent>
    /** The result of every status read. */
    ghost var heard: seq<Heard>
    /** How often the world got in the way: a cancellation, a passed deadline, a refusal, a failed write or read. */
    ghost var faults: nat
    /** How many of these were cancellations. */
    ghost var cancels: nat

    constructor (script: seq<Answer>)
      ensures this.script == script && wire == [] && heard == [] && faults == cancels == 0
    {
      this.script, wire, heard, faults, cancels := script, [], [], 0, 0;
    }

    method Ask() returns (a: Option<Answer>)
      modifies this`script
      ensures script == From(old(script), 1)
      ensures if old(script) == [] then a == None else a == Some(old(script)[0])
    {
      if script == [] {
        a := None;
      } else {
        a, script := Some(script[0]), script[1..];
      }
    }

    method Canceled() returns (yes: bool)
      modifies this`script, this`faults, this`cancels
      ensures script == From(old(script), 1) && (yes <==> CanceledBy(old(script)))
      ensures faults == old(faults) + if yes then 1 else 0
      ensures cancels == old(cancels) + if yes then 1 else 0
    {
      var a := Ask();
      yes := a.None? || a.value.canceled;
      faults, cancels := faults + (if yes then 1 else 0), cancels + if yes then 1 else 0;
    }

    method Expired() returns (yes: bool)
      modifies this`script, this`faults
      ensures script == From(old(script), 1) && (yes <==> ExpiredBy(old(script)))
      ensures faults == old(faults) + if yes then 1 else 0
    {
      var a := Ask();
      yes := a.None? || a.value.expired;
      faults := faults + if yes then 1 else 0;
    }

    /** A resource or library request that may be refused. */
    method Granted() returns (yes: bool)
      modifies this`script, this`faults
      ensures script == From(old(script), 1) && (yes <==> old(script) != [] && old(script)[0].granted)
      ensures faults == old(faults) + if yes then 0 else 1
    {
      var a := Ask();
      yes := a.Some? && a.value.granted;
      faults := faults + if yes then 0 else 1;
    }

    /** A write is confirmed whole, or leaves any prefix of its bytes on the wire. */
    method Write(bytes: seq<byte>, request: bool) returns (ok: bool)
      modifies this`script, this`faults, this`wire
      ensures script == From(old(script), 1) && (ok <==> Confirmed(old(script)))
      ensures faults == old(faults) + if ok then 0 else 1
      ensures var sent := SentBy(old(script), bytes);
        wire == old(wire) + [if request then Request(sent) else Output(sent)]
    {
      var a := Ask();
      ok := a.Some? && a.value.confirmed;
      var n := if !ok && a.Some? && a.value.delivered < |bytes| then a.value.delivered else |bytes|;
      assert bytes[..n] == SentBy(old(script), bytes);
      wire := wire + [if request then Request(bytes[..n]) else Output(bytes[..n])];
      faults := faults + if ok then 0 else 1;
    }

    /** A read fails, or delivers at most `max` bytes. */
    method Read(max: nat) returns (r: Heard)
      modifies this`script, this`heard, this`faults
      ensures script == From(old(script), 1) && r == HeardBy(old(script), max)
      ensures heard == old(heard) + [r] && faults == old(faults) + if r.Some? then 0 else 1
    {
      var a := Ask();
      r := if a.None? || a.value.chunk.None? then None
           else if |a.value.chunk.value| > max then Some(a.value.chunk.value[..max])
           else a.value.chunk;
      heard, faults := heard + [r], faults + if r.Some? then 0 else 1;
    }
  }

  /** One live status exchange; a failed read leaves `n` at -1. */
  datatype Reading = Reading(n: int, writeFailed: bool, status: Option<Snapshot>) {
    /** No packet and no part of one: the one result that is worth another try. */
    predicate Silent() {
      status == None && n == 0
    }
  }

  const STATUS_TRIES := 10

  /** Draining reads go on after a nonempty chunk only. */
  predicate Draining(results: seq<Heard>) {
    forall i :: 0 <= i < |results| - 1 ==> results[i].Some? && results[i].value != []
  }

  /** The draining reads of an exchange: nonempty chunks, ended by the first empty one. */
  predicate Drained(results: seq<Heard>) {
    Draining(results) && results != [] && results[|results| - 1] == Some([])
  }

  /** The first aligned 32-byte block of type 0 starts as a status block does. */
  ghost predicate StartsStatus(got: seq<byte>) {
    exists k: nat :: ReplyAt(got, k) && got[32 * k] == 0x80 && got[32 * k + 1] == 0x20
  }

  /** That block gives this tape width, and gives no error exactly when both its error bytes are zero. */
  ghost predicate StatusIn(got: seq<byte>, status: Snapshot) {
    exists k: nat ::
      && ReplyAt(got, k) && got[32 * k] == 0x80 && got[32 * k + 1] == 0x20 && got[32 * k + 10] == status.tapeMm
      && (status.error == 0 <==> got[32 * k + 8] == 0 && got[32 * k + 9] == 0)
  }

  /** An exchange reports a status exactly when one is in the bytes that its reads delivered. */
  lemma ReportedInBytes(results: seq<Heard>)
    ensures var r, got := Reported(results), Delivered(results);
      && (if r.status.Some? then StatusIn(got, r.status.value) else !StartsStatus(got))
      && (r.n >= 0 ==> r.n == if exists k: nat :: ReplyAt(got, k) then 32 else |got| % 32)
      && (FirstReply(got).Some? <==> exists k: nat :: ReplyAt(got, k))
      && (r.n < 0 <==> results != [] && results[|results| - 1].None? && !exists k: nat :: ReplyAt(got, k))
  {
    hide FirstReply, Delivered;
    var got := Delivered(results);
    ReplyIsFound(got);
    if FirstReply(got).Some? {
      var k: nat :| ReplyAt(got, k);
      var packet := got[32 * k..32 * k + 32];
      assert forall i :: 0 <= i < 32 ==> packet[i] == got[32 * k + i];
    }
  }

  /** What an exchange reports when its request was confirmed and `results` are the reads after it. */
  function Reported(results: seq<Heard>): Reading {
    var got := Delivered(results);
    match FirstReply(got)
    case Some(packet) => Reading(32, false, ParseStatus(packet))
    case None => Reading(if results != [] && results[|results| - 1].None? then -1 else |got| % 32, false, None)
  }

  /** A status request as it left: the bytes on the wire, and whether the transfer was confirmed. */
  datatype Asking = Asking(bytes: seq<byte>, confirmed: bool)

  /** One status exchange: the draining reads, the request if one was written, and the reads after it. */
  datatype Exchange = Exchange(drain: seq<Heard>, asking: Option<Asking>, replies: seq<Heard>) {
    /** What it puts on the wire. */
    function Requests(): seq<Sent> {
      if asking.None? then [] else [Request(asking.value.bytes)]
    }

    /** What it reads. */
    function Reads(): seq<Heard> {
      drain + replies
    }

    /** How many questions it asks. */
    function Questions(): nat {
      |drain| + |Requests()| + |replies|
    }

    /** What the driver makes of it. */
    function Outcome(): Reading {
      if asking.None? then Reading(if drain == [] || drain[|drain| - 1].None? then -1 else 0, false, None)
      else if asking.value.confirmed then Reported(replies)
      else Reading(-1, true, None)
    }

    /** The order an exchange keeps: one request at most, written only when the input is drained, nothing read after an
        unconfirmed one, and ten reads at most. */
    predicate Proper() {
      && drain != [] && |drain| + |replies| <= STATUS_TRIES
      && Draining(drain) && (asking.Some? <==> Drained(drain))
      && (asking.None? && drain[|drain| - 1].Some? ==> |drain| == STATUS_TRIES)
      && (asking.None? || !asking.value.confirmed ==> replies == [])
      && (asking.Some? ==> asking.value.bytes <= Encode(StatusRequest))
      && (asking.Some? && asking.value.confirmed ==> asking.value.bytes == Encode(StatusRequest))
    }
  }

  /** The exchange is what the script answers, question by question. */
  predicate Answered(script: seq<Answer>, x: Exchange) {
    && (forall i :: 0 <= i < |x.drain| ==> x.drain[i] == HeardBy(From(script, i), 32))
    && (x.asking.Some? ==>
          var rest := From(script, |x.drain|);
          x.asking.value == Asking(SentBy(rest, Encode(StatusRequest)), Confirmed(rest)))
  }

  /** Reads until a read reports no data, a read fails, or the budget is spent. */
  method Drain(world: World, budget: nat) returns (drained: bool, failed: bool, tries: nat, ghost drain: seq<Heard>)
    modifies world
    ensures world.script == From(old(world.script), |drain|)
    ensures forall i :: 0 <= i < |drain| ==> drain[i] == HeardBy(From(old(world.script), i), 32)
    ensures world.wire == old(world.wire) && world.cancels == old(world.cancels)
    ensures world.faults == old(world.faults) + if failed then 1 else 0
    ensures world.heard == old(world.heard) + drain && |drain| + tries == budget
    ensures Draining(drain) && (drained <==> Drained(drain))
    ensures failed <==> drain != [] && drain[|drain| - 1].None?
    ensures !drained && !failed ==> tries == 0
  {
    drained, failed, tries, drain := false, false, budget, [];
    while tries > 0 && !drained
      invariant |drain| + tries == budget && world.script == From(old(world.script), |drain|)
      invariant world.heard == old(world.heard) + drain && world.wire == old(world.wire)
      invariant world.faults == old(world.faults) && world.cancels == old(world.cancels)
      invariant forall i :: 0 <= i < |drain| ==> drain[i] == HeardBy(From(old(world.script), i), 32)
      invariant if drained then Drained(drain) else forall i :: 0 <= i < |drain| ==>
        drain[i].Some? && drain[i].value != []
    {
      var chunk := world.Read(32);
      drain := drain + [chunk];
      tries := tries - 1;
      if chunk.None? {
        failed := true;
        return;
      }
      drained := chunk.value == [];
    }
  }

  /** Collects aligned packets until the first reply, dropping the page notifications before it. */
  method Collect(world: World, budget: nat) returns (r: Reading, ghost replies: seq<Heard>)
    modifies world
    ensures world.script == From(old(world.script), |replies|)
    ensures world.wire == old(world.wire) && world.cancels == old(world.cancels)
    ensures world.faults == old(world.faults) + if r.n < 0 then 1 else 0
    ensures world.heard == old(world.heard) + replies && |replies| <= budget
    ensures r == Reported(replies)
    ensures r.n >= 0 && FirstReply(Delivered(replies)).None? ==> |replies| == budget
  {
    hide Notifications;
    hide FirstReply;
    replies := [];
    var tries, buf: seq<byte>, n := budget, [], 0;
    ghost var done: seq<byte> := [];
    NothingSkipped();
    while tries > 0
      invariant |replies| + tries == budget && world.script == From(old(world.script), |replies|)
      invariant world.heard == old(world.heard) + replies
      invariant forall i :: 0 <= i < |replies| ==> replies[i].Some?
      invariant world.wire == old(world.wire)
      invariant world.faults == old(world.faults) && world.cancels == old(world.cancels)
      invariant Notifications(done) && |buf| < 32 && n == |buf| && Delivered(replies) == done + buf
    {
      var chunk := world.Read(32 - |buf|);
      tries := tries - 1;
      PacketGrows(replies, chunk, done, buf);
      replies := replies + [chunk];
      if chunk.None? {
        assert buf + [] == buf;
        RepliedBy(done, buf);
        return Reading(-1, false, None), replies;
      }
      buf := buf + chunk.value;
      n := |buf|;
      if |buf| == 32 {
        RepliedBy(done, buf);
        if buf[18] == 0 {
          return Reading(32, false, ParseStatus(buf)), replies;
        }
        SkipNotification(done, buf);
        done, buf, n := done + buf, [], 0;
        assert done + buf == done;
      }
    }
    RepliedBy(done, buf);
    r := Reading(n, false, None);
  }

  /** Queued input is drained first, so a reply that was already waiting can never answer this request. */
  method ReadLiveTape(world: World, live: bool) returns (r: Reading, ghost x: Exchange)
    modifies world
    ensures world.cancels == old(world.cancels)
    ensures world.faults == old(world.faults) + if live && r.n < 0 then 1 else 0
    ensures live ==> x.Proper() && r == x.Outcome() && |x.drain| + |x.replies| <= 10
    ensures live && x.asking.Some? ==>
      x.drain[|x.drain| - 1] == Some([]) && x.asking.value.bytes <= [0x1b, 0x69, 0x53]
    ensures r.status.Some? ==>
      live && x.asking == Some(Asking([0x1b, 0x69, 0x53], true)) && StatusIn(Delivered(x.replies), r.status.value)
    ensures live && r.status.None? && x.asking.Some? && x.asking.value.confirmed ==>
      !StartsStatus(Delivered(x.replies))
    ensures live && r.n >= 0 && x.asking.Some? ==>
      r.n == if exists k: nat :: ReplyAt(Delivered(x.replies), k) then 32 else |Delivered(x.replies)| % 32
    ensures live && r.n >= 0 && (x.asking.None? || !exists k: nat :: ReplyAt(Delivered(x.replies), k)) ==>
      |x.drain| + |x.replies| == 10
    ensures live ==> Answered(old(world.script), x) && world.script == From(old(world.script), x.Questions())
    ensures live ==> world.wire == old(world.wire) + x.Requests() && world.heard == old(world.heard) + x.Reads()
    ensures !live ==> r == Reading(-1, false, None) && world.script == old(world.script)
    ensures !live ==> world.wire == old(world.wire) && world.heard == old(world.heard)
    ensures |world.script| <= |old(world.script)| && (r.n >= 0 ==> |world.script| < |old(world.script)|)
  {
    hide From, HeardBy, SentBy, Confirmed, Reported, StatusIn, StartsStatus, Delivered;
    x := Exchange([], None, []);
    if !live {
      return Reading(-1, false, None), x;
    }
    var drained, failed, tries;
    ghost var drain;
    drained, failed, tries, drain := Drain(world, STATUS_TRIES);
    x := Exchange(drain, None, []);
    DrainTook(old(world.script), drain);
    if failed {
      return Reading(-1, false, None), x;
    }
    if !drained {
      return Reading(0, false, None), x;
    }
    ghost var asking := Asking(SentBy(world.script, Encode(StatusRequest)), Confirmed(world.script));
    var ok := RequestStatus(world);
    x := Exchange(drain, Some(asking), []);
    FromFrom(old(world.script), |drain|, 1);
    if !ok {
      return Reading(-1, true, None), x;
    }
    ghost var replies;
    r, replies := Collect(world, tries);
    ReportedInBytes(replies);
    x := Exchange(drain, Some(asking), replies);
    FromFrom(old(world.script), |drain| + 1, |replies|);
  }

  /** One write of the status request. */
  method RequestStatus(world: World) returns (ok: bool)
    modifies world`script, world`faults, world`wire
    ensures world.script == From(old(world.script), 1) && (ok <==> Confirmed(old(world.script)))
    ensures world.faults == old(world.faults) + if ok then 0 else 1
    ensures var sent := SentBy(old(world.script), Encode(StatusRequest));
      && world.wire == old(world.wire) + [Request(sent)]
      && sent <= Encode(StatusRequest) && (ok ==> sent == Encode(StatusRequest))
  {
    var cmd := new byte[8];
    var size := CmdStatusRequest(cmd, 0);
    assert cmd[..size] == Encode(StatusRequest);
    ok := world.Write(cmd[..size], true);
  }

  lemma FromFrom(script: seq<Answer>, m: nat, n: nat)
    ensures From(From(script, m), n) == From(script, m + n)
    ensures |From(script, m + n)| <= |From(script, m)| <= |script|
  {}

  /** A read that succeeds uses up an answer. */
  lemma DrainTook(script: seq<Answer>, drain: seq<Heard>)
    requires forall i :: 0 <= i < |drain| ==> drain[i] == HeardBy(From(script, i), 32)
    ensures drain != [] && drain[0].Some? ==> |From(script, |drain|)| < |script|
  {
    assert drain != [] ==> drain[0] == HeardBy(From(script, 0), 32);
  }

  /** What one whole packet says: anything unreadable or in error is a fault. */
  method Weigh(packet: seq<byte>) returns (verdict: Verdict)
    requires |packet| == 32
    ensures verdict == PacketVerdict(packet)
  {
    var status := ParseStatus(packet);
    if status.None? {
      return Faulty;
    }
    if status.value.error != 0 {
      return Faulty;
    }
    if packet[18] == 6 && packet[19] == 0 && packet[20] == 0 && packet[21] == 0 {
      return Ready;
    }
    verdict := Pending;
  }

  /** The bytes so far are undecided packets and part of the next one. */
  ghost predicate Collecting(results: seq<Heard>, done: seq<byte>, packet: seq<byte>) {
    && (forall i :: 0 <= i < |results| ==> results[i].Some?)
    && Undecided(done) && |packet| < 32 && Delivered(results) == done + packet
  }

  lemma StillPending(results: seq<Heard>, done: seq<byte>, packet: seq<byte>)
    requires Collecting(results, done, packet)
    ensures var got := Delivered(results);
      StreamVerdict(got) == Pending && !SaysReady(got) && !SaysFault(got)
  {
    DecidedBy(done, packet);
    VerdictIsSaid(Delivered(results));
  }

  /** What one more read leaves: a failure decides nothing, a whole packet may decide. */
  lemma OneMoreRead(results: seq<Heard>, next: Heard, done: seq<byte>, packet: seq<byte>)
    requires Collecting(results, done, packet) && (next.Some? ==> |packet| + |next.value| <= 32)
    ensures var got := Delivered(results + [next]);
      && (next.None? ==> !SaysReady(got))
      && (next.Some? ==>
            var grown := packet + next.value;
            if |grown| < 32 then Collecting(results + [next], done, grown)
            else if PacketVerdict(grown) == Pending then Collecting(results + [next], done + grown, [])
            else
              && (SaysReady(got) <==> PacketVerdict(grown) == Ready)
              && (SaysFault(got) <==> PacketVerdict(grown) == Faulty))
  {
    hide Undecided, StreamVerdict, PacketVerdict, Delivered, SaysReady, SaysFault;
    VerdictIsSaid(Delivered(results + [next]));
    PacketGrows(results, next, done, packet);
    var grown := packet + if next.Some? then next.value else [];
    DecidedBy(done, grown);
    if next.None? {
      assert packet + [] == packet;
    } else if |grown| == 32 && PacketVerdict(grown) == Pending {
      SkipUndecided(done, grown);
      assert done + grown + [] == done + grown;
    }
  }

  /** Waits until the printer says it can receive; only the socket sink needs no answer. */
  method AwaitReady(world: World, live: bool, cancelable: bool) returns (ok: bool, ghost replies: seq<Heard>)
    modifies world
    ensures |world.script| <= |old(world.script)|
    ensures world.wire == old(world.wire) && world.heard == old(world.heard) + replies
    ensures live ==> (ok <==> SaysReady(Delivered(replies)))
    ensures ok ==> world.faults == old(world.faults)
    ensures !ok ==> world.faults > old(world.faults) || SaysFault(Delivered(replies))
    ensures !live ==> ok && replies == []
    ensures !cancelable ==> world.cancels == old(world.cancels)
    ensures live && cancelable ==>
      forall i :: 0 <= i < |replies| ==>
        !ExpiredBy(From(old(world.script), 3 * i)) && !CanceledBy(From(old(world.script), 3 * i + 1))
  {
    hide Collecting, StreamVerdict, PacketVerdict, Delivered, HeardBy, From, SaysReady, SaysFault;
    replies := [];
    if !live {
      return true, [];
    }
    var packet: seq<byte> := [];
    ghost var done: seq<byte> := [];
    NothingHeard();
    RoundOfThree(world.script, 0);
    var expired := world.Expired();
    while !expired
      invariant |world.script| <= |old(world.script)|
      invariant world.wire == old(world.wire) && world.heard == old(world.heard) + replies
      invariant if expired then world.faults > old(world.faults) else world.faults == old(world.faults)
      invariant !cancelable ==> world.cancels == old(world.cancels)
      invariant cancelable ==> world.script == From(old(world.script), 3 * |replies| + 1)
      invariant cancelable ==>
        && (forall i :: 0 <= i < |replies| ==> !ExpiredBy(From(old(world.script), 3 * i)))
        && (expired <==> ExpiredBy(From(old(world.script), 3 * |replies|)))
      invariant cancelable ==> forall i :: 0 <= i < |replies| ==> !CanceledBy(From(old(world.script), 3 * i + 1))
      invariant |packet| < 32 && Collecting(replies, done, packet)
      decreases |world.script|, !expired
    {
      StillPending(replies, done, packet);
      RoundOfThree(old(world.script), 3 * |replies| + 1);
      if cancelable {
        var canceled := world.Canceled();
        if canceled {
          return false, replies;
        }
      }
      var chunk := world.Read(32 - |packet|);
      OneMoreRead(replies, chunk, done, packet);
      replies := replies + [chunk];
      if chunk.None? {
        return false, replies;
      }
      packet := packet + chunk.value;
      if |packet| == 32 {
        var verdict := Weigh(packet);
        if verdict != Pending {
          return verdict == Ready, replies;
        }
        done, packet := done + packet, [];
      }
      expired := world.Expired();
    }
    StillPending(replies, done, packet);
    ok := false;
  }

  lemma RoundOfThree(script: seq<Answer>, at: nat)
    ensures From(script, 0) == script && From(From(From(script, at), 1), 1) == From(script, at + 2)
    ensures From(From(From(From(script, at), 1), 1), 1) == From(script, at + 3)
    ensures |From(From(From(From(script, at), 1), 1), 1)| <= |From(script, at)|
  {
    FromFrom(script, at, 1);
    FromFrom(script, at + 1, 1);
    FromFrom(script, at + 2, 1);
  }

  lemma NothingHeard()
    ensures Collecting([], [], [])
  {
    NothingSkipped();
  }
}
