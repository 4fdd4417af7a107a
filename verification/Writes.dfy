/** Chains of page writes: each command is built, written once, and never retried. */
module Writes {
  import opened Bytes
  import opened Cutter
  import opened Decoder
  import opened Device
  import opened Headers
  import opened Protocol
  import opened Stream

  predicate OnlyOutput(before: seq<Sent>, more: seq<Sent>) {
    before <= more && forall i :: |before| <= i < |more| ==> more[i].Output?
  }

  /** Writes so far: page output only, all of `cs` when confirmed, otherwise any prefix of it. */
  predicate Sends(before: seq<Sent>, after: seq<Sent>, cs: seq<Cmd>, ok: bool) {
    && OnlyOutput(before, after)
    && OutputOf(before) <= OutputOf(after) <= OutputOf(before) + Serialize(cs)
    && (ok ==> OutputOf(after) == OutputOf(before) + Serialize(cs))
  }

  lemma SendsNothing(wire: seq<Sent>)
    ensures Sends(wire, wire, [], true)
  {}

  lemma SendsMore(a: seq<Sent>, b: seq<Sent>, c: seq<Sent>, done: seq<Cmd>, cs: seq<Cmd>, ok: bool)
    requires Sends(a, b, done, true) && Sends(b, c, cs, ok)
    ensures Sends(a, c, done + cs, ok)
  {
    hide OutputOf, Serialize, Encode;
    SerializeSum(done, cs);
    PrefixTrans(a, b, c);
    assert OutputOf(a) + (Serialize(done) + Serialize(cs)) == OutputOf(a) + Serialize(done) + Serialize(cs);
    PrefixTrans(OutputOf(a), OutputOf(b), OutputOf(c));
  }

  /** Output that broke off inside `cs` broke off inside anything that starts with `cs`. */
  lemma SendsLess(a: seq<Sent>, b: seq<Sent>, cs: seq<Cmd>, more: seq<Cmd>)
    requires Sends(a, b, cs, false) || Sends(a, b, cs, true)
    ensures Sends(a, b, cs + more, false)
  {
    hide OutputOf, Serialize, Encode;
    SerializeSum(cs, more);
    assert OutputOf(a) + (Serialize(cs) + Serialize(more)) == OutputOf(a) + Serialize(cs) + Serialize(more);
    PrefixTrans(OutputOf(b), OutputOf(a) + Serialize(cs), OutputOf(a) + Serialize(cs) + Serialize(more));
  }

  lemma OneWrite(before: seq<Sent>, after: seq<Sent>, cs: seq<Cmd>, ok: bool)
    requires |after| == |before| + 1 && before <= after
    requires after[|before|].Output? && after[|before|].bytes <= Serialize(cs)
    requires ok ==> after[|before|].bytes == Serialize(cs)
    ensures Sends(before, after, cs, ok)
  {
    hide Serialize, Encode;
    assert after[..|after| - 1] == before;
  }

  /** The bytes of one command, laid down by its builder. */
  method Build(o: array<byte>, c: Cmd) returns (n: nat)
    requires o.Length >= 100 && !c.Nul?
    modifies o
    ensures n <= o.Length && o[..n] == Encode(c)
  {
    match c
    case Init => n := CmdInit(o, 0);
    case RasterStart(p700) => n := CmdRasterStart(o, 0, p700);
    case FormFeed => n := CmdFormFeed(o, 0);
    case Eject => n := CmdEject(o, 0);
    case PrintInfo(mm) => n := CmdPrintInfo(o, 0, mm);
    case PrintInfoExt(mm, rows, page) => n := CmdPrintInfoExt(o, 0, mm, rows, page);
    case Compression(mode) => n := CmdCompression(o, 0, mode);
    case AutoStatus(enabled) => n := CmdAutoStatus(o, 0, enabled);
    case Mode(flags) => n := CmdSetMode(o, 0, flags);
    case Advanced(flags) => n := CmdSetAdvanced(o, 0, flags);
    case StatusRequest => n := CmdStatusRequest(o, 0);
    case Margin(dots) => n := CmdMargin(o, 0, dots);
    case RawRow(row) => n := CmdSendRaster(o, 0, row);
    case PackedRow(row) => n := CmdSendRasterPackBits(o, 0, row);
  }

  /** One confirmed or failed write of one command. */
  method JobWrite(world: World, c: Cmd) returns (ok: bool)
    requires !c.Nul?
    modifies world
    ensures world.script == From(old(world.script), 1) && world.heard == old(world.heard)
    ensures world.faults == old(world.faults) + if ok then 0 else 1
    ensures Sends(old(world.wire), world.wire, [c], ok) && |world.wire| == |old(world.wire)| + 1
  {
    hide Encode, Splice;
    var buf := new byte[100];
    var n := Build(buf, c);
    ok := world.Write(buf[..n], false);
    SerializeOne(c);
    OneWrite(old(world.wire), world.wire, [c], ok);
  }

  method JobWriteInvalidate(world: World) returns (ok: bool)
    modifies world
    ensures |world.script| <= |old(world.script)| && world.heard == old(world.heard)
    ensures world.faults == old(world.faults) + if ok then 0 else 1
    ensures Sends(old(world.wire), world.wire, INVALIDATE, ok) && |world.wire| > |old(world.wire)|
  {
    var buf := new byte[100];
    var n := CmdInvalidate(buf, 0);
    assert buf[..n] == Serialize(INVALIDATE);
    ok := world.Write(buf[..n], false);
    OneWrite(old(world.wire), world.wire, INVALIDATE, ok);
  }

  /** C's `ok && pt_job_write(...)`: the next write of a chain, skipped once one has failed. */
  method AndWrite(world: World, ok: bool, c: Cmd, ghost start: seq<Sent>, ghost sent: seq<Cmd>)
    returns (still: bool, ghost now: seq<Cmd>)
    requires !c.Nul? && Sends(start, world.wire, sent, ok)
    modifies world
    ensures world.script == From(old(world.script), if ok then 1 else 0) && world.heard == old(world.heard)
    ensures (still ==> ok) && |world.wire| == |old(world.wire)| + if ok then 1 else 0
    ensures world.faults == old(world.faults) + if ok && !still then 1 else 0
    ensures now == sent + [c] && Sends(start, world.wire, now, still)
  {
    hide Sends;
    now := sent + [c];
    if ok {
      still := JobWrite(world, c);
      SendsMore(start, old(world.wire), world.wire, sent, [c], still);
    } else {
      still := false;
      SendsLess(start, world.wire, sent, [c]);
    }
  }

  /** What opens a run, behind what a chain of writes has already sent. */
  method SendLead(world: World, model: Model, continued: bool, ok: bool, ghost start: seq<Sent>, ghost sent: seq<Cmd>)
    returns (still: bool, ghost now: seq<Cmd>)
    requires Sends(start, world.wire, sent, ok)
    modifies world
    ensures |world.script| <= |old(world.script)| && world.heard == old(world.heard)
    ensures (still ==> ok) && |world.wire| >= |old(world.wire)| + if ok then 1 else 0
    ensures if still || !ok then world.faults == old(world.faults) else world.faults > old(world.faults)
    ensures now == sent + Lead(model, continued) && Sends(start, world.wire, now, still)
  {
    hide Sends;
    still, now := ok, sent;
    if !continued && model == P710BT {
      still, now := AndInvalidate(world, still, start, now);
    }
    if !continued {
      still, now := AndWrite(world, still, Init, start, now);
    }
    still, now := AndWrite(world, still, RasterStart(model == P710BT), start, now);
    if model == P710BT {
      still, now := AndWrite(world, still, AutoStatus(true), start, now);
    }
  }

  /** The settings of a page, the run's lead first, behind what a chain of writes has already sent. */
  method SendSetup(world: World, model: Model, continued: bool, policy: Policy, mm: byte, first: bool, rows: u32,
                   ok: bool,
                   ghost start: seq<Sent>, ghost sent: seq<Cmd>)
    returns (still: bool, ghost now: seq<Cmd>)
    requires Sends(start, world.wire, sent, ok)
    modifies world
    ensures |world.script| <= |old(world.script)| && world.heard == old(world.heard)
    ensures (still ==> ok) && |world.wire| >= |old(world.wire)| + if ok then 1 else 0
    ensures if still || !ok then world.faults == old(world.faults) else world.faults > old(world.faults)
    ensures now == sent + Setup(model, continued, policy, mm, first, rows) && Sends(start, world.wire, now, still)
    ensures still && model == PT2730 ==>
      OutputOf(world.wire) == OutputOf(start) + Serialize(sent) +
        ((if first then (if continued then [] else [0x1b, 0x40]) + [0x1b, 0x69, 0x52, 1] else []) +
         [0x1b, 0x69, 0x63, 0x84, 0, mm, 0, 0] +
         [0x1b, 0x69, 0x4d, if first || policy.cutBetween then 0x40 else 0, 0x1b, 0x69, 0x4b, 0])
    ensures still && model == P710BT ==>
      OutputOf(world.wire) == OutputOf(start) + Serialize(sent) +
        ((if first then (if continued then [] else Repeat(0, 100) + [0x1b, 0x40]) +
                        [0x1b, 0x69, 0x61, 1, 0x1b, 0x69, 0x21, 0] else []) +
         [0x1b, 0x69, 0x7a, 0x84, 0, mm, 0,
          rows % 256, rows / 0x100 % 256, rows / 0x1_0000 % 256, rows / 0x100_0000 % 256,
          if first && !continued then 0 else 1, 0] +
         [0x1b, 0x69, 0x4d, if first || policy.cutBetween then 0x40 else 0, 0x1b, 0x69, 0x4b, 0] +
         [0x1b, 0x69, 0x64, 14, 0, 0x4d, 2])
  {
    hide Sends, Lead, Serialize, Encode, OutputOf, Repeat, From;
    still, now := ok, sent;
    if first {
      still, now := SendLead(world, model, continued, still, start, now);
    }
    var info := if model == P710BT then PrintInfoExt(mm, rows, if first && !continued then 0 else 1) else PrintInfo(mm);
    still, now := AndWrite(world, still, info, start, now);
    ghost var settings := (if first then Lead(model, continued) else []) + [info];
    assert now == sent + settings;
    var flags := if AutoCut(policy, first) then 0x40 else 0;
    still, now := AndWrite(world, still, Mode(flags), start, now);
    still, now := AndWrite(world, still, Advanced(0), start, now);
    settings := settings + [Mode(flags), Advanced(0)];
    assert now == sent + settings;
    if model == P710BT {
      still, now := AndWrite(world, still, Margin(END_MARGIN), start, now);
      still, now := AndWrite(world, still, Compression(2), start, now);
      assert now == sent + (settings + [Margin(END_MARGIN), Compression(2)]);
      StagedSetupBytes(continued, policy, mm, first, rows);
    } else {
      assert settings + [] == settings;
      SetupBytes(continued, policy, mm, first, rows);
    }
    WholeSent(start, world.wire, sent, Setup(model, continued, policy, mm, first, rows), still);
  }

  lemma WholeSent(before: seq<Sent>, after: seq<Sent>, sent: seq<Cmd>, cs: seq<Cmd>, ok: bool)
    requires Sends(before, after, sent + cs, ok)
    ensures ok ==> OutputOf(after) == OutputOf(before) + Serialize(sent) + Serialize(cs)
  {
    hide Serialize, OutputOf;
    SerializeSum(sent, cs);
    assert OutputOf(before) + (Serialize(sent) + Serialize(cs)) == OutputOf(before) + Serialize(sent) + Serialize(cs);
  }

  method AndInvalidate(world: World, ok: bool, ghost start: seq<Sent>, ghost sent: seq<Cmd>)
    returns (still: bool, ghost now: seq<Cmd>)
    requires Sends(start, world.wire, sent, ok)
    modifies world
    ensures |world.script| <= |old(world.script)| && world.heard == old(world.heard)
    ensures (still ==> ok) && |world.wire| >= |old(world.wire)| + if ok then 1 else 0
    ensures world.faults == old(world.faults) + if ok && !still then 1 else 0
    ensures now == sent + INVALIDATE && Sends(start, world.wire, now, still)
  {
    hide Sends;
    now := sent + INVALIDATE;
    if ok {
      still := JobWriteInvalidate(world);
      SendsMore(start, old(world.wire), world.wire, sent, INVALIDATE, still);
    } else {
      still := false;
      SendsLess(start, world.wire, sent, INVALIDATE);
    }
  }
}
