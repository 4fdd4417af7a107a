/** The locked sections of the patched PAPPL printer, over its linked list of waiting acquisitions. */
module DeviceQueue {
  import opened Bytes
  import opened Turns

  /** A queued acquisition, linked to the next one in line. */
  class Waiter {
    const jobId: nat
    ghost const no: nat
    var next: Waiter?

    constructor (jobId: nat, ghost no: nat)
      ensures this.jobId == jobId && this.no == no && next == null
    {
      this.jobId, this.no, next := jobId, no, null;
    }

    ghost function View(): Ticket {
      Ticket(no, jobId)
    }
  }

  ghost function Tickets(ws: seq<Waiter>): (r: seq<Ticket>)
    ensures |r| == |ws| && forall i :: 0 <= i < |ws| ==> r[i] == ws[i].View()
  {
    if ws == [] then [] else Tickets(ws[..|ws| - 1]) + [ws[|ws| - 1].View()]
  }

  lemma TicketsSnoc(ws: seq<Waiter>, w: Waiter)
    ensures Tickets(ws + [w]) == Tickets(ws) + [w.View()]
  {
    assert (ws + [w])[..|ws|] == ws;
  }

  ghost function At(ws: seq<Waiter>, i: nat): Waiter? {
    if i < |ws| then ws[i] else null
  }

  /** `ws` is the chain of nodes from `head`, each linked to the next and the last to nothing. */
  ghost predicate Chain(head: Waiter?, ws: seq<Waiter>)
    reads ws
  {
    && head == At(ws, 0)
    && (forall i, j :: 0 <= i < j < |ws| ==> ws[i] != ws[j])
    && (forall i :: 0 <= i < |ws| ==> ws[i].next == At(ws, i + 1))
  }

  /** Every node still links to the next, except that the one before node `k` links past it. */
  ghost predicate Skipping(was: seq<Waiter>, k: nat)
    reads was
  {
    forall j :: 0 <= j < |was| ==> was[j].next == if k > 0 && j == k - 1 then At(was, k + 1) else At(was, j + 1)
  }

  datatype PrinterState = Idle | Busy | Stopped

  class Printer {
    var nextJobId: nat
    var active: seq<Job>
    var waiters: Waiter?
    var processing: Option<nat>
    var inUse: bool
    var open: bool
    var deleted: bool
    var running: bool
    var state: PrinterState
    /** A stop was asked for while a job was printing. */
    var stopping: bool
    var completed: seq<nat>
    ghost var line: seq<Waiter>
    ghost var tickets: nat
    ghost var log: seq<Turn>

    constructor ()
      ensures Valid() && Abs() == EMPTY
    {
      nextJobId, active, waiters, processing := 1, [], null, None;
      inUse, open, deleted, running := false, false, false, true;
      state, stopping, completed := Idle, false, [];
      line, tickets, log := [], 0, [];
    }

    ghost function Abs(): Q
      reads this
    {
      Q(nextJobId, active, Tickets(line), processing, inUse, open, deleted, running, tickets, log)
    }

    ghost predicate Valid()
      reads this, line
    {
      Chain(waiters, line) && Inv(Abs())
    }

    /** A new job gets the next id and joins the active list in one locked step. */
    method CreateJob(held: bool) returns (id: nat)
      requires Valid()
      modifies this`nextJobId, this`active
      ensures Valid() && id == old(nextJobId) && Abs() == Apply(old(Abs()), Create(held))
      ensures nextJobId == id + 1
      ensures active == old(active) + [Job(id, false, if held then Held else Pending, false, false)]
    {
      hide Inv, Chain;
      CreateKeeps(Abs(), held);
      id := nextJobId;
      active := active + [Job(nextJobId, false, if held then Held else Pending, false, false)];
      nextJobId := nextJobId + 1;
    }

    /** Links a new node behind the last one. */
    method Append(waiter: Waiter)
      requires Chain(waiters, line) && waiter !in line && waiter.next == null
      modifies this`waiters, this`line, line
      ensures Chain(waiters, line) && line == old(line) + [waiter]
    {
      var prev := waiters;
      if prev != null {
        ghost var i := 0;
        while prev.next != null
          invariant 0 <= i < |line| && prev == line[i]
          decreases |line| - i
        {
          assert line[i].next == At(line, i + 1);
          prev, i := prev.next, i + 1;
        }
        prev.next := waiter;
      } else {
        waiters := waiter;
      }
      line := line + [waiter];
    }

    /** Lets the node before `waiter`, if there is one, skip it. */
    method Bypass(waiter: Waiter, ghost was: seq<Waiter>, ghost k: nat)
      requires Chain(waiters, was) && k < |was| && was[k] == waiter
      modifies was
      ensures Skipping(was, k)
    {
      var prev := waiters;
      ghost var i := 0;
      while prev != null
        invariant 0 <= i <= |was| && prev == At(was, i) && (k > 0 ==> i < k)
        invariant forall j :: 0 <= j < |was| ==> was[j].next == At(was, j + 1)
        decreases |was| - i
      {
        if prev.next == waiter {
          assert At(was, i + 1) == was[k] && i + 1 == k;
          prev.next := waiter.next;
          break;
        }
        prev, i := prev.next, i + 1;
      }
    }

    /** Unlinks a node wherever it stands. */
    method Unlink(waiter: Waiter, ghost k: nat)
      requires Chain(waiters, line) && k < |line| && line[k] == waiter
      modifies this`waiters, this`line, line
      ensures Chain(waiters, line) && line == RemoveAt(old(line), k)
    {
      hide Skipping;
      ghost var was := line;
      Bypass(waiter, was, k);
      line := RemoveAt(was, k);
      Relinked(was, k);
      if waiters == waiter {
        waiters := waiter.next;
      }
    }

    /** A cut joins the end of the line, behind every job admitted so far. */
    method Admit() returns (waiter: Waiter)
      requires Valid()
      modifies this`waiters, this`line, this`tickets, line
      ensures Valid() && fresh(waiter) && line == old(line) + [waiter] && waiter.jobId == nextJobId - 1
      ensures Abs() == Apply(old(Abs()), Event.Admit)
    {
      hide Inv, Chain;
      AdmitKeeps(Abs());
      IdsArePositive(Abs());
      waiter := new Waiter(nextJobId - 1, tickets);
      TicketsSnoc(line, waiter);
      Append(waiter);
      tickets := tickets + 1;
    }

    /** Whether no active job at or before the boundary remains. */
    method IsReady(boundary: nat) returns (ready: bool)
      ensures ready <==> Ready(active, boundary)
    {
      for i := 0 to |active|
        invariant forall k :: 0 <= k < i ==> boundary < active[k].id
      {
        if active[i].id <= boundary {
          return false;
        }
      }
      ready := true;
    }

    /** Whether a waiting cut holds a job back, by its head alone. */
    method CutBarrier(id: nat) returns (held: bool)
      requires Valid()
      ensures held <==> Barred(Abs().line, id)
      ensures held <==> waiters != null && waiters.jobId < id
      ensures held <==> exists k :: 0 <= k < |line| && line[k].jobId < id
    {
      HeadSpeaksForAll(Abs(), id);
      held := waiters != null && id > waiters.jobId;
      if held {
        assert line[0].jobId < id;
      } else {
        forall k | 0 <= k < |line| ensures line[k].jobId >= id {
          assert Abs().line[k].boundary == line[k].jobId;
        }
      }
    }

    /** Leaves the line, with the device if the printer is alive and it opens. */
    method LeaveLine(waiter: Waiter, opens: bool) returns (device: bool)
      requires Valid() && waiter in line && Leaves(Abs(), waiter.View()) && waiter.View() in Abs().line
      modifies this`waiters, this`line, this`open, this`inUse, this`log, line
      ensures Valid() && (device <==> opens && Alive(old(Abs())))
      ensures Abs() == Apply(old(Abs()), Leave(waiter.View(), device))
      ensures !deleted && running ==> inUse == device && open == device
    {
      hide Inv, Chain, Drop, Apply, Tickets, Place, Ready, Leaves;
      device := false;
      LeaveKeeps(Abs(), waiter.View(), !deleted && running && opens);
      LeaveUnfolds(Abs(), waiter.View(), !deleted && running && opens);
      if !deleted && running {
        device := opens;
        open, inUse := device, device;
        log := if device then log + [Acquired(waiter.View())] else log + [];
      }
      ghost var was := line;
      ghost var k :| 0 <= k < |was| && was[k] == waiter;
      Unlink(waiter, k);
      TicketsDropped(was, k, old(Abs()));
    }

    /** One look of a waiting acquisition at the printer: keep waiting, or leave the line. */
    method TryAcquire(waiter: Waiter, opens: bool) returns (left: bool, device: bool)
      requires Valid() && waiter in line
      modifies this`waiters, this`line, this`open, this`inUse, this`log, line
      ensures Valid() && (device <==> left && opens && !deleted && running)
      ensures left <==>
        || deleted || !running
        || (&& old(waiters) == waiter && old(!inUse) && processing == None
            && forall k :: 0 <= k < |active| ==> waiter.jobId < active[k].id)
      ensures !deleted && running && left ==> inUse == device && open == device
      ensures Abs() == if left then Apply(old(Abs()), Leave(waiter.View(), device)) else old(Abs())
    {
      hide Inv, Chain, Drop, Apply, Tickets, Place, Ready;
      HeadIsFirst(this, waiter);
      LeavesUnfolds(Abs(), waiter.View());
      if !deleted && running {
        var ready := IsReady(waiter.jobId);
        if waiters != waiter || inUse || processing != None || !ready {
          return false, false;
        }
      }
      left := true;
      device := LeaveLine(waiter, opens);
    }

    /** One look of a thread that set out to print a job: keep waiting, take the printer, or give up. A job that is no
        longer active was canceled or finished meanwhile; whether it was held meanwhile makes no difference. */
    method TryStart(id: nat) returns (waits: bool, claimed: bool)
      requires Valid() && (Known(active, id) ==> active[Find(active, id).value].starting)
      modifies this`active, this`processing, this`log
      ensures Valid()
      ensures claimed <==>
        && !deleted && running && old(processing) == None && (waiters == null || id <= waiters.jobId)
        && exists k ::
             && 0 <= k < |old(active)| && old(active)[k].id == id
             && !old(active)[k].canceled && old(active)[k].state != Ended
      ensures waits <==>
        && !deleted && running && (old(processing) != None || (waiters != null && waiters.jobId < id))
        && exists k ::
             && 0 <= k < |old(active)| && old(active)[k].id == id
             && !old(active)[k].canceled && old(active)[k].state != Ended
      ensures processing == (if claimed then Some(id) else old(processing)) && (!claimed ==> active == old(active))
      ensures Abs() == if claimed then Apply(old(Abs()), Claim(id)) else old(Abs())
    {
      hide Inv, Chain, Find, Tickets, Ready;
      LiveIsFound(Abs(), id);
      var i := Find(active, id);
      var gone := i.None? || active[i.value].canceled || active[i.value].state == Ended;
      var held := CutBarrier(id);
      if !deleted && !gone && running && (processing != None || held) {
        return true, false;
      }
      if gone || deleted || !running || processing != None {
        return false, false;
      }
      ClaimKeeps(Abs(), id);
      active := active[i.value := active[i.value].(state := Processing)];
      processing, log := Some(id), log + [Started(id)];
      return false, true;
    }

    /** A job that completes frees its place; only the owner gives up the printer and settles its state, so a job that
        never printed cannot reset the state of the one that is printing. */
    method FinishJob(id: nat) returns (owned: bool)
      requires Valid()
      modifies this`active, this`processing, this`state, this`stopping, this`completed
      ensures Valid() && (owned <==> old(processing) == Some(id))
      ensures processing == (if owned then None else old(processing)) && !Known(active, id)
      ensures Abs() == Apply(old(Abs()), Finish(id)) && completed == old(completed) + [id]
      ensures !owned ==> state == old(state) && stopping == old(stopping)
      ensures owned ==> !stopping && (if old(stopping) then state == Stopped else state == Idle)
    {
      hide Inv, Chain, Find, Tickets, Without;
      RemovalKeeps(Abs(), Finish(id));
      RemovedForGood(Abs(), id);
      owned := processing == Some(id);
      if owned {
        processing := None;
      }
      if owned {
        Settle();
      }
      RemoveJob(id);
      completed := completed + [id];
    }

    /** The printer is idle again, or stopped if that was asked for meanwhile. */
    method Settle()
      modifies this`state, this`stopping
      ensures !stopping && (if old(stopping) then state == Stopped else state == Idle)
    {
      if stopping {
        state, stopping := Stopped, false;
      } else {
        state := Idle;
      }
    }

    method RemoveJob(id: nat)
      modifies this`active
      ensures active == Without(old(active), id)
    {
      var i := |active|;
      assert active[..i] == active;
      while i > 0
        invariant 0 <= i <= |active| && active == old(active)
        invariant Find(active, id) == Find(active[..i], id)
      {
        assert active[..i][..i - 1] == active[..i - 1];
        i := i - 1;
        if active[i].id == id {
          active := RemoveAt(active, i);
          return;
        }
      }
    }

    /** What the owner of the printer does after completing: nobody else's device is ever closed. */
    method CloseFinished(owned: bool, file: bool) returns (closed: bool)
      requires Valid()
      modifies this`open
      ensures Valid() && (closed <==> owned && (file || active == []) && processing == None && !inUse && old(open))
      ensures Abs() == if closed then Apply(old(Abs()), CloseIdle) else old(Abs())
    {
      hide Inv, Chain, Tickets;
      closed := owned && (file || active == []) && processing == None && !inUse && open;
      if closed {
        DeviceKeeps(Abs(), CloseIdle);
        open := false;
      }
    }

    /** Whether the turn of the cut at the head of the line has come. */
    method HeadReady() returns (ready: bool)
      requires Valid()
      ensures ready <==> Abs().line != [] && Ready(active, Abs().line[0].boundary)
      ensures ready <==> waiters != null && Ready(active, waiters.jobId)
    {
      hide Inv, Ready;
      ready := false;
      if waiters != null {
        ready := IsReady(waiters.jobId);
        assert Abs().line[0].boundary == waiters.jobId;
      }
    }

    /** Opens the device for status, unless it is in use or a cut's turn has come. */
    method OpenDevice(hasUri: bool, opens: bool) returns (device: bool)
      requires Valid()
      modifies this`open, this`inUse
      ensures Valid()
      ensures device <==>
        && hasUri && opens && !old(inUse) && processing == None
        && (waiters == null || exists k :: 0 <= k < |active| && active[k].id <= waiters.jobId)
      ensures device ==> Abs() == Apply(old(Abs()), Open(true))
      ensures !device ==>
        Abs() == old(Abs()) || (Enabled(old(Abs()), Open(false)) && Abs() == Apply(old(Abs()), Open(false)))
    {
      hide Inv, Chain, Tickets, Find, With, Without, Drop, Place;
      var waiting := HeadReady();
      device := false;
      if !inUse && processing == None && hasUri && !waiting {
        DeviceKeeps(Abs(), Open(opens));
        device := opens;
        open, inUse := device, device;
      }
    }

    /** Cancels an active job: one that is being printed, one whose request streams it, or one that is still being
        received, is only marked, because its owner still has to complete it; any other leaves the active list. */
    method CancelJob(id: nat, receiving: bool)
      requires Valid() && Known(active, id)
      modifies this`active
      ensures Valid()
      ensures var was := old(active)[Find(old(active), id).value];
        var marks := was.state == Processing || (was.streaming && was.state == Pending) ||
                     (was.state == Held && receiving);
        && Abs() == Apply(old(Abs()), if marks then Cancel(id) else Withdraw(id))
        && (!marks ==> !Known(active, id))
        && (marks ==> |active| == |old(active)|)
        && (marks ==> active[Find(old(active), id).value] == was.(canceled := true))
    {
      hide Inv, Chain, Find, Tickets;
      var i := Find(active, id).value;
      var j := active[i];
      if j.state == Processing || (j.streaming && j.state == Pending) || (j.state == Held && receiving) {
        MarkKeeps(Abs(), Cancel(id));
        active := active[i := j.(canceled := true)];
      } else {
        OwnerIsProcessing(Abs(), i);
        RemovalKeeps(Abs(), Withdraw(id));
        RemovedForGood(Abs(), id);
        RemoveJob(id);
      }
    }

    /** The scheduler's scan, newest job first: it passes jobs that a cut holds back, and leaves a streaming job, and
        whatever is older, to that job's own request. */
    method FirstToStart() returns (found: Option<nat>)
      requires Valid()
      ensures found.Some? ==> found.value < |active| && !active[found.value].streaming
      ensures found.Some? ==> ScanStops(active, Abs().line, found.value)
      ensures found.Some? ==> active[found.value].state == Pending
      ensures found.Some? ==> waiters == null || active[found.value].id <= waiters.jobId
      ensures found.Some? ==> forall k :: found.value < k < |active| && active[k].state == Pending ==>
        waiters != null && waiters.jobId < active[k].id
      ensures found.None? <==>
        || (forall k :: 0 <= k < |active| ==> !Unbarred(active[k], Abs().line))
        || exists k :: ScanStops(active, Abs().line, k) && active[k].streaming
      ensures forall k :: 0 <= k < |active| && Unbarred(active[k], Abs().line) && found.None? ==>
        exists j :: k <= j < |active| && Unbarred(active[j], Abs().line) && active[j].streaming
    {
      hide Inv, Chain, Tickets, Barred;
      for i := |active| downto 0
        invariant forall k :: i <= k < |active| ==> !Unbarred(active[k], Abs().line)
        invariant forall k :: i <= k < |active| && active[k].state == Pending ==>
          waiters != null && waiters.jobId < active[k].id
      {
        if active[i].state == Pending {
          var held := CutBarrier(active[i].id);
          if !held {
            assert ScanStops(active, Abs().line, i);
            StopsNowhereElse(active, Abs().line, i);
            return if active[i].streaming then None else Some(i);
          }
        }
      }
      found := None;
    }

    /** Gives the job that the scan finds a thread, which sets out to print it. */
    method CheckJobs() returns (found: Option<nat>)
      requires Valid()
      modifies this`active
      ensures Valid()
      ensures found.Some? ==>
        && found.value < |old(active)| && (waiters == null || old(active)[found.value].id <= waiters.jobId)
        && active == old(active)[found.value := old(active)[found.value].(starting := true)]
      ensures found.Some? ==>
        && ScanStops(old(active), old(Abs()).line, found.value) && !old(active)[found.value].streaming
        && var e := Begin(old(active)[found.value].id);
           Enabled(old(Abs()), e) && Abs() == Apply(old(Abs()), e)
      ensures found.None? ==> Abs() == old(Abs())
      ensures found.None? <==>
        || (forall k :: 0 <= k < |old(active)| ==> !Unbarred(old(active)[k], old(Abs()).line))
        || exists k :: ScanStops(old(active), old(Abs()).line, k) && old(active)[k].streaming
    {
      hide Chain, Tickets, Inv, ScanStops, Find;
      found := FirstToStart();
      if found.Some? {
        StopMayBegin(Abs(), found.value);
        MarkKeeps(Abs(), Begin(active[found.value].id));
        active := active[found.value := active[found.value].(starting := true)];
      }
    }
  }

  /** At most one record has a job's id, so what holds of some record of it holds of the one that is found. */
  lemma LiveIsFound(q: Q, id: nat)
    requires Inv(q)
    ensures var i := Find(q.active, id);
      (exists k ::
         0 <= k < |q.active| && q.active[k].id == id && !q.active[k].canceled && q.active[k].state != Ended) <==>
      i.Some? && !q.active[i.value].canceled && q.active[i.value].state != Ended
  {
    hide Find, InOrder, LogFits, Owned;
    IdsDiffer(q);
  }

  lemma RemovedForGood(q: Q, id: nat)
    requires Inv(q)
    ensures !Known(Without(q.active, id), id)
  {
    hide InOrder, LogFits, Owned;
    RemovedLined(q, id);
  }

  lemma LeavesUnfolds(q: Q, t: Ticket)
    ensures Leaves(q, t) <==>
      || q.deleted || !q.running
      || (&& q.line != [] && q.line[0] == t && !q.inUse && q.processing == None
          && forall k :: 0 <= k < |q.active| ==> t.boundary < q.active[k].id)
  {}

  lemma OwnerIsProcessing(q: Q, i: nat)
    requires Inv(q) && i < |q.active| && q.active[i].state != Processing
    ensures q.processing != Some(q.active[i].id)
  {
    hide InOrder, LogFits;
  }

  lemma IdsArePositive(q: Q)
    requires Inv(q)
    ensures q.nextJobId > 0
  {}

  lemma StillDistinct<T>(s: seq<T>, k: nat)
    requires k < |s| && forall i, j :: 0 <= i < j < |s| ==> s[i] != s[j]
    ensures forall i, j :: 0 <= i < j < |s| - 1 ==> RemoveAt(s, k)[i] != RemoveAt(s, k)[j]
  {}

  /** Skipping node `k` leaves the chain of the others. */
  lemma Relinked(was: seq<Waiter>, k: nat)
    requires k < |was| && forall i, j :: 0 <= i < j < |was| ==> was[i] != was[j]
    requires Skipping(was, k)
    ensures Chain(if k == 0 then At(was, 1) else was[0], RemoveAt(was, k))
    ensures was[k].next == At(was, k + 1)
  {
    var now := RemoveAt(was, k);
    StillDistinct(was, k);
    forall j | 0 <= j < |now| ensures now[j].next == At(now, j + 1) {
      assert now[j] == was[if j < k then j else j + 1];
    }
  }

  /** The node a waiting cut sees at the head is its own exactly when its ticket is first in line. */
  lemma HeadIsFirst(p: Printer, waiter: Waiter)
    requires p.Valid() && waiter in p.line
    ensures waiter.View() in p.Abs().line
    ensures p.waiters == waiter <==> p.Abs().line[0] == waiter.View()
  {
    var k :| 0 <= k < |p.line| && p.line[k] == waiter;
    assert p.Abs().line[k] == waiter.View();
    assert k > 0 ==> p.Abs().line[0].no < p.Abs().line[k].no;
  }

  lemma PlaceIsUnique(q: Q, i: nat)
    requires Inv(q) && i < |q.line|
    ensures Place(q.line, q.line[i]) == Some(i)
  {
    hide Place, InOrder, LogFits, Owned;
    TicketsDiffer(q.line);
    assert q.line[Place(q.line, q.line[i]).value].no == q.line[i].no;
  }

  lemma TicketsRemoveAt(ws: seq<Waiter>, i: nat)
    requires i < |ws|
    ensures Tickets(RemoveAt(ws, i)) == RemoveAt(Tickets(ws), i)
  {
    var a, b := Tickets(RemoveAt(ws, i)), RemoveAt(Tickets(ws), i);
    forall j | 0 <= j < |a| ensures a[j] == b[j] {
      assert RemoveAt(ws, i)[j] == ws[if j < i then j else j + 1];
    }
  }

  lemma TicketsDropped(ws: seq<Waiter>, i: nat, q: Q)
    requires Inv(q) && q.line == Tickets(ws) && i < |ws|
    ensures Drop(q.line, ws[i].View()) == Tickets(RemoveAt(ws, i))
  {
    hide Place, Inv, Tickets;
    PlaceIsUnique(q, i);
    TicketsRemoveAt(ws, i);
  }

  lemma LeaveUnfolds(q: Q, t: Ticket, got: bool)
    requires Enabled(q, Leave(t, got))
    ensures var left := q.(line := Drop(q.line, t));
      Apply(q, Leave(t, got)) ==
      if !Alive(q) then left
      else left.(open := got, inUse := got, log := q.log + if got then [Acquired(t)] else [])
  {
    hide Drop, Leaves;
  }
}
