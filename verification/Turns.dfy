/** Whose turn it is at the printer: jobs and queued cuts of the patched device queue, one locked section at a time. */
module Turns {
  import opened Bytes

  /** A held job stays in the active list, and waits there until somebody releases or cancels it. */
  datatype JobState = Pending | Held | Processing | Ended

  /** A job is streaming when the request that brought it prints it, and starting once a thread has set out to print
      it. */
  datatype Job = Job(id: nat, canceled: bool, state: JobState, streaming: bool, starting: bool)

  /** A queued acquisition: its place in line, and the last job id assigned when it was admitted. */
  datatype Ticket = Ticket(no: nat, boundary: nat)

  /** History: who got the device, in order. */
  datatype Turn = Started(id: nat) | Acquired(ticket: Ticket)

  datatype Q = Q(nextJobId: nat, active: seq<Job>, line: seq<Ticket>, processing: Option<nat>, inUse: bool, open: bool,
                 deleted: bool, running: bool, tickets: nat, log: seq<Turn>)

  const EMPTY := Q(1, [], [], None, false, false, false, true, 0, [])

  /** No active job at or before the boundary remains. */
  predicate Ready(active: seq<Job>, boundary: nat) {
    forall i :: 0 <= i < |active| ==> boundary < active[i].id
  }

  /** The code's barrier looks at the head of the line only. */
  predicate Barred(line: seq<Ticket>, id: nat) {
    line != [] && line[0].boundary < id
  }

  predicate Alive(q: Q) {
    !q.deleted && q.running
  }

  /** When a waiting cut stops waiting: its turn has come, or the printer is going away. */
  predicate Leaves(q: Q, t: Ticket) {
    !Alive(q) || (q.line != [] && q.line[0] == t && !q.inUse && q.processing == None && Ready(q.active, t.boundary))
  }

  predicate Gone(j: Job) {
    j.canceled || j.state == Ended
  }

  /** When a starting job stops waiting. */
  predicate Decides(q: Q, j: Job) {
    !Alive(q) || Gone(j) || (q.processing == None && !Barred(q.line, j.id))
  }

  predicate Claims(q: Q, j: Job) {
    Decides(q, j) && Alive(q) && !Gone(j) && q.processing == None
  }

  predicate Known(active: seq<Job>, id: nat) {
    exists i :: 0 <= i < |active| && active[i].id == id
  }

  /** The position of a job in the active list. */
  function Find(active: seq<Job>, id: nat): (r: Option<nat>)
    ensures r.Some? ==> r.value < |active| && active[r.value].id == id
    ensures r.None? ==> forall i :: 0 <= i < |active| ==> active[i].id != id
  {
    if active == [] then None
    else if active[|active| - 1].id == id then Some(|active| - 1)
    else Find(active[..|active| - 1], id)
  }

  function RemoveAt<T>(s: seq<T>, i: nat): (r: seq<T>)
    requires i < |s|
    ensures |r| == |s| - 1 && forall k :: 0 <= k < |r| ==> r[k] == if k < i then s[k] else s[k + 1]
  {
    s[..i] + s[i + 1..]
  }

  function Without(active: seq<Job>, id: nat): seq<Job> {
    var i := Find(active, id);
    if i.None? then active else RemoveAt(active, i.value)
  }

  function Place(line: seq<Ticket>, t: Ticket): (r: Option<nat>)
    ensures r.Some? ==> r.value < |line| && line[r.value] == t
    ensures r.None? ==> t !in line
  {
    if line == [] then None
    else if line[|line| - 1] == t then Some(|line| - 1)
    else Place(line[..|line| - 1], t)
  }

  function Drop(line: seq<Ticket>, t: Ticket): seq<Ticket> {
    var i := Place(line, t);
    if i.None? then line else RemoveAt(line, i.value)
  }

  /** Job `id` is now `j`. */
  function With(active: seq<Job>, id: nat, j: Job): seq<Job> {
    var i := Find(active, id);
    if i.None? then active else active[i.value := j]
  }

  datatype Event =
    | Create(held: bool)
    | Admit
    | Leave(ticket: Ticket, got: bool)
    | Claim(id: nat)
    | Finish(id: nat)
    | CloseIdle
    | Cancel(id: nat)
    | Withdraw(id: nat)
    | Hold(id: nat)
    | Release(id: nat)
    | Stream(id: nat)
    | Begin(id: nat)
    | Open(got: bool)
    | Close
    | Delete
    | Stop

  predicate InState(active: seq<Job>, id: nat, state: JobState) {
    var i := Find(active, id);
    i.Some? && active[i.value].state == state
  }

  predicate Enabled(q: Q, e: Event) {
    match e
    case Admit => q.nextJobId > 0
    case Leave(t, _) => t in q.line && Leaves(q, t)
    case Claim(id) =>
      var i := Find(q.active, id);
      i.Some? && q.active[i.value].starting && Claims(q, q.active[i.value])
    case Finish(id) => true
    case CloseIdle => q.processing == None && !q.inUse
    case Cancel(id) => Find(q.active, id).Some?
    case Withdraw(id) => q.processing != Some(id)
    case Hold(id) => InState(q.active, id, Pending)
    case Release(id) => InState(q.active, id, Held)
    case Stream(id) => Find(q.active, id).Some?
    case Begin(id) => InState(q.active, id, Pending)
    case Open(_) => !q.inUse && q.processing == None && !(q.line != [] && Ready(q.active, q.line[0].boundary))
    case Close => q.inUse
    case _ => true
  }

  function Apply(q: Q, e: Event): Q
    requires Enabled(q, e)
  {
    match e
    case Create(held) =>
      q.(active := q.active + [Job(q.nextJobId, false, if held then Held else Pending, false, false)],
         nextJobId := q.nextJobId + 1)
    case Admit => q.(line := q.line + [Ticket(q.tickets, q.nextJobId - 1)], tickets := q.tickets + 1)
    case Leave(t, got) =>
      var left := q.(line := Drop(q.line, t));
      if !Alive(q) then left
      else left.(open := got, inUse := got, log := q.log + if got then [Acquired(t)] else [])
    case Claim(id) =>
      var j := q.active[Find(q.active, id).value];
      q.(active := With(q.active, id, j.(state := Processing)), processing := Some(id), log := q.log + [Started(id)])
    case Finish(id) =>
      q.(active := Without(q.active, id), processing := if q.processing == Some(id) then None else q.processing)
    case CloseIdle => q.(open := false)
    case Cancel(id) => q.(active := With(q.active, id, q.active[Find(q.active, id).value].(canceled := true)))
    case Withdraw(id) => q.(active := Without(q.active, id))
    case Hold(id) => q.(active := With(q.active, id, q.active[Find(q.active, id).value].(state := Held)))
    case Release(id) => q.(active := With(q.active, id, q.active[Find(q.active, id).value].(state := Pending)))
    case Stream(id) => q.(active := With(q.active, id, q.active[Find(q.active, id).value].(streaming := true)))
    case Begin(id) => q.(active := With(q.active, id, q.active[Find(q.active, id).value].(starting := true)))
    case Open(got) => q.(open := got, inUse := got)
    case Close => q.(open := false, inUse := false)
    case Delete => q.(deleted := true)
    case Stop => q.(running := false)
  }

  // ---------- What every step keeps ----------

  /** Every turn in the history is in admission order: a job that started before a cut was admitted before it,
      a job that started after a cut was admitted after it, cuts come in the order they were admitted, and no job
      starts twice. */
  predicate InOrder(log: seq<Turn>) {
    forall i, j :: 0 <= i < j < |log| ==> Before(log[i], log[j])
  }

  predicate Before(a: Turn, b: Turn) {
    match (a, b)
    case (Started(id), Acquired(t)) => id <= t.boundary
    case (Acquired(t), Started(id)) => t.boundary < id
    case (Acquired(t), Acquired(u)) => t.no < u.no && t.boundary <= u.boundary
    case (Started(a), Started(b)) => a != b
  }

  /** What the history says about who may still come. */
  predicate LogFits(q: Q, turn: Turn) {
    match turn
    case Started(id) =>
      && id < q.nextJobId && (forall k :: 0 <= k < |q.line| ==> id <= q.line[k].boundary)
      && (forall k :: 0 <= k < |q.active| && q.active[k].id == id ==> q.active[k].state == Processing)
    case Acquired(t) =>
      && t.boundary < q.nextJobId && t.no < q.tickets && Ready(q.active, t.boundary)
      && forall k :: 0 <= k < |q.line| ==> t.no < q.line[k].no && t.boundary <= q.line[k].boundary
  }

  /** Tickets in order, and their boundaries with them. */
  predicate Rising(line: seq<Ticket>) {
    forall k, l :: 0 <= k < l < |line| ==> line[k].no < line[l].no && line[k].boundary <= line[l].boundary
  }

  /** Job ids and tickets are handed out in order, and never again. */
  predicate Lined(q: Q) {
    && q.nextJobId > 0
    && (forall i :: 0 <= i < |q.active| ==> q.active[i].id < q.nextJobId)
    && (forall i, j :: 0 <= i < j < |q.active| ==> q.active[i].id < q.active[j].id)
    && (forall k :: 0 <= k < |q.line| ==> q.line[k].no < q.tickets && q.line[k].boundary < q.nextJobId)
    && Rising(q.line)
  }

  predicate IsProcessing(active: seq<Job>, id: nat) {
    exists i :: 0 <= i < |active| && active[i].id == id && active[i].state == Processing
  }

  /** The job at the printer is active, and admitted before every waiting cut; no other job is processing. */
  ghost predicate Owned(q: Q) {
    && (forall id: nat :: IsProcessing(q.active, id) <==> q.processing == Some(id))
    && (q.processing.Some? ==> forall k :: 0 <= k < |q.line| ==> q.processing.value <= q.line[k].boundary)
  }

  ghost predicate Inv(q: Q) {
    Lined(q) && Owned(q) && InOrder(q.log) && forall i :: 0 <= i < |q.log| ==> LogFits(q, q.log[i])
  }

  /** Looking at the head is as good as looking at every waiting cut. */
  lemma HeadSpeaksForAll(q: Q, id: nat)
    requires Lined(q)
    ensures Barred(q.line, id) <==> exists k :: 0 <= k < |q.line| && q.line[k].boundary < id
  {
    if k :| 0 <= k < |q.line| && q.line[k].boundary < id {
      assert k > 0 ==> q.line[0].boundary <= q.line[k].boundary;
    }
  }

  lemma OrderSnoc(log: seq<Turn>, turn: Turn)
    requires InOrder(log) && forall i :: 0 <= i < |log| ==> Before(log[i], turn)
    ensures InOrder(log + [turn])
  {}

  /** History stays fitting when the line and the active list only lose members or gain new ones. */
  lemma LogStaysFit(q: Q, q': Q)
    requires Inv(q) && q'.nextJobId >= q.nextJobId && q'.tickets >= q.tickets
    requires forall i :: 0 <= i < |q'.active| ==> Known(q.active, q'.active[i].id) || q'.active[i].id >= q.nextJobId
    requires Lined(q') &&
      forall id: nat :: IsProcessing(q.active, id) ==> IsProcessing(q'.active, id) || !Known(q'.active, id)
    requires forall k :: 0 <= k < |q'.line| ==> q'.line[k] in q.line || q'.line[k] == Ticket(q.tickets, q.nextJobId - 1)
    ensures forall i :: 0 <= i < |q.log| ==> LogFits(q', q.log[i])
  {
    hide InOrder, Owned, Known, IsProcessing, Lined;
    forall i | 0 <= i < |q.log| ensures LogFits(q', q.log[i]) {
      assert LogFits(q, q.log[i]);
      if q.log[i].Acquired? {
        ReadyStays(q.active, q'.active, q.log[i].ticket.boundary, q.nextJobId);
      } else {
        StartedStays(q, q', q.log[i].id);
      }
    }
  }

  /** A started job that is still active is the one that is processing, and no later job gets its id. */
  lemma StartedStays(q: Q, q': Q, id: nat)
    requires LogFits(q, Started(id)) && Lined(q')
    requires forall i :: 0 <= i < |q'.active| ==> Known(q.active, q'.active[i].id) || q'.active[i].id >= q.nextJobId
    requires IsProcessing(q.active, id) ==> IsProcessing(q'.active, id) || !Known(q'.active, id)
    ensures forall k :: 0 <= k < |q'.active| && q'.active[k].id == id ==> q'.active[k].state == Processing
  {
    IdsDiffer(q');
    forall k | 0 <= k < |q'.active| && q'.active[k].id == id ensures q'.active[k].state == Processing {
      assert Known(q'.active, id) && Known(q.active, id);
      var p :| 0 <= p < |q.active| && q.active[p].id == id;
      assert q.active[p].state == Processing;
    }
  }

  lemma ReadyStays(a: seq<Job>, b: seq<Job>, boundary: nat, next: nat)
    requires Ready(a, boundary) && boundary < next
    requires forall i :: 0 <= i < |b| ==> Known(a, b[i].id) || b[i].id >= next
    ensures Ready(b, boundary)
  {}

  lemma CreateKeeps(q: Q, held: bool)
    requires Inv(q)
    ensures Inv(Apply(q, Create(held)))
  {
    hide InOrder, LogFits;
    var q' := Apply(q, Create(held));
    assert forall i :: 0 <= i < |q.active| ==> q'.active[i] == q.active[i];
    forall id: nat ensures IsProcessing(q'.active, id) == IsProcessing(q.active, id) {
      if IsProcessing(q.active, id) {
        var k :| 0 <= k < |q.active| && q.active[k].id == id && q.active[k].state == Processing;
        assert q'.active[k] == q.active[k];
      }
    }
    LogStaysFit(q, q');
  }

  lemma AdmitKeeps(q: Q)
    requires Inv(q)
    ensures Inv(Apply(q, Admit))
  {
    hide InOrder, LogFits;
    LogStaysFit(q, Apply(q, Admit));
  }

  lemma DropStaysLined(line: seq<Ticket>, t: Ticket, tickets: nat, next: nat)
    requires Rising(line) && forall k :: 0 <= k < |line| ==> line[k].no < tickets && line[k].boundary < next
    ensures var d := Drop(line, t);
      && Rising(d) && (forall k :: 0 <= k < |d| ==> d[k].no < tickets && d[k].boundary < next)
      && forall k :: 0 <= k < |d| ==> d[k] in line
  {
    hide Place, Rising;
    if Place(line, t).Some? {
      RisesWithout(line, Place(line, t).value);
    }
  }

  lemma RisesWithout(line: seq<Ticket>, i: nat)
    requires Rising(line) && i < |line|
    ensures Rising(RemoveAt(line, i))
    ensures forall k :: 0 <= k < |line| - 1 ==> RemoveAt(line, i)[k] == line[if k < i then k else k + 1]
  {}

  lemma HeadIsDropped(q: Q, t: Ticket)
    requires Lined(q) && q.line != [] && q.line[0] == t
    ensures Place(q.line, t) == Some(0) && Drop(q.line, t) == q.line[1..]
  {
    hide Place;
    TicketsDiffer(q.line);
    assert q.line[Place(q.line, t).value].no == q.line[0].no;
  }

  lemma TicketsDiffer(line: seq<Ticket>)
    requires Rising(line)
    ensures forall k, l :: 0 <= k < |line| && 0 <= l < |line| && line[k].no == line[l].no ==> k == l
  {}

  lemma LineLeft(q: Q, t: Ticket)
    requires Lined(q)
    ensures Lined(q.(line := Drop(q.line, t)))
    ensures forall k :: 0 <= k < |Drop(q.line, t)| ==> Drop(q.line, t)[k] in q.line
    ensures q.line != [] && q.line[0] == t ==>
      forall k :: 0 <= k < |Drop(q.line, t)| ==>
        t.no < Drop(q.line, t)[k].no && t.boundary <= Drop(q.line, t)[k].boundary
  {
    hide Place;
    DropStaysLined(q.line, t, q.tickets, q.nextJobId);
    if q.line != [] && q.line[0] == t {
      HeadIsDropped(q, t);
    }
  }

  lemma LeaveKeeps(q: Q, t: Ticket, got: bool)
    requires Inv(q) && Enabled(q, Leave(t, got))
    ensures Inv(Apply(q, Leave(t, got)))
  {
    hide InOrder, LogFits, Before, Place, Drop, Find;
    var q' := Apply(q, Leave(t, got));
    LineLeft(q, t);
    LogStaysFit(q, q');
    assert q.log + [] == q.log;
    if Alive(q) && got {
      AcquiredFits(q, t, q');
      OrderSnoc(q.log, Acquired(t));
    }
  }

  lemma AcquiredFits(q: Q, t: Ticket, q': Q)
    requires Inv(q) && q.line != [] && q.line[0] == t && Ready(q.active, t.boundary)
    requires q'.active == q.active && q'.line == Drop(q.line, t)
    requires q'.nextJobId == q.nextJobId && q'.tickets == q.tickets
    ensures LogFits(q', Acquired(t)) && forall i :: 0 <= i < |q.log| ==> Before(q.log[i], Acquired(t))
  {
    hide InOrder, Drop, Owned;
    LineLeft(q, t);
    forall i | 0 <= i < |q.log| ensures Before(q.log[i], Acquired(t)) {
      assert LogFits(q, q.log[i]);
    }
  }

  /** Changing one job's record keeps ids, order and who else is processing. */
  lemma WithKeeps(q: Q, id: nat, j: Job)
    requires Lined(q) && Find(q.active, id).Some? && j.id == id
    ensures var active := With(q.active, id, j);
      && |active| == |q.active| && (forall k :: 0 <= k < |active| ==> active[k].id == q.active[k].id)
      && Lined(q.(active := active))
      && (forall k :: 0 <= k < |active| ==> Known(q.active, active[k].id))
      && (forall p: nat :: p != id ==> (IsProcessing(active, p) <==> IsProcessing(q.active, p)))
      && (IsProcessing(active, id) <==> j.state == Processing)
      && (IsProcessing(q.active, id) <==> q.active[Find(q.active, id).value].state == Processing)
  {
    hide Find;
    var i, a, b := Find(q.active, id).value, q.active, With(q.active, id, j);
    assert b[i] == j && a[i].id == id;
    forall p: nat | p != id ensures IsProcessing(b, p) <==> IsProcessing(a, p) {
      if IsProcessing(a, p) {
        var k :| 0 <= k < |a| && a[k].id == p && a[k].state == Processing;
        assert b[k] == a[k];
      }
      if IsProcessing(b, p) {
        var k :| 0 <= k < |b| && b[k].id == p && b[k].state == Processing;
        assert b[k] == a[k];
      }
    }
  }

  lemma ClaimKeeps(q: Q, id: nat)
    requires Inv(q) && Enabled(q, Claim(id))
    ensures Inv(Apply(q, Claim(id)))
  {
    hide InOrder, LogFits, Before, Find, Lined, With, IsProcessing, Known;
    var q' := Apply(q, Claim(id));
    WithKeeps(q, id, q.active[Find(q.active, id).value].(state := Processing));
    LinedFrame(q.(active := q'.active), q');
    LogStaysFit(q, q');
    HeadSpeaksForAll(q, id);
    FoundIsKnown(q.active, id);
    StartedFits(q, id, q');
    OrderSnoc(q.log, Started(id));
  }

  lemma LinedFrame(q: Q, q': Q)
    requires Lined(q) && q'.nextJobId == q.nextJobId && q'.tickets == q.tickets
    requires q'.line == q.line && q'.active == q.active
    ensures Lined(q')
  {}

  lemma FoundIsKnown(active: seq<Job>, id: nat)
    ensures Find(active, id).Some? <==> Known(active, id)
  {
    hide Find;
  }

  lemma StartedFits(q: Q, id: nat, q': Q)
    requires Inv(q) && Known(q.active, id) && !Barred(q.line, id) && !IsProcessing(q.active, id)
    requires q'.line == q.line && q'.nextJobId == q.nextJobId && Lined(q') && IsProcessing(q'.active, id)
    ensures LogFits(q', Started(id)) && forall i :: 0 <= i < |q.log| ==> Before(q.log[i], Started(id))
  {
    hide InOrder, Owned;
    HeadSpeaksForAll(q, id);
    IdsDiffer(q');
    forall i | 0 <= i < |q.log| ensures Before(q.log[i], Started(id)) {
      assert LogFits(q, q.log[i]);
    }
  }

  lemma RemovedLined(q: Q, id: nat)
    requires Lined(q)
    ensures Lined(q.(active := Without(q.active, id)))
    ensures forall i :: 0 <= i < |Without(q.active, id)| ==> Known(q.active, Without(q.active, id)[i].id)
    ensures !Known(Without(q.active, id), id)
  {
    hide Find, Rising, Known;
    var i := Find(q.active, id);
    if i.Some? {
      RisingIdsWithout(q, i.value);
    } else {
      assert Without(q.active, id) == q.active;
      NobodyKnown(q.active, id);
      RemovedNothing(q.active);
    }
  }

  lemma NobodyKnown(active: seq<Job>, id: nat)
    requires forall i :: 0 <= i < |active| ==> active[i].id != id
    ensures !Known(active, id)
  {}

  lemma RemovedNothing(active: seq<Job>)
    ensures forall i :: 0 <= i < |active| ==> Known(active, active[i].id)
  {}

  lemma RisingIdsWithout(q: Q, i: nat)
    requires Lined(q) && i < |q.active|
    ensures var b := RemoveAt(q.active, i);
      && Lined(q.(active := b)) && (forall k :: 0 <= k < |b| ==> Known(q.active, b[k].id))
      && !Known(b, q.active[i].id)
  {
    hide Rising;
    var a, b := q.active, RemoveAt(q.active, i);
    assert forall k :: 0 <= k < |b| ==> b[k] == a[if k < i then k else k + 1];
  }

  lemma RemovedOther(active: seq<Job>, i: nat, p: nat)
    requires i < |active| && active[i].id != p
    ensures IsProcessing(RemoveAt(active, i), p) <==> IsProcessing(active, p)
  {
    var b := RemoveAt(active, i);
    if IsProcessing(active, p) {
      var k :| 0 <= k < |active| && active[k].id == p && active[k].state == Processing;
      assert b[if k < i then k else k - 1] == active[k];
    }
    if IsProcessing(b, p) {
      var k :| 0 <= k < |b| && b[k].id == p && b[k].state == Processing;
      assert active[if k < i then k else k + 1] == b[k];
    }
  }

  lemma RemovedProcessing(q: Q, id: nat)
    requires Lined(q)
    ensures forall p: nat :: p != id ==> (IsProcessing(Without(q.active, id), p) <==> IsProcessing(q.active, p))
    ensures !IsProcessing(Without(q.active, id), id)
  {
    RemovedLined(q, id);
    hide Find, Lined;
    var i, a, b := Find(q.active, id), q.active, Without(q.active, id);
    if i.Some? {
      forall p: nat | p != id ensures IsProcessing(b, p) <==> IsProcessing(a, p) {
        RemovedOther(a, i.value, p);
      }
    }
  }

  lemma RemovalKeeps(q: Q, e: Event)
    requires Inv(q) && Enabled(q, e) && (e.Finish? || e.Withdraw?)
    ensures Inv(Apply(q, e))
  {
    hide InOrder, LogFits, Find, Without, Known, IsProcessing;
    RemovedLined(q, e.id);
    RemovedProcessing(q, e.id);
    LogStaysFit(q, Apply(q, e));
  }

  /** Marking a job, whatever mark it is, changes neither who is processing nor the order. */
  lemma MarkKeeps(q: Q, e: Event)
    requires Inv(q) && Enabled(q, e)
    requires e.Cancel? || e.Hold? || e.Release? || e.Stream? || e.Begin?
    ensures Inv(Apply(q, e))
  {
    hide InOrder, LogFits, Find, Lined, With, IsProcessing, Known;
    var q' := Apply(q, e);
    var j := q.active[Find(q.active, e.id).value];
    var marked := match e
      case Cancel(_) => j.(canceled := true)
      case Hold(_) => j.(state := Held)
      case Release(_) => j.(state := Pending)
      case Stream(_) => j.(streaming := true)
      case _ => j.(starting := true);
    WithKeeps(q, e.id, marked);
    assert q' == q.(active := With(q.active, e.id, marked));
    LogStaysFit(q, q');
  }

  /** Opening and closing the device, deletion and shutdown touch neither the line nor the jobs. */
  lemma DeviceKeeps(q: Q, e: Event)
    requires Inv(q) && Enabled(q, e) && (e.CloseIdle? || e.Open? || e.Close? || e.Delete? || e.Stop?)
    ensures Inv(Apply(q, e))
  {
    hide InOrder, LogFits, Known, IsProcessing;
    LogFrame(q, Apply(q, e));
  }

  lemma LogFrame(q: Q, q': Q)
    requires q'.nextJobId == q.nextJobId && q'.tickets == q.tickets && q'.line == q.line && q'.active == q.active
    ensures forall turn :: LogFits(q', turn) == LogFits(q, turn)
  {}

  lemma StepKeeps(q: Q, e: Event)
    requires Inv(q) && Enabled(q, e)
    ensures Inv(Apply(q, e))
  {
    hide Inv, Enabled, Apply;
    match e
    case Create(held) => CreateKeeps(q, held);
    case Admit => AdmitKeeps(q);
    case Leave(t, got) => LeaveKeeps(q, t, got);
    case Claim(id) => ClaimKeeps(q, id);
    case Finish(_) => RemovalKeeps(q, e);
    case Withdraw(_) => RemovalKeeps(q, e);
    case Cancel(_) => MarkKeeps(q, e);
    case Hold(_) => MarkKeeps(q, e);
    case Release(_) => MarkKeeps(q, e);
    case Stream(_) => MarkKeeps(q, e);
    case Begin(_) => MarkKeeps(q, e);
    case _ => DeviceKeeps(q, e);
  }

  // ---------- Runs ----------

  predicate IsRun(states: seq<Q>, events: seq<Event>) {
    && |states| == |events| + 1 && states[0] == EMPTY
    && forall i :: 0 <= i < |events| ==> Enabled(states[i], events[i]) && states[i + 1] == Apply(states[i], events[i])
  }

  lemma {:induction false} EveryStateKept(states: seq<Q>, events: seq<Event>, i: nat)
    requires IsRun(states, events) && i < |states|
    ensures Inv(states[i])
  {
    hide Inv, Enabled, Apply;
    if i == 0 {
      EmptyKept();
    } else {
      EveryStateKept(states, events, i - 1);
      StepKeeps(states[i - 1], events[i - 1]);
      assert states[i - 1 + 1] == Apply(states[i - 1], events[i - 1]);
    }
  }

  lemma EmptyKept()
    ensures Inv(EMPTY)
  {}

  /** Device order is admission order, on every run: whatever the interleaving, cancellations, failed opens, polls,
      deletion or shutdown, a job started before a cut acquired the device exactly when it was admitted before it,
      and cuts acquired it first-in first-out. */
  lemma TurnsInAdmissionOrder(states: seq<Q>, events: seq<Event>, n: nat, i: nat, j: nat)
    requires IsRun(states, events) && n < |states|
    requires i < |states[n].log| && j < |states[n].log| && states[n].log[i].Acquired?
    ensures states[n].log[j].Started? ==> (j < i <==> states[n].log[j].id <= states[n].log[i].ticket.boundary)
    ensures states[n].log[j].Acquired? ==> (i < j <==> states[n].log[i].ticket.no < states[n].log[j].ticket.no)
  {
    hide IsRun, Lined, Owned, LogFits;
    EveryStateKept(states, events, n);
    var log := states[n].log;
    assert i < j ==> Before(log[i], log[j]);
    assert j < i ==> Before(log[j], log[i]);
  }

  /** The only ticket with this number is `t`, among those waiting and those that had their turn. */
  predicate OneTicket(q: Q, t: Ticket) {
    && t.no < q.tickets
    && (forall k :: 0 <= k < |q.line| && q.line[k].no == t.no ==> q.line[k] == t)
    && forall i :: 0 <= i < |q.log| && q.log[i].Acquired? && q.log[i].ticket.no == t.no ==> q.log[i].ticket == t
  }

  lemma StillOneTicket(q: Q, e: Event, t: Ticket)
    requires Enabled(q, e) && OneTicket(q, t)
    ensures OneTicket(Apply(q, e), t)
  {
    hide Find, With, Without, Place, Leaves;
    match e
    case Leave(u, got) =>
      assert forall k :: 0 <= k < |Drop(q.line, u)| ==> Drop(q.line, u)[k] in q.line;
    case _ =>
  }

  lemma NewTicket(q: Q)
    requires Inv(q)
    ensures Enabled(q, Admit) && OneTicket(Apply(q, Admit), Ticket(q.tickets, q.nextJobId - 1))
  {
    hide InOrder, Owned;
    forall i | 0 <= i < |q.log| && q.log[i].Acquired? ensures q.log[i].ticket.no < q.tickets {
      assert LogFits(q, q.log[i]);
    }
  }

  lemma {:induction false} AlwaysOneTicket(states: seq<Q>, events: seq<Event>, b: nat, n: nat)
    requires IsRun(states, events) && b < n < |states| && events[b] == Admit
    ensures states[b].nextJobId > 0 && OneTicket(states[n], Ticket(states[b].tickets, states[b].nextJobId - 1))
  {
    hide Enabled, Apply, OneTicket, Inv;
    assert states[n - 1 + 1] == Apply(states[n - 1], events[n - 1]);
    if n == b + 1 {
      EveryStateKept(states, events, b);
      NewTicket(states[b]);
      IdsStartAtOne(states[b]);
    } else {
      AlwaysOneTicket(states, events, b, n - 1);
      StillOneTicket(states[n - 1], events[n - 1], Ticket(states[b].tickets, states[b].nextJobId - 1));
    }
  }

  lemma IdsStartAtOne(q: Q)
    requires Inv(q)
    ensures q.nextJobId > 0
  {}

  lemma {:induction false} IdsGrow(states: seq<Q>, events: seq<Event>, a: nat, b: nat)
    requires IsRun(states, events) && a <= b < |states|
    ensures states[a].nextJobId <= states[b].nextJobId && states[a].tickets <= states[b].tickets
    decreases b
  {
    hide Enabled, Apply;
    if a < b {
      IdsGrow(states, events, a, b - 1);
      assert states[b - 1 + 1] == Apply(states[b - 1], events[b - 1]);
      StepCounts(states[b - 1], events[b - 1]);
    }
  }

  lemma StepCounts(q: Q, e: Event)
    requires Enabled(q, e)
    ensures Apply(q, e).nextJobId == q.nextJobId + if e.Create? then 1 else 0
    ensures Apply(q, e).tickets == q.tickets + if e.Admit? then 1 else 0
  {
    hide With, Without, Drop, Find, Leaves;
  }

  /** Turns follow the order in which requests came: on every run, the job that event `a` brought started before the cut
      that event `b` brought got the device exactly when it came before it, and of two cuts the one that came first got
      it first. */
  lemma TurnsFollowRequests(states: seq<Q>, events: seq<Event>, n: nat, i: nat, j: nat, a: nat, b: nat)
    requires IsRun(states, events) && n < |states| && i < |states[n].log| && j < |states[n].log|
    requires a < n && b < n && events[b] == Admit && states[n].log[i].Acquired?
    requires states[n].log[i].ticket.no == states[b].tickets
    ensures events[a].Create? && states[n].log[j] == Started(states[a].nextJobId) ==> (j < i <==> a < b)
    ensures events[a] == Admit && states[n].log[j].Acquired? && states[n].log[j].ticket.no == states[a].tickets ==>
      (j < i <==> a < b)
  {
    hide OneTicket, Enabled, Apply;
    AlwaysOneTicket(states, events, b, n);
    TicketTaken(states[n], Ticket(states[b].tickets, states[b].nextJobId - 1), i);
    TurnsInAdmissionOrder(states, events, n, i, j);
    if states[n].log[j].Acquired? {
      TurnsInAdmissionOrder(states, events, n, j, i);
    }
    Counted(states, events, a);
    Counted(states, events, b);
    if a < b {
      IdsGrow(states, events, a + 1, b);
    } else if a > b {
      IdsGrow(states, events, b + 1, a);
    }
  }

  lemma TicketTaken(q: Q, t: Ticket, i: nat)
    requires OneTicket(q, t) && i < |q.log| && q.log[i].Acquired? && q.log[i].ticket.no == t.no
    ensures q.log[i].ticket == t
  {}

  /** Each new job takes the next id, and each new cut the next number. */
  lemma Counted(states: seq<Q>, events: seq<Event>, a: nat)
    requires IsRun(states, events) && a < |events|
    ensures events[a].Create? ==> states[a + 1].nextJobId == states[a].nextJobId + 1
    ensures events[a] == Admit ==>
      states[a + 1].tickets == states[a].tickets + 1 && states[a + 1].nextJobId == states[a].nextJobId
  {
    hide Enabled, Apply;
    assert states[a + 1] == Apply(states[a], events[a]);
    StepCounts(states[a], events[a]);
  }

  /** No job starts twice, on any run. */
  lemma JobsStartOnce(states: seq<Q>, events: seq<Event>, n: nat, i: nat, j: nat)
    requires IsRun(states, events) && n < |states| && i < |states[n].log| && j < |states[n].log|
    requires states[n].log[i].Started? && states[n].log[j] == states[n].log[i]
    ensures i == j
  {
    hide IsRun, Lined, Owned, LogFits, Before;
    EveryStateKept(states, events, n);
    NotBeforeItself(states[n].log[i]);
  }

  lemma NotBeforeItself(turn: Turn)
    ensures !Before(turn, turn)
  {}

  /** Only a job that nobody canceled becomes the owner: one that is active, on a live printer that nobody owns, and
      admitted before the head of the line. */
  lemma OwnerWasLive(q: Q, e: Event)
    requires Enabled(q, e) && Apply(q, e).processing.Some? && Apply(q, e).processing != q.processing
    ensures var id := Apply(q, e).processing.value;
      && q.processing == None && !q.deleted && q.running && (q.line == [] || id <= q.line[0].boundary)
      && Apply(q, e).log == q.log + [Started(id)]
      && exists k :: 0 <= k < |q.active| && q.active[k].id == id && !q.active[k].canceled && q.active[k].state != Ended
  {
    hide With, Without, Drop;
  }

  /** The job was canceled, or has left the active list for good. */
  predicate OutOfTheRun(q: Q, id: nat) {
    id < q.nextJobId && forall k :: 0 <= k < |q.active| && q.active[k].id == id ==> q.active[k].canceled
  }

  lemma WithStaysOut(q: Q, id: nat, p: nat, j: Job)
    requires OutOfTheRun(q, id) && Find(q.active, p).Some? && j.id == p
    requires j.canceled || !q.active[Find(q.active, p).value].canceled
    ensures OutOfTheRun(q.(active := With(q.active, p, j)), id)
  {
    hide Find;
    var i := Find(q.active, p).value;
    if p == id {
      assert q.active[i].canceled;
    }
  }

  lemma WithoutStaysOut(q: Q, id: nat, p: nat)
    requires OutOfTheRun(q, id)
    ensures OutOfTheRun(q.(active := Without(q.active, p)), id)
  {
    hide Find;
  }

  /** Such a job stays so, and no step starts it. */
  lemma StepLeavesItOut(q: Q, e: Event, id: nat)
    requires Enabled(q, e) && OutOfTheRun(q, id)
    ensures var q' := Apply(q, e);
      && OutOfTheRun(q', id) && q.log <= q'.log
      && forall p :: |q.log| <= p < |q'.log| ==> q'.log[p] != Started(id)
  {
    hide Find, With, Without, Drop, Leaves, Barred;
    LogGrows(q, e, id);
    match e
    case Claim(p) => WithStaysOut(q, id, p, q.active[Find(q.active, p).value].(state := Processing));
    case Finish(p) => WithoutStaysOut(q, id, p);
    case Withdraw(p) => WithoutStaysOut(q, id, p);
    case Cancel(p) => WithStaysOut(q, id, p, q.active[Find(q.active, p).value].(canceled := true));
    case Hold(p) => WithStaysOut(q, id, p, q.active[Find(q.active, p).value].(state := Held));
    case Release(p) => WithStaysOut(q, id, p, q.active[Find(q.active, p).value].(state := Pending));
    case Stream(p) => WithStaysOut(q, id, p, q.active[Find(q.active, p).value].(streaming := true));
    case Begin(p) => WithStaysOut(q, id, p, q.active[Find(q.active, p).value].(starting := true));
    case _ =>
  }

  lemma LogGrows(q: Q, e: Event, id: nat)
    requires Enabled(q, e) && OutOfTheRun(q, id)
    ensures var log := Apply(q, e).log;
      && q.log <= log && |log| <= |q.log| + 1
      && (|log| > |q.log| ==> log[|q.log|] != Started(id))
  {
    hide With, Without, Drop, Leaves, Barred;
    assert q.log + [] == q.log;
  }

  /** The job is canceled, in either way, or completes. */
  predicate TakesOut(q: Q, e: Event, id: nat) {
    e == Cancel(id) || (Known(q.active, id) && (e == Withdraw(id) || e == Finish(id)))
  }

  lemma TakenOut(q: Q, e: Event, id: nat)
    requires Inv(q) && Enabled(q, e) && TakesOut(q, e, id)
    ensures OutOfTheRun(Apply(q, e), id) && Apply(q, e).log == q.log
  {
    hide Find, InOrder, LogFits, Owned;
    FoundIsKnown(q.active, id);
    var i := Find(q.active, id).value;
    if e == Cancel(id) {
      IdsDiffer(q);
      var active := With(q.active, id, q.active[i].(canceled := true));
      assert forall k :: 0 <= k < |active| ==> active[k].id == q.active[k].id;
    } else {
      RemovedLined(q, id);
      assert forall k :: 0 <= k < |Without(q.active, id)| ==> Without(q.active, id)[k].id != id;
    }
  }

  lemma {:induction false} StaysOut(states: seq<Q>, events: seq<Event>, i: nat, n: nat, id: nat)
    requires IsRun(states, events) && i <= n < |states| && OutOfTheRun(states[i], id)
    ensures OutOfTheRun(states[n], id) && states[i].log <= states[n].log
    ensures forall p :: |states[i].log| <= p < |states[n].log| ==> states[n].log[p] != Started(id)
    decreases n
  {
    hide Enabled, Apply, OutOfTheRun;
    if i < n {
      StaysOut(states, events, i, n - 1, id);
      assert states[n - 1 + 1] == Apply(states[n - 1], events[n - 1]);
      StepLeavesItOut(states[n - 1], events[n - 1], id);
    }
  }

  /** On every run, no job starts after it was canceled, whichever way, or after it completed. */
  lemma CanceledNeverStarts(states: seq<Q>, events: seq<Event>, i: nat, n: nat, id: nat)
    requires IsRun(states, events) && i < n < |states| && TakesOut(states[i], events[i], id)
    ensures states[i].log <= states[n].log
    ensures forall p :: |states[i].log| <= p < |states[n].log| ==> states[n].log[p] != Started(id)
  {
    hide Enabled, Apply, OutOfTheRun, Inv, TakesOut;
    EveryStateKept(states, events, i);
    assert states[i + 1] == Apply(states[i], events[i]);
    TakenOut(states[i], events[i], id);
    StaysOut(states, events, i + 1, n, id);
  }

  /** A cut acquires the device only after every job admitted before it has left; a waiting cut holds back every job
      admitted after it; and no later step brings an earlier job back. */
  lemma CutSeparatesJobs(q: Q, t: Ticket, e: Event)
    requires Inv(q) && t in q.line && Enabled(q, e)
    ensures e.Leave? && e.ticket == t && Alive(q) ==> Ready(q.active, t.boundary) && q.processing == None && !q.inUse
    ensures e.Claim? ==> e.id <= t.boundary
    ensures q.processing.Some? ==> q.processing.value <= t.boundary
  {
    hide InOrder, LogFits, Find;
    if e.Claim? {
      HeadSpeaksForAll(q, e.id);
    }
  }

  /** The printer is claimed only when nobody holds it, and given up only by the job that holds it. */
  lemma OwnershipIsExclusive(q: Q, e: Event)
    requires Enabled(q, e) && Apply(q, e).processing != q.processing
    ensures if q.processing == None then e.Claim? && Apply(q, e).processing == Some(e.id)
            else e.Finish? && q.processing == Some(e.id) && Apply(q, e).processing == None
  {}

  /** The device is taken only when it is free and no job is processing, and a poll never takes it before a cut
      whose turn has come. */
  lemma DeviceIsExclusive(q: Q, e: Event)
    requires Enabled(q, e) && !q.inUse && Apply(q, e).inUse
    ensures q.processing == None && (e.Open? || e.Leave?)
    ensures e.Open? ==> q.line == [] || !Ready(q.active, q.line[0].boundary)
  {}

  // ---------- Progress ----------

  /** Something can happen to this job without anybody's help: it is gone and will leave, a thread that set out to print
      it may take the printer, or a thread may set out to print it. */
  predicate CanMove(q: Q, j: Job) {
    Gone(j) || (j.starting && Claims(q, j)) || j.state == Pending
  }

  /** Nothing but a held job is in the way: nobody has set out to print it, and nobody has canceled it. */
  predicate OnHold(j: Job) {
    j.state == Held && !j.starting && !j.canceled
  }

  /** The head of the line may take the device, or a job admitted before it can move. */
  predicate Moves(q: Q)
    requires q.line != []
  {
    Leaves(q, q.line[0]) ||
    exists i :: 0 <= i < |q.active| && q.active[i].id <= q.line[0].boundary && CanMove(q, q.active[i])
  }

  /** There are jobs before the boundary, and all of them are on hold. */
  predicate AllOnHold(active: seq<Job>, boundary: nat) {
    !Ready(active, boundary) && forall i :: 0 <= i < |active| && active[i].id <= boundary ==> OnHold(active[i])
  }

  /** No circular wait: while cuts wait at a live idle printer, someone can move, unless every job admitted before the
      head is held, exactly then nobody can; and the barrier holds back none of these jobs. */
  lemma SomeoneCanMove(q: Q)
    requires Inv(q) && Alive(q) && q.line != [] && q.processing == None && !q.inUse
    ensures Moves(q) <==> !AllOnHold(q.active, q.line[0].boundary)
    ensures forall i :: 0 <= i < |q.active| && q.active[i].id <= q.line[0].boundary ==>
      !Barred(q.line, q.active[i].id)
  {
    hide InOrder, LogFits, Lined;
    forall i | 0 <= i < |q.active| && q.active[i].id <= q.line[0].boundary
      ensures CanMove(q, q.active[i]) <==> !OnHold(q.active[i])
    {
      assert q.active[i].state == Processing ==> IsProcessing(q.active, q.active[i].id);
    }
  }

  /** A pending job before the boundary needs nothing else: a thread may set out to print it, and may then claim. */
  lemma PendingJobMayClaim(q: Q, id: nat)
    requires Inv(q) && Alive(q) && q.processing == None && !Barred(q.line, id)
    requires InState(q.active, id, Pending) && !q.active[Find(q.active, id).value].canceled
    ensures Enabled(q, Begin(id)) && Enabled(Apply(q, Begin(id)), Claim(id))
  {
    hide InOrder, LogFits, Find, Owned, IsProcessing;
    var q' := Apply(q, Begin(id));
    WithKeeps(q, id, q.active[Find(q.active, id).value].(starting := true));
    SameIds(q, q');
    FoundSame(q, q', id);
  }

  /** A pending job that no waiting cut bars. */
  predicate Unbarred(j: Job, line: seq<Ticket>) {
    j.state == Pending && !Barred(line, j.id)
  }

  /** Where the scheduler's scan stops: the newest of these. */
  predicate ScanStops(active: seq<Job>, line: seq<Ticket>, i: int) {
    0 <= i < |active| && Unbarred(active[i], line) && forall j :: i < j < |active| ==> !Unbarred(active[j], line)
  }

  /** The scan stops somewhere exactly when some pending job is not barred, at that job or at a newer one. */
  lemma {:induction false} ScanStopsSomewhere(active: seq<Job>, line: seq<Ticket>, k: nat)
    requires k < |active| && Unbarred(active[k], line)
    ensures exists i :: k <= i && ScanStops(active, line, i)
    decreases |active| - k
  {
    hide Unbarred;
    if j :| k < j < |active| && Unbarred(active[j], line) {
      ScanStopsSomewhere(active, line, j);
    } else {
      assert ScanStops(active, line, k);
    }
  }

  /** However many barred followers lead the list, releasing a held job makes the scan stop at it or at a newer job that
      was admitted before the head too. */
  lemma ReleaseIsScanned(q: Q, id: nat)
    requires Inv(q) && q.line != [] && id <= q.line[0].boundary && InState(q.active, id, Held)
    ensures var q' := Apply(q, Release(id));
      exists i :: ScanStops(q'.active, q'.line, i) && id <= q'.active[i].id <= q.line[0].boundary
  {
    hide InOrder, LogFits, Find, Owned, IsProcessing, ScanStops;
    var k := Find(q.active, id).value;
    var q' := Apply(q, Release(id));
    WithKeeps(q, id, q.active[k].(state := Pending));
    assert q'.active[k].id == id && q'.active[k].state == Pending;
    assert Unbarred(q'.active[k], q'.line);
    ScanStopsSomewhere(q'.active, q'.line, k);
    var i :| k <= i && ScanStops(q'.active, q'.line, i);
    StopIsOpen(q'.active, q'.line, i);
    assert k < i ==> q'.active[k].id < q'.active[i].id;
  }

  lemma StopIsOpen(active: seq<Job>, line: seq<Ticket>, i: nat)
    requires ScanStops(active, line, i)
    ensures i < |active| && active[i].state == Pending && !Barred(line, active[i].id)
  {}

  /** The scan has one place to stop at most. */
  lemma StopsNowhereElse(active: seq<Job>, line: seq<Ticket>, i: int)
    requires ScanStops(active, line, i)
    ensures forall k :: ScanStops(active, line, k) ==> k == i
  {
    hide Unbarred;
  }

  /** The job the scan stops at is the one its id names. */
  lemma StopMayBegin(q: Q, i: nat)
    requires Inv(q) && ScanStops(q.active, q.line, i)
    ensures Find(q.active, q.active[i].id) == Some(i) && Enabled(q, Begin(q.active[i].id))
  {
    hide Find, InOrder, LogFits, Owned;
    IdsDiffer(q);
    assert Find(q.active, q.active[i].id).Some?;
  }

  lemma IdsDiffer(q: Q)
    requires Lined(q)
    ensures forall i, k :: 0 <= i < |q.active| && 0 <= k < |q.active| && q.active[i].id == q.active[k].id ==> i == k
  {}

  lemma SameIds(q: Q, q': Q)
    requires |q'.active| == |q.active| && forall k :: 0 <= k < |q.active| ==> q'.active[k].id == q.active[k].id
    ensures forall id: nat :: Known(q.active, id) ==> Known(q'.active, id)
  {
    forall id: nat | Known(q.active, id) ensures Known(q'.active, id) {
      var k :| 0 <= k < |q.active| && q.active[k].id == id;
      assert q'.active[k].id == id;
    }
  }

  lemma FoundSame(q: Q, q': Q, id: nat)
    requires Lined(q) && |q'.active| == |q.active| && Find(q.active, id).Some?
    requires forall k :: 0 <= k < |q.active| ==> q'.active[k].id == q.active[k].id
    ensures Find(q'.active, id) == Find(q.active, id)
  {
    hide Find;
    var i := Find(q.active, id).value;
    assert q'.active[i].id == id;
    var k := Find(q'.active, id);
    assert k.Some? && q.active[k.value].id == q.active[i].id;
  }

  /** A held job admitted before a cut does keep the cut waiting, with nothing else in the system to move. */
  lemma HeldJobBlocks() returns (states: seq<Q>, events: seq<Event>)
    ensures IsRun(states, events) && Alive(states[|events|]) && states[|events|].line != []
    ensures states[|events|].processing == None && !states[|events|].inUse && !Moves(states[|events|])
  {
    var a := Apply(EMPTY, Create(true));
    var b := Apply(a, Admit);
    states, events := [EMPTY, a, b], [Create(true), Admit];
    assert b.active == [Job(1, false, Held, false, false)] && b.line == [Ticket(0, 1)];
    assert b.active[0].id <= b.line[0].boundary;
    EveryStateKept(states, events, 2);
    SomeoneCanMove(b);
  }

  /** Somebody lets a held job go: it is released, canceled or withdrawn, or it finishes. */
  predicate LetsGo(e: Event, boundary: nat) {
    (e.Release? || e.Cancel? || e.Withdraw? || e.Finish?) && e.id <= boundary
  }

  lemma WithKeepsHold(active: seq<Job>, id: nat, j: Job, boundary: nat)
    requires AllOnHold(active, boundary) && j.id == id && (id > boundary || OnHold(j))
    ensures AllOnHold(With(active, id, j), boundary)
  {
    hide Find, OnHold;
    var w :| 0 <= w < |active| && active[w].id <= boundary;
    assert With(active, id, j)[w].id == active[w].id;
  }

  lemma RemoveKeepsHold(active: seq<Job>, i: nat, boundary: nat)
    requires AllOnHold(active, boundary) && i < |active| && active[i].id > boundary
    ensures AllOnHold(RemoveAt(active, i), boundary)
  {
    hide OnHold;
    var b := RemoveAt(active, i);
    var w :| 0 <= w < |active| && active[w].id <= boundary;
    assert b[if w < i then w else w - 1] == active[w];
  }

  lemma WithoutKeepsHold(active: seq<Job>, id: nat, boundary: nat)
    requires AllOnHold(active, boundary) && id > boundary
    ensures AllOnHold(Without(active, id), boundary)
  {
    hide Find, AllOnHold;
    if Find(active, id).Some? {
      RemoveKeepsHold(active, Find(active, id).value, boundary);
    }
  }

  lemma SnocKeepsHold(active: seq<Job>, j: Job, boundary: nat)
    requires AllOnHold(active, boundary) && j.id > boundary
    ensures AllOnHold(active + [j], boundary)
  {
    var w :| 0 <= w < |active| && active[w].id <= boundary;
    assert (active + [j])[w] == active[w];
  }

  /** Jobs on hold do not claim, and a cut behind them does not leave. */
  lemma OnHoldStandsStill(q: Q, e: Event)
    requires Inv(q) && Enabled(q, e) && Alive(q) && q.line != [] && AllOnHold(q.active, q.line[0].boundary)
    ensures !e.Claim? && !e.Leave?
  {
    hide InOrder, LogFits, Lined;
  }

  /** Only that, deletion or shutdown can end such a wait: every other step leaves the head where it is and its earlier
      jobs on hold. */
  lemma OnHoldUntilLetGo(q: Q, e: Event)
    requires Inv(q) && Enabled(q, e) && Alive(q) && q.line != [] && AllOnHold(q.active, q.line[0].boundary)
    requires !LetsGo(e, q.line[0].boundary) && !e.Delete? && !e.Stop?
    ensures var q' := Apply(q, e);
      Alive(q') && q'.line != [] && q'.line[0] == q.line[0] && AllOnHold(q'.active, q.line[0].boundary)
  {
    hide InOrder, LogFits, Find, Owned, With, Without, AllOnHold;
    OnHoldStandsStill(q, e);
    var boundary := q.line[0].boundary;
    match e
    case Create(held) =>
      SnocKeepsHold(q.active, Job(q.nextJobId, false, if held then Held else Pending, false, false), boundary);
    case Finish(id) => WithoutKeepsHold(q.active, id, boundary);
    case Withdraw(id) => WithoutKeepsHold(q.active, id, boundary);
    case Cancel(id) => WithKeepsHold(q.active, id, q.active[Find(q.active, id).value].(canceled := true), boundary);
    case Release(id) => WithKeepsHold(q.active, id, q.active[Find(q.active, id).value].(state := Pending), boundary);
    case Hold(id) =>
      PendingIsLater(q.active, id, boundary);
      WithKeepsHold(q.active, id, q.active[Find(q.active, id).value].(state := Held), boundary);
    case Begin(id) =>
      PendingIsLater(q.active, id, boundary);
      WithKeepsHold(q.active, id, q.active[Find(q.active, id).value].(starting := true), boundary);
    case Stream(id) =>
      HeldOrLater(q.active, id, boundary);
      WithKeepsHold(q.active, id, q.active[Find(q.active, id).value].(streaming := true), boundary);
    case _ =>
  }

  lemma PendingIsLater(active: seq<Job>, id: nat, boundary: nat)
    requires AllOnHold(active, boundary) && InState(active, id, Pending)
    ensures id > boundary
  {
    hide Find;
  }

  lemma HeldOrLater(active: seq<Job>, id: nat, boundary: nat)
    requires AllOnHold(active, boundary) && Find(active, id).Some?
    ensures id > boundary || OnHold(active[Find(active, id).value])
  {
    hide Find;
  }
}
