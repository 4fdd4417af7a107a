/** The device queue and the driver together: callbacks come from whoever holds the printer, and what is printed comes
    in the order of admission. */
module Server {
  import opened Bytes
  import opened Client
  import opened Decoder
  import opened Device
  import opened LiveWire
  import opened Runs
  import opened Safety
  import opened Session
  import opened Protocol
  import opened Stream
  import opened Tables
  import Turns

  /** How far the job at the printer is: before its start callback, between start and end, or past it. */
  datatype Phase = Claimed | Begun | Over

  /** The queue, the driver's state, and who holds what. `owner` and `cut` are places in the queue's history: where the
      job at the printer started, and where the cut with the device acquired it. `made` is history: whose turn made
      each record. */
  datatype V = V(q: Turns.Q, s: S, polling: bool, cut: Option<nat>, ran: bool, owner: nat, phase: Phase, made: seq<nat>)

  const FRESH := V(Turns.EMPTY, INITIAL, false, None, false, 0, Over, [])

  /** One locked section of the queue; a callback of the job at the printer; the operation of the cut with the device;
      or a status callback. */
  datatype Act = Line(e: Turns.Event) | Job(call: Event) | Cut(call: Event) | Poll(call: Event)

  /** A job's callbacks come while it owns the printer and nobody else uses the device: it starts once, and gives the
      printer up only before its start callback or after its end. A cut runs once, while it has the device. A poll reads
      while it has the device, and finds the printer unplugged only while no job is processing. */
  predicate Allowed(v: V, a: Act) {
    match a
    case Line(e) => Turns.Enabled(v.q, e) && (e.Finish? && v.q.processing == Some(e.id) ==> v.phase != Begun)
    case Job(e) =>
      && v.q.processing.Some? && !v.q.inUse && !e.CutHeld? && !e.Unplugged?
      && (e.StartJob? || e.Observe? ==> v.phase == Claimed)
    case Cut(e) => v.cut.Some? && !v.ran && e.CutHeld?
    case Poll(e) => (e.Observe? && v.polling) || (e.Unplugged? && v.q.processing == None)
  }

  /** A cut leaves the line with the device. */
  predicate Acquires(q: Turns.Q, e: Turns.Event) {
    e.Leave? && e.got && Turns.Alive(q)
  }

  /** The turn that a callback belongs to. */
  function TurnOf(v: V, a: Act): nat {
    if a.Cut? && v.cut.Some? then v.cut.value else v.owner
  }

  ghost predicate Next(model: Model, live: bool, v: V, a: Act, v': V) {
    && Allowed(v, a)
    && match a
       case Line(e) =>
         && v'.q == Turns.Apply(v.q, e) && v'.s == v.s && v'.made == v.made
         && v'.polling == (if e.Open? then e.got else if e.Close? then false else v.polling)
         && v'.cut == (if Acquires(v.q, e) then Some(|v.q.log|) else if e.Close? then None else v.cut)
         && v'.ran == (v.ran && !Acquires(v.q, e))
         && v'.owner == (if e.Claim? then |v.q.log| else v.owner)
         && v'.phase == (if e.Claim? then Claimed else v.phase)
       case _ =>
         && Step(model, live, v.s, a.call, v'.s)
         && v'.made == v.made + (if v'.s.done == v.s.done then [] else [TurnOf(v, a)])
         && v' == v.(s := v'.s, made := v'.made, ran := v.ran || a.Cut?, phase := PhaseAfter(v.phase, a))
  }

  function PhaseAfter(phase: Phase, a: Act): Phase {
    if !a.Job? then phase
    else if a.call.StartJob? then if a.call.ok then Begun else Over
    else if a.call.EndJob? then Over
    else phase
  }

  // ---------- What every step keeps ----------

  /** The device is in use by one poll or one cut, and a batch is live only in the hands of the one owner. */
  predicate Held(v: V) {
    && (v.q.inUse <==> v.polling || v.cut.Some?) && !(v.polling && v.cut.Some?)
    && (v.s.batch.Some? ==> v.q.processing.Some? && !v.q.inUse && v.phase == Begun)
  }

  /** Who is at the printer is in the history of turns. */
  predicate Placed(v: V) {
    && (v.q.processing.Some? ==> v.owner < |v.q.log| && v.q.log[v.owner] == Turns.Started(v.q.processing.value))
    && (v.cut.Some? ==> v.cut.value < |v.q.log| && v.q.log[v.cut.value].Acquired?)
    && (v.q.processing.Some? && v.cut.Some? ==> v.cut.value < v.owner)
  }

  /** Every record was made in a turn of its kind, and no turn made two; whoever can still make one has a later turn. */
  predicate Credited(v: V) {
    && |v.made| == |v.s.done|
    && (forall k :: 0 <= k < |v.made| ==>
          v.made[k] < |v.q.log| && (v.s.done[k].Release? <==> v.q.log[v.made[k]].Acquired?))
    && (forall i, k :: 0 <= i < k < |v.made| ==> v.made[i] < v.made[k])
    && (v.q.processing.Some? && v.phase != Over ==> forall k :: 0 <= k < |v.made| ==> v.made[k] < v.owner)
    && (v.cut.Some? && !v.ran ==> forall k :: 0 <= k < |v.made| ==> v.made[k] < v.cut.value)
  }

  ghost predicate Kept(model: Model, live: bool, v: V) {
    Turns.Inv(v.q) && Inv(model, live, v.s) && Held(v) && Placed(v) && Credited(v)
  }

  /** What a locked section does to the parts of the queue that matter here. */
  lemma LineMoves(q: Turns.Q, e: Turns.Event)
    requires Turns.Enabled(q, e)
    ensures var q' := Turns.Apply(q, e);
      && q.log <= q'.log && |q'.log| <= |q.log| + 1
      && (e.Claim? ==> q.processing == None && q'.processing == Some(e.id) && q'.log == q.log + [Turns.Started(e.id)])
      && (Acquires(q, e) ==>
            !q.inUse && q.processing == None && q'.log == q.log + [Turns.Acquired(e.ticket)])
      && (!e.Claim? && !(e.Finish? && q.processing == Some(e.id)) ==> q'.processing == q.processing)
      && (e.Finish? && q.processing == Some(e.id) ==> q'.processing == None)
      && q'.inUse == (if e.Open? then e.got else if e.Close? then false
                      else if e.Leave? && Turns.Alive(q) then e.got else q.inUse)
      && (e.Open? ==> !q.inUse && q.processing == None) && (e.Leave? && Turns.Alive(q) ==> !q.inUse)
  {
    hide Turns.Find, Turns.Drop, Turns.With, Turns.Without;
  }

  lemma LineKeeps(model: Model, live: bool, v: V, e: Turns.Event, v': V)
    requires Kept(model, live, v) && Next(model, live, v, Line(e), v')
    ensures Kept(model, live, v')
  {
    hide Turns.Inv, Inv, Turns.Enabled, Turns.Apply;
    Turns.StepKeeps(v.q, e);
    LineMoves(v.q, e);
  }

  /** A callback adds at most one record, of its own kind, and only the start callback makes a batch. */
  lemma CallbackAdds(model: Model, live: bool, s: S, e: Event, s': S)
    requires Step(model, live, s, e, s')
    ensures s'.done == s.done || (s.done < s'.done && |s'.done| == |s.done| + 1)
    ensures |s'.done| > |s.done| ==>
      if s'.done[|s.done|].Release? then e.CutHeld? else e.EndJob? && s.batch.Some?
    ensures s'.batch.Some? ==> s.batch.Some? || (e.StartJob? && e.ok)
    ensures e.EndJob? ==> s'.batch == None
  {
    hide Sending, PublishAll, Exchanges, OnlyRequests, Clean, RowOf, WidthMatches, InOrder, MarginsInWindow, PageTape,
         Transmitted, Setup, Page, BlankContinuation;
  }

  lemma CallKeeps(model: Model, live: bool, v: V, a: Act, v': V)
    requires Kept(model, live, v) && Next(model, live, v, a, v') && !a.Line?
    ensures Kept(model, live, v')
  {
    hide Turns.Inv, Inv, Step;
    StepKeeps(model, live, v.s, a.call, v'.s);
    CallbackAdds(model, live, v.s, a.call, v'.s);
  }

  // ---------- Runs ----------

  /** A run of the whole server, from a fresh start. */
  ghost predicate IsService(model: Model, live: bool, vs: seq<V>, acts: seq<Act>) {
    && |vs| == |acts| + 1 && vs[0] == FRESH
    && forall i :: 0 <= i < |acts| ==> Next(model, live, vs[i], acts[i], vs[i + 1])
  }

  lemma {:induction false} EveryMomentKept(model: Model, live: bool, vs: seq<V>, acts: seq<Act>, n: nat)
    requires IsService(model, live, vs, acts) && n < |vs|
    ensures Kept(model, live, vs[n])
  {
    hide Kept, Next;
    if n == 0 {
      FreshIsKept(model, live);
    } else {
      EveryMomentKept(model, live, vs, acts, n - 1);
      assert Next(model, live, vs[n - 1], acts[n - 1], vs[n - 1 + 1]);
      if acts[n - 1].Line? {
        LineKeeps(model, live, vs[n - 1], acts[n - 1].e, vs[n]);
      } else {
        CallKeeps(model, live, vs[n - 1], acts[n - 1], vs[n]);
      }
    }
  }

  lemma FreshIsKept(model: Model, live: bool)
    ensures Kept(model, live, FRESH)
  {
    Turns.EmptyKept();
    InitialInv(model, live);
  }

  /** The driver's part of a run of the server is a run of the driver. */
  lemma {:induction false} DriverRuns(model: Model, live: bool, vs: seq<V>, acts: seq<Act>, n: nat)
    returns (states: seq<S>, events: seq<Event>)
    requires IsService(model, live, vs, acts) && n < |vs|
    ensures IsRun(model, live, states, events) && states[|events|] == vs[n].s
  {
    hide Step, Allowed;
    if n == 0 {
      return [INITIAL], [];
    }
    states, events := DriverRuns(model, live, vs, acts, n - 1);
    assert Next(model, live, vs[n - 1], acts[n - 1], vs[n - 1 + 1]);
    if !acts[n - 1].Line? {
      RunExtends(model, live, states, events, acts[n - 1].call, vs[n].s);
      states, events := states + [vs[n].s], events + [acts[n - 1].call];
    }
  }

  /** The queue's part is a run of the queue. */
  lemma {:induction false} QueueRuns(model: Model, live: bool, vs: seq<V>, acts: seq<Act>, n: nat)
    returns (states: seq<Turns.Q>, events: seq<Turns.Event>)
    requires IsService(model, live, vs, acts) && n < |vs|
    ensures Turns.IsRun(states, events) && states[|events|] == vs[n].q
  {
    hide Step, Turns.Enabled, Turns.Apply;
    if n == 0 {
      return [Turns.EMPTY], [];
    }
    states, events := QueueRuns(model, live, vs, acts, n - 1);
    assert Next(model, live, vs[n - 1], acts[n - 1], vs[n - 1 + 1]);
    if acts[n - 1].Line? {
      states, events := states + [vs[n].q], events + [acts[n - 1].e];
    }
  }

  // ---------- What the queue gives the driver ----------

  /** The queue's exclusion is all that the driver's calls need: a job about to start, a cut that has the device, and a
      poll that has the device or finds nobody printing, never meet another job's batch. */
  lemma CallsAreDue(model: Model, live: bool, vs: seq<V>, acts: seq<Act>, n: nat, call: Call, page: Option<Header>,
                    rows: nat)
    requires IsService(model, live, vs, acts) && n < |vs|
    ensures var v := vs[n];
      && (v.q.processing.Some? && !v.q.inUse && v.phase == Claimed && (call.CallStartJob? || call.CallRefresh?) ==>
            Due(model, v.s, call, page, rows))
      && (v.cut.Some? && call.CallCut? && model == P710BT ==> Due(model, v.s, call, page, rows))
      && ((v.polling || v.q.processing == None) && call.CallPoll? && !call.processing ==>
            Due(model, v.s, call, page, rows))
  {
    hide IsService, Turns.Inv, Inv;
    EveryMomentKept(model, live, vs, acts, n);
  }

  /** A live batch has one owner, which holds the printer alone: no poll and no cut has the device meanwhile. */
  lemma BatchHasItsOwner(model: Model, live: bool, vs: seq<V>, acts: seq<Act>, n: nat)
    requires IsService(model, live, vs, acts) && n < |vs| && vs[n].s.batch.Some?
    ensures vs[n].q.processing.Some? && !vs[n].q.inUse && !vs[n].polling && vs[n].cut == None
  {
    hide IsService, Turns.Inv, Inv;
    EveryMomentKept(model, live, vs, acts, n);
  }

  /** The turn that made a record. */
  function TurnBehind(v: V, k: nat): Turns.Turn
    requires k < |v.made| && v.made[k] < |v.q.log|
  {
    v.q.log[v.made[k]]
  }

  /** What is printed comes in the order of admission, on every run of the server: a job's labels are finished before a
      cut's release exactly when the job was admitted before the cut, releases come first-in first-out, and no job and
      no cut makes two records. */
  lemma RecordsInAdmissionOrder(model: Model, live: bool, vs: seq<V>, acts: seq<Act>, n: nat, i: nat, j: nat)
    requires IsService(model, live, vs, acts) && n < |vs| && i < |vs[n].s.done| && j < |vs[n].s.done|
    ensures |vs[n].made| == |vs[n].s.done| && vs[n].made[i] < |vs[n].q.log| && vs[n].made[j] < |vs[n].q.log|
    ensures vs[n].s.done[i].Release? <==> TurnBehind(vs[n], i).Acquired?
    ensures vs[n].s.done[j].Release? <==> TurnBehind(vs[n], j).Acquired?
    ensures vs[n].s.done[i].Release? && vs[n].s.done[j].Job? ==>
      (j < i <==> TurnBehind(vs[n], j).id <= TurnBehind(vs[n], i).ticket.boundary)
    ensures vs[n].s.done[i].Release? && vs[n].s.done[j].Release? ==>
      (i < j <==> TurnBehind(vs[n], i).ticket.no < TurnBehind(vs[n], j).ticket.no)
    ensures TurnBehind(vs[n], i) == TurnBehind(vs[n], j) ==> i == j
  {
    hide IsService, Turns.Inv, Inv, Turns.Before;
    EveryMomentKept(model, live, vs, acts, n);
    MadeInOrder(vs[n], i, j);
    MadeInOrder(vs[n], j, i);
    BeforeIsStrict(TurnBehind(vs[n], i), TurnBehind(vs[n], j));
  }

  /** Earlier records were made in earlier turns. */
  lemma MadeInOrder(v: V, i: nat, j: nat)
    requires Turns.Inv(v.q) && Credited(v) && i < |v.made| && j < |v.made|
    ensures i < j ==> Turns.Before(TurnBehind(v, i), TurnBehind(v, j))
  {
    hide Turns.Before, Turns.Lined, Turns.Owned, Turns.LogFits;
  }

  lemma BeforeIsStrict(a: Turns.Turn, b: Turns.Turn)
    ensures !(Turns.Before(a, b) && a == b)
    ensures a.Acquired? && b.Started? && Turns.Before(b, a) ==> b.id <= a.ticket.boundary
    ensures a.Acquired? && b.Started? && Turns.Before(a, b) ==> a.ticket.boundary < b.id
    ensures a.Acquired? && b.Acquired? && Turns.Before(a, b) ==> a.ticket.no < b.ticket.no
    ensures a.Acquired? && b.Acquired? && Turns.Before(b, a) ==> b.ticket.no < a.ticket.no
  {}

  /** Whenever output is certain, what the printer has received shows the strips of the finished records, requests and
      all, and these records stand in the order of admission. */
  lemma TapeInAdmissionOrder(model: Model, live: bool, vs: seq<V>, acts: seq<Act>, n: nat, cs: seq<Cmd>)
    requires IsService(model, live, vs, acts) && n < |vs| && vs[n].s.run != Uncertain
    requires Received(AllBytes(vs[n].s.wire), cs)
    ensures forall k :: 0 <= k < |vs[n].s.done| ==> Whole(vs[n].s.done[k])
    ensures RunTape(BARE, cs).shown == AskedAll(vs[n].s.done)
    ensures |vs[n].made| == |vs[n].s.done| && forall k :: 0 <= k < |vs[n].made| ==> vs[n].made[k] < |vs[n].q.log|
    ensures forall i, j :: 0 <= i < j < |vs[n].made| ==> Turns.Before(TurnBehind(vs[n], i), TurnBehind(vs[n], j))
  {
    hide IsService, Turns.Inv, Turns.Before, Inv, AllBytes, Received, RunTape, AskedAll, Whole, TurnBehind, Accepted,
         Strip, SameWorks, SeeAll;
    var states, events := DriverRuns(model, live, vs, acts, n);
    PrintedAsAsked(model, live, states, events, |events|);
    EveryMomentKept(model, live, vs, acts, n);
    forall i, j | 0 <= i < j < |vs[n].made| ensures Turns.Before(TurnBehind(vs[n], i), TurnBehind(vs[n], j)) {
      MadeInOrder(vs[n], i, j);
    }
  }
}
