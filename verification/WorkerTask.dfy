/** A worker in place: its event loop, the promise callbacks that share its cells, and its close.
    Every method does to the real state what the step system does to the value `P.Worker`. */
module WorkerTask {
  import opened Wrappers
  import P = Protocol
  import R = ReplierTable
  import D = Delivery
  import M = Monitor
  import W = WorkerState

  /** What happens to a running worker, one thing at a time. */
  datatype Turn =
    | Arrives(trigger: P.WorkerTrigger)
    | Wakes(outcome: R.Outcome)                 // the queue gives up an event; `outcome` is what the handler would do
    | Fulfilled(callback: nat, text: string)    // a microtask runs one of the callbacks built so far
    | Spawns                                    // script code calls fetch: a monitored task is made
    | Polls(begins: bool, ends: bool)           // one of these tasks is polled, for the first or the last time perhaps

  /** A worker with the cells that its callbacks hold, what it settled, how often it ticked the monitor, how many ticks
      it had sent when it made each call of its handler, and the fetch tasks it made: those not yet polled, and those
      begun and not ended. */
  datatype View = View(worker: P.Worker, callbacks: seq<nat>, settled: seq<P.Settlement>, ticks: nat, calls: seq<nat>,
                       spawned: nat, fetches: nat)

  predicate Alive(w: P.Worker) {
    w.phase == P.Running || w.phase == P.Closing
  }

  /** The handler is called: first a tick, then the call. */
  function Enter(v: View): View {
    v.(ticks := v.ticks + 1, calls := v.calls + [v.ticks + 1])
  }

  /** The call is over: a tick, unless it failed. */
  function Return(v: View, o: R.Outcome): View {
    if o == R.CallFailed then v else v.(ticks := v.ticks + 1)
  }

  function Called(v: View, o: R.Outcome): View {
    if o == R.NoHandler then v else Return(Enter(v), o)
  }

  /** What becomes of a request that was taken from the queue after the table was swept. */
  function Handle(p: nat, h: nat, v: View, reply: P.Reply, o: R.Outcome): View {
    var c := Called(v, o);
    var u := c.(settled := v.settled + [P.Settlement(p, h, reply, if R.Keeps(o) then P.Kept else P.Spent)],
                worker := if R.Keeps(o) then v.worker.(table := R.Register(v.worker.table, reply)) else v.worker,
                callbacks := if o == R.Promised then v.callbacks + [|v.worker.table.replies|] else v.callbacks);
    if R.GivesUp(o) then
      var e := P.Leave(p, h, u.worker);
      u.(worker := e.worker, settled := u.settled + e.settled)
    else u
  }

  function Happen(p: nat, h: nat, v: View, turn: Turn): View {
    match turn
    case Arrives(t) =>
      if v.worker.phase != P.Running || |v.worker.queue| >= P.WORKER_QUEUE then v
      else v.(worker := v.worker.(queue := v.worker.queue + [t]))
    case Wakes(o) =>
      if v.worker.phase != P.Running || v.worker.queue == [] then v
      else
        var e := P.WorkerStep(p, h, v.worker, true, o);
        if v.worker.queue[0].Halt? then v.(worker := e.worker, settled := v.settled + e.settled)
        else Called(v, o).(worker := e.worker, settled := v.settled + e.settled,
                callbacks := if o == R.Promised then v.callbacks + [|v.worker.table.replies|] else v.callbacks)
    case Fulfilled(k, text) =>
      if !Alive(v.worker) || k >= |v.callbacks| then v
      else v.(worker := v.worker.(table := R.Fire(v.worker.table, v.callbacks[k], text)), ticks := v.ticks + M.TicksOf(M.Answering))
    case Spawns =>
      if Alive(v.worker) then v.(spawned := v.spawned + 1) else v
    case Polls(begins, ends) =>
      if !CanPoll(v, begins) then v
      else v.(ticks := v.ticks + M.TicksOf(PollOf(begins, ends)),
              spawned := v.spawned - if begins then 1 else 0,
              fetches := v.fetches + (if begins then 1 else 0) - (if ends then 1 else 0))
  }

  predicate CanPoll(v: View, begins: bool) {
    Alive(v.worker) && if begins then v.spawned > 0 else v.fetches > 0
  }

  function PollOf(begins: bool, ends: bool): M.Activity {
    if begins then if ends then M.OnlyPoll else M.FirstPoll
    else if ends then M.LastPoll else M.Poll
  }

  function Happened(p: nat, h: nat, v: View, turns: seq<Turn>): View {
    if turns == [] then v else Happen(p, h, Happened(p, h, v, turns[..|turns| - 1]), turns[|turns| - 1])
  }

  function Close(v: View): View {
    v.(worker := v.worker.(phase := P.Closed, table := R.Flush(v.worker.table)))
  }

  /** A worker whose environment has just come up. */
  function Fresh(source: string): View {
    View(P.NewWorker(source).(phase := P.Running), [], [], M.TicksOf(M.Startup), [], 0, 0)
  }

  function NumbersOf(cells: seq<W.Cell>): (r: seq<nat>)
    ensures |r| == |cells| && forall k :: 0 <= k < |r| ==> r[k] == cells[k].number
  {
    seq(|cells|, k requires 0 <= k < |cells| => cells[k].number)
  }

  lemma NumbersSnoc(cells: seq<W.Cell>, cell: W.Cell)
    ensures NumbersOf(cells + [cell]) == NumbersOf(cells) + [cell.number]
  {
  }

  /** A round of the event loop sweeps the table, takes the first event and handles it. */
  lemma WakingHandles(p: nat, h: nat, v: View, o: R.Outcome)
    requires v.worker.phase == P.Running && v.worker.queue != []
    ensures var w := v.worker.(queue := v.worker.queue[1..], table := R.Cleanup(v.worker.table));
      Happen(p, h, v, Wakes(o)) ==
      match v.worker.queue[0]
      case Http(reply) => Handle(p, h, v.(worker := w), reply, o)
      case Halt(halter) =>
        var e := P.Leave(p, h, w.(podAcks := w.podAcks + if halter == P.ByPod then 1 else 0));
        v.(worker := e.worker, settled := v.settled + e.settled)
  {
    hide R.Cleanup, R.Register, P.DropWorkerQueue;
  }

  class Task {
    const pod: nat
    const id: nat
    const source: string
    const state: W.State
    var phase: P.WorkerPhase
    var queue: seq<P.WorkerTrigger>
    /** The closures that promises hold; each has a pointer to a cell of its own. */
    var callbacks: seq<W.Cell>
    /** Cells allocated so far; the next one gets this number. */
    var boxes: nat
    var acks: nat
    var settled: seq<P.Settlement>
    var ticks: nat
    var calls: seq<nat>
    var spawned: nat
    var fetches: nat

    ghost predicate Valid()
      reads this, state, state.cells
    {
      && state.Valid() && boxes == |state.cells|
      && forall k :: 0 <= k < |callbacks| ==> callbacks[k] in state.cells
    }

    ghost function Model(): View
      reads this, state, state.cells
    {
      View(P.Worker(source, phase, queue, state.Model(), 0, acks, false),
           NumbersOf(callbacks), settled, ticks, calls, spawned, fetches)
    }

    constructor (pod: nat, id: nat, source: string)
      ensures Valid() && Model() == Fresh(source) && ticks == 2 && calls == []
      ensures this.pod == pod && this.id == id && fresh(state) && state.cells == []
    {
      this.pod, this.id, this.source := pod, id, source;
      state := new W.State();
      phase, queue, callbacks, boxes, acks := P.Running, [], [], 0, 0;
      settled, ticks, calls, spawned, fetches := [], 2, [], 0, 0;
    }

    /** A promise was fulfilled: its callback ticks the monitor and empties the cell behind the table's back. */
    method RunCallback(k: nat, text: string)
      requires Valid() && k < |callbacks| && (phase == P.Running || phase == P.Closing)
      modifies `ticks, state, state.cells
      ensures Valid() && state.cells == old(state.cells)
      ensures Model() == Happen(pod, id, old(Model()), Fulfilled(k, text))
    {
      ticks := ticks + 1;
      state.RunCallback(callbacks[k], text);
    }

    /** Leaving the event loop drops the receiver and what is queued. */
    method LeaveLoop()
      requires Valid()
      modifies `phase, `queue, `settled
      ensures Valid()
      ensures var v := old(Model());
        var e := P.Leave(pod, id, v.worker);
        Model() == v.(worker := e.worker, settled := v.settled + e.settled)
    {
      settled := settled + P.DropWorkerQueue(pod, id, queue);
      phase, queue := P.Closing, [];
    }

    /** A promise came back: box the sender, let the table point at the box, and give the box to a new callback. */
    method KeepReply(reply: P.Reply, built: bool)
      requires Valid()
      modifies `settled, `boxes, `callbacks, state
      ensures Valid() && |state.cells| == |old(state.cells)| + 1 && state.cells[..|old(state.cells)|] == old(state.cells)
      ensures fresh(state.cells[|old(state.cells)|])
      ensures var v := old(Model());
        Model() == v.(worker := v.worker.(table := R.Register(v.worker.table, reply)),
                      callbacks := if built then v.callbacks + [|v.worker.table.replies|] else v.callbacks,
                      settled := v.settled + [P.Settlement(pod, id, reply, P.Kept)])
    {
      hide R.Register, NumbersOf;
      var replier := state.Register(boxes, reply);
      boxes := boxes + 1;
      settled := settled + [P.Settlement(pod, id, reply, P.Kept)];
      if built {
        callbacks := callbacks + [replier];
        NumbersSnoc(old(callbacks), replier);
      }
    }

    /** Take the first event off the queue, and sweep the table. */
    method TakeEvent() returns (event: P.WorkerTrigger)
      requires Valid() && phase == P.Running && queue != []
      modifies `queue, state`repliers
      ensures Valid() && event == old(queue[0]) && queue == old(queue[1..])
      ensures var v := old(Model());
        Model() == v.(worker := v.worker.(queue := v.worker.queue[1..], table := R.Cleanup(v.worker.table)))
    {
      hide R.Cleanup, NumbersOf;
      event := queue[0];
      queue := queue[1..];
      state.CleanupDeadRepliers();
    }

    method AcknowledgeHalt(halter: P.Halter)
      requires Valid() && phase == P.Running
      modifies `acks, `phase, `queue, `settled
      ensures Valid()
      ensures var v := old(Model());
        var e := P.Leave(pod, id, v.worker.(podAcks := v.worker.podAcks + if halter == P.ByPod then 1 else 0));
        Model() == v.(worker := e.worker, settled := v.settled + e.settled)
    {
      hide P.DropWorkerQueue, NumbersOf;
      if halter == P.ByPod { acks := acks + 1; }
      LeaveLoop();
    }

    /** One round of the event loop. */
    method HandleEvent(o: R.Outcome)
      requires Valid() && phase == P.Running && queue != []
      modifies this, state
      ensures Valid() && old(state.cells) <= state.cells
      ensures forall c :: c in state.cells ==> c in old(state.cells) || fresh(c)
      ensures Model() == Happen(pod, id, old(Model()), Wakes(o))
    {
      hide R.Cleanup, NumbersOf, W.State.Valid, W.State.Model, Happen, Handle, P.Leave;
      WakingHandles(pod, id, Model(), o);
      var event := TakeEvent();
      match event
      case Halt(halter) => AcknowledgeHalt(halter);
      case Http(reply) => HandleHttp(reply, o);
    }

    /** The reply is dropped unanswered. */
    method Spend(reply: P.Reply)
      requires Valid()
      modifies `settled
      ensures Valid()
      ensures var v := old(Model());
        Model() == v.(settled := v.settled + [P.Settlement(pod, id, reply, P.Spent)])
    {
      settled := settled + [P.Settlement(pod, id, reply, P.Spent)];
    }

    method Tick()
      requires Valid()
      modifies `ticks
      ensures Valid() && (var v := old(Model()); Model() == v.(ticks := v.ticks + 1))
    {
      ticks := ticks + 1;
    }

    /** The script's handler is called. */
    method CallHandler()
      requires Valid()
      modifies `calls
      ensures Valid() && (var v := old(Model()); Model() == v.(calls := v.calls + [v.ticks]))
    {
      calls := calls + [ticks];
    }

    method HandleHttp(reply: P.Reply, o: R.Outcome)
      requires Valid() && phase == P.Running
      modifies this, state
      ensures Valid() && old(state.cells) <= state.cells
      ensures forall c :: c in state.cells ==> c in old(state.cells) || fresh(c)
      ensures Model() == Handle(pod, id, old(Model()), reply, o)
      ensures Model().ticks == old(Model()).ticks + match o
        case NoHandler => 0
        case CallFailed => 1
        case NotPromise | Promised | ThenFailed => 2
      ensures Model().calls == old(Model()).calls + if o == R.NoHandler then [] else [old(Model()).ticks + 1]
    {
      hide R.Cleanup, R.Register, P.DropWorkerQueue, P.Leave, Valid, Model;
      if o == R.NoHandler {
        Spend(reply);
        return;
      }
      Tick();
      CallHandler();
      if o == R.CallFailed {
        Spend(reply);
        LeaveLoop();
        return;
      }
      Tick();
      if o == R.NotPromise {
        Spend(reply);
        return;
      }
      KeepReply(reply, o == R.Promised);
      if o == R.ThenFailed {
        LeaveLoop();
      }
    }

    /** Receive until a halt arrives, the worker gives up, or nothing more happens. */
    method Serve(turns: seq<Turn>) returns (n: nat)
      requires Valid() && phase == P.Running
      modifies this, state, state.cells
      ensures Valid() && n <= |turns| && (phase == P.Running || phase == P.Closing)
      ensures phase == P.Running ==> n == |turns|
      ensures forall c :: c in state.cells ==> c in old(state.cells) || fresh(c)
      ensures Model() == Happened(pod, id, old(Model()), turns[..n])
    {
      n := 0;
      assert turns[..0] == [];
      while n < |turns| && phase == P.Running
        invariant Valid() && n <= |turns| && (phase == P.Running || phase == P.Closing)
        invariant forall c :: c in state.cells ==> c in old(state.cells) || fresh(c)
        invariant Model() == Happened(pod, id, old(Model()), turns[..n])
      {
        assert turns[..n + 1][..n] == turns[..n];
        assert forall i :: 0 <= i < |state.cells| ==> state.cells[i] in state.cells;
        TakeTurn(turns[n]);
        n := n + 1;
      }
    }

    method TakeTurn(turn: Turn)
      requires Valid() && phase == P.Running
      modifies this, state, state.cells
      ensures Valid() && (phase == P.Running || phase == P.Closing)
      ensures forall c :: c in state.cells ==> c in old(state.cells) || fresh(c)
      ensures Model() == Happen(pod, id, old(Model()), turn)
    {
      HappenKeepsAlive(pod, id, Model(), turn);
      match turn
      case Arrives(t) =>
        if |queue| < P.WORKER_QUEUE { queue := queue + [t]; }
      case Wakes(o) =>
        if queue != [] { HandleEvent(o); }
      case _ =>
        Run(turn);
    }

    /** What runs beside the event loop: callbacks, and fetch tasks. */
    method Run(turn: Turn)
      requires Valid() && (phase == P.Running || phase == P.Closing) && !turn.Arrives? && !turn.Wakes?
      modifies `ticks, `spawned, `fetches, state, state.cells
      ensures Valid() && state.cells == old(state.cells)
      ensures Model() == Happen(pod, id, old(Model()), turn)
    {
      match turn
      case Fulfilled(k, text) =>
        if k < |callbacks| { RunCallback(k, text); }
      case Spawns =>
        spawned := spawned + 1;
      case Polls(begins, ends) =>
        PollFetch(begins, ends);
    }

    /** A poll ticks before and after; the task itself ticks first thing, and once more when the response is there. */
    method PollFetch(begins: bool, ends: bool)
      requires Valid() && (phase == P.Running || phase == P.Closing)
      modifies `ticks, `spawned, `fetches
      ensures Valid() && Model() == Happen(pod, id, old(Model()), Polls(begins, ends))
    {
      hide W.State.Valid, W.State.Model, NumbersOf;
      if begins {
        if spawned == 0 { return; }
        spawned, fetches := spawned - 1, fetches + 1;
        ticks := ticks + 1;
      }
      if fetches == 0 { return; }
      ticks := ticks + 2;
      if ends {
        fetches := fetches - 1;
        ticks := ticks + 1;
      }
    }

    /** Wait for the fetches, whose promises may still run callbacks and start more fetches, then drop the state. While
        a fetch is not ended the worker still waits. */
    method CloseState(rest: seq<Turn>) returns (closed: bool)
      requires Valid() && phase == P.Closing
      modifies this, state, state.cells
      ensures Valid() && state.cells == old(state.cells)
      ensures var v := Happened(pod, id, old(Model()), rest);
        && Model() == (if closed then Close(v) else v)
        && (closed <==> v.spawned == 0 && v.fetches == 0)
    {
      hide Happen, R.Flush, NumbersOf;
      var i := 0;
      assert rest[..0] == [];
      while i < |rest|
        invariant Valid() && i <= |rest| && phase == P.Closing && state.cells == old(state.cells)
        invariant Model() == Happened(pod, id, old(Model()), rest[..i])
      {
        assert rest[..i + 1][..i] == rest[..i];
        if !rest[i].Arrives? && !rest[i].Wakes? { Run(rest[i]); } else { ClosingIgnores(pod, id, Model(), rest[i]); }
        i := i + 1;
      }
      assert rest[..i] == rest;
      closed := spawned == 0 && fetches == 0;
      if closed {
        state.Drop();
        phase := P.Closed;
      }
    }
  }

  lemma ClosingIgnores(p: nat, h: nat, v: View, turn: Turn)
    requires v.worker.phase == P.Closing && (turn.Arrives? || turn.Wakes?)
    ensures Happen(p, h, v, turn) == v
  {
  }

  lemma HappenKeepsAlive(p: nat, h: nat, v: View, turn: Turn)
    requires Alive(v.worker)
    ensures Alive(Happen(p, h, v, turn).worker)
  {
    hide R.Cleanup, R.Register, P.DropWorkerQueue;
  }

  // What a whole life of a worker comes to.

  /** The triggers that the queue accepted. */
  function Accepted(p: nat, h: nat, v: View, turns: seq<Turn>): seq<P.WorkerTrigger> {
    if turns == [] then []
    else
      var before, turn := turns[..|turns| - 1], turns[|turns| - 1];
      var w := Happened(p, h, v, before).worker;
      Accepted(p, h, v, before)
      + if turn.Arrives? && w.phase == P.Running && |w.queue| < P.WORKER_QUEUE then [turn.trigger] else []
  }

  /** What the table went through. */
  function Trace(p: nat, h: nat, v: View, turns: seq<Turn>): seq<R.Event> {
    if turns == [] then []
    else
      var before, turn := turns[..|turns| - 1], turns[|turns| - 1];
      Trace(p, h, v, before) + TableEvents(Happened(p, h, v, before), turn)
  }

  function TableEvents(v: View, turn: Turn): seq<R.Event> {
    match turn
    case Arrives(_) => []
    case Wakes(o) =>
      if v.worker.phase != P.Running || v.worker.queue == [] then []
      else if v.worker.queue[0].Http? && R.Keeps(o) then [R.Sweep, R.Registration(v.worker.queue[0].reply)]
      else [R.Sweep]
    case Fulfilled(k, text) =>
      if !Alive(v.worker) || k >= |v.callbacks| then [] else [R.Callback(v.callbacks[k], text)]
    case Spawns | Polls(_, _) => []
  }

  lemma RunOne(es: seq<R.Event>, e: R.Event)
    ensures R.Run(es + [e]) == R.Apply(R.Run(es), e)
  {
    assert (es + [e])[..|es + [e]| - 1] == es;
  }

  lemma RunTwo(es: seq<R.Event>, e: R.Event, f: R.Event)
    ensures R.Run(es + [e, f]) == R.Apply(R.Apply(R.Run(es), e), f)
  {
    assert es + [e, f] == es + [e] + [f];
    RunOne(es, e);
    RunOne(es + [e], f);
  }

  lemma WakingTable(p: nat, h: nat, v: View, o: R.Outcome)
    requires v.worker.phase == P.Running && v.worker.queue != []
    ensures var w, t := v.worker, Happen(p, h, v, Wakes(o)).worker.table;
      t == if w.queue[0].Http? && R.Keeps(o) then R.Register(R.Cleanup(w.table), w.queue[0].reply) else R.Cleanup(w.table)
  {
    hide R.Cleanup, R.Register, P.DropWorkerQueue;
  }

  lemma HappenTraces(p: nat, h: nat, v: View, turn: Turn, es: seq<R.Event>)
    requires v.worker.table == R.Run(es)
    ensures Happen(p, h, v, turn).worker.table == R.Run(es + TableEvents(v, turn))
  {
    hide R.Cleanup, R.Register, R.Fire, R.Run, P.WorkerStep;
    assert es + [] == es;
    match turn
    case Wakes(o) =>
      if v.worker.phase == P.Running && v.worker.queue != [] {
        WakingTable(p, h, v, o);
        hide Happen;
        RunOne(es, R.Sweep);
        RunTwo(es, R.Sweep, R.Registration(if v.worker.queue[0].Http? then v.worker.queue[0].reply else 0));
      }
    case Fulfilled(k, text) =>
      if Alive(v.worker) && k < |v.callbacks| { RunOne(es, R.Callback(v.callbacks[k], text)); }
    case _ =>
  }

  lemma {:induction false} TableIsRun(p: nat, h: nat, source: string, turns: seq<Turn>)
    ensures Happened(p, h, Fresh(source), turns).worker.table == R.Run(Trace(p, h, Fresh(source), turns))
  {
    if turns != [] {
      var before := turns[..|turns| - 1];
      TableIsRun(p, h, source, before);
      HappenTraces(p, h, Happened(p, h, Fresh(source), before), turns[|turns| - 1], Trace(p, h, Fresh(source), before));
    }
  }

  /** In order, the accepted requests are those settled and those still queued; the table registered the kept ones. */
  ghost predicate Accounted(p: nat, h: nat, v: View, accepted: seq<P.WorkerTrigger>) {
    && P.HttpsOf(accepted) == P.SettledAt(v.settled, p, h) + P.HttpsOf(v.worker.queue)
    && v.worker.table.replies == P.KeptAt(v.settled, p, h)
    && (v.worker.phase == P.Closing ==> v.worker.queue == [])
  }

  lemma ArrivalKeepsAccounted(p: nat, h: nat, v: View, accepted: seq<P.WorkerTrigger>, t: P.WorkerTrigger)
    requires Accounted(p, h, v, accepted) && v.worker.phase == P.Running
    ensures Accounted(p, h, v.(worker := v.worker.(queue := v.worker.queue + [t])), accepted + [t])
  {
    hide P.HttpsOf, P.SettledAt, P.KeptAt;
    D.HttpsOfAppend(accepted, [t]);
    D.HttpsOfAppend(v.worker.queue, [t]);
  }

  lemma WakingKeepsAccounted(p: nat, h: nat, v: View, accepted: seq<P.WorkerTrigger>, o: R.Outcome)
    requires Accounted(p, h, v, accepted) && v.worker.phase == P.Running && v.worker.queue != []
    ensures Accounted(p, h, Happen(p, h, v, Wakes(o)), accepted)
  {
    hide P.HttpsOf, P.SettledAt, P.KeptAt, P.WorkerStep, Happen;
    var e := P.WorkerStep(p, h, v.worker, true, o);
    WakingSteps(p, h, v, o);
    D.WorkerStepSettles(p, h, v.worker, true, o, p, h);
    D.SettledAtAppend(v.settled, e.settled, p, h);
  }

  lemma WakingSteps(p: nat, h: nat, v: View, o: R.Outcome)
    requires v.worker.phase == P.Running && v.worker.queue != []
    ensures var u, e := Happen(p, h, v, Wakes(o)), P.WorkerStep(p, h, v.worker, true, o);
      u.worker == e.worker && u.settled == v.settled + e.settled && (u.worker.phase == P.Closing ==> u.worker.queue == [])
  {
    hide R.HandleHttp, R.Cleanup, P.DropWorkerQueue;
  }

  lemma {:induction false} EveryRequestIsAccounted(p: nat, h: nat, source: string, turns: seq<Turn>)
    ensures Accounted(p, h, Happened(p, h, Fresh(source), turns), Accepted(p, h, Fresh(source), turns))
  {
    if turns != [] {
      var before, turn := turns[..|turns| - 1], turns[|turns| - 1];
      var v, accepted := Happened(p, h, Fresh(source), before), Accepted(p, h, Fresh(source), before);
      EveryRequestIsAccounted(p, h, source, before);
      hide Accounted, P.WorkerStep;
      assert accepted + [] == accepted;
      match turn
      case Arrives(t) =>
        if v.worker.phase == P.Running { ArrivalKeepsAccounted(p, h, v, accepted, t); }
      case Wakes(o) =>
        if v.worker.phase == P.Running && v.worker.queue != [] { WakingKeepsAccounted(p, h, v, accepted, o); }
      case _ =>
        RunKeepsAccounted(p, h, v, accepted, turn);
    }
  }

  lemma RunKeepsAccounted(p: nat, h: nat, v: View, accepted: seq<P.WorkerTrigger>, turn: Turn)
    requires Accounted(p, h, v, accepted) && !turn.Arrives? && !turn.Wakes?
    ensures Accounted(p, h, Happen(p, h, v, turn), accepted)
  {
    hide P.HttpsOf, P.SettledAt, P.KeptAt;
  }

  /** Callback `k` holds cell `k`. The cell of a callback that could not be built is the last one, and stays pending. */
  ghost predicate Handlers(v: View) {
    && (forall k :: 0 <= k < |v.callbacks| ==> v.callbacks[k] == k)
    && |v.callbacks| <= |v.worker.table.replies| <= |v.callbacks| + 1
    && (v.worker.phase == P.Running ==> |v.callbacks| == |v.worker.table.replies|)
    && (forall c :: |v.callbacks| <= c < |v.worker.table.replies| ==> c in v.worker.table.live)
  }

  lemma {:induction false} HandlersHold(p: nat, h: nat, source: string, turns: seq<Turn>)
    ensures Alive(Happened(p, h, Fresh(source), turns).worker)
    ensures Handlers(Happened(p, h, Fresh(source), turns))
  {
    if turns != [] {
      HandlersHold(p, h, source, turns[..|turns| - 1]);
      HappenKeepsHandlers(p, h, Happened(p, h, Fresh(source), turns[..|turns| - 1]), turns[|turns| - 1]);
    }
  }

  lemma HappenKeepsHandlers(p: nat, h: nat, v: View, turn: Turn)
    requires Handlers(v) && Alive(v.worker)
    ensures Handlers(Happen(p, h, v, turn)) && Alive(Happen(p, h, v, turn).worker)
  {
    HappenKeepsAlive(p, h, v, turn);
    hide P.DropWorkerQueue;
  }

  /** After the close every request that was kept has one answer: the value its own callback was first called with, or
      the empty string if the callback never ran or never existed. */
  lemma ClosedWorkerAnswersAll(p: nat, h: nat, source: string, turns: seq<Turn>, c: nat)
    requires var v := Happened(p, h, Fresh(source), turns); c < |P.KeptAt(v.settled, p, h)|
    ensures var v, es := Happened(p, h, Fresh(source), turns), Trace(p, h, Fresh(source), turns);
      && Close(v).worker.table == R.Flush(R.Run(es))
      && |Close(v).worker.table.answers| == |P.KeptAt(v.settled, p, h)|
      && (c >= |v.callbacks| ==> c in R.Unanswered(es))
      && exists i: nat :: R.AnsweredAt(es, i, c)
  {
    hide Happened, Trace, P.KeptAt, P.SettledAt, P.HttpsOf, R.Flush, R.Run, R.AnsweredAt, R.Unanswered;
    var es := Trace(p, h, Fresh(source), turns);
    EveryRequestIsAccounted(p, h, source, turns);
    HandlersHold(p, h, source, turns);
    TableIsRun(p, h, source, turns);
    R.LiveIsUnanswered(es);
    R.EveryReplierAnsweredOnce(es, c);
  }

  // What a worker tells its monitor.

  /** The activities of a worker that send ticks, from its start on. */
  function Activities(p: nat, h: nat, v: View, turns: seq<Turn>): seq<M.Activity> {
    if turns == [] then [M.Startup]
    else
      var before := turns[..|turns| - 1];
      Activities(p, h, v, before) + ActivityOf(Happened(p, h, v, before), turns[|turns| - 1])
  }

  function ActivityOf(v: View, turn: Turn): seq<M.Activity> {
    match turn
    case Wakes(o) =>
      if v.worker.phase == P.Running && v.worker.queue != [] && v.worker.queue[0].Http?
        && (o == R.NotPromise || o == R.Promised || o == R.ThenFailed)
      then [M.Dispatch] else []
    case Fulfilled(k, _) => if Alive(v.worker) && k < |v.callbacks| then [M.Answering] else []
    case Polls(begins, ends) => if CanPoll(v, begins) then [PollOf(begins, ends)] else []
    case _ => []
  }

  lemma OneActivity(acts: seq<M.Activity>, more: seq<M.Activity>, kind: M.Activity)
    requires |more| <= 1
    ensures M.TicksSent(acts + more) == M.TicksSent(acts) + if more == [] then 0 else M.TicksOf(more[0])
    ensures M.Tally(acts + more, kind) == M.Tally(acts, kind) + if more == [kind] then 1 else 0
  {
    if more == [] { assert acts + more == acts; } else { assert (acts + more)[..|acts + more| - 1] == acts; }
  }

  lemma HappenTicks(p: nat, h: nat, v: View, turn: Turn)
    ensures var u, more := Happen(p, h, v, turn), ActivityOf(v, turn);
      && |more| <= 1
      && u.fetches + (if more == [M.LastPoll] then 1 else 0) == v.fetches + (if more == [M.FirstPoll] then 1 else 0)
      && (u.worker.phase == P.Running ==>
            v.worker.phase == P.Running && u.ticks == v.ticks + if more == [] then 0 else M.TicksOf(more[0]))
  {
    hide R.HandleHttp, R.Cleanup, R.Fire, P.DropWorkerQueue;
  }

  /** In its event loop a worker has sent exactly the ticks of its activities; the fetches that began have ended, except
      for those under way. */
  lemma {:induction false} TicksAreThoseOfActivities(p: nat, h: nat, source: string, turns: seq<Turn>)
    ensures var v, acts := Happened(p, h, Fresh(source), turns), Activities(p, h, Fresh(source), turns);
      && (v.worker.phase == P.Running ==> v.ticks == M.TicksSent(acts))
      && M.Tally(acts, M.FirstPoll) == M.Tally(acts, M.LastPoll) + v.fetches
  {
    if turns != [] {
      var before, turn := turns[..|turns| - 1], turns[|turns| - 1];
      var v, acts := Happened(p, h, Fresh(source), before), Activities(p, h, Fresh(source), before);
      TicksAreThoseOfActivities(p, h, source, before);
      HappenTicks(p, h, v, turn);
      OneActivity(acts, ActivityOf(v, turn), M.FirstPoll);
      OneActivity(acts, ActivityOf(v, turn), M.LastPoll);
      hide Happen, ActivityOf, M.TicksSent, M.Tally, M.TicksOf;
    } else {
      assert [M.Startup][..0] == [];
    }
  }

  /** How often a callback of the worker has run. */
  function CallbackRuns(p: nat, h: nat, source: string, turns: seq<Turn>): nat {
    M.Tally(Activities(p, h, Fresh(source), turns), M.Answering)
  }

  /** A worker that waits for requests is left alone by its monitor exactly if the number of callbacks run, with that of
      fetches under way and that of ticks lost, is even, and every slice was in time and in budget. */
  lemma WaitingWorkerIsSpared(p: nat, h: nat, source: string, turns: seq<Turn>,
                              moves: seq<M.Move>, times: seq<nat>, k: nat, exit: M.Exit)
    requires var v, c := Happened(p, h, Fresh(source), turns), M.Go(M.Quiet, moves);
      v.worker.phase == P.Running && M.Ticks(moves) == v.ticks && c.pending.None? && |times| == |c.delivered|
    requires M.Verdict(times, None, k, exit)
    ensures exit == M.Idle <==>
      && (CallbackRuns(p, h, source, turns) + Happened(p, h, Fresh(source), turns).fetches
          + |M.Go(M.Quiet, moves).lost|) % 2 == 0
      && M.Survives(times, |times| / 2)
  {
    var acts := Activities(p, h, Fresh(source), turns);
    hide Happened, Activities, M.Survives, M.Verdict, M.Tally, M.Go, M.Ticks, M.TicksSent;
    TicksAreThoseOfActivities(p, h, source, turns);
    M.SparedExactly(acts, moves, times, k, exit);
    assert M.Unpaired(acts) == CallbackRuns(p, h, source, turns) + 2 * M.Tally(acts, M.LastPoll)
                               + Happened(p, h, Fresh(source), turns).fetches;
  }

  // What each turn sends, told by cases.

  /** A request is ticked once before the handler is called, and once more when the call returns. */
  lemma CallIsTicked(p: nat, h: nat, v: View, o: R.Outcome)
    requires v.worker.phase == P.Running && v.worker.queue != [] && v.worker.queue[0].Http?
    ensures var u := Happen(p, h, v, Wakes(o));
      && u.ticks == v.ticks + (match o
           case NoHandler => 0
           case CallFailed => 1
           case NotPromise | Promised | ThenFailed => 2)
      && u.calls == v.calls + (if o == R.NoHandler then [] else [v.ticks + 1])
      && ActivityOf(v, Wakes(o)) == if o == R.NotPromise || o == R.Promised || o == R.ThenFailed then [M.Dispatch] else []
  {
    hide P.WorkerStep;
  }

  /** A callback ticks once. A poll of a fetch ticks twice, once more if it is the first and once more if the last. */
  lemma OtherTurnsTick(p: nat, h: nat, v: View, turn: Turn)
    requires v.worker.phase == P.Running || v.worker.phase == P.Closing
    ensures var u := Happen(p, h, v, turn);
      match turn
      case Arrives(_) => u.ticks == v.ticks
      case Wakes(_) => v.worker.phase == P.Running && v.worker.queue != [] && v.worker.queue[0].Halt? ==> u.ticks == v.ticks
      case Fulfilled(k, _) => u.ticks == v.ticks + if k < |v.callbacks| then 1 else 0
      case Spawns => u.ticks == v.ticks && u.spawned == v.spawned + 1 && u.fetches == v.fetches
      case Polls(true, ends) => v.spawned > 0 ==>
        && u.ticks == v.ticks + 3 + (if ends then 1 else 0) && u.spawned == v.spawned - 1
        && u.fetches == v.fetches + if ends then 0 else 1
      case Polls(false, ends) => v.fetches > 0 ==>
        && u.ticks == v.ticks + 2 + (if ends then 1 else 0) && u.spawned == v.spawned
        && u.fetches == v.fetches - if ends then 1 else 0
  {
    hide P.WorkerStep, R.Fire;
  }

  /** The worker of a fresh task is a new one whose environment came up. */
  lemma FreshIsStarted(p: nat, h: nat, source: string, o: R.Outcome)
    ensures Fresh(source).worker == P.WorkerStep(p, h, P.NewWorker(source), true, o).worker
  {
  }

  lemma {:induction false} OneTick(moves: seq<M.Move>) returns (i: nat)
    requires M.Ticks(moves) == 1
    ensures i < |moves| && moves[i].Tick? && M.Ticks(moves[..i]) == 0
    ensures forall j :: i < j < |moves| ==> moves[j].Receive?
  {
    var n := |moves| - 1;
    if moves[n].Tick? {
      i := n;
    } else {
      i := OneTick(moves[..n]);
      assert moves[..n][..i] == moves[..i];
    }
  }

  /** Move `i` of `during` is the first tick there. */
  ghost predicate TickOfCall(before: seq<M.Move>, during: seq<M.Move>, i: nat) {
    i < |during| && during[i].Tick? && M.Ticks(during[..i]) == 0
  }

  /** A running worker calls its handler for the next request, and the call does not return. Whatever the channel does, a
      tick is sent between the last one before and the end, and from then on the call is watched: the monitor ends it,
      unless at that tick it was armed and every slice so far was in time and in budget. */
  lemma CallIsWatched(p: nat, h: nat, source: string, turns: seq<Turn>, before: seq<M.Move>, during: seq<M.Move>,
                      times: seq<nat>, k: nat, exit: M.Exit)
    requires var v, c := Happened(p, h, Fresh(source), turns), M.Go(M.Quiet, before + during);
      && M.Ticks(before) == v.ticks && M.Ticks(before + during) == Enter(v).ticks
      && c.pending.None? && |times| == |c.delivered|
    requires M.Verdict(times, None, k, exit)
    ensures exists i: nat ::
      && TickOfCall(before, during, i)
      && (exit == M.Idle <==> M.Armed(M.Go(M.Quiet, before + during[..i])) && M.Survives(times, |times| / 2))
  {
    hide Happened, M.Survives, M.Verdict;
    M.TicksAppend(before, during);
    var i := OneTick(during);
    var rest := during[i + 1..];
    assert before + during == before + during[..i] + [M.Tick] + rest;
    NothingPendingAtTheEnd(before + during[..i], rest);
    M.EndlessCallIsWatched(before + during[..i], rest, times, k, exit);
    assert TickOfCall(before, during, i);
  }

  /** A tick that was the last move would still be pending. */
  lemma NothingPendingAtTheEnd(before: seq<M.Move>, rest: seq<M.Move>)
    requires M.Go(M.Quiet, before + [M.Tick] + rest).pending.None?
    ensures rest != []
  {
    assert (before + [M.Tick])[..|before|] == before;
    assert before + [M.Tick] + [] == before + [M.Tick];
  }
}
