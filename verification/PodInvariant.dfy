/** What every step keeps inside one pod: its slots, its workers, and its progress through a halt. */
module PodInvariant {
  import opened Wrappers
  import opened Protocol
  import A = SlotAllocator
  import R = ReplierTable

  /** The replier table of a worker is in order. */
  ghost predicate TableOk(t: R.Table) {
    R.Located(t) && R.Settled(t)
  }

  /** The pod's halt reaches a worker at most once, and is either still queued or resolved. */
  ghost predicate WorkerOk(w: Worker) {
    && TableOk(w.table)
    && (Gone(w) ==> w.queue == [])
    && (w.phase == Closed ==> w.table.live == {})
    && w.podAcks <= w.podHalts <= 1
    && (w.podAcks == 1 ==> Gone(w))
    && (!Gone(w) ==> (w.podHalts == 1 <==> Halt(ByPod) in w.queue))
    && (Halt(ByMonitor) in w.queue ==> w.monitorFired)
    && (w.monitorFired && !Gone(w) ==> Halt(ByMonitor) in w.queue)
  }

  /** How many workers the pod has sent its halt to, and for how many the token has come back. */
  function Sent(d: Pod): int {
    match d.phase
    case Serving | Forwarding(_, _, _) => 0
    case HaltNext(rest) => |d.workers| - |rest|
    case HaltWait(_, rest) => |d.workers| - |rest|
    case Stopped => |d.workers|
  }

  function Resolved(d: Pod): int {
    if d.phase.HaltWait? then Sent(d) - 1 else Sent(d)
  }

  predicate Active(d: Pod) {
    d.phase.Serving? || d.phase.Forwarding?
  }

  /** Slot `i` holds the handle of the `i`-th worker, and nothing was ever freed. */
  ghost predicate InOrder(slots: A.Slots, n: nat) {
    && slots.capacity == n && slots.vacancies == []
    && forall i :: 0 <= i < |slots.workers| ==> slots.workers[i] == Some(i)
  }

  /** `rest` is the end of the drained slot vector of `k` workers. */
  ghost predicate TailOf(rest: seq<Option<A.Handle>>, k: nat) {
    |rest| <= k && forall j :: 0 <= j < |rest| ==> rest[j] == Some(k - |rest| + j)
  }

  ghost predicate PhaseFits(d: Pod, n: nat) {
    match d.phase
    case Serving => InOrder(d.slots, n) && |d.slots.workers| == |d.workers|
    case Forwarding(id, h, _) => InOrder(d.slots, n) && |d.slots.workers| == |d.workers| && h == id < |d.workers|
    case HaltNext(rest) => TailOf(rest, |d.workers|) && d.queue == [] && d.slots.workers == []
    case HaltWait(h, rest) =>
      && TailOf(rest, |d.workers|) && |rest| < |d.workers| && h == Some(|d.workers| - |rest| - 1)
      && d.queue == [] && d.slots.workers == []
    case Stopped => d.queue == [] && d.slots.workers == []
  }

  ghost predicate WorkersFit(d: Pod) {
    && (forall h :: 0 <= h < |d.workers| ==> WorkerOk(d.workers[h]))
    && (forall h :: 0 <= h < |d.workers| ==> d.workers[h].podHalts == if h < Sent(d) then 1 else 0)
    && (forall h :: 0 <= h < |d.workers| && h < Resolved(d) ==> Gone(d.workers[h]))
  }

  ghost predicate PodOk(d: Pod, n: nat) {
    |d.workers| <= n && PhaseFits(d, n) && WorkersFit(d)
  }

  // Workers.

  lemma HandleHttpKeeps(t: R.Table, reply: Reply, o: R.Outcome)
    requires TableOk(t)
    ensures TableOk(R.Cleanup(t)) && TableOk(R.HandleHttp(t, reply, o))
  {
    R.CleanupKeeps(t);
    if R.Keeps(o) { R.RegisterKeeps(R.Cleanup(t), reply); }
  }

  lemma QueueTail(q: seq<WorkerTrigger>)
    requires q != []
    ensures forall t :: t in q <==> t == q[0] || t in q[1..]
  {
    assert q == [q[0]] + q[1..];
  }

  /** The reasons for leaving the event loop: the environment did not come up, a halt arrived, the handler's call failed,
      or its callback could not be built. */
  predicate Leaves(w: Worker, started: bool, o: R.Outcome) {
    || (w.phase == Starting && !started)
    || (w.phase == Running && w.queue != [] && w.queue[0].Halt?)
    || (w.phase == Running && w.queue != [] && w.queue[0].Http? && (o == R.CallFailed || o == R.ThenFailed))
  }

  /** What is behind the event that the step takes; a start takes none. */
  function Rest(w: Worker): seq<WorkerTrigger>
    requires WorkerEnabled(w)
  {
    if w.phase == Starting then w.queue else w.queue[1..]
  }

  predicate Swept(t: R.Table) {
    forall i :: 0 <= i < |t.slots| && t.slots[i].Some? ==> t.slots[i].value in t.live
  }

  lemma SweepIsSwept(t: R.Table)
    ensures Swept(R.Cleanup(t))
  {
  }

  lemma HandleHttpIsSwept(t: R.Table, reply: Reply, o: R.Outcome)
    ensures Swept(R.HandleHttp(t, reply, o))
    ensures R.HandleHttp(t, reply, o).replies == t.replies + if o == R.Promised || o == R.ThenFailed then [reply] else []
  {
    if R.Keeps(o) {
      var u := R.Cleanup(t);
      SweepIsSwept(u);
      R.RegisterFillsSlot(u, reply);
      var v := R.Cleanup(u);
      hide R.Cleanup, R.Register, R.FirstFree;
      assert R.Register(u, reply).slots == R.Fill(v.slots, R.FirstFree(v.slots), |u.replies|);
    } else {
      SweepIsSwept(t);
    }
  }

  /** A worker leaves exactly for these reasons, and then drops its queue; otherwise it runs on with what remains. Only
      the pod's halt, taken from the queue, is acknowledged to the pod. After an event no slot points at an answered
      cell, and the reply was registered exactly if a promise came back. */
  lemma WorkerStepMoves(p: nat, h: nat, w: Worker, started: bool, o: R.Outcome)
    requires WorkerEnabled(w)
    ensures var v := WorkerStep(p, h, w, started, o).worker;
      && v.phase == (if Leaves(w, started, o) then Closing else Running)
      && v.queue == (if Leaves(w, started, o) then [] else Rest(w))
      && v.podAcks == w.podAcks + (if w.phase == Running && w.queue[0] == Halt(ByPod) then 1 else 0)
      && v.podHalts == w.podHalts && v.monitorFired == w.monitorFired && v.source == w.source
      && (w.phase == Starting ==> v.table == w.table)
      && (w.phase == Running ==> Swept(v.table))
      && v.table.replies == w.table.replies
           + (if w.phase == Running && w.queue[0].Http? && (o == R.Promised || o == R.ThenFailed) then [w.queue[0].reply]
              else [])
  {
    hide R.Cleanup, R.HandleHttp, DropWorkerQueue, Swept;
    if w.phase == Running {
      match w.queue[0]
      case Halt(_) => SweepIsSwept(w.table);
      case Http(reply) => HandleHttpIsSwept(w.table, reply, o);
    }
  }

  lemma WorkerStepKeepsTable(p: nat, h: nat, w: Worker, started: bool, o: R.Outcome)
    requires TableOk(w.table) && WorkerEnabled(w)
    ensures TableOk(WorkerStep(p, h, w, started, o).worker.table)
  {
    hide TableOk, R.Cleanup, R.HandleHttp, DropWorkerQueue;
    if w.phase == Running {
      match w.queue[0]
      case Halt(_) => HandleHttpKeeps(w.table, 0, o);
      case Http(reply) => HandleHttpKeeps(w.table, reply, o);
    }
  }

  lemma WorkerStepKeeps(p: nat, h: nat, w: Worker, started: bool, o: R.Outcome)
    requires WorkerOk(w) && WorkerEnabled(w)
    ensures var v := WorkerStep(p, h, w, started, o).worker;
      && WorkerOk(v) && v.podHalts == w.podHalts && v.source == w.source && !Gone(w)
      && (Gone(v) <==> Leaves(w, started, o))
      && (!Gone(v) ==> v.phase == Running && v.queue == Rest(w))
  {
    hide WorkerStep, TableOk, Swept;
    WorkerStepMoves(p, h, w, started, o);
    WorkerStepKeepsTable(p, h, w, started, o);
    if w.phase == Running { QueueTail(w.queue); }
  }

  lemma CallbackKeeps(w: Worker, c: nat, text: string)
    requires WorkerOk(w)
    ensures WorkerOk(w.(table := R.Fire(w.table, c, text)))
  {
    R.FireKeeps(w.table, c, text);
  }

  lemma CloseKeeps(w: Worker)
    requires WorkerOk(w) && w.phase == Closing
    ensures WorkerOk(w.(phase := Closed, table := R.Flush(w.table)))
  {
    R.FlushCompletes(w.table);
  }

  lemma MonitorHaltKeeps(w: Worker)
    requires WorkerOk(w)
    ensures WorkerOk(w.(monitorFired := true, queue := if Gone(w) then w.queue else w.queue + [Halt(ByMonitor)]))
  {
    assert forall q: seq<WorkerTrigger>, t :: t in q + [Halt(ByMonitor)] <==> t in q || t == Halt(ByMonitor);
  }

  /** Replacing one worker by a later state of itself. */
  lemma SetWorkerKeeps(d: Pod, n: nat, h: nat, w: Worker)
    requires PodOk(d, n) && h < |d.workers| && WorkerOk(w)
    requires w.podHalts == d.workers[h].podHalts && (Gone(d.workers[h]) ==> Gone(w))
    ensures PodOk(d.(workers := d.workers[h := w]), n)
  {
  }

  // Pods.

  lemma SendKeeps(d: Pod, n: nat, t: PodTrigger)
    requires PodOk(d, n) && Active(d)
    ensures PodOk(d.(queue := d.queue + [t]), n)
  {
  }

  lemma DeliverKeeps(d: Pod, h: nat, t: WorkerTrigger)
    requires h < |d.workers| && WorkerOk(d.workers[h]) && t.Http?
    ensures var v := Deliver(d, h, t);
      && |v.workers| == |d.workers| && WorkerOk(v.workers[h])
      && v.workers[h].podHalts == d.workers[h].podHalts && (Gone(v.workers[h]) <==> Gone(d.workers[h]))
      && v == d.(workers := d.workers[h := v.workers[h]])
  {
    var w := d.workers[h];
    assert forall x :: x in w.queue + [t] <==> x in w.queue || x == t;
  }

  lemma SendHaltKeeps(d: Pod, h: nat)
    requires h < |d.workers| && WorkerOk(d.workers[h]) && d.workers[h].podHalts == 0
    ensures var v := CountHalt(Deliver(d, h, Halt(ByPod)), h);
      && |v.workers| == |d.workers| && WorkerOk(v.workers[h])
      && v.workers[h].podHalts == 1 && (Gone(v.workers[h]) <==> Gone(d.workers[h]))
      && v == d.(workers := d.workers[h := v.workers[h]])
  {
    var w := d.workers[h];
    assert (w.queue + [Halt(ByPod)])[|w.queue|] == Halt(ByPod);
    assert forall x :: x in w.queue + [Halt(ByPod)] <==> x in w.queue || x == Halt(ByPod);
  }

  lemma NewWorkerOk(source: string)
    ensures WorkerOk(NewWorker(source))
  {
  }

  lemma ServingStepKeeps(p: nat, d: Pod, n: nat)
    requires PodOk(d, n) && PodEnabled(d) && d.phase.Serving?
    requires d.queue[0].Create? ==> |d.workers| < n
    requires d.queue[0].HaltPod? ==> |d.queue| == 1
    ensures PodOk(PodStep(p, d).pod, n)
  {
    var e := PodStep(p, d).pod;
    match d.queue[0]
    case Create(source) =>
      NewWorkerOk(source);
      assert e.workers == d.workers + [NewWorker(source)];
      hide WorkerOk, NewWorker;
    case _ =>
      assert e.workers == d.workers;
      hide WorkerOk;
  }

  lemma ForwardingStepKeeps(p: nat, d: Pod, n: nat)
    requires PodOk(d, n) && PodEnabled(d) && d.phase.Forwarding?
    ensures PodOk(PodStep(p, d).pod, n)
  {
    DeliverKeeps(d, d.phase.handle, Http(d.phase.reply));
  }

  lemma HaltNextStepKeeps(p: nat, d: Pod, n: nat)
    requires PodOk(d, n) && PodEnabled(d) && d.phase.HaltNext?
    ensures PodOk(PodStep(p, d).pod, n)
  {
    var rest := d.phase.rest;
    if rest != [] {
      var h := |d.workers| - |rest|;
      assert rest[0] == Some(h);
      var d1 := d.(phase := HaltWait(rest[0], rest[1..]));
      SendHaltKeeps(d1, h);
      var d2 := CountHalt(Deliver(d1, h, Halt(ByPod)), h);
      hide WorkerOk;
      assert PhaseFits(d2, n);
      assert WorkersFit(d2);
    }
  }

  lemma HaltWaitStepKeeps(p: nat, d: Pod, n: nat)
    requires PodOk(d, n) && PodEnabled(d) && d.phase.HaltWait?
    ensures PodOk(PodStep(p, d).pod, n)
  {
    var h := d.phase.awaited.value;
    assert WorkerOk(d.workers[h]) && d.workers[h].podHalts == 1;
    assert Gone(d.workers[h]);
  }

  lemma PodStepKeeps(p: nat, d: Pod, n: nat)
    requires PodOk(d, n) && PodEnabled(d)
    requires d.phase.Serving? && d.queue[0].Create? ==> |d.workers| < n
    requires d.phase.Serving? && d.queue[0].HaltPod? ==> |d.queue| == 1
    ensures PodOk(PodStep(p, d).pod, n)
  {
    match d.phase
    case Serving => ServingStepKeeps(p, d, n);
    case Forwarding(_, _, _) => ForwardingStepKeeps(p, d, n);
    case HaltNext(_) => HaltNextStepKeeps(p, d, n);
    case HaltWait(_, _) => HaltWaitStepKeeps(p, d, n);
  }

  // What a stopped pod means.

  /** A pod reports that it has stopped only when every one of its workers got exactly one halt from it, and has left
      its event loop: it acknowledged the halt or dropped the token. Nothing is left in the slot vector or a queue. */
  lemma StoppedPodHasHaltedWorkers(d: Pod, n: nat)
    requires PodOk(d, n) && d.phase.Stopped?
    ensures d.slots.workers == [] && d.queue == []
    ensures forall h :: 0 <= h < |d.workers| ==>
      d.workers[h].podHalts == 1 && Gone(d.workers[h]) && d.workers[h].queue == []
  {
  }

  /** While the pod waits for a worker that still runs, its halt is in that worker's queue: it waits for the worker,
      never for itself. */
  lemma HaltWaitIsOnWorker(d: Pod, n: nat)
    requires PodOk(d, n) && d.phase.HaltWait?
    ensures var h := |d.workers| - |d.phase.rest| - 1;
      && d.phase.awaited == Some(h) && 0 <= h
      && (PodEnabled(d) <==> Gone(d.workers[h]))
      && (!Gone(d.workers[h]) ==> Halt(ByPod) in d.workers[h].queue)
  {
  }
}
