/** The actor protocol as a step system: one serverless task, its pods and their workers, joined by bounded queues.
    A step is what one task does between two awaits. */
module Protocol {
  import opened Wrappers
  import A = SlotAllocator
  import C = CodeStore
  import R = ReplierTable

  type Reply = R.Reply

  const POD_QUEUE := 64
  const WORKER_QUEUE := 64
  const SERVERLESS_QUEUE := 512

  // Workers.

  datatype Halter = ByPod | ByMonitor

  datatype WorkerTrigger = Http(reply: Reply) | Halt(halter: Halter)

  /** A worker receives while it is Running; once it is Closing its queue is gone. */
  datatype WorkerPhase = Starting | Running | Closing | Closed

  /** `podHalts` and `podAcks` count the pod's halts sent to the worker and acknowledged by it. */
  datatype Worker = Worker(source: string, phase: WorkerPhase, queue: seq<WorkerTrigger>, table: R.Table,
                           podHalts: nat, podAcks: nat, monitorFired: bool)

  function NewWorker(source: string): Worker {
    Worker(source, Starting, [], R.NoRepliers, 0, 0, false)
  }

  predicate Gone(w: Worker) {
    w.phase == Closing || w.phase == Closed
  }

  // Pods.

  datatype PodTrigger = CheckVacancies | Create(source: string) | ToWorker(id: nat, reply: Reply) | HaltPod

  /** `rest` are the drained handles not yet visited. Waiting on no handle is waiting on a token held by oneself. */
  datatype PodPhase =
    | Serving
    | Forwarding(id: nat, handle: A.Handle, reply: Reply)
    | HaltNext(rest: seq<Option<A.Handle>>)
    | HaltWait(awaited: Option<A.Handle>, rest: seq<Option<A.Handle>>)
    | Stopped

  /** `workers` are the tasks started so far; `slots` is the pod's table of handles to them. */
  datatype Pod = Pod(slots: A.Slots, queue: seq<PodTrigger>, phase: PodPhase, workers: seq<Worker>)

  // The serverless task.

  datatype Trigger =
    | CreateWorker(name: string)
    | ToPod(pod: nat, id: nat, reply: Reply)
    | UploadWorkerCode(name: string, code: C.Code)
    | RemoveWorkerCode(name: string)

  datatype Phase =
    | Idle
    | Asking(pod: nat, name: string, source: string)    // about to ask the pod for a vacancy
    | Asked(pod: nat, name: string, source: string)
    | Placing(pod: nat, name: string, source: string)   // about to send the creation
    | Placed(pod: nat, name: string, source: string)
    | Relaying(pod: nat, id: nat, reply: Reply)
    | HaltingNext(pod: nat)
    | Halting(pod: nat)
    | Joining(pod: nat)
    | Finished

  /** A processed trigger with what the caller was told. */
  datatype Entry =
    | Created(name: string, answer: Option<(nat, nat)>)
    | Relayed(pod: nat, id: nat, reply: Reply)
    | Uploaded(name: string, code: C.Code, written: bool, err: Option<C.StoreError>)
    | Removed(name: string)

  /** How the journey of an HTTP trigger ended: registered in a cell, spent by the worker without a promise,
      addressed to nothing, refused by a worker that is gone, or dropped with a queue. */
  datatype Fate = Kept | Spent | NoPod | NoSlot | Refused | Discarded

  datatype Settlement = Settlement(pod: nat, id: nat, reply: Reply, fate: Fate)

  /** `vacancy` and `placed` are the one-shots on which the serverless task waits.
      `accepted`, `log` and `settled` record the run. */
  datatype State = State(
    nThreads: nat, nWorkers: nat,
    files: C.Files, queue: seq<Trigger>, phase: Phase, pods: seq<Pod>,
    vacancy: Option<bool>, placed: Option<nat>,
    accepted: seq<Trigger>, log: seq<Entry>, settled: seq<Settlement>, issued: nat)

  function Init(nThreads: nat, nWorkers: nat, files: C.Files): State {
    State(nThreads, nWorkers, files, [], Idle,
          seq(nThreads, i => Pod(A.Empty(nWorkers), [], Serving, [])), None, None, [], [], [], 0)
  }

  // Triggers under way to one worker.

  function HttpsOf(q: seq<WorkerTrigger>): seq<Reply> {
    if q == [] then []
    else
      var t := q[|q| - 1];
      HttpsOf(q[..|q| - 1]) + if t.Http? then [t.reply] else []
  }

  function ToSlot(q: seq<PodTrigger>, id: nat): seq<Reply> {
    if q == [] then []
    else
      var t := q[|q| - 1];
      ToSlot(q[..|q| - 1], id) + if t.ToWorker? && t.id == id then [t.reply] else []
  }

  function ToPodSlot(q: seq<Trigger>, pod: nat, id: nat): seq<Reply> {
    if q == [] then []
    else
      var t := q[|q| - 1];
      ToPodSlot(q[..|q| - 1], pod, id) + if t.ToPod? && t.pod == pod && t.id == id then [t.reply] else []
  }

  function SettledAt(log: seq<Settlement>, pod: nat, id: nat): seq<Reply> {
    if log == [] then []
    else
      var e := log[|log| - 1];
      SettledAt(log[..|log| - 1], pod, id) + if e.pod == pod && e.id == id then [e.reply] else []
  }

  /** The triggers that became cells of worker `id` of `pod`. */
  function KeptAt(log: seq<Settlement>, pod: nat, id: nat): seq<Reply> {
    if log == [] then []
    else
      var e := log[|log| - 1];
      KeptAt(log[..|log| - 1], pod, id) + if e.pod == pod && e.id == id && e.fate == Kept then [e.reply] else []
  }

  // Dropped queues.

  function DropWorkerQueue(pod: nat, id: nat, q: seq<WorkerTrigger>): seq<Settlement> {
    if q == [] then []
    else
      var t := q[|q| - 1];
      DropWorkerQueue(pod, id, q[..|q| - 1]) + if t.Http? then [Settlement(pod, id, t.reply, Discarded)] else []
  }

  function DropPodQueue(pod: nat, q: seq<PodTrigger>): seq<Settlement> {
    if q == [] then []
    else
      var t := q[|q| - 1];
      DropPodQueue(pod, q[..|q| - 1]) + if t.ToWorker? then [Settlement(pod, t.id, t.reply, Discarded)] else []
  }

  function DropQueue(q: seq<Trigger>): seq<Settlement> {
    if q == [] then []
    else
      var t := q[|q| - 1];
      DropQueue(q[..|q| - 1]) + if t.ToPod? then [Settlement(t.pod, t.id, t.reply, Discarded)] else []
  }

  // Steps of the serverless task.

  function Send(s: State, p: nat, t: PodTrigger): State
    requires p < |s.pods|
  {
    s.(pods := s.pods[p := s.pods[p].(queue := s.pods[p].queue + [t])])
  }

  predicate HasRoom(s: State, p: nat) {
    p < |s.pods| && |s.pods[p].queue| < POD_QUEUE
  }

  predicate ServerlessEnabled(s: State) {
    match s.phase
    case Idle => s.queue != []
    case Asking(i, _, _) => i == |s.pods| || HasRoom(s, i)
    case Asked(i, _, _) => s.vacancy.Some?
    case Placing(i, _, _) => HasRoom(s, i)
    case Placed(i, _, _) => s.placed.Some?
    case Relaying(p, _, _) => HasRoom(s, p)
    case HaltingNext(i) => i == |s.pods| || HasRoom(s, i)
    case Halting(i) => i < |s.pods| && s.pods[i].phase == Stopped
    case Joining(i) => i == |s.pods| || (i < |s.pods| && s.pods[i].phase == Stopped)
    case Finished => false
  }

  /** Take the next trigger off the queue; `written` is what the file system would say to an upload. */
  function Receive(s0: State, written: bool): State
    requires s0.queue != []
  {
    var s := s0.(queue := s0.queue[1..]);
    match s0.queue[0]
    case CreateWorker(name) =>
      (match C.Read(s.files, name)
       case Some(source) => s.(phase := Asking(0, name, source))
       case None => s.(log := s.log + [Created(name, None)]))
    case ToPod(p, id, reply) =>
      var s1 := s.(log := s.log + [Relayed(p, id, reply)]);
      if p < |s.pods| then s1.(phase := Relaying(p, id, reply))
      else s1.(settled := s.settled + [Settlement(p, id, reply, NoPod)])
    case UploadWorkerCode(name, code) =>
      var (files, err) := C.Upload(s.files, name, code, written);
      s.(files := files, log := s.log + [Uploaded(name, code, written, err)])
    case RemoveWorkerCode(name) =>
      s.(files := C.Remove(s.files, name), log := s.log + [Removed(name)])
  }

  function ServerlessStep(s: State, written: bool): State
    requires ServerlessEnabled(s)
  {
    match s.phase
    case Idle => Receive(s, written)
    case Asking(i, name, source) =>
      if i == |s.pods| then s.(log := s.log + [Created(name, None)], phase := Idle)
      else Send(s, i, CheckVacancies).(phase := Asked(i, name, source))
    case Asked(i, name, source) =>
      s.(vacancy := None, phase := if s.vacancy.value then Placing(i, name, source) else Asking(i + 1, name, source))
    case Placing(i, name, source) =>
      Send(s, i, Create(source)).(phase := Placed(i, name, source))
    case Placed(i, name, source) =>
      s.(log := s.log + [Created(name, Some((i, s.placed.value)))], placed := None, phase := Idle)
    case Relaying(p, id, reply) =>
      Send(s, p, ToWorker(id, reply)).(phase := Idle)
    case HaltingNext(i) =>
      if i == |s.pods| then s.(phase := Joining(0)) else Send(s, i, HaltPod).(phase := Halting(i))
    case Halting(i) => s.(phase := HaltingNext(i + 1))
    case Joining(i) =>
      if i == |s.pods| then s.(phase := Finished, queue := [], settled := s.settled + DropQueue(s.queue))
      else s.(phase := Joining(i + 1))
    case Finished => s
  }

  // Steps of a pod.

  predicate Accepts(d: Pod, h: A.Handle) {
    h < |d.workers| && (Gone(d.workers[h]) || |d.workers[h].queue| < WORKER_QUEUE)
  }

  predicate PodEnabled(d: Pod) {
    match d.phase
    case Serving => d.queue != []
    case Forwarding(_, h, _) => Accepts(d, h)
    case HaltNext(rest) => rest == [] || rest[0].None? || Accepts(d, rest[0].value)
    case HaltWait(h, _) => h.Some? && h.value < |d.workers| && Halt(ByPod) !in d.workers[h.value].queue
    case Stopped => false
  }

  function Deliver(d: Pod, h: A.Handle, t: WorkerTrigger): Pod
    requires h < |d.workers|
  {
    if Gone(d.workers[h]) then d
    else d.(workers := d.workers[h := d.workers[h].(queue := d.workers[h].queue + [t])])
  }

  function CountHalt(d: Pod, h: A.Handle): Pod
    requires h < |d.workers|
  {
    d.(workers := d.workers[h := d.workers[h].(podHalts := d.workers[h].podHalts + 1)])
  }

  /** What a pod's step leaves behind outside the pod. */
  datatype PodEffect = PodEffect(pod: Pod, vacancy: Option<bool>, placed: Option<nat>, settled: seq<Settlement>)

  function PodStep(p: nat, d: Pod): PodEffect
    requires PodEnabled(d)
  {
    match d.phase
    case Serving =>
      var d1 := d.(queue := d.queue[1..]);
      (match d.queue[0]
       case CheckVacancies => PodEffect(d1, Some(A.Vacant(d.slots)), None, [])
       case Create(source) =>
         var (slots, id) := A.Create(d.slots, |d.workers|);
         PodEffect(d1.(slots := slots, workers := d.workers + [NewWorker(source)]), None, Some(id), [])
       case ToWorker(id, reply) =>
         (match A.Get(d.slots, id)
          case Some(h) => PodEffect(d1.(phase := Forwarding(id, h, reply)), None, None, [])
          case None => PodEffect(d1, None, None, [Settlement(p, id, reply, NoSlot)]))
       case HaltPod =>
         PodEffect(d1.(slots := d.slots.(workers := []), phase := HaltNext(d.slots.workers)), None, None, []))
    case Forwarding(id, h, reply) =>
      PodEffect(Deliver(d, h, Http(reply)).(phase := Serving), None, None,
                if Gone(d.workers[h]) then [Settlement(p, id, reply, Refused)] else [])
    case HaltNext(rest) =>
      if rest == [] then
        PodEffect(d.(phase := Stopped, queue := []), None, None, DropPodQueue(p, d.queue))
      else
        var d1 := d.(phase := HaltWait(rest[0], rest[1..]));
        PodEffect(if rest[0].Some? then CountHalt(Deliver(d1, rest[0].value, Halt(ByPod)), rest[0].value) else d1,
                  None, None, [])
    case HaltWait(_, rest) => PodEffect(d.(phase := HaltNext(rest)), None, None, [])
    case Stopped => PodEffect(d, None, None, [])
  }

  // Steps of a worker.

  predicate WorkerEnabled(w: Worker) {
    w.phase == Starting || (w.phase == Running && w.queue != [])
  }

  datatype WorkerEffect = WorkerEffect(worker: Worker, settled: seq<Settlement>)

  /** Leaving the event loop drops what is still queued. */
  function Leave(p: nat, h: nat, w: Worker): WorkerEffect {
    WorkerEffect(w.(phase := Closing, queue := []), DropWorkerQueue(p, h, w.queue))
  }

  /** `started` says whether the environment came up, `o` what a call of the fetch handler comes to. */
  function WorkerStep(p: nat, h: nat, w: Worker, started: bool, o: R.Outcome): WorkerEffect
    requires WorkerEnabled(w)
  {
    if w.phase == Starting then
      if started then WorkerEffect(w.(phase := Running), []) else Leave(p, h, w)
    else
      var w1 := w.(queue := w.queue[1..]);
      match w.queue[0]
      case Halt(halter) =>
        Leave(p, h, w1.(table := R.Cleanup(w.table), podAcks := w.podAcks + if halter == ByPod then 1 else 0))
      case Http(reply) =>
        var w2 := w1.(table := R.HandleHttp(w.table, reply, o));
        var here := [Settlement(p, h, reply, if R.Keeps(o) then Kept else Spent)];
        if R.GivesUp(o) then var e := Leave(p, h, w2); WorkerEffect(e.worker, here + e.settled)
        else WorkerEffect(w2, here)
  }

  // The whole system.

  datatype Step =
    | ClientSend(trigger: Trigger)
    | CtrlC
    | ServerlessTurn(written: bool)
    | PodTurn(p: nat)
    | WorkerTurn(p: nat, h: nat, started: bool, o: R.Outcome)
    | MonitorHalts(p: nat, h: nat)
    | CallbackRuns(p: nat, h: nat, cell: nat, text: string)
    | WorkerCloses(p: nat, h: nat)

  predicate HasWorker(s: State, p: nat, h: nat) {
    p < |s.pods| && h < |s.pods[p].workers|
  }

  predicate Enabled(s: State, step: Step) {
    match step
    case ClientSend(t) =>
      s.phase != Finished && |s.queue| < SERVERLESS_QUEUE && (t.ToPod? ==> t.reply == s.issued)
    case CtrlC => s.phase == Idle
    case ServerlessTurn(_) => ServerlessEnabled(s)
    case PodTurn(p) => p < |s.pods| && PodEnabled(s.pods[p])
    case WorkerTurn(p, h, _, _) => HasWorker(s, p, h) && WorkerEnabled(s.pods[p].workers[h])
    case MonitorHalts(p, h) => HasWorker(s, p, h) && !s.pods[p].workers[h].monitorFired && Accepts(s.pods[p], h)
    case CallbackRuns(p, h, _, _) =>
      HasWorker(s, p, h) && (s.pods[p].workers[h].phase == Running || s.pods[p].workers[h].phase == Closing)
    case WorkerCloses(p, h) => HasWorker(s, p, h) && s.pods[p].workers[h].phase == Closing
  }

  function SetWorker(s: State, p: nat, h: nat, w: Worker): State
    requires HasWorker(s, p, h)
  {
    s.(pods := s.pods[p := s.pods[p].(workers := s.pods[p].workers[h := w])])
  }

  function AfterPod(s: State, p: nat, e: PodEffect): State
    requires p < |s.pods|
  {
    s.(pods := s.pods[p := e.pod], settled := s.settled + e.settled,
       vacancy := if e.vacancy.Some? then e.vacancy else s.vacancy,
       placed := if e.placed.Some? then e.placed else s.placed)
  }

  function Next(s: State, step: Step): State
    requires Enabled(s, step)
  {
    match step
    case ClientSend(t) =>
      s.(queue := s.queue + [t], accepted := s.accepted + [t], issued := s.issued + if t.ToPod? then 1 else 0)
    case CtrlC => s.(phase := HaltingNext(0))
    case ServerlessTurn(written) => ServerlessStep(s, written)
    case PodTurn(p) => AfterPod(s, p, PodStep(p, s.pods[p]))
    case WorkerTurn(p, h, started, o) =>
      var e := WorkerStep(p, h, s.pods[p].workers[h], started, o);
      SetWorker(s, p, h, e.worker).(settled := s.settled + e.settled)
    case MonitorHalts(p, h) =>
      var w := s.pods[p].workers[h];
      SetWorker(s, p, h, w.(monitorFired := true, queue := if Gone(w) then w.queue else w.queue + [Halt(ByMonitor)]))
    case CallbackRuns(p, h, c, text) =>
      var w := s.pods[p].workers[h];
      SetWorker(s, p, h, w.(table := R.Fire(w.table, c, text)))
    case WorkerCloses(p, h) =>
      var w := s.pods[p].workers[h];
      SetWorker(s, p, h, w.(phase := Closed, table := R.Flush(w.table)))
  }

  /** The run of `steps`; a step that is not enabled when its turn comes is refused. */
  function Run(s: State, steps: seq<Step>): State {
    if steps == [] then s
    else
      var before, step := Run(s, steps[..|steps| - 1]), steps[|steps| - 1];
      if Enabled(before, step) then Next(before, step) else before
  }
}
