/** A pod in place: its event loop, and the loop that halts its workers one after the other. While it
    awaits, its workers do what they do. */
module PodTask {
  import opened Wrappers
  import opened Protocol
  import opened PodInvariant
  import A = SlotAllocator
  import D = Delivery
  import R = ReplierTable

  /** What else may happen to a worker. */
  datatype Move =
    | Steps(started: bool, outcome: R.Outcome)
    | HaltedByMonitor
    | RunsCallback(cell: nat, text: string)
    | Closes

  /** A move that is not possible changes nothing. */
  function AfterMove(p: nat, h: nat, w: Worker, m: Move): WorkerEffect {
    match m
    case Steps(started, o) => if WorkerEnabled(w) then WorkerStep(p, h, w, started, o) else WorkerEffect(w, [])
    case HaltedByMonitor =>
      if w.monitorFired || (!Gone(w) && |w.queue| >= WORKER_QUEUE) then WorkerEffect(w, [])
      else WorkerEffect(w.(monitorFired := true, queue := if Gone(w) then w.queue else w.queue + [Halt(ByMonitor)]), [])
    case RunsCallback(c, text) =>
      WorkerEffect(if w.phase == Running || w.phase == Closing then w.(table := R.Fire(w.table, c, text)) else w, [])
    case Closes =>
      WorkerEffect(if w.phase == Closing then w.(phase := Closed, table := R.Flush(w.table)) else w, [])
  }

  function StepOf(p: nat, h: nat, m: Move): Step {
    match m
    case Steps(started, o) => WorkerTurn(p, h, started, o)
    case HaltedByMonitor => MonitorHalts(p, h)
    case RunsCallback(c, text) => CallbackRuns(p, h, c, text)
    case Closes => WorkerCloses(p, h)
  }

  /** A move is the step of the system that it stands for. */
  lemma MoveIsStep(s: State, p: nat, h: nat, m: Move)
    requires HasWorker(s, p, h)
    ensures var w := s.pods[p].workers[h]; var e := AfterMove(p, h, w, m);
      if Enabled(s, StepOf(p, h, m))
      then Next(s, StepOf(p, h, m)) == SetWorker(s, p, h, e.worker).(settled := s.settled + e.settled)
      else e == WorkerEffect(w, [])
  {
    hide WorkerStep, R.Fire, R.Flush;
    assert s.settled + [] == s.settled;
  }

  lemma MoveKeeps(p: nat, h: nat, w: Worker, m: Move)
    requires WorkerOk(w)
    ensures var v := AfterMove(p, h, w, m).worker;
      WorkerOk(v) && v.podHalts == w.podHalts && v.source == w.source && (Gone(w) ==> Gone(v))
  {
    hide WorkerOk;
    match m
    case Steps(started, o) =>
      if WorkerEnabled(w) { WorkerStepKeeps(p, h, w, started, o); }
      hide WorkerStep;
    case HaltedByMonitor => MonitorHaltKeeps(w);
    case RunsCallback(c, text) => CallbackKeeps(w, c, text);
    case Closes => if w.phase == Closing { CloseKeeps(w); }
  }

  /** What a worker has to do before it is rid of its queue. */
  function Backlog(w: Worker): nat {
    |w.queue| + if w.phase == Starting then 1 else 0
  }

  lemma StepsShrinkBacklog(p: nat, h: nat, w: Worker, started: bool, o: R.Outcome)
    requires WorkerEnabled(w)
    ensures Backlog(WorkerStep(p, h, w, started, o).worker) < Backlog(w)
  {
    hide R.HandleHttp, R.Cleanup, DropWorkerQueue;
  }

  /** Capacity of the slot vector after `k` creations: the `n` asked for, and more only if the sender creates more. */
  function Room(n: nat, k: nat): (r: nat)
    ensures k <= r && (k <= n ==> r == n)
  {
    if k <= n then n else A.Grow(k - 1, Room(n, k - 1))
  }

  lemma RoomIsEnough(n: nat, k: nat)
    ensures Room(n, k + 1) == A.Grow(k, Room(n, k)) && k < Room(n, k + 1)
  {
  }

  lemma InOrderIsSound(slots: A.Slots, n: nat)
    requires InOrder(slots, n) && |slots.workers| <= n
    ensures A.Sound(slots) && (A.Vacant(slots) <==> |slots.workers| < n)
  {
  }

  /** While a pod halts, what is still queued will never be taken. */
  function Calm(d: Pod): Pod {
    if d.phase.HaltNext? || d.phase.HaltWait? then d.(queue := []) else d
  }

  /** A pod that checks nothing itself is in order however many workers it is made to create. */
  ghost predicate InShape(d: Pod, n: nat) {
    PodOk(Calm(d), Room(n, |d.workers|))
  }

  lemma WorkerIsOk(d: Pod, n: nat, h: nat)
    requires InShape(d, n) && h < |d.workers|
    ensures WorkerOk(d.workers[h])
  {
  }

  lemma CreateKeepsShape(p: nat, d: Pod, n: nat)
    requires InShape(d, n) && d.phase.Serving? && d.queue != [] && d.queue[0].Create?
    ensures InShape(PodStep(p, d).pod, n)
  {
    var k := |d.workers|;
    var bigger := d.(slots := d.slots.(capacity := Room(n, k + 1)));
    RoomIsEnough(n, k);
    assert |PodStep(p, bigger).pod.workers| == k + 1 && PodStep(p, bigger).pod == PodStep(p, d).pod;
    hide WorkerOk, WorkersFit, PodStep, Room, A.Grow;
    ServingStepKeeps(p, bigger, Room(n, k + 1));
  }

  lemma StepKeepsShape(p: nat, d: Pod, n: nat)
    requires InShape(d, n) && PodEnabled(d) && (d.phase.HaltNext? ==> d.phase.rest != [])
    requires d.phase.Serving? ==> !d.queue[0].Create? && !d.queue[0].HaltPod?
    ensures InShape(PodStep(p, d).pod, n)
  {
    hide PodOk, DropPodQueue, A.Create, Room;
    PodStepKeeps(p, Calm(d), Room(n, |d.workers|));
    assert |PodStep(p, d).pod.workers| == |d.workers|;
    assert Calm(PodStep(p, d).pod) == PodStep(p, Calm(d)).pod;
  }

  lemma HaltKeepsShape(p: nat, d: Pod, n: nat)
    requires InShape(d, n) && d.phase.Serving? && d.queue != [] && d.queue[0].HaltPod?
    ensures InShape(PodStep(p, d).pod, n)
  {
    ServingStepKeeps(p, d.(queue := [HaltPod]), Room(n, |d.workers|));
    hide PodOk, DropPodQueue, A.Create;
  }

  // The books of a pod: what became of the requests for each of its workers.

  /** The requests for worker `id`, in order: those settled, then those in its queue. */
  function Traffic(p: nat, workers: seq<Worker>, settled: seq<Settlement>, id: nat): seq<Reply> {
    SettledAt(settled, p, id) + if id < |workers| then HttpsOf(workers[id].queue) else []
  }

  /** The replies that worker `id` took into cells. */
  function Registrations(workers: seq<Worker>, id: nat): seq<Reply> {
    if id < |workers| then workers[id].table.replies else []
  }

  /** Between two moments the requests `more` come in for worker `id` and none gets lost; and the requests settled there
      as kept are those registered. */
  ghost predicate ConservedAt(p: nat, before: seq<Worker>, given: seq<Settlement>,
                              after: seq<Worker>, now: seq<Settlement>, id: nat, more: seq<Reply>)
  {
    && Traffic(p, after, now, id) == Traffic(p, before, given, id) + more
    && (KeptAt(given, p, id) == Registrations(before, id) ==> KeptAt(now, p, id) == Registrations(after, id))
  }

  ghost predicate Conserved(p: nat, before: seq<Worker>, given: seq<Settlement>, after: seq<Worker>, now: seq<Settlement>,
                            more: nat -> seq<Reply>)
  {
    forall id: nat :: ConservedAt(p, before, given, after, now, id, more(id))
  }

  const Nothing: nat -> seq<Reply> := id => []

  lemma WorkerConserves(p: nat, workers: seq<Worker>, settled: seq<Settlement>, h: nat, e: WorkerEffect, id: nat)
    requires h < |workers| && D.WorkerSettles(p, h, workers[h], e, p, id)
    ensures ConservedAt(p, workers, settled, workers[h := e.worker], settled + e.settled, id, [])
  {
    hide SettledAt, KeptAt, HttpsOf;
    D.SettledAtAppend(settled, e.settled, p, id);
  }

  lemma MoveConserves(p: nat, workers: seq<Worker>, settled: seq<Settlement>, h: nat, m: Move)
    requires h < |workers|
    ensures var e := AfterMove(p, h, workers[h], m);
      Conserved(p, workers, settled, workers[h := e.worker], settled + e.settled, Nothing)
  {
    hide AfterMove, ConservedAt;
    var e := AfterMove(p, h, workers[h], m);
    var after, now := workers[h := e.worker], settled + e.settled;
    forall id: nat ensures ConservedAt(p, workers, settled, after, now, id, []) {
      MoveSettles(p, h, workers[h], m, id);
      WorkerConserves(p, workers, settled, h, e, id);
    }
  }

  /** One request, for worker `id`. */
  function Only(id: nat, reply: Reply): nat -> seq<Reply> {
    i => if i == id then [reply] else []
  }

  /** The requests in a pod's queue. */
  function Mail(q: seq<PodTrigger>): nat -> seq<Reply> {
    i => ToSlot(q, i)
  }

  lemma Chain(p: nat, a: seq<Worker>, x: seq<Settlement>, b: seq<Worker>, y: seq<Settlement>,
              c: seq<Worker>, z: seq<Settlement>, f: nat -> seq<Reply>, g: nat -> seq<Reply>, both: nat -> seq<Reply>)
    requires Conserved(p, a, x, b, y, f) && Conserved(p, b, y, c, z, g)
    requires forall id: nat :: both(id) == f(id) + g(id)
    ensures Conserved(p, a, x, c, z, both)
  {
    hide Traffic, Registrations, SettledAt, KeptAt;
    forall id: nat ensures ConservedAt(p, a, x, c, z, id, both(id)) {
      assert ConservedAt(p, a, x, b, y, id, f(id)) && ConservedAt(p, b, y, c, z, id, g(id));
    }
  }

  lemma NoSlotConserves(p: nat, workers: seq<Worker>, settled: seq<Settlement>, id: nat, reply: Reply)
    requires id >= |workers|
    ensures Conserved(p, workers, settled, workers, settled + [Settlement(p, id, reply, NoSlot)], Only(id, reply))
  {
    hide SettledAt, KeptAt, HttpsOf;
    var e := Settlement(p, id, reply, NoSlot);
    forall i: nat ensures ConservedAt(p, workers, settled, workers, settled + [e], i, Only(id, reply)(i)) {
      D.SettledAtAppend(settled, [e], p, i);
      D.OneSettles(e, p, i);
    }
  }

  lemma RefusalConserves(p: nat, workers: seq<Worker>, settled: seq<Settlement>, id: nat, reply: Reply)
    requires id < |workers| && workers[id].queue == []
    ensures Conserved(p, workers, settled, workers, settled + [Settlement(p, id, reply, Refused)], Only(id, reply))
  {
    assert HttpsOf([]) == [];
    hide SettledAt, KeptAt, HttpsOf;
    var e := Settlement(p, id, reply, Refused);
    forall i: nat ensures ConservedAt(p, workers, settled, workers, settled + [e], i, Only(id, reply)(i)) {
      D.SettledAtAppend(settled, [e], p, i);
      D.OneSettles(e, p, i);
    }
  }

  /** A worker's queue gets longer by one request. */
  lemma DeliveryConserves(p: nat, workers: seq<Worker>, settled: seq<Settlement>, h: nat, w: Worker, reply: Reply)
    requires h < |workers| && w.queue == workers[h].queue + [Http(reply)] && w.table == workers[h].table
    ensures Conserved(p, workers, settled, workers[h := w], settled, Only(h, reply))
  {
    hide ConservedAt;
    var after := workers[h := w];
    forall i: nat ensures ConservedAt(p, workers, settled, after, settled, i, Only(h, reply)(i)) {
      DeliveredAt(p, workers, settled, h, w, Http(reply), i);
    }
  }

  lemma HaltConserves(p: nat, workers: seq<Worker>, settled: seq<Settlement>, h: nat, w: Worker)
    requires h < |workers| && w.queue == workers[h].queue + [Halt(ByPod)] && w.table == workers[h].table
    ensures Conserved(p, workers, settled, workers[h := w], settled, Nothing)
  {
    hide ConservedAt;
    var after := workers[h := w];
    forall i: nat ensures ConservedAt(p, workers, settled, after, settled, i, []) {
      DeliveredAt(p, workers, settled, h, w, Halt(ByPod), i);
    }
  }

  lemma DeliveredAt(p: nat, workers: seq<Worker>, settled: seq<Settlement>, h: nat, w: Worker, t: WorkerTrigger, i: nat)
    requires h < |workers| && w.queue == workers[h].queue + [t] && w.table == workers[h].table
    ensures ConservedAt(p, workers, settled, workers[h := w], settled, i, if t.Http? && i == h then [t.reply] else [])
  {
    hide SettledAt, KeptAt, HttpsOf;
    D.HttpsOfAppend(workers[h].queue, [t]);
    D.OneHttp(t);
  }

  lemma CreationConserves(p: nat, workers: seq<Worker>, settled: seq<Settlement>, source: string)
    ensures Conserved(p, workers, settled, workers + [NewWorker(source)], settled, Nothing)
  {
    assert HttpsOf([]) == [];
    hide SettledAt, KeptAt, HttpsOf;
    var after := workers + [NewWorker(source)];
    forall i: nat ensures ConservedAt(p, workers, settled, after, settled, i, []) {}
  }

  lemma DropConserves(p: nat, workers: seq<Worker>, settled: seq<Settlement>, q: seq<PodTrigger>)
    requires forall h :: 0 <= h < |workers| ==> workers[h].queue == []
    ensures Conserved(p, workers, settled, workers, settled + DropPodQueue(p, q), Mail(q))
  {
    hide ConservedAt, DropPodQueue;
    var now := settled + DropPodQueue(p, q);
    forall i: nat ensures ConservedAt(p, workers, settled, workers, now, i, Mail(q)(i)) {
      DroppedAt(p, workers, settled, q, i);
    }
  }

  lemma DroppedAt(p: nat, workers: seq<Worker>, settled: seq<Settlement>, q: seq<PodTrigger>, i: nat)
    requires forall h :: 0 <= h < |workers| ==> workers[h].queue == []
    ensures ConservedAt(p, workers, settled, workers, settled + DropPodQueue(p, q), i, ToSlot(q, i))
  {
    assert HttpsOf([]) == [];
    hide SettledAt, KeptAt, HttpsOf, ToSlot, DropPodQueue;
    D.SettledAtAppend(settled, DropPodQueue(p, q), p, i);
    D.DropPodQueueSettles(p, q, p, i);
  }

  lemma SameConserves(p: nat, workers: seq<Worker>, settled: seq<Settlement>, after: seq<Worker>)
    requires |after| == |workers|
    requires forall h :: 0 <= h < |workers| ==>
      after[h].queue == workers[h].queue && after[h].table == workers[h].table
    ensures Conserved(p, workers, settled, after, settled, Nothing)
  {
    hide SettledAt, KeptAt, HttpsOf;
    forall i: nat ensures ConservedAt(p, workers, settled, after, settled, i, []) {}
  }

  lemma MoveSettles(p: nat, h: nat, w: Worker, m: Move, id: nat)
    ensures D.WorkerSettles(p, h, w, AfterMove(p, h, w, m), p, id)
  {
    hide SettledAt, KeptAt, HttpsOf, WorkerStep, R.Fire;
    D.NothingSettles(p, id);
    match m
    case Steps(started, o) => if WorkerEnabled(w) { D.WorkerStepSettles(p, h, w, started, o, p, id); }
    case HaltedByMonitor =>
      D.HttpsOfAppend(w.queue, [Halt(ByMonitor)]);
      D.OneHttp(Halt(ByMonitor));
    case RunsCallback(c, text) => FireKeepsReplies(w.table, c, text);
    case Closes => FlushKeepsReplies(w.table, w.table.slots);
  }

  lemma FireKeepsReplies(t: R.Table, c: nat, text: string)
    ensures R.Fire(t, c, text).replies == t.replies
  {
  }

  lemma {:induction false} FlushKeepsReplies(t: R.Table, slots: seq<Option<nat>>)
    ensures R.FlushSlots(t, slots).replies == t.replies
  {
    if slots != [] { FlushKeepsReplies(t, slots[..|slots| - 1]); }
  }

  class Task {
    const number: nat
    const n: nat
    const pod: A.Pod
    var queue: seq<PodTrigger>
    var phase: PodPhase
    var workers: seq<Worker>
    var settled: seq<Settlement>
    /** What the workers do, in order, while the pod awaits. */
    var schedule: seq<(nat, Move)>

    function Model(): Pod
      reads this, pod
    {
      Pod(pod.Model(), queue, phase, workers)
    }

    ghost predicate Valid()
      reads this, pod
    {
      InShape(Model(), n)
    }

    constructor (number: nat, n: nat, schedule: seq<(nat, Move)>)
      ensures Valid() && Model() == Pod(A.Empty(n), [], Serving, [])
      ensures this.number == number && this.n == n && fresh(pod)
    {
      this.number, this.n := number, n;
      pod := new A.Pod(n);
      queue, phase, workers, settled, this.schedule := [], Serving, [], [], schedule;
    }

    /** The workers are the same, have got as many halts, and those that left stay away. */
    twostate predicate SameWorkers()
      reads this
    {
      && |workers| == |old(workers)|
      && forall h :: 0 <= h < |workers| ==>
           && workers[h].source == old(workers)[h].source && workers[h].podHalts == old(workers)[h].podHalts
           && (Gone(old(workers)[h]) ==> Gone(workers[h]))
    }

    /** For each worker `id` the requests `more(id)` came in, and none was lost. */
    twostate predicate Books(more: nat -> seq<Reply>)
      reads this
    {
      Conserved(number, old(workers), old(settled), workers, settled, more)
    }

    method MoveWorker(h: nat, m: Move)
      requires Valid() && h < |workers|
      modifies `workers, `settled
      ensures Valid() && SameWorkers() && Books(Nothing)
      ensures workers == old(workers)[h := AfterMove(number, h, old(workers)[h], m).worker]
    {
      hide PodOk, AfterMove, Room;
      WorkerIsOk(Model(), n, h);
      MoveKeeps(number, h, workers[h], m);
      SetWorkerKeeps(Calm(Model()), Room(n, |workers|), h, AfterMove(number, h, workers[h], m).worker);
      MoveConserves(number, workers, settled, h, m);
      var e := AfterMove(number, h, workers[h], m);
      workers, settled := workers[h := e.worker], settled + e.settled;
    }

    /** Let the workers run until the pod can go on: until worker `h` has room, or has resolved its token. */
    method Await(h: nat)
      requires Valid() && h < |workers| && Awaits(Model(), h)
      modifies `workers, `settled, `schedule
      ensures Valid() && SameWorkers() && PodEnabled(Model()) && Books(Nothing)
    {
      while !PodEnabled(Model())
        invariant Valid() && SameWorkers() && Books(Nothing)
        decreases |schedule|, Backlog(workers[h])
      {
        if schedule != [] {
          var (g, m) := schedule[0];
          schedule := schedule[1..];
          if g < |workers| { MoveWorker(g, m); }
        } else {
          AwaitedCanStep(Model(), n, h);
          StepsShrinkBacklog(number, h, workers[h], true, R.Promised);
          MoveWorker(h, Steps(true, R.Promised));
        }
      }
    }

    method HandleCheckVacancies() returns (vacancy: bool)
      requires Valid() && phase.Serving? && queue != [] && queue[0].CheckVacancies?
      modifies `queue
      ensures Valid() && vacancy == (|workers| < Room(n, |workers|)) && queue == old(queue[1..])
      ensures PodEffect(Model(), Some(vacancy), None, []) == PodStep(number, old(Model()))
    {
      hide WorkerOk, WorkersFit, Room, DropPodQueue, A.Create;
      StepKeepsShape(number, Model(), n);
      InOrderIsSound(pod.Model(), Room(n, |workers|));
      queue := queue[1..];
      vacancy := pod.HasVacancy();
    }

    /** The pod checks nothing itself: without room, the vector grows. */
    method HandleCreate() returns (id: nat)
      requires Valid() && phase.Serving? && queue != [] && queue[0].Create?
      modifies `queue, `workers, pod
      ensures Valid() && id == |old(workers)| && workers == old(workers) + [NewWorker(old(queue[0].source))]
      ensures queue == old(queue[1..]) && phase == old(phase) && Books(Nothing)
      ensures PodEffect(Model(), None, Some(id), []) == PodStep(number, old(Model()))
    {
      hide WorkerOk, WorkersFit, Room, DropPodQueue;
      CreateKeepsShape(number, Model(), n);
      InOrderIsSound(pod.Model(), Room(n, |workers|));
      var source := queue[0].source;
      queue := queue[1..];
      CreationConserves(number, workers, settled, source);
      id := pod.CreateWorker(|workers|);
      workers := workers + [NewWorker(source)];
    }

    /** Forward a trigger, waiting for room if need be. In the end it is the last one in its worker's queue, or the
        worker is gone and refuses it, or there is no such worker. */
    method HandleToWorker()
      requires Valid() && phase.Serving? && queue != [] && queue[0].ToWorker?
      modifies `queue, `phase, `workers, `settled, `schedule
      ensures Valid() && phase.Serving? && queue == old(queue[1..]) && |workers| == |old(workers)|
      ensures var (id, reply) := (old(queue[0].id), old(queue[0].reply));
        if id >= |workers| then
          settled == old(settled) + [Settlement(number, id, reply, NoSlot)] && workers == old(workers)
        else if Gone(workers[id]) then
          settled != [] && settled[|settled| - 1] == Settlement(number, id, reply, Refused)
        else workers[id].queue != [] && workers[id].queue[|workers[id].queue| - 1] == Http(reply)
      ensures Books(Only(old(queue[0].id), old(queue[0].reply)))
    {
      StepKeepsShape(number, Model(), n);
      hide WorkerOk, WorkersFit;
      var id, reply := queue[0].id, queue[0].reply;
      queue := queue[1..];
      var worker := pod.GetWorker(id);
      if worker.None? {
        NoSlotConserves(number, workers, settled, id, reply);
        settled := settled + [Settlement(number, id, reply, NoSlot)];
      } else {
        phase := Forwarding(id, worker.value, reply);
        Await(worker.value);
        ghost var ws, st := workers, settled;
        Send(worker.value, id, reply);
        Chain(number, old(workers), old(settled), ws, st, workers, settled, Nothing, Only(id, reply), Only(id, reply));
      }
    }

    method Send(h: nat, id: nat, reply: Reply)
      requires Valid() && phase == Forwarding(id, h, reply) && h == id < |workers| && PodEnabled(Model())
      modifies `phase, `workers, `settled
      ensures Valid() && phase.Serving? && |workers| == |old(workers)|
      ensures if Gone(workers[id]) then settled == old(settled) + [Settlement(number, id, reply, Refused)]
        else workers[id].queue == old(workers[id].queue) + [Http(reply)]
      ensures Books(Only(id, reply))
    {
      hide PodOk, InShape, DropPodQueue, A.Create;
      StepKeepsShape(number, Model(), n);
      ghost var next := PodStep(number, Model()).pod;
      WorkerIsOk(Model(), n, h);
      if Gone(workers[h]) {
        RefusalConserves(number, workers, settled, id, reply);
        settled := settled + [Settlement(number, id, reply, Refused)];
      } else {
        DeliveryConserves(number, workers, settled, h, workers[h].(queue := workers[h].queue + [Http(reply)]), reply);
        workers := workers[h := workers[h].(queue := workers[h].queue + [Http(reply)])];
      }
      phase := Serving;
      assert Model() == next;
    }

    /** Send the next drained worker its halt, and wait for the token. */
    method HaltOne(rest: seq<Option<A.Handle>>)
      requires Valid() && phase == HaltNext(rest) && rest != []
      modifies `phase, `workers, `settled, `schedule
      ensures Valid() && phase == HaltNext(rest[1..]) && |workers| == |old(workers)| && Books(Nothing)
      ensures rest[0].Some? && rest[0].value < |workers|
      ensures var w := workers[rest[0].value]; Gone(w) && w.queue == [] && w.podHalts == 1
    {
      hide WorkerOk, WorkersFit, Conserved;
      var h := rest[0].value;
      Await(h);
      ghost var ws, st := workers, settled;
      SendHalt(h, rest);
      Chain(number, old(workers), old(settled), ws, st, workers, settled, Nothing, Nothing, Nothing);
      ws, st := workers, settled;
      Await(h);
      Chain(number, old(workers), old(settled), ws, st, workers, settled, Nothing, Nothing, Nothing);
      StepKeepsShape(number, Model(), n);
      phase := HaltNext(rest[1..]);
      HaltedIsGone(Model(), n, h);
    }

    method SendHalt(h: nat, rest: seq<Option<A.Handle>>)
      requires Valid() && phase == HaltNext(rest) && rest != [] && rest[0] == Some(h) && h < |workers|
      requires PodEnabled(Model())
      modifies `phase, `workers
      ensures Valid() && phase == HaltWait(Some(h), rest[1..])
      ensures |workers| == |old(workers)| && workers[h].podHalts == old(workers[h].podHalts) + 1
      ensures Books(Nothing)
    {
      hide PodOk, InShape, DropPodQueue, A.Create, Conserved;
      StepKeepsShape(number, Model(), n);
      ghost var next := PodStep(number, Model()).pod;
      var w := workers[h].(podHalts := workers[h].podHalts + 1,
                           queue := if Gone(workers[h]) then workers[h].queue else workers[h].queue + [Halt(ByPod)]);
      if Gone(workers[h]) {
        SameConserves(number, workers, settled, workers[h := w]);
      } else {
        HaltConserves(number, workers, settled, h, w);
      }
      workers := workers[h := w];
      phase := HaltWait(Some(h), rest[1..]);
      assert Model() == next;
    }

    /** Drain the slots and halt the workers one after the other. Every wait ends, whatever the workers do; what is
        queued behind the halt is dropped. */
    method HandleHalt()
      requires Valid() && phase.Serving? && queue != [] && queue[0].HaltPod?
      modifies this, pod
      ensures Valid() && phase.Stopped? && pod.workers == [] && queue == [] && |workers| == |old(workers)|
      ensures forall h :: 0 <= h < |workers| ==>
        workers[h].podHalts == 1 && Gone(workers[h]) && workers[h].queue == []
      ensures Ends(settled, DropPodQueue(number, old(queue[1..]))) && Books(Mail(old(queue[1..])))
    {
      hide PodOk, InShape, DropPodQueue, A.Create, Conserved;
      HaltKeepsShape(number, Model(), n);
      SameConserves(number, workers, settled, workers);
      ghost var next := PodStep(number, Model()).pod;
      var rest := pod.workers;
      pod.workers := [];
      queue, phase := queue[1..], HaltNext(rest);
      assert Model() == next;
      hide PodStep;
      while rest != []
        invariant Valid() && phase == HaltNext(rest) && |workers| == |old(workers)|
        invariant queue == old(queue[1..]) && pod.workers == [] && Books(Nothing)
      {
        ghost var ws, st := workers, settled;
        HaltOne(rest);
        Chain(number, old(workers), old(settled), ws, st, workers, settled, Nothing, Nothing, Nothing);
        rest := rest[1..];
      }
      StoppingIsOk(Model(), n);
      ghost var st := settled;
      DropConserves(number, workers, settled, queue);
      settled := settled + DropPodQueue(number, queue);
      Chain(number, old(workers), old(settled), workers, st, workers, settled, Nothing, Mail(queue), Mail(queue));
      queue, phase := [], Stopped;
    }

    method HandleTrigger() returns (answer: seq<Answer>)
      requires Valid() && phase.Serving? && queue != []
      modifies this, pod
      ensures Valid() && answer == AnswerTo(old(queue[0]), |old(workers)|, n)
      ensures |workers| == |old(workers)| + if old(queue[0].Create?) then 1 else 0
      ensures if old(queue[0].HaltPod?) then
          phase.Stopped? && queue == [] && Ends(settled, DropPodQueue(number, old(queue[1..])))
          && Books(Mail(old(queue)))
        else phase.Serving? && queue == old(queue[1..]) && Books(Mail([old(queue[0])]))
    {
      hide InShape, PodStep, Room, DropPodQueue, Ends, Conserved;
      FirstMail(queue);
      SameConserves(number, workers, settled, workers);
      match queue[0]
      case CheckVacancies =>
        var vacancy := HandleCheckVacancies();
        answer := [Vacancy(vacancy)];
        SameMail(number, old(workers), old(settled), workers, settled, Nothing, Mail([old(queue[0])]));
      case Create(_) =>
        var id := HandleCreate();
        answer := [Made(id)];
        SameMail(number, old(workers), old(settled), workers, settled, Nothing, Mail([old(queue[0])]));
      case ToWorker(id, reply) =>
        HandleToWorker();
        answer := [];
        SameMail(number, old(workers), old(settled), workers, settled, Only(id, reply), Mail([old(queue[0])]));
      case HaltPod =>
        HandleHalt();
        answer := [];
        SameMail(number, old(workers), old(settled), workers, settled, Mail(old(queue[1..])), Mail(old(queue)));
    }

    /** The event loop, on the triggers that are queued: each is handled to its end before the next one is taken, and
        none is taken after a halt. */
    method Serve() returns (answers: seq<Answer>)
      requires Valid() && phase.Serving?
      modifies this, pod
      ensures Valid() && queue == [] && |workers| == |old(workers)| + Creations(old(queue))
      ensures answers == Answers(old(queue), |old(workers)|, n)
      ensures if Halts(old(queue)) then phase.Stopped? && Ends(settled, DropPodQueue(number, Behind(old(queue))))
        else phase.Serving?
      ensures Books(Mail(old(queue)))
    {
      hide InShape, Conserved, Answers, AnswerTo, Creations, Behind, Halts, DropPodQueue, Ends;
      answers := [];
      ghost var taken := [];
      NoMail();
      SameConserves(number, workers, settled, workers);
      SameMail(number, workers, settled, workers, settled, Nothing, Mail([]));
      while queue != [] && phase.Serving?
        invariant Valid() && (phase.Serving? || (phase.Stopped? && queue == []))
        invariant phase.Serving? ==>
          && answers + Answers(queue, |workers|, n) == Answers(old(queue), |old(workers)|, n)
          && |workers| + Creations(queue) == |old(workers)| + Creations(old(queue))
          && Halts(queue) == Halts(old(queue)) && Behind(queue) == Behind(old(queue))
        invariant old(queue) == taken + queue || phase.Stopped?
        invariant Books(Mail(if phase.Stopped? then old(queue) else taken))
        invariant phase.Stopped? ==>
          && answers == Answers(old(queue), |old(workers)|, n)
          && |workers| == |old(workers)| + Creations(old(queue))
          && Halts(old(queue)) && Ends(settled, DropPodQueue(number, Behind(old(queue))))
        decreases |queue|
      {
        FirstTrigger(queue, |workers|, n);
        ghost var ws, st, q := workers, settled, queue;
        MailAppend(taken, [q[0]]);
        MailAppend(taken, q);
        var answer := HandleTrigger();
        answers := answers + answer;
        if q[0].HaltPod? {
          Chain(number, old(workers), old(settled), ws, st, workers, settled, Mail(taken), Mail(q), Mail(taken + q));
        } else {
          taken := taken + [q[0]];
          Chain(number, old(workers), old(settled), ws, st, workers, settled, Mail(taken[..|taken| - 1]), Mail([q[0]]), Mail(taken));
        }
      }
      EmptyQueue(|workers|, n);
      assert taken + [] == taken;
    }
  }

  /** A pod with no handle left to visit has halted all its workers. */
  lemma StoppingIsOk(d: Pod, n: nat)
    requires InShape(d, n) && d.phase == HaltNext([]) && d.slots.workers == []
    ensures InShape(d.(phase := Stopped, queue := []), n)
    ensures forall h :: 0 <= h < |d.workers| ==>
      d.workers[h].podHalts == 1 && Gone(d.workers[h]) && d.workers[h].queue == []
  {
    hide TableOk, Room;
  }

  lemma HaltedIsGone(d: Pod, n: nat, h: nat)
    requires InShape(d, n) && d.phase.HaltNext? && h + 1 == |d.workers| - |d.phase.rest|
    ensures Gone(d.workers[h]) && d.workers[h].queue == [] && d.workers[h].podHalts == 1
  {
    assert WorkerOk(d.workers[h]);
  }

  lemma SameMail(p: nat, before: seq<Worker>, given: seq<Settlement>, after: seq<Worker>, now: seq<Settlement>,
                 f: nat -> seq<Reply>, g: nat -> seq<Reply>)
    requires Conserved(p, before, given, after, now, f) && forall id: nat :: g(id) == f(id)
    ensures Conserved(p, before, given, after, now, g)
  {
    hide ConservedAt;
  }

  lemma NoMail()
    ensures forall id: nat :: Mail([])(id) == []
  {
  }

  lemma MailAppend(a: seq<PodTrigger>, b: seq<PodTrigger>)
    ensures forall id: nat :: Mail(a + b)(id) == Mail(a)(id) + Mail(b)(id)
  {
    forall id: nat ensures ToSlot(a + b, id) == ToSlot(a, id) + ToSlot(b, id) { D.ToSlotAppend(a, b, id); }
  }

  /** The first trigger of a queue and what it is for. */
  lemma FirstMail(q: seq<PodTrigger>)
    requires q != []
    ensures forall id: nat :: Mail(q)(id) == Mail([q[0]])(id) + Mail(q[1..])(id)
    ensures forall id: nat :: Mail([q[0]])(id) == if q[0].ToWorker? then Only(q[0].id, q[0].reply)(id) else []
  {
    assert q == [q[0]] + q[1..];
    forall id: nat
      ensures ToSlot(q, id) == ToSlot([q[0]], id) + ToSlot(q[1..], id)
      ensures ToSlot([q[0]], id) == if q[0].ToWorker? && q[0].id == id then [q[0].reply] else []
    {
      D.ToSlotAppend([q[0]], q[1..], id);
      assert [q[0]][..0] == [];
    }
  }

  /** The pod is about to send to worker `h`, or waits for its token. */
  predicate Awaits(d: Pod, h: nat) {
    match d.phase
    case Forwarding(_, g, _) => g == h
    case HaltNext(rest) => rest != [] && rest[0] == Some(h)
    case HaltWait(g, _) => g == Some(h)
    case _ => false
  }

  lemma AwaitedCanStep(d: Pod, n: nat, h: nat)
    requires InShape(d, n) && h < |d.workers| && Awaits(d, h) && !PodEnabled(d)
    ensures WorkerEnabled(d.workers[h])
  {
    assert WorkerOk(d.workers[h]);
  }

  // What the pod tells the serverless task.

  datatype Answer = Vacancy(yes: bool) | Made(id: nat)

  /** Creations before the first halt. */
  function Creations(q: seq<PodTrigger>): nat {
    if q == [] || q[0].HaltPod? then 0 else (if q[0].Create? then 1 else 0) + Creations(q[1..])
  }

  /** What is queued behind the first halt. */
  function Behind(q: seq<PodTrigger>): seq<PodTrigger> {
    if q == [] then [] else if q[0].HaltPod? then q[1..] else Behind(q[1..])
  }

  predicate Halts(q: seq<PodTrigger>) {
    HaltPod in q
  }

  predicate Ends<T(==)>(s: seq<T>, end: seq<T>) {
    |end| <= |s| && s[|s| - |end|..] == end
  }

  /** A pod of `k` workers has a vacancy if `k` is below `n`, or below what the vector grew to, and numbers the next
      worker `k`. */
  function AnswerTo(t: PodTrigger, k: nat, n: nat): seq<Answer> {
    match t
    case CheckVacancies => [Vacancy(k < Room(n, k))]
    case Create(_) => [Made(k)]
    case ToWorker(_, _) | HaltPod => []
  }

  function Answers(q: seq<PodTrigger>, k: nat, n: nat): seq<Answer> {
    if q == [] || q[0].HaltPod? then []
    else AnswerTo(q[0], k, n) + Answers(q[1..], k + if q[0].Create? then 1 else 0, n)
  }

  lemma EmptyQueue(k: nat, n: nat)
    ensures Answers([], k, n) == [] && Creations([]) == 0 && !Halts([])
  {
  }

  lemma FirstTrigger(q: seq<PodTrigger>, k: nat, n: nat)
    requires q != []
    ensures q[0].HaltPod? ==> Answers(q, k, n) == AnswerTo(q[0], k, n) && Creations(q) == 0 && Halts(q) && Behind(q) == q[1..]
    ensures var made := if q[0].Create? then 1 else 0;
      !q[0].HaltPod? ==>
        && Answers(q, k, n) == AnswerTo(q[0], k, n) + Answers(q[1..], k + made, n)
        && Creations(q) == made + Creations(q[1..]) && Halts(q) == Halts(q[1..]) && Behind(q) == Behind(q[1..])
  {
    assert q == [q[0]] + q[1..];
  }
}
