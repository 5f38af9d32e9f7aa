/** Nobody waits forever: a measure that every step of a task decreases, and a step for whoever is awaited. */
module Progress {
  import opened Wrappers
  import opened Protocol
  import opened PodInvariant
  import opened DispatchInvariant
  import A = SlotAllocator
  import R = ReplierTable

  // The measure.

  function WorkerWork(w: Worker): nat {
    |w.queue| + (if w.phase == Starting then 1 else 0) + (if w.monitorFired then 0 else 2)
  }

  function WorkersWork(ws: seq<Worker>): nat {
    if ws == [] then 0 else WorkersWork(ws[..|ws| - 1]) + WorkerWork(ws[|ws| - 1])
  }

  /** A forwarded trigger will be taken, delivered and received; a creation makes a worker that will start, may get a
      halt of its monitor, and will be halted. */
  function MailWork(t: PodTrigger): nat {
    match t
    case CheckVacancies | HaltPod => 1
    case ToWorker(_, _) => 3
    case Create(_) => 7
  }

  function MailsWork(q: seq<PodTrigger>): nat {
    if q == [] then 0 else MailsWork(q[..|q| - 1]) + MailWork(q[|q| - 1])
  }

  function PodPhaseWork(d: Pod): nat {
    match d.phase
    case Serving => 3 * |d.workers| + 1
    case Forwarding(_, _, _) => 3 * |d.workers| + 3
    case HaltNext(rest) => 3 * |rest| + 1
    case HaltWait(_, rest) => 3 * |rest| + 2
    case Stopped => 0
  }

  function PodWork(d: Pod): nat {
    PodPhaseWork(d) + MailsWork(d.queue) + WorkersWork(d.workers)
  }

  function PodsWork(pods: seq<Pod>): nat {
    if pods == [] then 0 else PodsWork(pods[..|pods| - 1]) + PodWork(pods[|pods| - 1])
  }

  function PhaseWork(phase: Phase, n: nat): int {
    match phase
    case Idle => 0
    case Asking(i, _, _) => 3 * (n - i) + 10
    case Asked(i, _, _) => 3 * (n - i) + 8
    case Placing(_, _, _) => 9
    case Placed(_, _, _) => 1
    case Relaying(_, _, _) => 4
    case HaltingNext(i) => 3 * (n - i) + n + 2
    case Halting(i) => 3 * (n - i) + n
    case Joining(i) => n - i + 1
    case Finished => 0
  }

  /** What is left to do for the triggers that the serverless task has taken. */
  function Core(s: State): int {
    PhaseWork(s.phase, |s.pods|) + PodsWork(s.pods)
  }

  /** Core, and what is left to do for those it has not. */
  function Work(s: State): int {
    Core(s) + (3 * |s.pods| + 11) * |s.queue|
  }

  lemma CoreIsNatural(s: State)
    requires PhaseOk(s)
    ensures Core(s) >= 0 && Work(s) >= Core(s)
  {
  }

  // Sums under updates.

  lemma {:induction false} WorkersWorkUpdate(ws: seq<Worker>, h: nat, w: Worker)
    requires h < |ws|
    ensures WorkersWork(ws[h := w]) == WorkersWork(ws) - WorkerWork(ws[h]) + WorkerWork(w)
  {
    var n := |ws| - 1;
    if h < n {
      assert ws[h := w][..n] == ws[..n][h := w];
      WorkersWorkUpdate(ws[..n], h, w);
    } else {
      assert ws[h := w][..n] == ws[..n];
    }
  }

  lemma {:induction false} PodsWorkUpdate(pods: seq<Pod>, p: nat, d: Pod)
    requires p < |pods|
    ensures PodsWork(pods[p := d]) == PodsWork(pods) - PodWork(pods[p]) + PodWork(d)
  {
    var n := |pods| - 1;
    if p < n {
      assert pods[p := d][..n] == pods[..n][p := d];
      PodsWorkUpdate(pods[..n], p, d);
    } else {
      assert pods[p := d][..n] == pods[..n];
    }
  }

  lemma {:induction false} MailsWorkAppend(a: seq<PodTrigger>, b: seq<PodTrigger>)
    ensures MailsWork(a + b) == MailsWork(a) + MailsWork(b)
  {
    if b == [] { assert a + b == a; } else {
      assert (a + b)[..|a + b| - 1] == a + b[..|b| - 1];
      MailsWorkAppend(a, b[..|b| - 1]);
    }
  }

  lemma MailsWorkTail(q: seq<PodTrigger>)
    requires q != []
    ensures MailsWork(q) == MailWork(q[0]) + MailsWork(q[1..])
  {
    assert q == [q[0]] + q[1..];
    MailsWorkAppend([q[0]], q[1..]);
    OneMail(q[0]);
  }

  lemma OneMail(t: PodTrigger)
    ensures MailsWork([t]) == MailWork(t)
  {
    assert [t][..0] == [];
  }

  // Each task's step decreases the measure.

  lemma WorkerStepWorks(p: nat, h: nat, w: Worker, started: bool, o: R.Outcome)
    requires WorkerEnabled(w)
    ensures WorkerWork(WorkerStep(p, h, w, started, o).worker) < WorkerWork(w)
  {
  }

  lemma DeliverWork(d: Pod, h: nat, t: WorkerTrigger)
    requires h < |d.workers|
    ensures var v := Deliver(d, h, t);
      && |v.workers| == |d.workers| && v.phase == d.phase && v.queue == d.queue
      && WorkersWork(v.workers) <= WorkersWork(d.workers) + 1
  {
    if !Gone(d.workers[h]) {
      WorkersWorkUpdate(d.workers, h, d.workers[h].(queue := d.workers[h].queue + [t]));
    }
  }

  lemma CountHaltWork(d: Pod, h: nat)
    requires h < |d.workers|
    ensures var v := CountHalt(d, h);
      && |v.workers| == |d.workers| && v.phase == d.phase && v.queue == d.queue
      && WorkersWork(v.workers) == WorkersWork(d.workers)
  {
    WorkersWorkUpdate(d.workers, h, d.workers[h].(podHalts := d.workers[h].podHalts + 1));
  }

  lemma NewWorkerWork(ws: seq<Worker>, source: string)
    ensures WorkersWork(ws + [NewWorker(source)]) == WorkersWork(ws) + 3
  {
    assert (ws + [NewWorker(source)])[..|ws|] == ws;
  }

  lemma ServingStepWorks(p: nat, d: Pod)
    requires PodEnabled(d) && d.phase.Serving? && |d.slots.workers| == |d.workers|
    ensures PodWork(PodStep(p, d).pod) < PodWork(d)
  {
    MailsWorkTail(d.queue);
    if d.queue[0].Create? { NewWorkerWork(d.workers, d.queue[0].source); }
  }

  lemma OtherStepWorks(p: nat, d: Pod)
    requires PodEnabled(d) && !d.phase.Serving?
    ensures PodWork(PodStep(p, d).pod) < PodWork(d)
  {
    match d.phase
    case Forwarding(_, h, reply) => DeliverWork(d, h, Http(reply));
    case HaltNext(rest) =>
      if rest != [] && rest[0].Some? {
        var h, d1 := rest[0].value, d.(phase := HaltWait(rest[0], rest[1..]));
        DeliverWork(d1, h, Halt(ByPod));
        CountHaltWork(Deliver(d1, h, Halt(ByPod)), h);
      }
    case HaltWait(_, _) =>
  }

  lemma PodStepWorks(p: nat, d: Pod, n: nat)
    requires PodOk(d, n) && PodEnabled(d)
    ensures PodWork(PodStep(p, d).pod) < PodWork(d)
  {
    if d.phase.Serving? { ServingStepWorks(p, d); } else { OtherStepWorks(p, d); }
  }

  lemma SendWorks(s: State, p: nat, t: PodTrigger)
    requires p < |s.pods|
    ensures PodsWork(Send(s, p, t).pods) == PodsWork(s.pods) + MailWork(t)
  {
    hide PodsWork, WorkersWork, MailsWork, MailWork;
    var d := s.pods[p];
    OneMail(t);
    MailsWorkAppend(d.queue, [t]);
    PodsWorkUpdate(s.pods, p, d.(queue := d.queue + [t]));
  }

  lemma ServerlessStepWorks(s: State, written: bool)
    requires PhaseOk(s) && ServerlessEnabled(s)
    ensures var t := ServerlessStep(s, written);
      && |t.pods| == |s.pods|
      && (s.phase != Idle ==> Core(t) < Core(s) && |t.queue| <= |s.queue|)
      && (s.phase == Idle ==> Core(t) < Core(s) + 3 * |s.pods| + 11 && |t.queue| + 1 == |s.queue|)
  {
    hide PodsWork;
    var to := Target(s);
    ServerlessTouchesTarget(s, written);
    if to.Some? { SendWorks(s, to.value.0, to.value.1); }
  }

  // Every step.

  /** The steps that a task takes by itself once it is scheduled. */
  predicate OfTask(step: Step) {
    step.ServerlessTurn? || step.PodTurn? || step.WorkerTurn?
  }

  lemma SetWorkerWorks(s: State, p: nat, h: nat, w: Worker)
    requires HasWorker(s, p, h)
    ensures var t := SetWorker(s, p, h, w);
      |t.pods| == |s.pods| && Core(t) == Core(s) - WorkerWork(s.pods[p].workers[h]) + WorkerWork(w)
  {
    var d := s.pods[p];
    WorkersWorkUpdate(d.workers, h, w);
    PodsWorkUpdate(s.pods, p, d.(workers := d.workers[h := w]));
  }

  lemma Product(a: nat, x: nat, y: nat)
    requires x <= y
    ensures a * x <= a * y
    ensures x + 1 == y ==> a * x + a == a * y
  {
    assert a * y - a * x == a * (y - x);
  }

  lemma ServerlessTurnWorks(s: State, written: bool)
    requires PhaseOk(s) && ServerlessEnabled(s)
    ensures Work(ServerlessStep(s, written)) < Work(s)
    ensures s.phase != Idle ==> Core(ServerlessStep(s, written)) < Core(s)
  {
    ServerlessStepWorks(s, written);
    Product(3 * |s.pods| + 11, |ServerlessStep(s, written).queue|, |s.queue|);
  }

  lemma PodTurnWorks(s: State, p: nat)
    requires AllPods(s) && p < |s.pods| && PodEnabled(s.pods[p])
    ensures var t := Next(s, PodTurn(p)); Core(t) < Core(s) && Work(t) < Work(s)
  {
    hide PodStep, PodsWork, PodWork;
    PodStepWorks(p, s.pods[p], s.nWorkers);
    PodsWorkUpdate(s.pods, p, PodStep(p, s.pods[p]).pod);
  }

  lemma WorkerTurnWorks(s: State, p: nat, h: nat, started: bool, o: R.Outcome)
    requires HasWorker(s, p, h) && WorkerEnabled(s.pods[p].workers[h])
    ensures var t := Next(s, WorkerTurn(p, h, started, o));
      Core(t) < Core(s) && Work(t) < Work(s)
  {
    hide WorkerStep, PodsWork, WorkerWork;
    var w := s.pods[p].workers[h];
    WorkerStepWorks(p, h, w, started, o);
    SetWorkerWorks(s, p, h, WorkerStep(p, h, w, started, o).worker);
  }

  /** A step of a task decreases the work, and once shutdown has begun also the work not counting the queue. */
  lemma TaskStepWorks(s: State, step: Step)
    requires Dispatch(s) && Enabled(s, step) && OfTask(step)
    ensures Work(Next(s, step)) < Work(s)
    ensures s.phase != Idle || !step.ServerlessTurn? ==> Core(Next(s, step)) < Core(s)
  {
    hide Core, Work, ServerlessStep, PodStep, WorkerStep, PodOk, PhaseOk, StoppingOk, QueuesOk;
    match step
    case ServerlessTurn(written) => ServerlessTurnWorks(s, written);
    case PodTurn(p) => PodTurnWorks(s, p);
    case WorkerTurn(p, h, started, o) => WorkerTurnWorks(s, p, h, started, o);
  }

  /** What happens outside the tasks never adds to the work begun; only clients and the signal add work at all. */
  lemma OutsideStepWorks(s: State, step: Step)
    requires Enabled(s, step) && !OfTask(step) && !step.CtrlC?
    ensures Core(Next(s, step)) <= Core(s)
    ensures !step.ClientSend? ==> Work(Next(s, step)) <= Work(s)
  {
    hide PodStep, WorkerStep, ServerlessStep, PodsWork;
    if OfWorker(step) {
      SetWorkerWorks(s, step.p, step.h, Moved(s.pods[step.p].workers[step.h], step));
    }
  }

  // Somebody can always move.

  /** A task that can take a step, if there is one. */
  ghost predicate CanMove(s: State) {
    exists step :: OfTask(step) && Enabled(s, step)
  }

  lemma WorkerCanMove(s: State, p: nat, h: nat)
    requires HasWorker(s, p, h) && WorkerEnabled(s.pods[p].workers[h])
    ensures CanMove(s)
  {
    assert Enabled(s, WorkerTurn(p, h, true, R.NotPromise));
  }

  lemma PodCanMove(s: State, p: nat)
    requires p < |s.pods| && PodEnabled(s.pods[p])
    ensures CanMove(s)
  {
    assert Enabled(s, PodTurn(p));
  }

  /** Whoever waits for room in a worker's queue, or for the worker to resolve a token queued there, waits for a
      worker that can move. */
  lemma AwaitedWorkerCanMove(s: State, p: nat, h: nat)
    requires HasWorker(s, p, h)
    ensures Accepts(s.pods[p], h) || CanMove(s)
    ensures !Gone(s.pods[p].workers[h]) && s.pods[p].workers[h].queue != [] ==> CanMove(s)
  {
    var w := s.pods[p].workers[h];
    if WorkerEnabled(w) { WorkerCanMove(s, p, h); }
  }

  /** A pod in the middle of something, or with mail, moves or waits for a worker that does. */
  lemma BusyPodCanMove(s: State, p: nat)
    requires AllPods(s) && p < |s.pods|
    requires !s.pods[p].phase.Stopped? && (s.pods[p].phase.Serving? ==> s.pods[p].queue != [])
    ensures CanMove(s)
  {
    hide CanMove, WorkersFit;
    var d := s.pods[p];
    assert PodOk(d, s.nWorkers);
    if PodEnabled(d) {
      PodCanMove(s, p);
    } else {
      match d.phase
      case Forwarding(_, h, _) => AwaitedWorkerCanMove(s, p, h);
      case HaltNext(rest) => AwaitedWorkerCanMove(s, p, rest[0].value);
      case HaltWait(h, _) =>
        HaltWaitIsOnWorker(d, s.nWorkers);
        AwaitedWorkerCanMove(s, p, h.value);
      case Serving =>
    }
  }

  lemma ServerlessCanMove(s: State)
    requires Dispatch(s) && s.phase != Finished && (s.phase == Idle ==> s.queue != [])
    ensures CanMove(s)
  {
    hide PodOk, PhaseOk, StoppingOk, QueuesOk;
    if ServerlessEnabled(s) {
      assert Enabled(s, ServerlessTurn(true));
    } else {
      AwaitedPodExists(s);
      AwaitedPodIsRunning(s);
      if s.pods[AwaitedPod(s.phase)].phase.Serving? { AwaitedPodHasMail(s); }
      BusyPodCanMove(s, AwaitedPod(s.phase));
    }
  }

  lemma AwaitedMessage(s: State, p: nat)
    requires QueuesOk(s) && p < |s.pods| && Expected(s, p) != []
    ensures s.pods[p].queue != []
  {
    assert EndsWith(s.pods[p].queue, Expected(s, p));
  }

  function AwaitedPod(phase: Phase): nat {
    match phase
    case Idle | Finished => 0
    case Relaying(p, _, _) => p
    case Asking(i, _, _) => i
    case Asked(i, _, _) => i
    case Placing(i, _, _) => i
    case Placed(i, _, _) => i
    case HaltingNext(i) => i
    case Halting(i) => i
    case Joining(i) => i
  }

  lemma AwaitedPodExists(s: State)
    requires PhaseOk(s) && s.phase != Finished && (s.phase == Idle ==> s.queue != []) && !ServerlessEnabled(s)
    ensures AwaitedPod(s.phase) < |s.pods|
  {
    hide PlacedLast;
  }

  lemma AwaitedPodIsRunning(s: State)
    requires StoppingOk(s) && s.phase != Finished && (s.phase == Idle ==> s.queue != []) && !ServerlessEnabled(s)
    requires AwaitedPod(s.phase) < |s.pods|
    ensures !s.pods[AwaitedPod(s.phase)].phase.Stopped?
  {
  }

  /** The pod for which a blocked serverless task waits: its queue is full, or holds the awaited message. */
  lemma AwaitedPodHasMail(s: State)
    requires QueuesOk(s) && StoppingOk(s) && s.phase != Finished && (s.phase == Idle ==> s.queue != []) && !ServerlessEnabled(s)
    requires AwaitedPod(s.phase) < |s.pods| && s.pods[AwaitedPod(s.phase)].phase.Serving?
    ensures s.pods[AwaitedPod(s.phase)].queue != []
  {
    hide QueuesOk;
    var p := AwaitedPod(s.phase);
    if Expected(s, p) != [] { AwaitedMessage(s, p); }
  }

  /** If no task can move, everything has arrived. */
  lemma RestIsComplete(s: State)
    requires Dispatch(s) && !CanMove(s)
    ensures s.phase == Finished || (s.phase == Idle && s.queue == [])
    ensures forall p :: 0 <= p < |s.pods| ==>
      s.pods[p].queue == [] && (s.pods[p].phase.Serving? || s.pods[p].phase.Stopped?)
    ensures forall p: nat, h: nat :: HasWorker(s, p, h) ==> s.pods[p].workers[h].queue == []
  {
    hide CanMove, PhaseOk, StoppingOk, QueuesOk;
    if s.phase != Finished && (s.phase == Idle ==> s.queue != []) { ServerlessCanMove(s); }
    forall p | 0 <= p < |s.pods|
      ensures s.pods[p].queue == [] && (s.pods[p].phase.Serving? || s.pods[p].phase.Stopped?)
    {
      assert PodOk(s.pods[p], s.nWorkers);
      if !s.pods[p].phase.Stopped? && (s.pods[p].phase.Serving? ==> s.pods[p].queue != []) { BusyPodCanMove(s, p); }
    }
    forall p: nat, h: nat | HasWorker(s, p, h) ensures s.pods[p].workers[h].queue == [] {
      WorkersAreOk(s, p, h);
      AwaitedWorkerCanMove(s, p, h);
    }
  }
}
