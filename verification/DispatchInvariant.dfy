/** What every step keeps between the serverless task and its pods: who waits for whom, and for what. */
module DispatchInvariant {
  import opened Wrappers
  import opened Protocol
  import opened PodInvariant
  import A = SlotAllocator
  import C = CodeStore
  import R = ReplierTable

  /** The one control message on its way to pod `p`: the one whose answer the serverless task awaits. */
  function Expected(s: State, p: nat): seq<PodTrigger>
    requires p < |s.pods|
  {
    match s.phase
    case Asked(i, _, _) => if i == p && s.vacancy.None? then [CheckVacancies] else []
    case Placed(i, _, source) => if i == p && s.placed.None? then [Create(source)] else []
    case Halting(i) => if i == p && Active(s.pods[p]) then [HaltPod] else []
    case _ => []
  }

  /** The queue is any number of forwarded triggers, then `end`. */
  ghost predicate EndsWith(q: seq<PodTrigger>, end: seq<PodTrigger>) {
    && |end| <= |q| && q[|q| - |end|..] == end
    && forall k :: 0 <= k < |q| - |end| ==> q[k].ToWorker?
  }

  predicate BeforeShutdown(phase: Phase) {
    !phase.HaltingNext? && !phase.Halting? && !phase.Joining? && !phase.Finished?
  }

  ghost predicate FullBelow(s: State, i: nat) {
    i <= |s.pods| && forall j :: 0 <= j < i ==> |s.pods[j].workers| == s.nWorkers
  }

  predicate PlacedLast(d: Pod, id: nat, source: string) {
    id + 1 == |d.workers| && d.workers[id].source == source
  }

  ghost predicate PhaseOk(s: State) {
    && (s.vacancy.Some? ==> s.phase.Asked?)
    && (s.placed.Some? ==> s.phase.Placed?)
    && match s.phase
       case Idle | Finished => true
       case Asking(i, _, _) => FullBelow(s, i)
       case Asked(i, _, _) =>
         && i < |s.pods| && FullBelow(s, i)
         && (s.vacancy == Some(true) ==> |s.pods[i].workers| < s.nWorkers)
         && (s.vacancy == Some(false) ==> |s.pods[i].workers| == s.nWorkers)
       case Placing(i, _, _) => i < |s.pods| && FullBelow(s, i) && |s.pods[i].workers| < s.nWorkers
       case Placed(i, _, source) =>
         && i < |s.pods| && FullBelow(s, i)
         && (s.placed.None? ==> |s.pods[i].workers| < s.nWorkers)
         && (s.placed.Some? ==> PlacedLast(s.pods[i], s.placed.value, source))
       case Relaying(p, _, _) => p < |s.pods|
       case HaltingNext(i) => i <= |s.pods|
       case Halting(i) => i < |s.pods|
       case Joining(i) => i <= |s.pods|
  }

  /** Pods are stopped one after the other, and only by the serverless task. */
  ghost predicate StoppingOk(s: State) {
    forall p :: 0 <= p < |s.pods| ==>
      match s.phase
      case HaltingNext(i) => if p < i then s.pods[p].phase.Stopped? else Active(s.pods[p])
      case Halting(i) => if p < i then s.pods[p].phase.Stopped? else p > i ==> Active(s.pods[p])
      case Joining(_) => s.pods[p].phase.Stopped?
      case Finished => s.pods[p].phase.Stopped?
      case _ => Active(s.pods[p])
  }

  ghost predicate QueuesOk(s: State) {
    forall p :: 0 <= p < |s.pods| ==> EndsWith(s.pods[p].queue, Expected(s, p))
  }

  ghost predicate AllPods(s: State) {
    |s.pods| == s.nThreads && forall p :: 0 <= p < |s.pods| ==> PodOk(s.pods[p], s.nWorkers)
  }

  /** The conditions that do not look inside a pod. */
  ghost predicate Conversation(s: State) {
    PhaseOk(s) && StoppingOk(s) && QueuesOk(s)
  }

  ghost predicate Dispatch(s: State) {
    AllPods(s) && Conversation(s)
  }

  lemma ReplacePod(s: State, p: nat, d: Pod)
    requires AllPods(s) && p < |s.pods| && PodOk(d, s.nWorkers)
    ensures AllPods(s.(pods := s.pods[p := d]))
  {
  }

  lemma InitDispatch(nThreads: nat, nWorkers: nat, files: C.Files)
    ensures Dispatch(Init(nThreads, nWorkers, files))
  {
  }

  // The serverless task.

  /** The pod that a step of the serverless task sends to. */
  function Target(s: State): Option<(nat, PodTrigger)> {
    match s.phase
    case Asking(i, _, _) => if i < |s.pods| then Some((i, CheckVacancies)) else None
    case Placing(i, _, source) => Some((i, Create(source)))
    case Relaying(p, id, reply) => Some((p, ToWorker(id, reply)))
    case HaltingNext(i) => if i < |s.pods| then Some((i, HaltPod)) else None
    case _ => None
  }

  lemma ServerlessTouchesTarget(s: State, written: bool)
    requires ServerlessEnabled(s)
    ensures var t := ServerlessStep(s, written); var to := Target(s);
      && t.nThreads == s.nThreads && t.nWorkers == s.nWorkers
      && if to.None? then t.pods == s.pods
         else to.value.0 < |s.pods| && t.pods == Send(s, to.value.0, to.value.1).pods
  {
  }

  lemma ServerlessKeepsPhase(s: State, written: bool)
    requires PhaseOk(s) && ServerlessEnabled(s)
    ensures PhaseOk(ServerlessStep(s, written))
  {
  }

  lemma ServerlessKeepsStopping(s: State, written: bool)
    requires StoppingOk(s) && PhaseOk(s) && ServerlessEnabled(s)
    ensures StoppingOk(ServerlessStep(s, written))
  {
    ServerlessTouchesTarget(s, written);
    var t := ServerlessStep(s, written);
    forall p | 0 <= p < |s.pods| ensures t.pods[p].phase == s.pods[p].phase {}
  }

  lemma SendExtends(q: seq<PodTrigger>, t: PodTrigger)
    requires EndsWith(q, [])
    ensures EndsWith(q + [t], [t])
    ensures t.ToWorker? ==> EndsWith(q + [t], [])
  {
  }

  /** Before a message is sent to a pod, none is awaited from it. */
  lemma TargetIsFree(s: State, p: nat)
    requires PhaseOk(s) && p < |s.pods|
    requires Target(s).Some? && Target(s).value.0 == p
    ensures Expected(s, p) == []
  {
    hide FullBelow, PlacedLast;
  }

  /** The message a step sends is the one it then waits for. */
  lemma TargetIsExpected(s: State, written: bool, p: nat)
    requires PhaseOk(s) && ServerlessEnabled(s) && p < |s.pods|
    requires s.phase.HaltingNext? && p == s.phase.pod ==> Active(s.pods[p])
    ensures var t, to := ServerlessStep(s, written), Target(s);
      p < |t.pods| && Expected(t, p) == if to.Some? && to.value.0 == p && !to.value.1.ToWorker? then [to.value.1]
                                        else Expected(s, p)
  {
    hide FullBelow, PlacedLast;
    ServerlessTouchesTarget(s, written);
  }

  lemma ServerlessKeepsQueues(s: State, written: bool)
    requires Conversation(s) && ServerlessEnabled(s)
    ensures QueuesOk(ServerlessStep(s, written))
  {
    hide EndsWith, ServerlessStep, PhaseOk, Expected;
    ServerlessTouchesTarget(s, written);
    var t, to := ServerlessStep(s, written), Target(s);
    forall p | 0 <= p < |t.pods| ensures EndsWith(t.pods[p].queue, Expected(t, p)) {
      TargetIsExpected(s, written, p);
      if to.Some? && to.value.0 == p { TargetIsFree(s, p); }
      assert EndsWith(s.pods[p].queue, Expected(s, p));
      if to.Some? && to.value.0 == p { SendExtends(s.pods[p].queue, to.value.1); }
    }
  }

  lemma ServerlessKeepsPods(s: State, written: bool)
    requires AllPods(s) && StoppingOk(s) && ServerlessEnabled(s)
    ensures AllPods(ServerlessStep(s, written))
  {
    ServerlessTouchesTarget(s, written);
    var to := Target(s);
    if to.Some? {
      var (p, t) := to.value;
      SendKeeps(s.pods[p], s.nWorkers, t);
      ReplacePod(s, p, s.pods[p].(queue := s.pods[p].queue + [t]));
    }
  }

  // The pods.

  /** Whatever a pod takes off its queue besides forwarded triggers is the message the serverless task waits on. */
  lemma HeadIsExpected(s: State, p: nat)
    requires QueuesOk(s) && p < |s.pods| && s.pods[p].queue != [] && !s.pods[p].queue[0].ToWorker?
    ensures Expected(s, p) == s.pods[p].queue == [s.pods[p].queue[0]]
  {
  }

  /** What the pod answers to the serverless task, and what becomes of its activity and its queue. */
  ghost predicate PodAnswers(d: Pod, n: nat, e: PodEffect)
    requires d.phase.Serving? ==> d.queue != []
  {
    && !d.phase.Stopped?
    && (forall h :: 0 <= h < |d.workers| && h < |e.pod.workers| ==> e.pod.workers[h].source == d.workers[h].source)
    && (e.vacancy == Some(true) ==> |d.workers| < n)
    && (e.vacancy == Some(false) ==> |d.workers| == n)
    && (e.placed.Some? ==> d.phase.Serving? && d.queue[0].Create? && PlacedLast(e.pod, e.placed.value, d.queue[0].source))
    && (d.phase.Serving? ==> e.pod.queue == d.queue[1..])
    && (!d.phase.Serving? ==> e.pod.queue == d.queue)
    && (e.pod.phase.Stopped? ==> d.phase.HaltNext?)
    && (e.vacancy.Some? <==> d.phase.Serving? && d.queue[0].CheckVacancies?)
    && (e.placed.Some? <==> d.phase.Serving? && d.queue[0].Create?)
    && |e.pod.workers| == |d.workers| + (if e.placed.Some? then 1 else 0)
    && (Active(e.pod) <==> Active(d) && !(d.phase.Serving? && d.queue[0].HaltPod?))
  }

  lemma PodStepAnswers(p: nat, d: Pod, n: nat)
    requires PodOk(d, n) && PodEnabled(d)
    ensures d.phase.Serving? ==> d.queue != []
    ensures PodAnswers(d, n, PodStep(p, d))
  {
    hide WorkersFit, DropPodQueue, A.Grow, A.Top, A.Popped;
    match d.phase
    case Serving =>
    case Forwarding(_, _, _) =>
    case HaltNext(_) =>
    case HaltWait(_, _) =>
  }

  lemma PodKeepsPhase(s: State, p: nat, e: PodEffect)
    requires Conversation(s) && p < |s.pods|
    requires s.pods[p].phase.Serving? ==> s.pods[p].queue != []
    requires PodAnswers(s.pods[p], s.nWorkers, e)
    ensures PhaseOk(AfterPod(s, p, e))
  {
    hide EndsWith, QueuesOk;
    if s.pods[p].phase.Serving? && !s.pods[p].queue[0].ToWorker? { HeadIsExpected(s, p); }
  }

  lemma PodKeepsStopping(s: State, p: nat, e: PodEffect)
    requires Conversation(s) && p < |s.pods|
    requires s.pods[p].phase.Serving? ==> s.pods[p].queue != []
    requires PodAnswers(s.pods[p], s.nWorkers, e)
    ensures StoppingOk(AfterPod(s, p, e))
  {
    if s.pods[p].phase.Serving? && !s.pods[p].queue[0].ToWorker? { HeadIsExpected(s, p); }
  }

  lemma ReceiveShortens(q: seq<PodTrigger>, end: seq<PodTrigger>)
    requires EndsWith(q, end) && q != [] && q[0].ToWorker? && forall t :: t in end ==> !t.ToWorker?
    ensures EndsWith(q[1..], end)
  {
    assert |end| == |q| ==> q == end;
  }

  lemma PodExpects(s: State, p: nat, e: PodEffect, r: nat)
    requires Conversation(s) && p < |s.pods| && r < |s.pods|
    requires s.pods[p].phase.Serving? ==> s.pods[p].queue != []
    requires PodAnswers(s.pods[p], s.nWorkers, e)
    ensures var d := s.pods[p];
      Expected(AfterPod(s, p, e), r)
        == if r == p && d.phase.Serving? && !d.queue[0].ToWorker? then [] else Expected(s, r)
  {
    hide EndsWith, StoppingOk, PhaseOk, PlacedLast;
    if s.pods[p].phase.Serving? && !s.pods[p].queue[0].ToWorker? { HeadIsExpected(s, p); }
  }

  lemma PodKeepsQueues(s: State, p: nat, e: PodEffect)
    requires Conversation(s) && p < |s.pods|
    requires s.pods[p].phase.Serving? ==> s.pods[p].queue != []
    requires PodAnswers(s.pods[p], s.nWorkers, e)
    ensures QueuesOk(AfterPod(s, p, e))
  {
    var d, t := s.pods[p], AfterPod(s, p, e);
    forall r | 0 <= r < |t.pods| ensures EndsWith(t.pods[r].queue, Expected(t, r)) {
      PodExpects(s, p, e, r);
      assert EndsWith(s.pods[r].queue, Expected(s, r));
      if r == p && d.phase.Serving? {
        if d.queue[0].ToWorker? { ReceiveShortens(d.queue, Expected(s, p)); } else { HeadIsExpected(s, p); }
      }
    }
  }

  /** The split of asking and creating is safe: a creation finds its pod with room, a halt finds the queue empty. */
  lemma ControlFindsRoom(s: State, p: nat)
    requires Conversation(s) && p < |s.pods| && s.pods[p].queue != []
    ensures s.pods[p].queue[0].Create? ==> |s.pods[p].workers| < s.nWorkers && |s.pods[p].queue| == 1
    ensures s.pods[p].queue[0].HaltPod? ==> |s.pods[p].queue| == 1
  {
    if !s.pods[p].queue[0].ToWorker? { HeadIsExpected(s, p); }
  }

  lemma PodKeepsPods(s: State, p: nat)
    requires Dispatch(s) && p < |s.pods| && PodEnabled(s.pods[p])
    ensures AllPods(AfterPod(s, p, PodStep(p, s.pods[p])))
  {
    var d := s.pods[p];
    if d.queue != [] { ControlFindsRoom(s, p); }
    PodStepKeeps(p, d, s.nWorkers);
    ReplacePod(s, p, PodStep(p, d).pod);
  }

  lemma PodKeepsConversation(s: State, p: nat)
    requires Dispatch(s) && p < |s.pods| && PodEnabled(s.pods[p])
    ensures Conversation(AfterPod(s, p, PodStep(p, s.pods[p])))
  {
    var e := PodStep(p, s.pods[p]);
    PodStepAnswers(p, s.pods[p], s.nWorkers);
    PodKeepsPhase(s, p, e);
    PodKeepsStopping(s, p, e);
    PodKeepsQueues(s, p, e);
  }

  // The workers and the outside.

  lemma WorkerKeepsPhase(s: State, p: nat, h: nat, w: Worker)
    requires PhaseOk(s) && HasWorker(s, p, h) && w.source == s.pods[p].workers[h].source
    ensures PhaseOk(SetWorker(s, p, h, w))
  {
  }

  lemma WorkerKeepsQueues(s: State, p: nat, h: nat, w: Worker)
    requires QueuesOk(s) && HasWorker(s, p, h)
    ensures QueuesOk(SetWorker(s, p, h, w))
  {
    hide EndsWith;
    var t := SetWorker(s, p, h, w);
    forall r | 0 <= r < |t.pods| ensures EndsWith(t.pods[r].queue, Expected(t, r)) {
      assert EndsWith(s.pods[r].queue, Expected(s, r));
    }
  }

  lemma WorkerKeepsConversation(s: State, p: nat, h: nat, w: Worker)
    requires Conversation(s) && HasWorker(s, p, h) && w.source == s.pods[p].workers[h].source
    ensures Conversation(SetWorker(s, p, h, w))
  {
    hide PhaseOk, QueuesOk;
    WorkerKeepsPhase(s, p, h, w);
    WorkerKeepsQueues(s, p, h, w);
  }

  lemma WorkerKeepsDispatch(s: State, p: nat, h: nat, w: Worker)
    requires Dispatch(s) && HasWorker(s, p, h) && WorkerOk(w)
    requires w.podHalts == s.pods[p].workers[h].podHalts && (Gone(s.pods[p].workers[h]) ==> Gone(w))
    requires w.source == s.pods[p].workers[h].source
    ensures Dispatch(SetWorker(s, p, h, w))
  {
    SetWorkerKeeps(s.pods[p], s.nWorkers, h, w);
    ReplacePod(s, p, s.pods[p].(workers := s.pods[p].workers[h := w]));
    WorkerKeepsConversation(s, p, h, w);
  }

  /** The worker that a step of a worker, of its monitor or of its script leaves behind. */
  function Moved(w: Worker, step: Step): Worker
    requires step.WorkerTurn? ==> WorkerEnabled(w)
  {
    match step
    case WorkerTurn(p, h, started, o) => WorkerStep(p, h, w, started, o).worker
    case MonitorHalts(_, _) =>
      w.(monitorFired := true, queue := if Gone(w) then w.queue else w.queue + [Halt(ByMonitor)])
    case CallbackRuns(_, _, c, text) => w.(table := R.Fire(w.table, c, text))
    case WorkerCloses(_, _) => w.(phase := Closed, table := R.Flush(w.table))
    case _ => w
  }

  lemma MovedKeeps(w: Worker, step: Step)
    requires WorkerOk(w)
    requires step.WorkerTurn? ==> WorkerEnabled(w)
    requires step.WorkerCloses? ==> w.phase == Closing
    ensures var v := Moved(w, step);
      WorkerOk(v) && v.podHalts == w.podHalts && (Gone(w) ==> Gone(v)) && v.source == w.source
  {
    match step
    case WorkerTurn(p, h, started, o) => WorkerStepKeeps(p, h, w, started, o);
    case MonitorHalts(_, _) => MonitorHaltKeeps(w);
    case CallbackRuns(_, _, c, text) => CallbackKeeps(w, c, text);
    case WorkerCloses(_, _) => CloseKeeps(w);
    case _ =>
  }

  predicate OfWorker(step: Step) {
    step.WorkerTurn? || step.MonitorHalts? || step.CallbackRuns? || step.WorkerCloses?
  }

  lemma NextKeepsDispatch(s: State, step: Step)
    requires Dispatch(s) && Enabled(s, step)
    ensures Dispatch(Next(s, step))
  {
    if OfWorker(step) {
      var w := s.pods[step.p].workers[step.h];
      WorkersAreOk(s, step.p, step.h);
      MovedKeeps(w, step);
      WorkerKeepsDispatch(s, step.p, step.h, Moved(w, step));
      DispatchIgnoresLog(SetWorker(s, step.p, step.h, Moved(w, step)), Next(s, step));
    } else {
      match step
      case ClientSend(_) => DispatchIgnoresLog(s, Next(s, step));
      case CtrlC => CtrlCKeepsDispatch(s);
      case ServerlessTurn(written) =>
        ServerlessKeepsPods(s, written);
        ServerlessKeepsPhase(s, written);
        ServerlessKeepsStopping(s, written);
        ServerlessKeepsQueues(s, written);
      case PodTurn(p) =>
        PodKeepsPods(s, p);
        PodKeepsConversation(s, p);
    }
  }

  lemma WorkersAreOk(s: State, p: nat, h: nat)
    requires AllPods(s) && HasWorker(s, p, h)
    ensures WorkerOk(s.pods[p].workers[h])
  {
  }

  lemma DispatchIgnoresLog(s: State, t: State)
    requires Dispatch(s) && t.pods == s.pods && t.phase == s.phase && t.vacancy == s.vacancy && t.placed == s.placed
    requires t.nThreads == s.nThreads && t.nWorkers == s.nWorkers
    ensures Dispatch(t)
  {
    ConversationIgnoresLog(s, t);
  }

  lemma ConversationIgnoresLog(s: State, t: State)
    requires Conversation(s)
    requires t.pods == s.pods && t.phase == s.phase && t.vacancy == s.vacancy && t.placed == s.placed
    requires t.nWorkers == s.nWorkers
    ensures Conversation(t)
  {
    assert forall p :: 0 <= p < |s.pods| ==> Expected(t, p) == Expected(s, p);
  }

  lemma CtrlCKeepsDispatch(s: State)
    requires Dispatch(s) && s.phase == Idle
    ensures Dispatch(s.(phase := HaltingNext(0)))
  {
    CtrlCKeepsConversation(s);
  }

  lemma CtrlCKeepsConversation(s: State)
    requires Conversation(s) && s.phase == Idle
    ensures Conversation(s.(phase := HaltingNext(0)))
  {
  }
}
