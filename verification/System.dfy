/** What holds along every run of the system, however its steps interleave. */
module System {
  import opened Wrappers
  import opened Protocol
  import opened PodInvariant
  import opened DispatchInvariant
  import opened Placement
  import opened Delivery
  import opened Progress
  import A = SlotAllocator
  import C = CodeStore
  import R = ReplierTable

  /** The replies in `q` are 0, 1, ... up to `n`, in this order: each one-shot is made for one request. */
  ghost predicate Numbered(q: seq<Trigger>, n: nat) {
    if q == [] then n == 0
    else
      var t := q[|q| - 1];
      if t.ToPod? then n > 0 && t.reply == n - 1 && Numbered(q[..|q| - 1], n - 1) else Numbered(q[..|q| - 1], n)
  }

  ghost predicate Inv(s: State, initial: C.Files) {
    Dispatch(s) && Truthful(s, initial) && Routed(s) && Numbered(s.accepted, s.issued)
  }

  lemma InitInv(nThreads: nat, nWorkers: nat, initial: C.Files)
    ensures Inv(Init(nThreads, nWorkers, initial), initial)
  {
    InitDispatch(nThreads, nWorkers, initial);
    InitTruthful(nThreads, nWorkers, initial);
    InitRouted(nThreads, nWorkers, initial);
  }

  lemma NextKeepsNumbered(s: State, step: Step)
    requires Numbered(s.accepted, s.issued) && Enabled(s, step)
    ensures Numbered(Next(s, step).accepted, Next(s, step).issued)
  {
    if step.ClientSend? {
      assert (s.accepted + [step.trigger])[..|s.accepted|] == s.accepted;
    }
  }

  lemma NextKeepsInv(s: State, step: Step, initial: C.Files)
    requires Inv(s, initial) && Enabled(s, step)
    ensures Inv(Next(s, step), initial)
  {
    hide AllPods, Conversation, Truthful, Routed, Numbered, Next, Enabled;
    NextKeepsDispatch(s, step);
    NextKeepsTruthful(s, step, initial);
    NextKeepsRouted(s, step);
    NextKeepsNumbered(s, step);
  }

  lemma {:induction false} RunKeepsInv(s: State, steps: seq<Step>, initial: C.Files)
    requires Inv(s, initial)
    ensures Inv(Run(s, steps), initial)
  {
    hide Inv, Next, Enabled;
    if steps != [] {
      var before, step := Run(s, steps[..|steps| - 1]), steps[|steps| - 1];
      RunKeepsInv(s, steps[..|steps| - 1], initial);
      if Enabled(before, step) { NextKeepsInv(before, step, initial); }
    }
  }

  /** A state of a run from the start. */
  function Reached(nThreads: nat, nWorkers: nat, initial: C.Files, steps: seq<Step>): State {
    Run(Init(nThreads, nWorkers, initial), steps)
  }

  lemma ReachedInv(nThreads: nat, nWorkers: nat, initial: C.Files, steps: seq<Step>)
    ensures Inv(Reached(nThreads, nWorkers, initial, steps), initial)
    ensures var s := Reached(nThreads, nWorkers, initial, steps); s.nThreads == nThreads && s.nWorkers == nWorkers
  {
    hide Inv;
    InitInv(nThreads, nWorkers, initial);
    RunKeepsInv(Init(nThreads, nWorkers, initial), steps, initial);
    RunKeepsSize(Init(nThreads, nWorkers, initial), steps);
  }

  lemma {:induction false} RunKeepsSize(s: State, steps: seq<Step>)
    ensures Run(s, steps).nThreads == s.nThreads && Run(s, steps).nWorkers == s.nWorkers
  {
    hide PodStep, WorkerStep, ServerlessStep;
    if steps != [] {
      var before, step := Run(s, steps[..|steps| - 1]), steps[|steps| - 1];
      RunKeepsSize(s, steps[..|steps| - 1]);
      if Enabled(before, step) && step.ServerlessTurn? { ServerlessTouchesTarget(before, step.written); }
    }
  }

  // Placement.

  /** The code that `name` has after the entries of `log`: that of its last successful upload, if no removal came
      later and it reads as text. */
  ghost predicate CurrentSource(initial: C.Files, log: seq<Entry>, name: string, source: string) {
    || (exists i: nat :: C.LastTouch(Ops(log), i, name) && log[i].Uploaded? && log[i].code == C.Text(source))
    || (C.Untouched(Ops(log), name) && C.Read(initial, name) == Some(source))
  }

  lemma SourceIsCurrent(initial: C.Files, log: seq<Entry>, name: string, source: string)
    ensures SourceAt(initial, log, name) == Some(source) <==> CurrentSource(initial, log, name, source)
  {
    C.ReadIsLastUpload(initial, Ops(log), name, source);
    if i: nat :| C.LastTouch(Ops(log), i, name) && Ops(log)[i].Uploading? && Ops(log)[i].code == C.Text(source) {
      assert log[i].Uploaded?;
    }
    if i: nat :| C.LastTouch(Ops(log), i, name) && log[i].Uploaded? && log[i].code == C.Text(source) {
      assert Ops(log)[i].Uploading?;
    }
  }

  /** Along every interleaving, a creation is answered with a place exactly if its name had code when its turn came
      and fewer than nThreads * nWorkers creations had succeeded; the `k`-th success gets worker `k % nWorkers` of pod
      `k / nWorkers`; and that worker was made from that code. */
  lemma PlacementIsSequential(nThreads: nat, nWorkers: nat, initial: C.Files, steps: seq<Step>, j: nat)
    requires j < |Reached(nThreads, nWorkers, initial, steps).log|
    requires Reached(nThreads, nWorkers, initial, steps).log[j].Created?
    ensures var s := Reached(nThreads, nWorkers, initial, steps);
      var name, answer, k := s.log[j].name, s.log[j].answer, Successes(s.log[..j]);
      && (answer.Some? <==> k < Capacity(nThreads, nWorkers) && exists source :: CurrentSource(initial, s.log[..j], name, source))
      && (answer.Some? ==>
            && nWorkers > 0 && answer.value == PlaceOf(k, nWorkers)
            && HasWorker(s, answer.value.0, answer.value.1)
            && CurrentSource(initial, s.log[..j], name, s.pods[answer.value.0].workers[answer.value.1].source))
  {
    hide Shaped;
    ReachedInv(nThreads, nWorkers, initial, steps);
    var s := Reached(nThreads, nWorkers, initial, steps);
    var name, before, k := s.log[j].name, s.log[..j], Successes(s.log[..j]);
    assert Answers(initial, nThreads, nWorkers, before, s.log[j]);
    assert SourcedAt(s, initial, j);
    CapacityNeedsWorkers(nThreads, nWorkers);
    hide Capacity, PlaceOf, Inv, C.After, C.Read, CurrentSource, Run, Init;
    if SourceAt(initial, before, name).Some? {
      SourceIsCurrent(initial, before, name, SourceAt(initial, before, name).value);
    } else {
      forall source ensures !CurrentSource(initial, before, name, source) {
        SourceIsCurrent(initial, before, name, source);
      }
    }
  }

  /** Nothing is overtaken at the front: entries are written in the order in which triggers were accepted. */
  lemma LogFollowsArrival(nThreads: nat, nWorkers: nat, initial: C.Files, steps: seq<Step>)
    ensures var s := Reached(nThreads, nWorkers, initial, steps);
      && Triggers(s.log) <= s.accepted
      && (s.phase != Finished ==> s.accepted == Triggers(s.log) + InHand(s.phase) + s.queue)
  {
    hide AllPods, Conversation, Routed, Numbered, Shaped, Sourced, Run, Init;
    ReachedInv(nThreads, nWorkers, initial, steps);
  }

  // Checking, then acting.

  /** At most one creation is on its way to any pod, it is last in its queue, and its pod still has a vacancy: no slot
      vector ever outgrows the capacity it was given. */
  lemma CheckThenActIsSafe(nThreads: nat, nWorkers: nat, initial: C.Files, steps: seq<Step>)
    ensures var s := Reached(nThreads, nWorkers, initial, steps);
      && (forall p, k :: 0 <= p < |s.pods| && 0 <= k < |s.pods[p].queue| && s.pods[p].queue[k].Create? ==>
            && k == |s.pods[p].queue| - 1 && |s.pods[p].workers| < nWorkers
            && Active(s.pods[p]) && A.Vacant(s.pods[p].slots)
            && s.phase.Placed? && s.phase.pod == p)
      && (forall p :: 0 <= p < |s.pods| ==>
            && |s.pods[p].slots.workers| <= |s.pods[p].workers| <= nWorkers
            && (Active(s.pods[p]) ==> s.pods[p].slots.capacity == nWorkers))
  {
    hide Truthful, Routed, Numbered, EndsWith, WorkersFit, Run, Init;
    ReachedInv(nThreads, nWorkers, initial, steps);
    var s := Reached(nThreads, nWorkers, initial, steps);
    forall p, k | 0 <= p < |s.pods| && 0 <= k < |s.pods[p].queue| && s.pods[p].queue[k].Create?
      ensures k == |s.pods[p].queue| - 1 && |s.pods[p].workers| < nWorkers
      ensures Active(s.pods[p]) && A.Vacant(s.pods[p].slots)
      ensures s.phase.Placed? && s.phase.pod == p
    {
      CreationInFlight(s, p, k);
      assert PodOk(s.pods[p], s.nWorkers);
    }
    forall p | 0 <= p < |s.pods| ensures PodOk(s.pods[p], nWorkers) {}
  }

  lemma CreationInFlight(s: State, p: nat, k: nat)
    requires Conversation(s) && p < |s.pods| && k < |s.pods[p].queue| && s.pods[p].queue[k].Create?
    ensures k == |s.pods[p].queue| - 1 && |s.pods[p].workers| < s.nWorkers && s.phase.Placed? && s.phase.pod == p
  {
    assert EndsWith(s.pods[p].queue, Expected(s, p));
  }

  // Delivery.

  /** For each worker the accepted triggers are, in order: those settled, those in its queue, the one its pod holds
      and those in the pod's queue, the one the serverless task holds and those in its queue. */
  lemma OrderIsKept(nThreads: nat, nWorkers: nat, initial: C.Files, steps: seq<Step>, p: nat, id: nat)
    ensures var s := Reached(nThreads, nWorkers, initial, steps);
      && ToPodSlot(s.accepted, p, id) == SettledAt(s.settled, p, id) + InPods(s, p, id) + InServerless(s, p, id)
      && KeptAt(s.settled, p, id) == KeptIn(s, p, id)
  {
    hide AllPods, Conversation, Truthful, Numbered;
    ReachedInv(nThreads, nWorkers, initial, steps);
    var s := Reached(nThreads, nWorkers, initial, steps);
    assert RoutedTo(s, p, id) && RegisteredAt(s, p, id);
  }

  /** A place once given out stays good until its pod is halted: the slot holds the worker that the creation made, and
      a trigger with these ids is forwarded to it. */
  lemma PlaceStaysGood(nThreads: nat, nWorkers: nat, initial: C.Files, steps: seq<Step>, j: nat)
    requires j < |Reached(nThreads, nWorkers, initial, steps).log|
    requires var e := Reached(nThreads, nWorkers, initial, steps).log[j]; e.Created? && e.answer.Some?
    ensures var s := Reached(nThreads, nWorkers, initial, steps);
      var (p, h) := s.log[j].answer.value;
      && p < |s.pods|
      && (Active(s.pods[p]) ==> A.Get(s.pods[p].slots, h) == Some(h))
      && (forall r :: s.pods[p].phase.Serving? && s.pods[p].queue != [] && s.pods[p].queue[0] == ToWorker(h, r) ==>
            PodStep(p, s.pods[p]).pod.phase == Forwarding(h, h, r))
  {
    hide Conversation, Routed, Numbered, Shaped, Recorded, WorkersFit, Run, Init;
    ReachedInv(nThreads, nWorkers, initial, steps);
    var s := Reached(nThreads, nWorkers, initial, steps);
    assert SourcedAt(s, initial, j);
    var (p, h) := s.log[j].answer.value;
    assert PodOk(s.pods[p], s.nWorkers);
  }

  lemma {:induction false} AddressedOnce(q: seq<Trigger>, n: nat, p: nat, id: nat, r: Reply)
    requires Numbered(q, n)
    ensures multiset(ToPodSlot(q, p, id))[r] == if ToPod(p, id, r) in q then 1 else 0
    ensures ToPod(p, id, r) in q ==> r < n
  {
    if q != [] {
      var front, t := q[..|q| - 1], q[|q| - 1];
      assert q == front + [t];
      AddressedOnce(front, if t.ToPod? then n - 1 else n, p, id, r);
    }
  }

  lemma {:induction false} EveryReplyIsAddressed(q: seq<Trigger>, n: nat, r: Reply) returns (p: nat, id: nat)
    requires Numbered(q, n) && r < n
    ensures ToPod(p, id, r) in q
    ensures forall pp, i :: ToPod(pp, i, r) in q ==> pp == p && i == id
  {
    var front, t := q[..|q| - 1], q[|q| - 1];
    assert q == front + [t];
    if t.ToPod? && t.reply == r {
      p, id := t.pod, t.id;
      forall pp, i ensures ToPod(pp, i, r) !in front {
        AddressedOnce(front, n - 1, pp, i, r);
      }
    } else {
      p, id := EveryReplyIsAddressed(front, if t.ToPod? then n - 1 else n, r);
    }
  }

  /** How often reply `r` is at worker `id` of pod `p` or on its way there: settled, in the worker's queue or its pod's
      hands, or in the serverless task's. */
  function Whereabouts(s: State, p: nat, id: nat, r: Reply): nat {
    multiset(SettledAt(s.settled, p, id))[r] + multiset(InPods(s, p, id))[r] + multiset(InServerless(s, p, id))[r]
  }

  /** Every reply ever made is in exactly one place. */
  lemma OnePlaceForEachReply(nThreads: nat, nWorkers: nat, initial: C.Files, steps: seq<Step>, r: Reply)
    requires r < Reached(nThreads, nWorkers, initial, steps).issued
    ensures var s := Reached(nThreads, nWorkers, initial, steps);
      exists p: nat, id: nat :: Whereabouts(s, p, id, r) == 1
        && forall pp: nat, i: nat :: (pp != p || i != id) ==> Whereabouts(s, pp, i, r) == 0
  {
    hide AllPods, Conversation, Truthful, Run, Init;
    ReachedInv(nThreads, nWorkers, initial, steps);
    var s := Reached(nThreads, nWorkers, initial, steps);
    var p, id := EveryReplyIsAddressed(s.accepted, s.issued, r);
    forall pp: nat, i: nat
      ensures Whereabouts(s, pp, i, r) == if pp == p && i == id then 1 else 0
    {
      AddressedOnce(s.accepted, s.issued, pp, i, r);
      assert RoutedTo(s, pp, i);
    }
    assert Whereabouts(s, p, id, r) == 1;
  }

  /** The replies that a worker took into cells are pairwise different, each is pending in its cell or was answered
      exactly once, and after the worker has closed none is pending. */
  lemma CellsAnswerOnce(nThreads: nat, nWorkers: nat, initial: C.Files, steps: seq<Step>, p: nat, h: nat)
    requires HasWorker(Reached(nThreads, nWorkers, initial, steps), p, h)
    ensures var w := Reached(nThreads, nWorkers, initial, steps).pods[p].workers[h];
      && Distinct(w.table.replies) && Distinct(R.CellsOf(w.table.answers))
      && (forall c :: 0 <= c < |w.table.replies| ==> (c in R.CellsOf(w.table.answers) <==> c !in w.table.live))
      && (w.phase == Closed ==> w.table.live == {} && |w.table.answers| == |w.table.replies|)
      && (Gone(w) ==> w.queue == [])
  {
    hide Conversation, Truthful, Run, Init;
    ReachedInv(nThreads, nWorkers, initial, steps);
    var s := Reached(nThreads, nWorkers, initial, steps);
    var w := s.pods[p].workers[h];
    WorkersAreOk(s, p, h);
    assert RegisteredAt(s, p, h) && RoutedTo(s, p, h);
    forall i, j | 0 <= i < j < |w.table.replies| ensures w.table.replies[i] != w.table.replies[j] {
      var r := w.table.replies[i];
      AddressedOnce(s.accepted, s.issued, p, h, r);
      KeptIsSettled(s.settled, p, h, r);
      if r == w.table.replies[j] { TwiceInside(w.table.replies, i, j); }
    }
    if w.phase == Closed { ClosedAnswers(w.table); }
  }

  lemma TwiceInside(s: seq<Reply>, i: nat, j: nat)
    requires i < j < |s| && s[i] == s[j]
    ensures multiset(s)[s[i]] >= 2
  {
    assert s == s[..j] + s[j..];
    assert s[i] == s[..j][i] && s[j] == s[j..][0];
    assert multiset(s) == multiset(s[..j]) + multiset(s[j..]);
    assert s[i] in multiset(s[..j]) && s[j] in multiset(s[j..]);
  }

  lemma {:induction false} KeptIsSettled(log: seq<Settlement>, p: nat, id: nat, r: Reply)
    ensures multiset(KeptAt(log, p, id))[r] <= multiset(SettledAt(log, p, id))[r]
  {
    if log != [] { KeptIsSettled(log[..|log| - 1], p, id, r); }
  }

  lemma ClosedAnswers(t: R.Table)
    requires R.Settled(t) && t.live == {}
    ensures |t.answers| == |t.replies|
  {
    DistinctCardinality(R.CellsOf(t.answers));
    assert Elements(R.CellsOf(t.answers)) == Below(|t.replies|);
  }

  // Shutdown and rest.

  /** When the serverless task has finished, every pod has stopped, every worker got exactly one halt from its pod and
      has left its event loop, and every accepted trigger is settled. */
  lemma FinishedMeansHalted(nThreads: nat, nWorkers: nat, initial: C.Files, steps: seq<Step>)
    requires Reached(nThreads, nWorkers, initial, steps).phase == Finished
    ensures var s := Reached(nThreads, nWorkers, initial, steps);
      && (forall p :: 0 <= p < |s.pods| ==> s.pods[p].phase.Stopped? && s.pods[p].slots.workers == [])
      && (forall p: nat, h: nat :: HasWorker(s, p, h) ==>
            Gone(s.pods[p].workers[h]) && s.pods[p].workers[h].podHalts == 1)
      && (forall p: nat, id: nat :: ToPodSlot(s.accepted, p, id) == SettledAt(s.settled, p, id))
  {
    hide Truthful, Routed, Numbered, PodOk, PhaseOk, QueuesOk, Run, Init;
    ReachedInv(nThreads, nWorkers, initial, steps);
    var s := Reached(nThreads, nWorkers, initial, steps);
    forall p | 0 <= p < |s.pods|
      ensures s.pods[p].phase.Stopped? && s.pods[p].slots.workers == []
      ensures forall h :: 0 <= h < |s.pods[p].workers| ==>
        Gone(s.pods[p].workers[h]) && s.pods[p].workers[h].podHalts == 1
    {
      StoppedPodHasHaltedWorkers(s.pods[p], s.nWorkers);
    }
    FinishedIsSettled(s, initial);
  }

  lemma FinishedIsSettled(s: State, initial: C.Files)
    requires Inv(s, initial) && s.phase == Finished
    ensures forall p: nat, id: nat :: ToPodSlot(s.accepted, p, id) == SettledAt(s.settled, p, id)
  {
    hide AllPods, PhaseOk, StoppingOk, QueuesOk, Shaped, Sourced, AllAnswered, Numbered, CanMove, RoutedTo, ToPodSlot, SettledAt;
    RestIffStuck(s);
    forall p: nat, id: nat ensures ToPodSlot(s.accepted, p, id) == SettledAt(s.settled, p, id) {
      assert RoutedTo(s, p, id);
      RestIsSettled(s, p, id);
    }
  }

  /** What the serverless task knows of pod `p` while it waits for pod `i` to halt. */
  ghost predicate HaltsInTurn(s: State, i: nat, p: nat, h: nat)
    requires HasWorker(s, p, h)
  {
    var w := s.pods[p].workers[h];
    && (p < i ==> s.pods[p].phase.Stopped? && w.podHalts == 1 && Gone(w))
    && (p > i ==> Active(s.pods[p]) && w.podHalts == 0)
    && (p == i && ServerlessEnabled(s) ==> w.podHalts == 1 && Gone(w))
  }

  lemma HaltingPods(s: State, i: nat, p: nat, h: nat)
    requires AllPods(s) && StoppingOk(s) && s.phase == Halting(i) && HasWorker(s, p, h)
    ensures HaltsInTurn(s, i, p, h)
  {
    hide WorkerOk;
    var d := s.pods[p];
    if d.phase.Stopped? {
      StoppedPodHasHaltedWorkers(d, s.nWorkers);
    } else {
      assert PodOk(d, s.nWorkers);
    }
  }

  /** A pod is reported halted only after all its workers have resolved their tokens, and the next pod is halted only
      after that: during a shutdown the pods before the current one are stopped and the ones after it untouched. */
  lemma PodsHaltInTurn(nThreads: nat, nWorkers: nat, initial: C.Files, steps: seq<Step>, i: nat, p: nat, h: nat)
    requires Reached(nThreads, nWorkers, initial, steps).phase == Halting(i)
    requires HasWorker(Reached(nThreads, nWorkers, initial, steps), p, h)
    ensures HaltsInTurn(Reached(nThreads, nWorkers, initial, steps), i, p, h)
  {
    hide Truthful, Routed, Numbered, PodOk, PhaseOk, QueuesOk, HaltsInTurn, Run, Init;
    ReachedInv(nThreads, nWorkers, initial, steps);
    HaltingPods(Reached(nThreads, nWorkers, initial, steps), i, p, h);
  }

  /** The steps of `steps` that a task really takes. */
  function Taken(s: State, steps: seq<Step>): nat {
    if steps == [] then 0
    else
      var before, step := Run(s, steps[..|steps| - 1]), steps[|steps| - 1];
      Taken(s, steps[..|steps| - 1]) + if OfTask(step) && Enabled(before, step) then 1 else 0
  }

  lemma {:induction false} ShutdownGoesOn(s: State, steps: seq<Step>)
    requires !BeforeShutdown(s.phase)
    ensures !BeforeShutdown(Run(s, steps).phase)
  {
    hide PodStep, WorkerStep, Receive;
    if steps != [] { ShutdownGoesOn(s, steps[..|steps| - 1]); }
  }

  /** Once shutdown has begun, the tasks take at most `Core(s)` more steps, whatever clients, monitors and scripts do
      in the meantime; and they cannot all be stuck before everything is halted and joined. */
  lemma {:induction false} ShutdownTerminates(s: State, steps: seq<Step>, initial: C.Files)
    requires Inv(s, initial) && !BeforeShutdown(s.phase)
    ensures Taken(s, steps) + Core(Run(s, steps)) <= Core(s) && Core(Run(s, steps)) >= 0
    ensures !CanMove(Run(s, steps)) <==> Run(s, steps).phase == Finished
  {
    hide AllPods, PhaseOk, StoppingOk, QueuesOk, Truthful, Routed, Numbered, Core, CanMove;
    RunKeepsInv(s, steps, initial);
    ShutdownGoesOn(s, steps);
    ShutdownSteps(s, steps, initial);
    CoreIsNatural(Run(s, steps));
    RestIffStuck(Run(s, steps));
  }

  lemma {:induction false} ShutdownSteps(s: State, steps: seq<Step>, initial: C.Files)
    requires Inv(s, initial) && !BeforeShutdown(s.phase)
    ensures Taken(s, steps) + Core(Run(s, steps)) <= Core(s)
  {
    hide AllPods, Conversation, Truthful, Routed, Numbered, Core, Next;
    if steps != [] {
      var front := steps[..|steps| - 1];
      var before, step := Run(s, front), steps[|steps| - 1];
      ShutdownSteps(s, front, initial);
      RunKeepsInv(s, front, initial);
      ShutdownGoesOn(s, front);
      if Enabled(before, step) {
        if OfTask(step) { TaskStepWorks(before, step); } else { OutsideStepWorks(before, step); }
      }
    }
  }

  /** No worker is about to start and none has mail. */
  ghost predicate RestOfAll(s: State) {
    forall p: nat, h: nat :: HasWorker(s, p, h) ==> !WorkerEnabled(s.pods[p].workers[h])
  }

  lemma FinishedIsStill(s: State)
    requires StoppingOk(s) && s.phase == Finished && RestOfAll(s)
    ensures !CanMove(s)
  {
    hide PodOk, ServerlessStep, PodStep;
    forall step | OfTask(step) ensures !Enabled(s, step) {
      match step
      case ServerlessTurn(_) =>
      case PodTurn(p) =>
      case WorkerTurn(p, h, _, _) =>
    }
  }

  lemma RestIffStuck(s: State)
    requires Dispatch(s) && !BeforeShutdown(s.phase)
    ensures !CanMove(s) <==> s.phase == Finished
  {
    hide CanMove, RestOfAll, PodOk, PhaseOk, QueuesOk, HasWorker;
    if s.phase == Finished {
      FinishedIsRest(s);
      FinishedIsStill(s);
    } else if !CanMove(s) {
      RestIsComplete(s);
    }
  }

  lemma FinishedIsRest(s: State)
    requires AllPods(s) && StoppingOk(s) && s.phase == Finished
    ensures RestOfAll(s)
  {
    hide PodOk;
    forall p: nat, h: nat | HasWorker(s, p, h) ensures !WorkerEnabled(s.pods[p].workers[h]) {
      StoppedPodHasHaltedWorkers(s.pods[p], s.nWorkers);
    }
  }

  /** No new request and no signal. */
  predicate Unprompted(steps: seq<Step>) {
    forall i :: 0 <= i < |steps| ==> !steps[i].ClientSend? && !steps[i].CtrlC?
  }

  lemma {:induction false} UnpromptedSteps(s: State, steps: seq<Step>, initial: C.Files)
    requires Inv(s, initial) && Unprompted(steps)
    ensures Taken(s, steps) + Work(Run(s, steps)) <= Work(s)
  {
    hide AllPods, Conversation, Truthful, Routed, Numbered, Core, Work, Next, Enabled;
    if steps != [] {
      var front := steps[..|steps| - 1];
      var before, step := Run(s, front), steps[|steps| - 1];
      UnpromptedSteps(s, front, initial);
      RunKeepsInv(s, front, initial);
      if Enabled(before, step) {
        if OfTask(step) { TaskStepWorks(before, step); } else { OutsideStepWorks(before, step); }
      }
    }
  }

  /** Without new requests the system comes to rest after at most `Work(s)` steps of its tasks, and at rest every
      request ever accepted has arrived: it is settled, in the order of acceptance for each worker. */
  lemma RequestsAreAllServed(s: State, steps: seq<Step>, initial: C.Files, p: nat, id: nat)
    requires Inv(s, initial) && Unprompted(steps)
    ensures Taken(s, steps) <= Work(s)
    ensures !CanMove(Run(s, steps)) ==>
      ToPodSlot(Run(s, steps).accepted, p, id) == SettledAt(Run(s, steps).settled, p, id)
  {
    hide AllPods, PhaseOk, StoppingOk, QueuesOk, Shaped, Sourced, AllAnswered, Numbered, Core, Work, CanMove, RoutedTo;
    RunKeepsInv(s, steps, initial);
    UnpromptedSteps(s, steps, initial);
    CoreIsNatural(Run(s, steps));
    assert RoutedTo(Run(s, steps), p, id);
    if !CanMove(Run(s, steps)) { RestIsSettled(Run(s, steps), p, id); }
  }

  lemma RestIsSettled(s: State, p: nat, id: nat)
    requires Dispatch(s) && RoutedTo(s, p, id) && !CanMove(s)
    requires s.phase == Finished ==> s.queue == []
    ensures ToPodSlot(s.accepted, p, id) == SettledAt(s.settled, p, id)
  {
    hide CanMove, PodOk, PhaseOk, StoppingOk, QueuesOk;
    assert HttpsOf([]) == [] && ToSlot([], id) == [] && ToPodSlot([], p, id) == [];
    hide HttpsOf, ToSlot, ToPodSlot, SettledAt;
    RestIsComplete(s);
    if p < |s.pods| && id < |s.pods[p].workers| { assert HasWorker(s, p, id); }
  }
}
