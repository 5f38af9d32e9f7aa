/** Queues are bounded, and a sender waits exactly while the queue before it is full. */
module Queues {
  import opened Wrappers
  import opened Protocol
  import opened PodInvariant
  import opened DispatchInvariant
  import opened System
  import opened Causes
  import A = SlotAllocator
  import C = CodeStore
  import R = ReplierTable

  ghost predicate Bounded(s: State) {
    && |s.queue| <= 512
    && (forall p :: 0 <= p < |s.pods| ==> |s.pods[p].queue| <= 64)
    && (forall p: nat, h: nat :: HasWorker(s, p, h) ==> |s.pods[p].workers[h].queue| <= 64)
  }

  lemma PodKeepsBounded(p: nat, d: Pod)
    requires PodEnabled(d) && |d.queue| <= 64 && forall h :: 0 <= h < |d.workers| ==> |d.workers[h].queue| <= 64
    ensures var e := PodStep(p, d).pod;
      |e.queue| <= 64 && forall h :: 0 <= h < |e.workers| ==> |e.workers[h].queue| <= 64
  {
    hide A.Create, DropPodQueue;
  }

  lemma ServerlessKeepsBounded(s: State, written: bool)
    requires Bounded(s) && ServerlessEnabled(s)
    ensures Bounded(ServerlessStep(s, written))
  {
    ServerlessTouchesTarget(s, written);
    assert |ServerlessStep(s, written).queue| <= |s.queue|;
    hide ServerlessStep, Receive;
  }

  lemma NextKeepsBounded(s: State, step: Step)
    requires Bounded(s) && Enabled(s, step)
    ensures Bounded(Next(s, step))
  {
    hide PodStep, WorkerStep, ServerlessStep, R.Fire, R.Flush;
    match step
    case PodTurn(p) => PodKeepsBounded(p, s.pods[p]);
    case WorkerTurn(p, h, started, o) => WorkerStepMoves(p, h, s.pods[p].workers[h], started, o);
    case ServerlessTurn(written) => ServerlessKeepsBounded(s, written);
    case _ =>
  }

  lemma {:induction false} QueuesAreBounded(nThreads: nat, nWorkers: nat, initial: C.Files, steps: seq<Step>)
    ensures Bounded(Reached(nThreads, nWorkers, initial, steps))
  {
    if steps != [] {
      var front := steps[..|steps| - 1];
      hide Next, Enabled, Reached, Bounded;
      QueuesAreBounded(nThreads, nWorkers, initial, front);
      LastStep(nThreads, nWorkers, initial, steps);
      var before, step := Reached(nThreads, nWorkers, initial, front), steps[|steps| - 1];
      if Enabled(before, step) { NextKeepsBounded(before, step); }
    }
  }

  lemma SendersWaitForRoom(s: State, t: Trigger, p: nat, h: nat)
    requires HasWorker(s, p, h)
    ensures (t.ToPod? ==> t.reply == s.issued) ==>
      (Enabled(s, ClientSend(t)) <==> s.phase != Finished && |s.queue| < 512)
    ensures s.phase.Relaying? && s.phase.pod == p ==> (ServerlessEnabled(s) <==> |s.pods[p].queue| < 64)
    ensures s.phase.Placing? && s.phase.pod == p ==> (ServerlessEnabled(s) <==> |s.pods[p].queue| < 64)
    ensures s.phase.Asking? && s.phase.pod == p ==> (ServerlessEnabled(s) <==> |s.pods[p].queue| < 64)
    ensures s.phase.HaltingNext? && s.phase.pod == p ==> (ServerlessEnabled(s) <==> |s.pods[p].queue| < 64)
    ensures var d := s.pods[p]; var room := Gone(d.workers[h]) || |d.workers[h].queue| < 64;
      && (d.phase.Forwarding? && d.phase.handle == h ==> (PodEnabled(d) <==> room))
      && (d.phase.HaltNext? && d.phase.rest != [] && d.phase.rest[0] == Some(h) ==> (PodEnabled(d) <==> room))
      && (Enabled(s, MonitorHalts(p, h)) <==> !d.workers[h].monitorFired && room)
  {
  }
}
