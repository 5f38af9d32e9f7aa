/** What clients are told: the answers along any run are those of a sequential reading of the accepted triggers. */
module Placement {
  import opened Wrappers
  import opened Protocol
  import opened PodInvariant
  import opened DispatchInvariant
  import A = SlotAllocator
  import C = CodeStore
  import R = ReplierTable

  // The sequential reading of a log.

  function OpOf(e: Entry): C.StoreOp {
    match e
    case Uploaded(name, code, written, _) => C.Uploading(name, code, written)
    case Removed(name) => C.Removing(name)
    case _ => C.Other
  }

  function Ops(log: seq<Entry>): (r: seq<C.StoreOp>)
    ensures |r| == |log| && forall i :: 0 <= i < |r| ==> r[i] == OpOf(log[i])
  {
    seq(|log|, i requires 0 <= i < |log| => OpOf(log[i]))
  }

  /** Creations answered with a place. */
  function Successes(log: seq<Entry>): nat {
    if log == [] then 0
    else
      var e := log[|log| - 1];
      Successes(log[..|log| - 1]) + if e.Created? && e.answer.Some? then 1 else 0
  }

  function SourceAt(initial: C.Files, log: seq<Entry>, name: string): Option<string> {
    C.Read(C.After(initial, Ops(log)), name)
  }

  function Capacity(nThreads: nat, nWorkers: nat): nat {
    nThreads * nWorkers
  }

  /** Pods are filled in order, and each from its first slot. */
  function PlaceOf(k: nat, nWorkers: nat): (nat, nat)
    requires nWorkers > 0
  {
    (k / nWorkers, k % nWorkers)
  }

  /** The place of the `k`-th successful creation. */
  function Place(k: nat, nThreads: nat, nWorkers: nat): Option<(nat, nat)> {
    if nWorkers > 0 && k < Capacity(nThreads, nWorkers) then Some(PlaceOf(k, nWorkers)) else None
  }

  lemma CapacityNeedsWorkers(nThreads: nat, nWorkers: nat)
    ensures Capacity(nThreads, nWorkers) > 0 ==> nWorkers > 0
  {
  }

  /** The answer to `e` after the triggers of `log`. */
  predicate Answers(initial: C.Files, nThreads: nat, nWorkers: nat, log: seq<Entry>, e: Entry) {
    match e
    case Created(name, answer) =>
      answer == if SourceAt(initial, log, name).None? then None else Place(Successes(log), nThreads, nWorkers)
    case Uploaded(name, code, written, err) =>
      err == if !C.IsValidName(name) then Some(C.InvalidName(name)) else if !written then Some(C.IoError) else None
    case _ => true
  }

  ghost predicate AllAnswered(initial: C.Files, nThreads: nat, nWorkers: nat, log: seq<Entry>) {
    forall k :: 0 <= k < |log| ==> Answers(initial, nThreads, nWorkers, log[..k], log[k])
  }

  function TriggerOf(e: Entry): Trigger {
    match e
    case Created(name, _) => CreateWorker(name)
    case Relayed(pod, id, reply) => ToPod(pod, id, reply)
    case Uploaded(name, code, _, _) => UploadWorkerCode(name, code)
    case Removed(name) => RemoveWorkerCode(name)
  }

  function Triggers(log: seq<Entry>): (r: seq<Trigger>)
    ensures |r| == |log| && forall i :: 0 <= i < |r| ==> r[i] == TriggerOf(log[i])
  {
    seq(|log|, i requires 0 <= i < |log| => TriggerOf(log[i]))
  }

  /** The creation being worked on, which is in no queue and not yet in the log. */
  function InHand(phase: Phase): seq<Trigger> {
    match phase
    case Asking(_, name, _) => [CreateWorker(name)]
    case Asked(_, name, _) => [CreateWorker(name)]
    case Placing(_, name, _) => [CreateWorker(name)]
    case Placed(_, name, _) => [CreateWorker(name)]
    case _ => []
  }

  /** How many of `c` creations fell to pod `p`, when pods of `n` workers are filled in order. */
  function Fill(c: nat, p: nat, n: nat): nat {
    if c <= p * n then 0 else if c >= p * n + n then n else c - p * n
  }

  lemma {:induction false} PodsBelow(i: nat, p: nat, n: nat)
    requires i < p
    ensures i * n + n <= p * n
  {
    assert p * n == (p - 1) * n + n;
    if i < p - 1 { PodsBelow(i, p - 1, n); }
  }

  /** One more creation goes to the first pod with room. */
  lemma FillNext(c: nat, i: nat, n: nat, p: nat)
    requires forall j :: 0 <= j < i ==> Fill(c, j, n) == n
    requires Fill(c, i, n) < n
    ensures Fill(c + 1, p, n) == Fill(c, p, n) + (if p == i then 1 else 0)
    ensures i * n <= c < i * n + n && Fill(c, i, n) == c - i * n
  {
    if i > 0 {
      assert Fill(c, i - 1, n) == n;
      assert (i - 1) * n + n == i * n;
    }
    if p < i { PodsBelow(p, i, n); } else if i < p { PodsBelow(i, p, n); }
  }

  lemma DivMod(c: nat, i: nat, n: nat)
    requires i * n <= c < i * n + n
    ensures c / n == i && c % n == c - i * n
  {
    var q, r := c / n, c % n;
    assert c == q * n + r by { assert c == n * q + r; }
    if q < i { PodsBelow(q, i, n); } else if i < q { PodsBelow(i, q, n); }
  }

  lemma AllFull(c: nat, nThreads: nat, n: nat)
    requires forall j :: 0 <= j < nThreads ==> Fill(c, j, n) == n
    ensures c >= nThreads * n
  {
    if nThreads > 0 {
      assert Fill(c, nThreads - 1, n) == n;
      assert (nThreads - 1) * n + n == nThreads * n;
    }
  }

  // The invariant.

  /** Successful creations, with one that the pod has carried out and the log does not show yet. */
  function Done(s: State): nat {
    Successes(s.log) + if s.placed.Some? then 1 else 0
  }

  ghost predicate Shaped(s: State) {
    && (forall p :: 0 <= p < |s.pods| ==> |s.pods[p].workers| == Fill(Done(s), p, s.nWorkers))
    && (s.phase.Placed? && s.placed.Some? ==>
          var c, i, n := Successes(s.log), s.phase.pod, s.nWorkers;
          i * n <= c < i * n + n && s.placed.value == c - i * n)
  }

  ghost predicate InHandOk(s: State) {
    match s.phase
    case Asking(_, name, source) => C.Read(s.files, name) == Some(source)
    case Asked(_, name, source) => C.Read(s.files, name) == Some(source)
    case Placing(_, name, source) => C.Read(s.files, name) == Some(source)
    case Placed(_, name, source) => C.Read(s.files, name) == Some(source)
    case _ => true
  }

  /** Nothing accepted is overtaken: the log, then what is in hand, then the queue. */
  ghost predicate InOrderOfArrival(s: State) {
    && Triggers(s.log) <= s.accepted
    && (s.phase != Finished ==> s.accepted == Triggers(s.log) + InHand(s.phase) + s.queue)
    && (s.phase == Finished ==> s.queue == [])
  }

  ghost predicate Recorded(s: State, initial: C.Files) {
    && s.files == C.After(initial, Ops(s.log))
    && AllAnswered(initial, s.nThreads, s.nWorkers, s.log)
    && InHandOk(s)
    && InOrderOfArrival(s)
  }

  /** A place that was given out holds a worker made from the code of the creation's own moment. */
  ghost predicate SourcedAt(s: State, initial: C.Files, k: nat)
    requires k < |s.log|
  {
    s.log[k].Created? && s.log[k].answer.Some? ==>
      var (p, h) := s.log[k].answer.value;
      HasWorker(s, p, h) && SourceAt(initial, s.log[..k], s.log[k].name) == Some(s.pods[p].workers[h].source)
  }

  ghost predicate Sourced(s: State, initial: C.Files) {
    forall k: nat :: k < |s.log| ==> SourcedAt(s, initial, k)
  }

  ghost predicate Truthful(s: State, initial: C.Files) {
    Shaped(s) && Recorded(s, initial) && Sourced(s, initial)
  }

  // Logging one entry.

  lemma LogOne(initial: C.Files, nThreads: nat, nWorkers: nat, log: seq<Entry>, e: Entry)
    requires AllAnswered(initial, nThreads, nWorkers, log) && Answers(initial, nThreads, nWorkers, log, e)
    ensures AllAnswered(initial, nThreads, nWorkers, log + [e])
    ensures Ops(log + [e]) == Ops(log) + [OpOf(e)]
    ensures Triggers(log + [e]) == Triggers(log) + [TriggerOf(e)]
    ensures Successes(log + [e]) == Successes(log) + if e.Created? && e.answer.Some? then 1 else 0
  {
    var l := log + [e];
    assert l[..|log|] == log;
    assert forall k :: 0 <= k < |log| ==> l[..k] == log[..k] && l[k] == log[k];
  }

  lemma InitTruthful(nThreads: nat, nWorkers: nat, initial: C.Files)
    ensures Truthful(Init(nThreads, nWorkers, initial), initial)
  {
    hide Capacity, PlaceOf;
    forall p | 0 <= p < nThreads ensures Fill(0, p, nWorkers) == 0 {
      assert p * nWorkers >= 0;
    }
  }

  // Worker counts.

  ghost predicate SameWorkers(s: State, t: State) {
    && |t.pods| == |s.pods| && t.nThreads == s.nThreads && t.nWorkers == s.nWorkers
    && (forall p :: 0 <= p < |s.pods| ==> |t.pods[p].workers| == |s.pods[p].workers|)
  }

  ghost predicate SameSources(s: State, t: State) {
    && |t.pods| == |s.pods|
    && (forall p: nat, h: nat :: HasWorker(s, p, h) ==>
           HasWorker(t, p, h) && t.pods[p].workers[h].source == s.pods[p].workers[h].source)
  }

  lemma ServerlessKeepsWorkers(s: State, written: bool)
    requires ServerlessEnabled(s)
    ensures SameWorkers(s, ServerlessStep(s, written)) && SameSources(s, ServerlessStep(s, written))
  {
    ServerlessTouchesTarget(s, written);
  }

  lemma ServerlessKeepsShape(s: State, written: bool)
    requires Shaped(s) && PhaseOk(s) && ServerlessEnabled(s)
    ensures Shaped(ServerlessStep(s, written))
  {
    hide Fill, FullBelow, PlacedLast, C.Read, C.Upload, C.Remove;
    ServerlessKeepsWorkers(s, written);
    var t := ServerlessStep(s, written);
    assert forall e :: (s.log + [e])[..|s.log|] == s.log;
    assert Done(t) == Done(s);
  }

  lemma PodKeepsShape(s: State, p: nat, e: PodEffect)
    requires Shaped(s) && Conversation(s) && p < |s.pods|
    requires s.pods[p].phase.Serving? ==> s.pods[p].queue != []
    requires PodAnswers(s.pods[p], s.nWorkers, e)
    ensures Shaped(AfterPod(s, p, e))
  {
    hide Fill;
    var c, n, t := Successes(s.log), s.nWorkers, AfterPod(s, p, e);
    if e.placed.Some? {
      HeadIsExpected(s, p);
      assert s.phase.Placed? && s.phase.pod == p && s.placed.None?;
      forall r | 0 <= r < |t.pods| ensures |t.pods[r].workers| == Fill(c + 1, r, n) {
        FillNext(c, p, n, r);
      }
      FillNext(c, p, n, p);
    }
  }

  // The log.

  /** The entry that a step of the serverless task writes. */
  function Logged(s: State, written: bool): Option<Entry>
    requires ServerlessEnabled(s)
  {
    var t := ServerlessStep(s, written);
    if |t.log| > |s.log| then Some(t.log[|s.log|]) else None
  }

  lemma ServerlessLogs(s: State, written: bool)
    requires ServerlessEnabled(s)
    ensures var t := ServerlessStep(s, written);
      t.log == s.log + match Logged(s, written) case Some(e) => [e] case None => []
    ensures ServerlessStep(s, written).accepted == s.accepted
  {
  }

  /** What the serverless task writes is the sequential answer. */
  lemma LoggedIsAnswer(s: State, written: bool, initial: C.Files)
    requires Shaped(s) && Recorded(s, initial) && PhaseOk(s) && ServerlessEnabled(s) && |s.pods| == s.nThreads
    requires Logged(s, written).Some?
    ensures Answers(initial, s.nThreads, s.nWorkers, s.log, Logged(s, written).value)
  {
    hide Fill, C.After, C.Read, AllAnswered, InOrderOfArrival, PlacedLast, C.Remove;
    match s.phase
    case Idle =>
    case Asking(i, _, _) =>
      forall j | 0 <= j < s.nThreads ensures Fill(Successes(s.log), j, s.nWorkers) == s.nWorkers {
        assert |s.pods[j].workers| == s.nWorkers;
      }
      AllFull(Successes(s.log), s.nThreads, s.nWorkers);
    case Placed(i, _, _) =>
      DivMod(Successes(s.log), i, s.nWorkers);
      PodsBelow(i, s.nThreads, s.nWorkers);
    case _ =>
  }

  lemma AfterOne(initial: C.Files, ops: seq<C.StoreOp>, op: C.StoreOp)
    ensures C.After(initial, ops + [op]) == C.ApplyOp(C.After(initial, ops), op)
  {
    assert (ops + [op])[..|ops + [op]| - 1] == ops;
  }

  lemma ServerlessChangesFiles(s: State, written: bool)
    requires ServerlessEnabled(s)
    ensures ServerlessStep(s, written).files
      == match Logged(s, written) case Some(e) => C.ApplyOp(s.files, OpOf(e)) case None => s.files
  {
  }

  lemma ServerlessKeepsFiles(s: State, written: bool, initial: C.Files)
    requires s.files == C.After(initial, Ops(s.log)) && ServerlessEnabled(s)
    ensures var t := ServerlessStep(s, written); t.files == C.After(initial, Ops(t.log))
  {
    hide C.After, C.ApplyOp, ServerlessStep, Logged;
    ServerlessLogs(s, written);
    ServerlessChangesFiles(s, written);
    var e := Logged(s, written);
    if e.Some? {
      assert Ops(s.log + [e.value]) == Ops(s.log) + [OpOf(e.value)];
      AfterOne(initial, Ops(s.log), OpOf(e.value));
    } else {
      assert s.log + [] == s.log;
    }
  }

  lemma ServerlessKeepsHand(s: State, written: bool)
    requires InHandOk(s) && ServerlessEnabled(s)
    ensures InHandOk(ServerlessStep(s, written))
  {
  }

  lemma LogTrigger(log: seq<Entry>, e: Entry)
    ensures Triggers(log + [e]) == Triggers(log) + [TriggerOf(e)]
  {
  }

  /** The trigger taken is in hand or in the log at once. */
  lemma ReceiveHolds(s: State, written: bool)
    requires s.phase == Idle && s.queue != []
    ensures var t, first := Receive(s, written), s.queue[0];
      && t.accepted == s.accepted && t.queue == s.queue[1..] && t.phase != Finished
      && ((t.log == s.log && InHand(t.phase) == [first])
          || (InHand(t.phase) == [] && exists e :: t.log == s.log + [e] && TriggerOf(e) == first))
  {
    hide C.Upload, C.Remove, C.Read;
    var t := Receive(s, written);
    if |t.log| > |s.log| {
      var e := t.log[|s.log|];
      assert t.log == s.log + [e] && TriggerOf(e) == s.queue[0];
    }
  }

  lemma ReceiveKeepsOrder(s: State, written: bool)
    requires InOrderOfArrival(s) && s.phase == Idle && s.queue != []
    ensures InOrderOfArrival(Receive(s, written))
  {
    hide Receive;
    ReceiveHolds(s, written);
    var t, first := Receive(s, written), s.queue[0];
    assert s.queue == [first] + s.queue[1..];
    if t.log != s.log {
      var e :| t.log == s.log + [e] && TriggerOf(e) == first;
      LogTrigger(s.log, e);
    }
    hide Triggers;
    assert Triggers(t.log) + InHand(t.phase) == Triggers(s.log) + [first];
  }

  lemma ServerlessKeepsOrder(s: State, written: bool)
    requires InOrderOfArrival(s) && ServerlessEnabled(s)
    ensures InOrderOfArrival(ServerlessStep(s, written))
  {
    match s.phase
    case Idle => ReceiveKeepsOrder(s, written);
    case Asking(i, name, _) => LogTrigger(s.log, Created(name, None));
    case Placed(i, name, _) => LogTrigger(s.log, Created(name, Some((i, s.placed.value))));
    case _ =>
  }

  lemma ServerlessKeepsRecord(s: State, written: bool, initial: C.Files)
    requires Shaped(s) && Recorded(s, initial) && PhaseOk(s) && ServerlessEnabled(s) && |s.pods| == s.nThreads
    ensures Recorded(ServerlessStep(s, written), initial)
  {
    hide C.After, InHandOk, InOrderOfArrival, Answers, Place, PhaseOk, ServerlessStep;
    assert s.log + [] == s.log;
    ServerlessLogs(s, written);
    ServerlessKeepsFiles(s, written, initial);
    ServerlessKeepsHand(s, written);
    ServerlessKeepsOrder(s, written);
    ServerlessKeepsWorkers(s, written);
    if Logged(s, written).Some? {
      LoggedIsAnswer(s, written, initial);
      LogOne(initial, s.nThreads, s.nWorkers, s.log, Logged(s, written).value);
    }
  }

  // The source of a placed worker.

  lemma SameSourcesKeepSourced(s: State, t: State, initial: C.Files)
    requires Sourced(s, initial) && SameSources(s, t) && t.log == s.log
    ensures Sourced(t, initial)
  {
    forall k: nat | k < |t.log| ensures SourcedAt(t, initial, k) {
      assert SourcedAt(s, initial, k);
      if t.log[k].Created? && t.log[k].answer.Some? {
        var (p, h) := t.log[k].answer.value;
        assert HasWorker(s, p, h);
        assert HasWorker(t, p, h);
      }
    }
  }

  /** A place is written to the log only when the pod has answered the creation in hand. */
  lemma LoggedPlace(s: State, written: bool)
    requires PhaseOk(s) && ServerlessEnabled(s)
    requires Logged(s, written).Some? && Logged(s, written).value.Created? && Logged(s, written).value.answer.Some?
    ensures s.phase.Placed? && s.placed.Some? && ServerlessStep(s, written).pods == s.pods
    ensures Logged(s, written).value == Created(s.phase.name, Some((s.phase.pod, s.placed.value)))
    ensures s.phase.pod < |s.pods| && PlacedLast(s.pods[s.phase.pod], s.placed.value, s.phase.source)
  {
    hide FullBelow;
  }

  lemma HandIsSourced(s: State, initial: C.Files)
    requires Recorded(s, initial)
    ensures s.phase.Asking? || s.phase.Placed? ==> SourceAt(initial, s.log, s.phase.name) == Some(s.phase.source)
  {
    hide C.After, C.Read, AllAnswered, InOrderOfArrival;
  }

  lemma ServerlessKeepsSourced(s: State, written: bool, initial: C.Files)
    requires Sourced(s, initial) && Recorded(s, initial) && PhaseOk(s) && ServerlessEnabled(s)
    ensures Sourced(ServerlessStep(s, written), initial)
  {
    hide ServerlessStep, Logged, Recorded, SourceAt, PhaseOk;
    ServerlessKeepsWorkers(s, written);
    ServerlessLogs(s, written);
    var t, e := ServerlessStep(s, written), Logged(s, written);
    forall k: nat | k < |t.log| ensures SourcedAt(t, initial, k) {
      if k < |s.log| {
        assert t.log[..k] == s.log[..k] && t.log[k] == s.log[k];
        assert SourcedAt(s, initial, k);
        if t.log[k].Created? && t.log[k].answer.Some? {
          var (p, h) := t.log[k].answer.value;
          assert HasWorker(s, p, h);
        }
      } else {
        assert t.log[..k] == s.log && t.log[k] == e.value;
        if e.value.Created? && e.value.answer.Some? {
          LoggedPlace(s, written);
          HandIsSourced(s, initial);
        }
      }
    }
  }

  // Every step.

  /** Steps that leave the serverless task, the number of workers and their sources alone. */
  lemma QuietKeepsTruthful(s: State, t: State, initial: C.Files)
    requires Truthful(s, initial) && SameWorkers(s, t) && SameSources(s, t)
    requires t.files == s.files && t.log == s.log && t.placed == s.placed
    requires t.phase == s.phase || (s.phase == Idle && t.phase == HaltingNext(0))
    requires exists more :: t.accepted == s.accepted + more && t.queue == s.queue + more
    requires s.phase == Finished ==> t.queue == s.queue
    ensures Truthful(t, initial)
  {
    hide Fill, Capacity, PlaceOf;
    SameSourcesKeepSourced(s, t, initial);
    assert InOrderOfArrival(t);
  }

  lemma PodKeepsSources(s: State, p: nat, e: PodEffect)
    requires p < |s.pods|
    requires s.pods[p].phase.Serving? ==> s.pods[p].queue != []
    requires PodAnswers(s.pods[p], s.nWorkers, e)
    ensures SameSources(s, AfterPod(s, p, e))
  {
  }

  lemma RecordedFields(s: State, t: State, initial: C.Files)
    requires Recorded(s, initial) && t.files == s.files && t.log == s.log && t.phase == s.phase
    requires t.nThreads == s.nThreads && t.nWorkers == s.nWorkers && t.accepted == s.accepted && t.queue == s.queue
    ensures Recorded(t, initial)
  {
  }

  lemma PodKeepsTruthful(s: State, p: nat, e: PodEffect, initial: C.Files)
    requires Truthful(s, initial) && Conversation(s) && p < |s.pods|
    requires s.pods[p].phase.Serving? ==> s.pods[p].queue != []
    requires PodAnswers(s.pods[p], s.nWorkers, e)
    ensures Truthful(AfterPod(s, p, e), initial)
  {
    PodKeepsShape(s, p, e);
    PodKeepsSources(s, p, e);
    SameSourcesKeepSourced(s, AfterPod(s, p, e), initial);
    RecordedFields(s, AfterPod(s, p, e), initial);
  }

  lemma WorkerKeepsTruthful(s: State, t: State, p: nat, h: nat, w: Worker, initial: C.Files)
    requires Truthful(s, initial) && HasWorker(s, p, h) && w.source == s.pods[p].workers[h].source
    requires t == SetWorker(s, p, h, w).(settled := t.settled)
    ensures Truthful(t, initial)
  {
    assert t.accepted == s.accepted + [] && t.queue == s.queue + [];
    QuietKeepsTruthful(s, t, initial);
  }

  lemma ServerlessKeepsTruthful(s: State, written: bool, initial: C.Files)
    requires Truthful(s, initial) && PhaseOk(s) && |s.pods| == s.nThreads && ServerlessEnabled(s)
    ensures Truthful(ServerlessStep(s, written), initial)
  {
    ServerlessKeepsShape(s, written);
    ServerlessKeepsRecord(s, written, initial);
    ServerlessKeepsSourced(s, written, initial);
  }

  lemma NextKeepsTruthful(s: State, step: Step, initial: C.Files)
    requires Truthful(s, initial) && Dispatch(s) && Enabled(s, step)
    ensures Truthful(Next(s, step), initial)
  {
    hide Truthful, PodOk, WorkerOk, PhaseOk, StoppingOk, QueuesOk, PodStep, WorkerStep, ServerlessStep;
    var t := Next(s, step);
    if OfWorker(step) {
      var w := s.pods[step.p].workers[step.h];
      WorkersAreOk(s, step.p, step.h);
      MovedKeeps(w, step);
      WorkerKeepsTruthful(s, t, step.p, step.h, Moved(w, step), initial);
    } else {
      match step
      case ServerlessTurn(written) => ServerlessKeepsTruthful(s, written, initial);
      case PodTurn(p) =>
        PodStepAnswers(p, s.pods[p], s.nWorkers);
        PodKeepsTruthful(s, p, PodStep(p, s.pods[p]), initial);
      case ClientSend(trigger) =>
        assert t.accepted == s.accepted + [trigger] && t.queue == s.queue + [trigger];
        QuietKeepsTruthful(s, t, initial);
      case CtrlC =>
        assert t.accepted == s.accepted + [] && t.queue == s.queue + [];
        QuietKeepsTruthful(s, t, initial);
    }
  }
}
