/** Why things happen: each settlement, each entry of the log and each answer has exactly one kind of step as its cause,
    named by what that step finds. */
module Causes {
  import opened Wrappers
  import opened Protocol
  import opened PodInvariant
  import opened DispatchInvariant
  import opened Progress
  import opened System
  import A = SlotAllocator
  import C = CodeStore
  import R = ReplierTable

  // Settlements.

  /** The step of a worker takes `reply` from its queue. */
  predicate TakesRequest(w: Worker, reply: Reply) {
    w.phase == Running && w.queue != [] && w.queue[0] == Http(reply)
  }

  predicate WorkerCause(p: nat, h: nat, w: Worker, started: bool, o: R.Outcome, e: Settlement)
    requires WorkerEnabled(w)
  {
    && e.pod == p && e.id == h
    && match e.fate
       case Kept => TakesRequest(w, e.reply) && (o == R.Promised || o == R.ThenFailed)
       case Spent => TakesRequest(w, e.reply) && (o == R.NoHandler || o == R.NotPromise || o == R.CallFailed)
       case Discarded => Leaves(w, started, o) && Http(e.reply) in Rest(w)
       case NoPod | NoSlot | Refused => false
  }

  /** A request is settled by its pod for want of a worker, or because the worker is gone. */
  predicate PodCause(p: nat, d: Pod, e: Settlement)
    requires PodEnabled(d)
  {
    && e.pod == p
    && match e.fate
       case NoSlot => d.phase.Serving? && d.queue[0] == ToWorker(e.id, e.reply) && e.id >= |d.workers|
       case Refused => d.phase == Forwarding(e.id, e.id, e.reply) && e.id < |d.workers| && Gone(d.workers[e.id])
       case Discarded => d.phase == HaltNext([]) && ToWorker(e.id, e.reply) in d.queue
       case NoPod | Kept | Spent => false
  }

  predicate ServerlessCause(s: State, e: Settlement)
    requires ServerlessEnabled(s)
  {
    match e.fate
    case NoPod => s.phase == Idle && s.queue[0] == ToPod(e.pod, e.id, e.reply) && e.pod >= |s.pods|
    case Discarded => s.phase == Joining(|s.pods|) && ToPod(e.pod, e.id, e.reply) in s.queue
    case Kept | Spent | NoSlot | Refused => false
  }

  predicate SettlesNow(s: State, step: Step, e: Settlement)
    requires Enabled(s, step)
  {
    match step
    case WorkerTurn(p, h, started, o) => WorkerCause(p, h, s.pods[p].workers[h], started, o, e)
    case PodTurn(p) => PodCause(p, s.pods[p], e)
    case ServerlessTurn(_) => ServerlessCause(s, e)
    case ClientSend(_) | CtrlC | MonitorHalts(_, _) | CallbackRuns(_, _, _, _) | WorkerCloses(_, _) => false
  }

  lemma {:induction false} DroppedFromWorker(p: nat, h: nat, q: seq<WorkerTrigger>, e: Settlement)
    ensures e in DropWorkerQueue(p, h, q) <==> e == Settlement(p, h, e.reply, Discarded) && Http(e.reply) in q
  {
    if q != [] {
      DroppedFromWorker(p, h, q[..|q| - 1], e);
      assert q == q[..|q| - 1] + [q[|q| - 1]];
    }
  }

  lemma {:induction false} DroppedFromPod(p: nat, q: seq<PodTrigger>, e: Settlement)
    ensures e in DropPodQueue(p, q) <==> e == Settlement(p, e.id, e.reply, Discarded) && ToWorker(e.id, e.reply) in q
  {
    if q != [] {
      DroppedFromPod(p, q[..|q| - 1], e);
      assert q == q[..|q| - 1] + [q[|q| - 1]];
    }
  }

  lemma {:induction false} DroppedFromServerless(q: seq<Trigger>, e: Settlement)
    ensures e in DropQueue(q)
      <==> e == Settlement(e.pod, e.id, e.reply, Discarded) && ToPod(e.pod, e.id, e.reply) in q
  {
    if q != [] {
      DroppedFromServerless(q[..|q| - 1], e);
      assert q == q[..|q| - 1] + [q[|q| - 1]];
    }
  }

  lemma WorkerSettlesExactly(p: nat, h: nat, w: Worker, started: bool, o: R.Outcome, e: Settlement)
    requires WorkerEnabled(w)
    ensures e in WorkerStep(p, h, w, started, o).settled <==> WorkerCause(p, h, w, started, o, e)
  {
    hide DropWorkerQueue, R.Cleanup, R.HandleHttp;
    DroppedFromWorker(p, h, Rest(w), e);
    if w.phase == Running {
      match w.queue[0]
      case Halt(_) =>
      case Http(reply) =>
        match o
        case NoHandler | NotPromise | Promised | CallFailed | ThenFailed =>
    }
  }

  lemma PodSettlesExactly(p: nat, d: Pod, n: nat, e: Settlement)
    requires PodOk(d, n) && PodEnabled(d)
    ensures e in PodStep(p, d).settled <==> PodCause(p, d, e)
  {
    hide DropPodQueue, WorkersFit, A.Create;
    DroppedFromPod(p, d.queue, e);
    match d.phase
    case Serving =>
    case Forwarding(_, _, _) =>
    case HaltNext(rest) =>
    case HaltWait(_, _) =>
  }

  lemma ServerlessSettlesExactly(s: State, written: bool, e: Settlement)
    requires ServerlessEnabled(s)
    ensures var t := ServerlessStep(s, written);
      s.settled <= t.settled && (e in t.settled[|s.settled|..] <==> ServerlessCause(s, e))
  {
    hide DropQueue, C.Upload, C.Remove, C.Read;
    DroppedFromServerless(s.queue, e);
    if s.phase == Idle {
      match s.queue[0]
      case CreateWorker(_) =>
      case ToPod(_, _, _) =>
      case UploadWorkerCode(_, _) =>
      case RemoveWorkerCode(_) =>
    }
  }

  /** Which requests a step settles, and with what fate: exactly those with a cause. */
  lemma StepSettlesExactly(s: State, step: Step, e: Settlement)
    requires Dispatch(s) && Enabled(s, step)
    ensures var t := Next(s, step);
      s.settled <= t.settled && (e in t.settled[|s.settled|..] <==> SettlesNow(s, step, e))
  {
    hide PodOk, PhaseOk, StoppingOk, QueuesOk, WorkerStep, PodStep, ServerlessStep, ServerlessCause, PodCause, WorkerCause;
    match step
    case WorkerTurn(p, h, started, o) => WorkerSettlesExactly(p, h, s.pods[p].workers[h], started, o, e);
    case PodTurn(p) => PodSettlesExactly(p, s.pods[p], s.nWorkers, e);
    case ServerlessTurn(written) => ServerlessSettlesExactly(s, written, e);
    case _ =>
  }

  /** Step `i` of the run is taken, and settlement `k` is one that it makes and has cause for. */
  ghost predicate SettledBy(nThreads: nat, nWorkers: nat, initial: C.Files, steps: seq<Step>, i: nat, k: nat, e: Settlement)
  {
    i < |steps|
    && var before := Reached(nThreads, nWorkers, initial, steps[..i]);
       && Enabled(before, steps[i]) && SettlesNow(before, steps[i], e)
       && |before.settled| <= k < |Next(before, steps[i]).settled|
  }

  lemma SettledEarlier(nThreads: nat, nWorkers: nat, initial: C.Files, steps: seq<Step>, front: seq<Step>,
                       i: nat, k: nat, e: Settlement)
    requires front <= steps && SettledBy(nThreads, nWorkers, initial, front, i, k, e)
    ensures SettledBy(nThreads, nWorkers, initial, steps, i, k, e)
  {
    hide Reached, Enabled, Next, SettlesNow;
    assert front[..i] == steps[..i];
  }

  lemma SettledLast(nThreads: nat, nWorkers: nat, initial: C.Files, steps: seq<Step>, k: nat)
    requires steps != []
    requires var before, step := Reached(nThreads, nWorkers, initial, steps[..|steps| - 1]), steps[|steps| - 1];
      Enabled(before, step) && |before.settled| <= k < |Next(before, step).settled|
    ensures var e := Reached(nThreads, nWorkers, initial, steps).settled;
      k < |e| && SettledBy(nThreads, nWorkers, initial, steps, |steps| - 1, k, e[k])
  {
    hide Reached, Enabled, Next, SettlesNow, Dispatch;
    var before, step := Reached(nThreads, nWorkers, initial, steps[..|steps| - 1]), steps[|steps| - 1];
    LastStep(nThreads, nWorkers, initial, steps);
    ReachedDispatch(nThreads, nWorkers, initial, steps[..|steps| - 1]);
    var t := Next(before, step);
    StepSettlesExactly(before, step, t.settled[k]);
    assert t.settled[|before.settled|..][k - |before.settled|] == t.settled[k];
  }

  /** Over every run: no request is kept, spent, refused or discarded without its reason. */
  lemma {:induction false} EverySettlementHasItsCause(nThreads: nat, nWorkers: nat, initial: C.Files, steps: seq<Step>, k: nat)
    requires k < |Reached(nThreads, nWorkers, initial, steps).settled|
    ensures exists i: nat ::
      SettledBy(nThreads, nWorkers, initial, steps, i, k, Reached(nThreads, nWorkers, initial, steps).settled[k])
  {
    if steps != [] {
      var front, step := steps[..|steps| - 1], steps[|steps| - 1];
      hide Dispatch, Next, Enabled, SettlesNow, Reached, SettledBy;
      var before, s := Reached(nThreads, nWorkers, initial, front), Reached(nThreads, nWorkers, initial, steps);
      LastStep(nThreads, nWorkers, initial, steps);
      if k < |before.settled| {
        EverySettlementHasItsCause(nThreads, nWorkers, initial, front, k);
        SettledKeeps(nThreads, nWorkers, initial, steps, k);
        var i: nat :| SettledBy(nThreads, nWorkers, initial, front, i, k, before.settled[k]);
        SettledEarlier(nThreads, nWorkers, initial, steps, front, i, k, s.settled[k]);
      } else {
        SettledLast(nThreads, nWorkers, initial, steps, k);
      }
    }
  }

  lemma SettledKeeps(nThreads: nat, nWorkers: nat, initial: C.Files, steps: seq<Step>, k: nat)
    requires steps != [] && k < |Reached(nThreads, nWorkers, initial, steps[..|steps| - 1]).settled|
    ensures var before, s := Reached(nThreads, nWorkers, initial, steps[..|steps| - 1]), Reached(nThreads, nWorkers, initial, steps);
      k < |s.settled| && s.settled[k] == before.settled[k]
  {
    hide Dispatch, Next, Enabled, SettlesNow, Reached;
    var before, step := Reached(nThreads, nWorkers, initial, steps[..|steps| - 1]), steps[|steps| - 1];
    LastStep(nThreads, nWorkers, initial, steps);
    ReachedDispatch(nThreads, nWorkers, initial, steps[..|steps| - 1]);
    if Enabled(before, step) { StepSettlesExactly(before, step, before.settled[k]); }
  }

  lemma LastStep(nThreads: nat, nWorkers: nat, initial: C.Files, steps: seq<Step>)
    requires steps != []
    ensures var before, step := Reached(nThreads, nWorkers, initial, steps[..|steps| - 1]), steps[|steps| - 1];
      Reached(nThreads, nWorkers, initial, steps) == if Enabled(before, step) then Next(before, step) else before
  {
  }

  lemma ReachedDispatch(nThreads: nat, nWorkers: nat, initial: C.Files, steps: seq<Step>)
    ensures Dispatch(Reached(nThreads, nWorkers, initial, steps))
  {
    ReachedInv(nThreads, nWorkers, initial, steps);
  }

  // What clients are told.

  /** What the step finds when it writes entry `e`. An upload is answered as the name and the file system say. */
  predicate WritesNow(s: State, step: Step, e: Entry)
    requires Enabled(s, step)
  {
    && step.ServerlessTurn?
    && match e
       case Created(name, None) =>
         || (s.phase == Idle && s.queue[0] == CreateWorker(name) && C.Read(s.files, name).None?)
         || (s.phase.Asking? && s.phase.pod == |s.pods| && s.phase.name == name)
       case Created(name, Some((p, h))) =>
         s.phase.Placed? && s.phase.pod == p && s.phase.name == name && s.placed == Some(h)
       case Relayed(p, id, reply) => s.phase == Idle && s.queue[0] == ToPod(p, id, reply)
       case Uploaded(name, code, written, err) =>
         && s.phase == Idle && s.queue[0] == UploadWorkerCode(name, code) && written == step.written
         && (err.None? <==> C.IsValidName(name) && step.written)
         && (err.Some? ==> err.value == if C.IsValidName(name) then C.IoError else C.InvalidName(name))
       case Removed(name) => s.phase == Idle && s.queue[0] == RemoveWorkerCode(name)
  }

  /** The step writes `e` at the end of the log. */
  predicate Appends(before: seq<Entry>, after: seq<Entry>, e: Entry) {
    |after| == |before| + 1 && after[|before|] == e
  }

  lemma ReceiveWritesExactly(s: State, written: bool, e: Entry)
    requires s.phase == Idle && s.queue != []
    ensures Appends(s.log, Receive(s, written).log, e) <==> WritesNow(s, ServerlessTurn(written), e)
  {
    hide C.IsValidName, C.Remove, C.Read;
    match s.queue[0]
    case CreateWorker(_) =>
    case ToPod(_, _, _) =>
    case UploadWorkerCode(name, code) =>
      assert C.Upload(s.files, name, code, written).1
        == if !C.IsValidName(name) then Some(C.InvalidName(name)) else if !written then Some(C.IoError) else None;
      hide C.Upload;
    case RemoveWorkerCode(_) =>
  }

  lemma ServerlessWritesExactly(s: State, written: bool, e: Entry)
    requires ServerlessEnabled(s)
    ensures var t := ServerlessStep(s, written);
      && s.log <= t.log && |t.log| <= |s.log| + 1
      && (Appends(s.log, t.log, e) <==> WritesNow(s, ServerlessTurn(written), e))
  {
    hide DropQueue, C.Read, C.Upload, C.Remove;
    if s.phase == Idle {
      ReceiveWritesExactly(s, written, e);
      hide WritesNow;
    } else {
      hide Receive;
    }
  }

  /** Which entry a step writes: exactly the one it has cause for. */
  lemma StepWritesExactly(s: State, step: Step, e: Entry)
    requires Enabled(s, step)
    ensures var t := Next(s, step);
      && s.log <= t.log && |t.log| <= |s.log| + 1
      && (Appends(s.log, t.log, e) <==> WritesNow(s, step, e))
  {
    hide PodStep, WorkerStep, ServerlessStep;
    if step.ServerlessTurn? {
      hide WritesNow;
      ServerlessWritesExactly(s, step.written, e);
    } else {
      assert Next(s, step).log == s.log;
    }
  }

  ghost predicate WrittenBy(nThreads: nat, nWorkers: nat, initial: C.Files, steps: seq<Step>, i: nat, k: nat, e: Entry) {
    i < |steps|
    && var before := Reached(nThreads, nWorkers, initial, steps[..i]);
       Enabled(before, steps[i]) && |before.log| == k && WritesNow(before, steps[i], e)
  }

  lemma WrittenEarlier(nThreads: nat, nWorkers: nat, initial: C.Files, steps: seq<Step>, front: seq<Step>,
                       i: nat, k: nat, e: Entry)
    requires front <= steps && WrittenBy(nThreads, nWorkers, initial, front, i, k, e)
    ensures WrittenBy(nThreads, nWorkers, initial, steps, i, k, e)
  {
    hide Reached, Enabled, Next, WritesNow;
    assert front[..i] == steps[..i];
  }

  /** The last step of a run keeps entry `k`, or has just written it. */
  lemma WrittenLast(nThreads: nat, nWorkers: nat, initial: C.Files, steps: seq<Step>, k: nat)
    requires steps != [] && k < |Reached(nThreads, nWorkers, initial, steps).log|
    ensures var before, s := Reached(nThreads, nWorkers, initial, steps[..|steps| - 1]), Reached(nThreads, nWorkers, initial, steps);
      if k < |before.log| then s.log[k] == before.log[k]
      else WrittenBy(nThreads, nWorkers, initial, steps, |steps| - 1, k, s.log[k])
  {
    hide Reached, Enabled, Next, WritesNow;
    var before, step := Reached(nThreads, nWorkers, initial, steps[..|steps| - 1]), steps[|steps| - 1];
    LastStep(nThreads, nWorkers, initial, steps);
    if Enabled(before, step) { StepWritesExactly(before, step, Next(before, step).log[k]); }
  }

  /** Over every run each entry was written by a turn that found what the entry says; an upload's entry tells what the
      file system told that turn. */
  lemma {:induction false} EveryEntryHasItsTurn(nThreads: nat, nWorkers: nat, initial: C.Files, steps: seq<Step>, k: nat)
    requires k < |Reached(nThreads, nWorkers, initial, steps).log|
    ensures exists i: nat ::
      WrittenBy(nThreads, nWorkers, initial, steps, i, k, Reached(nThreads, nWorkers, initial, steps).log[k])
  {
    if steps != [] {
      var front := steps[..|steps| - 1];
      hide Reached, WrittenBy;
      var before, s := Reached(nThreads, nWorkers, initial, front), Reached(nThreads, nWorkers, initial, steps);
      WrittenLast(nThreads, nWorkers, initial, steps, k);
      if k < |before.log| {
        EveryEntryHasItsTurn(nThreads, nWorkers, initial, front, k);
        var i: nat :| WrittenBy(nThreads, nWorkers, initial, front, i, k, before.log[k]);
        WrittenEarlier(nThreads, nWorkers, initial, steps, front, i, k, s.log[k]);
      }
    }
  }

  // The files.

  /** The step is the turn that takes the upload of `name`, and the file system takes the code. */
  predicate UploadsNow(s: State, step: Step, name: string, code: C.Code)
    requires Enabled(s, step)
  {
    && step == ServerlessTurn(true) && s.phase == Idle && s.queue[0] == UploadWorkerCode(name, code)
    && C.IsValidName(name)
  }

  predicate RemovesNow(s: State, step: Step, name: string)
    requires Enabled(s, step)
  {
    step.ServerlessTurn? && s.phase == Idle && s.queue[0] == RemoveWorkerCode(name)
  }

  /** After a step a name has exactly the code that the step uploads, or that it had before if the step neither uploads
      nor removes it. */
  lemma FilesChangeExactly(s: State, step: Step, name: string, code: C.Code)
    requires Enabled(s, step)
    ensures var t := Next(s, step);
      (name in t.files && t.files[name] == code) <==>
        || UploadsNow(s, step, name, code)
        || (name in s.files && s.files[name] == code && !RemovesNow(s, step, name)
            && !exists other :: UploadsNow(s, step, name, other))
  {
    hide PodStep, WorkerStep, C.IsValidName, DropQueue;
    if step.ServerlessTurn? && s.phase == Idle {
      match s.queue[0]
      case CreateWorker(_) =>
      case ToPod(_, _, _) =>
      case UploadWorkerCode(other, c) => if UploadsNow(s, step, other, c) {}
      case RemoveWorkerCode(_) =>
    }
  }

  // Answers to requests.

  /** The step answers the pending cell of worker `h` of pod `p`: its callback runs and is given `text`, or the worker
      closes and the text is empty. */
  predicate AnswersNow(s: State, step: Step, p: nat, h: nat, a: R.Answer)
    requires Enabled(s, step) && HasWorker(s, p, h)
  {
    && a.cell in s.pods[p].workers[h].table.live
    && (step == CallbackRuns(p, h, a.cell, a.text) || (step == WorkerCloses(p, h) && a.text == ""))
  }

  lemma WorkerKeepsAnswers(p: nat, h: nat, w: Worker, started: bool, o: R.Outcome)
    requires WorkerEnabled(w)
    ensures WorkerStep(p, h, w, started, o).worker.table.answers == w.table.answers
  {
    hide DropWorkerQueue;
  }

  lemma PodKeepsTables(p: nat, d: Pod, h: nat)
    requires PodEnabled(d) && h < |d.workers|
    ensures h < |PodStep(p, d).pod.workers| && PodStep(p, d).pod.workers[h].table == d.workers[h].table
  {
    hide A.Create, DropPodQueue;
  }

  lemma FlushAnswersExactly(t: R.Table, a: R.Answer)
    requires R.Located(t) && R.Settled(t)
    ensures var u := R.Flush(t);
      t.answers <= u.answers && (a in u.answers[|t.answers|..] <==> a.cell in t.live && a.text == "")
  {
    R.FlushCompletes(t);
    hide R.Flush, R.Located;
    var u := R.Flush(t);
    var more := u.answers[|t.answers|..];
    assert forall i :: 0 <= i < |more| ==> more[i] == u.answers[|t.answers| + i];
    if a.cell in t.live && a.text == "" {
      assert a.cell in R.CellsOf(u.answers) && a.cell !in R.CellsOf(t.answers);
      var i :| 0 <= i < |u.answers| && u.answers[i].cell == a.cell;
      assert forall j :: 0 <= j < |t.answers| ==> R.CellsOf(t.answers)[j] == t.answers[j].cell;
      assert i >= |t.answers|;
      assert u.answers[i] == a && more[i - |t.answers|] == a;
    }
  }

  lemma FireAnswersExactly(t: R.Table, c: nat, text: string, a: R.Answer)
    ensures var u := R.Fire(t, c, text);
      t.answers <= u.answers && (a in u.answers[|t.answers|..] <==> a.cell in t.live && a == R.Answer(c, text))
  {
  }

  /** Steps of others leave the workers of a pod with the tables they have. */
  lemma OthersKeepTables(s: State, step: Step, p: nat, h: nat)
    requires Enabled(s, step) && HasWorker(s, p, h)
    ensures HasWorker(Next(s, step), p, h)
    ensures step.ClientSend? || step.CtrlC? || step.MonitorHalts? || step.ServerlessTurn? || step.PodTurn? ==>
      Next(s, step).pods[p].workers[h].table == s.pods[p].workers[h].table
  {
    hide PodStep, WorkerStep, ServerlessStep, R.Fire, R.Flush;
    match step
    case PodTurn(q) => if q == p { PodKeepsTables(p, s.pods[p], h); }
    case ServerlessTurn(written) => ServerlessTouchesTarget(s, written);
    case _ =>
  }

  /** A step answers a cell exactly if the cell is pending and its callback runs or its worker closes. */
  lemma StepAnswersExactly(s: State, step: Step, p: nat, h: nat, a: R.Answer)
    requires Dispatch(s) && Enabled(s, step) && HasWorker(s, p, h)
    ensures var t := Next(s, step);
      && HasWorker(t, p, h)
      && AnswersOf(s, p, h) <= AnswersOf(t, p, h)
      && (a in AnswersOf(t, p, h)[|AnswersOf(s, p, h)|..] <==> AnswersNow(s, step, p, h, a))
  {
    hide Conversation, PodOk, PodStep, WorkerStep, ServerlessStep, R.Fire, R.Flush, R.Located, R.Settled;
    var w := s.pods[p].workers[h];
    TableIsOk(s, p, h);
    OthersKeepTables(s, step, p, h);
    match step
    case WorkerTurn(q, g, started, o) =>
      if q == p && g == h { WorkerKeepsAnswers(p, h, w, started, o); }
    case CallbackRuns(_, _, c, text) => FireAnswersExactly(w.table, c, text, a);
    case WorkerCloses(_, _) => FlushAnswersExactly(w.table, a);
    case ClientSend(_) | CtrlC | MonitorHalts(_, _) | PodTurn(_) | ServerlessTurn(_) =>
  }

  lemma TableIsOk(s: State, p: nat, h: nat)
    requires Dispatch(s) && HasWorker(s, p, h)
    ensures R.Located(s.pods[p].workers[h].table) && R.Settled(s.pods[p].workers[h].table)
  {
    WorkersAreOk(s, p, h);
  }

  ghost predicate AnsweredBy(nThreads: nat, nWorkers: nat, initial: C.Files, steps: seq<Step>, i: nat,
                             p: nat, h: nat, a: R.Answer)
  {
    i < |steps|
    && var before := Reached(nThreads, nWorkers, initial, steps[..i]);
       Enabled(before, steps[i]) && HasWorker(before, p, h) && AnswersNow(before, steps[i], p, h, a)
  }

  /** A worker that was not there before the step has answered nothing. */
  lemma NewWorkersAreSilent(s: State, step: Step, p: nat, h: nat)
    requires Enabled(s, step) && !HasWorker(s, p, h)
    ensures AnswersOf(Next(s, step), p, h) == []
  {
    hide WorkerStep, DropPodQueue, A.Create, R.Fire, R.Flush, ServerlessStep;
    if step.ServerlessTurn? { ServerlessTouchesTarget(s, step.written); }
  }

  lemma NoWorkersAtFirst(nThreads: nat, nWorkers: nat, initial: C.Files, p: nat, h: nat)
    ensures !HasWorker(Init(nThreads, nWorkers, initial), p, h)
  {
  }

  /** What worker `h` of pod `p` has answered. */
  function AnswersOf(s: State, p: nat, h: nat): seq<R.Answer> {
    if HasWorker(s, p, h) then s.pods[p].workers[h].table.answers else []
  }

  /** Over every run each answer is the value with which the callback of a pending cell ran, or the empty string given
      to a pending cell when its worker closed. */
  lemma {:induction false} EveryAnswerHasItsCause(nThreads: nat, nWorkers: nat, initial: C.Files, steps: seq<Step>,
                                                  p: nat, h: nat, k: nat)
    requires k < |AnswersOf(Reached(nThreads, nWorkers, initial, steps), p, h)|
    ensures exists i: nat :: AnsweredBy(nThreads, nWorkers, initial, steps, i, p, h,
                                        AnswersOf(Reached(nThreads, nWorkers, initial, steps), p, h)[k])
  {
    if steps == [] {
      NoWorkersAtFirst(nThreads, nWorkers, initial, p, h);
    } else {
      var front, step := steps[..|steps| - 1], steps[|steps| - 1];
      hide Dispatch, Next, Enabled, AnswersNow, Reached;
      var before, s := Reached(nThreads, nWorkers, initial, front), Reached(nThreads, nWorkers, initial, steps);
      var a := AnswersOf(s, p, h)[k];
      ReachedDispatch(nThreads, nWorkers, initial, front);
      LastStep(nThreads, nWorkers, initial, steps);
      if Enabled(before, step) { NewAnswer(before, step, p, h, k); }
      if k < |AnswersOf(before, p, h)| {
        EveryAnswerHasItsCause(nThreads, nWorkers, initial, front, p, h, k);
        var i: nat :| AnsweredBy(nThreads, nWorkers, initial, front, i, p, h, a);
        assert front[..i] == steps[..i];
        assert AnsweredBy(nThreads, nWorkers, initial, steps, i, p, h, a);
      } else {
        assert AnsweredBy(nThreads, nWorkers, initial, steps, |front|, p, h, a);
      }
    }
  }

  lemma NewAnswer(s: State, step: Step, p: nat, h: nat, k: nat)
    requires Dispatch(s) && Enabled(s, step) && k < |AnswersOf(Next(s, step), p, h)|
    ensures var given, now := AnswersOf(s, p, h), AnswersOf(Next(s, step), p, h);
      if k < |given| then now[k] == given[k] else HasWorker(s, p, h) && AnswersNow(s, step, p, h, now[k])
  {
    hide Dispatch, Next, Enabled, AnswersNow;
    var given, now := AnswersOf(s, p, h), AnswersOf(Next(s, step), p, h);
    if HasWorker(s, p, h) {
      StepAnswersExactly(s, step, p, h, now[k]);
      if k >= |given| { assert now[|given|..][k - |given|] == now[k]; }
    } else {
      NewWorkersAreSilent(s, step, p, h);
    }
  }

  // Who loses requests.

  /** A request that was accepted is refused or dropped only by a worker that has left, or in the end by the serverless
      task. */
  ghost predicate OnlyTheGoneLose(s: State) {
    forall e :: e in s.settled && (e.fate == Refused || e.fate == Discarded) ==>
      s.phase == Finished || (HasWorker(s, e.pod, e.id) && Gone(s.pods[e.pod].workers[e.id]))
  }

  lemma PodKeepsGone(p: nat, d: Pod, h: nat)
    requires PodEnabled(d) && h < |d.workers| && Gone(d.workers[h])
    ensures h < |PodStep(p, d).pod.workers| && Gone(PodStep(p, d).pod.workers[h])
  {
    hide A.Create, DropPodQueue;
  }

  lemma GoneStays(s: State, step: Step, p: nat, h: nat)
    requires Enabled(s, step) && HasWorker(s, p, h) && Gone(s.pods[p].workers[h])
    ensures HasWorker(Next(s, step), p, h) && Gone(Next(s, step).pods[p].workers[h])
  {
    hide PodStep, WorkerStep, ServerlessStep, R.Fire, R.Flush;
    match step
    case PodTurn(q) => if q == p { PodKeepsGone(p, s.pods[p], h); }
    case ServerlessTurn(written) => ServerlessTouchesTarget(s, written);
    case _ =>
  }

  /** The cause of a loss leaves its worker gone, or ends the serverless task. */
  lemma LosersAreGone(s: State, step: Step, e: Settlement)
    requires Dispatch(s) && Enabled(s, step) && SettlesNow(s, step, e) && (e.fate == Refused || e.fate == Discarded)
    ensures var t := Next(s, step);
      t.phase == Finished || (HasWorker(t, e.pod, e.id) && Gone(t.pods[e.pod].workers[e.id]))
  {
    match step
    case WorkerTurn(p, h, started, o) =>
      WorkerStepMoves(p, h, s.pods[p].workers[h], started, o);
      hide WorkerStep, Leaves;
    case PodTurn(p) =>
      assert PodOk(s.pods[p], s.nWorkers);
      hide WorkerOk, PodStep;
      GoneStays(s, step, e.pod, e.id);
    case ServerlessTurn(_) =>
    case _ =>
  }

  lemma FinishedStays(s: State, step: Step)
    requires Enabled(s, step) && s.phase == Finished
    ensures Next(s, step).phase == Finished
  {
  }

  lemma StepKeepsLosers(s: State, step: Step)
    requires Dispatch(s) && Enabled(s, step) && OnlyTheGoneLose(s)
    ensures OnlyTheGoneLose(Next(s, step))
  {
    hide Dispatch, Next, Enabled, SettlesNow, Gone;
    var t := Next(s, step);
    forall e | e in t.settled && (e.fate == Refused || e.fate == Discarded)
      ensures t.phase == Finished || (HasWorker(t, e.pod, e.id) && Gone(t.pods[e.pod].workers[e.id]))
    {
      StepSettlesExactly(s, step, e);
      if e in s.settled {
        if s.phase == Finished { FinishedStays(s, step); } else { GoneStays(s, step, e.pod, e.id); }
      } else {
        assert t.settled == s.settled + t.settled[|s.settled|..];
        LosersAreGone(s, step, e);
      }
    }
  }

  /** Over every run: as long as a worker has not left, it keeps or spends every request that reaches it. */
  lemma {:induction false} OnlyGoneWorkersLoseRequests(nThreads: nat, nWorkers: nat, initial: C.Files, steps: seq<Step>)
    ensures OnlyTheGoneLose(Reached(nThreads, nWorkers, initial, steps))
  {
    if steps != [] {
      var front, step := steps[..|steps| - 1], steps[|steps| - 1];
      hide Dispatch, Next, Enabled, Reached, OnlyTheGoneLose;
      OnlyGoneWorkersLoseRequests(nThreads, nWorkers, initial, front);
      ReachedDispatch(nThreads, nWorkers, initial, front);
      LastStep(nThreads, nWorkers, initial, steps);
      var before := Reached(nThreads, nWorkers, initial, front);
      if Enabled(before, step) { StepKeepsLosers(before, step); }
    }
  }

  /** A worker that its monitor wants halted has left, or has the halt before it; at rest it has left. */
  lemma MonitoredWorkerLeaves(nThreads: nat, nWorkers: nat, initial: C.Files, steps: seq<Step>, p: nat, h: nat)
    requires HasWorker(Reached(nThreads, nWorkers, initial, steps), p, h)
    requires Reached(nThreads, nWorkers, initial, steps).pods[p].workers[h].monitorFired
    ensures var s := Reached(nThreads, nWorkers, initial, steps); var w := s.pods[p].workers[h];
      && (Gone(w) || Halt(ByMonitor) in w.queue)
      && (!CanMove(s) ==> Gone(w))
  {
    hide Reached, CanMove, Conversation;
    ReachedDispatch(nThreads, nWorkers, initial, steps);
    var s := Reached(nThreads, nWorkers, initial, steps);
    WorkersAreOk(s, p, h);
    if !CanMove(s) { RestIsComplete(s); }
  }

  /** The monitor's step delivers the halt to a worker that has not left. */
  lemma MonitorHaltArrives(s: State, p: nat, h: nat)
    requires Enabled(s, MonitorHalts(p, h))
    ensures var w, v := s.pods[p].workers[h], Next(s, MonitorHalts(p, h)).pods[p].workers[h];
      && v.monitorFired && v.phase == w.phase && v.table == w.table
      && v.queue == (if Gone(w) then w.queue else w.queue + [Halt(ByMonitor)])
  {
  }
}
