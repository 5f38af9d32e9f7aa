/** The serverless task in place: its store, its queue, its one-shots and its answers. Every await lets the pods, the
    workers and the clients step, in any order, until what is awaited is there. */
module Runtime {
  import opened Wrappers
  import opened Protocol
  import opened PodInvariant
  import opened DispatchInvariant
  import opened Placement
  import opened Progress
  import opened System
  import C = CodeStore
  import R = ReplierTable

  /** `schedule` is what happens next besides the serverless task's own doing; when it runs out, whatever task can
      move does. */
  class Serverless {
    const nThreads: nat
    const nWorkers: nat
    const store: C.Store
    var queue: seq<Trigger>
    /** Where in its code the task is. */
    var phase: Phase
    var vacancy: Option<bool>
    var placed: Option<nat>
    /** The other ends of the pod handles. */
    var pods: seq<Pod>
    var log: seq<Entry>
    var accepted: seq<Trigger>
    var settled: seq<Settlement>
    var issued: nat
    var schedule: seq<Step>
    /** The signal has come, and the task has not yet got to it. */
    var signalled: bool

    function Model(): State
      reads this, store
    {
      State(nThreads, nWorkers, store.files, queue, phase, pods, vacancy, placed, accepted, log, settled, issued)
    }

    ghost predicate Valid()
      reads this, store
    {
      Inv(Model(), store.initial) && store.Valid()
    }

    /** A signal is due: it has come, or is going to. */
    predicate SignalDue()
      reads this
    {
      signalled || CtrlC in schedule
    }

    /** What other tasks leave alone while the serverless task waits. */
    twostate predicate Undisturbed()
      reads this, store
    {
      && phase == old(phase) && log == old(log) && store.files == old(store.files)
      && |pods| == |old(pods)| && |schedule| <= |old(schedule)| && SignalDue() == old(SignalDue())
      && Core(Model()) <= Core(old(Model()))
      && (|schedule| == |old(schedule)| ==>
            Work(Model()) <= Work(old(Model())) && accepted == old(accepted) && queue == old(queue))
    }

    /** The task is no further from rest than it was, unless the schedule went on. */
    twostate predicate Advanced()
      reads this, store
    {
      && SignalDue() == old(SignalDue())
      && |schedule| <= |old(schedule)| && (|schedule| == |old(schedule)| ==> Work(Model()) <= Work(old(Model())))
    }

    constructor (nThreads: nat, nWorkers: nat, files: C.Files, schedule: seq<Step>)
      ensures Valid() && Model() == Init(nThreads, nWorkers, files) && this.schedule == schedule
      ensures fresh(store) && store.initial == files
    {
      this.nThreads, this.nWorkers := nThreads, nWorkers;
      store := new C.Store(files);
      pods := Init(nThreads, nWorkers, files).pods;
      queue, phase, vacancy, placed, log := [], Idle, None, None, [];
      accepted, settled, issued, this.schedule, signalled := [], [], 0, schedule, false;
      new;
      InitInv(nThreads, nWorkers, files);
    }

    /** Some pod or worker that can take a step, if there is one. */
    method PickTask() returns (found: Option<Step>)
      ensures found.Some? ==> OfTask(found.value) && !found.value.ServerlessTurn? && Enabled(Model(), found.value)
      ensures found.None? ==> forall step :: OfTask(step) && Enabled(Model(), step) ==> step.ServerlessTurn?
    {
      var p := 0;
      while p < |pods|
        invariant 0 <= p <= |pods|
        invariant forall q :: 0 <= q < p ==> !PodEnabled(pods[q])
        invariant forall q, h :: 0 <= q < p && 0 <= h < |pods[q].workers| ==> !WorkerEnabled(pods[q].workers[h])
      {
        if PodEnabled(pods[p]) {
          return Some(PodTurn(p));
        }
        var h := 0;
        while h < |pods[p].workers|
          invariant 0 <= h <= |pods[p].workers|
          invariant forall g :: 0 <= g < h ==> !WorkerEnabled(pods[p].workers[g])
        {
          if WorkerEnabled(pods[p].workers[h]) {
            return Some(WorkerTurn(p, h, true, R.Promised));
          }
          h := h + 1;
        }
        p := p + 1;
      }
      found := None;
    }

    /** A pod, a worker or a client does something. */
    method Elsewhere(step: Step)
      requires Valid() && Enabled(Model(), step) && !step.ServerlessTurn? && !step.CtrlC?
      modifies this
      ensures Valid() && Model() == Next(old(Model()), step)
      ensures schedule == old(schedule) && signalled == old(signalled)
      ensures phase == old(phase) && log == old(log) && |pods| == |old(pods)|
      ensures Core(Model()) <= Core(old(Model()))
      ensures OfTask(step) ==>
        && Core(Model()) < Core(old(Model())) && Work(Model()) < Work(old(Model()))
        && queue == old(queue) && accepted == old(accepted)
    {
      hide Inv, Core, Work, Next, Enabled;
      OtherStep(Model(), step, store.initial);
      var t := Next(Model(), step);
      queue, pods, vacancy, placed := t.queue, t.pods, t.vacancy, t.placed;
      accepted, settled, issued := t.accepted, t.settled, t.issued;
      assert Model() == t;
    }

    /** Let the rest of the system run until the serverless task can go on. It always can, in the end. */
    method Await()
      requires Valid() && phase != Idle && phase != Finished
      modifies this
      ensures Valid() && ServerlessEnabled(Model()) && Undisturbed()
    {
      hide Inv, Core, Work, ServerlessEnabled, Next;
      while !ServerlessEnabled(Model())
        invariant Valid() && Undisturbed()
        decreases |schedule|, Core(Model())
      {
        WorkIsNatural(Model(), store.initial);
        if schedule != [] {
          var step := schedule[0];
          DueLater(schedule);
          schedule := schedule[1..];
          if step.CtrlC? {
            signalled := true;
          } else if Enabled(Model(), step) && !step.ServerlessTurn? {
            Elsewhere(step);
          }
        } else {
          SomebodyMoves(Model(), store.initial);
          var found := PickTask();
          Elsewhere(found.value);
        }
      }
    }

    /** Send to a pod that has room. */
    method SendTo(p: nat, t: PodTrigger, next: Phase)
      requires p < |pods| && Valid() && ServerlessEnabled(Model())
      requires ServerlessStep(Model(), true) == Protocol.Send(Model(), p, t).(phase := next)
      modifies `pods, `phase
      ensures Valid() && phase == next && |pods| == |old(pods)| && EndsWithMail(pods[p].queue, t)
      ensures Work(Model()) < Work(old(Model()))
    {
      hide Inv, Core, Work, ServerlessStep, ServerlessEnabled;
      OwnStep(Model(), true, store.initial);
      pods := pods[p := pods[p].(queue := pods[p].queue + [t])];
      phase := next;
    }

    /** Ask the pods one after the other; the first with a vacancy is taken. */
    method FindVacancy(name: string, source: string) returns (idx: Option<nat>)
      requires Valid() && phase == Asking(0, name, source)
      modifies this
      ensures Valid() && log == old(log) && Advanced()
      ensures idx.None? ==> phase == Asking(|pods|, name, source)
      ensures idx.Some? ==> phase == Placing(idx.value, name, source) && idx.value < |pods|
      ensures FullBelow(Model(), if idx.Some? then idx.value else |pods|)
      ensures idx.Some? ==> |pods[idx.value].workers| < nWorkers
    {
      hide Inv, Core, Work, Next, FullBelow;
      var i := 0;
      while i < |pods|
        invariant 0 <= i <= |pods| && Valid() && phase == Asking(i, name, source)
        invariant log == old(log) && Advanced()
        decreases |pods| - i
      {
        var vacant := AskPod(i, name, source);
        SearchIsFirstFit(Model(), store.initial);
        if vacant {
          return Some(i);
        }
        i := i + 1;
      }
      SearchIsFirstFit(Model(), store.initial);
      idx := None;
    }

    /** Ask one pod for a vacancy, and wait for its answer. */
    method AskPod(i: nat, name: string, source: string) returns (vacant: bool)
      requires Valid() && phase == Asking(i, name, source) && i < |pods|
      modifies this
      ensures Valid() && log == old(log) && |pods| == |old(pods)| && Advanced()
      ensures phase == if vacant then Placing(i, name, source) else Asking(i + 1, name, source)
    {
      hide Inv, Core, Work, Next, EndsWithMail;
      Await();
      SendTo(i, CheckVacancies, Asked(i, name, source));
      Await();
      OwnStep(Model(), true, store.initial);
      ghost var next := ServerlessStep(Model(), true);
      vacant := vacancy.value;
      vacancy := None;
      phase := if vacant then Placing(i, name, source) else Asking(i + 1, name, source);
      assert Model() == next;
    }

    /** Find a vacancy, then create the worker there: the answer is the sequential one. */
    method CreateWorker(name: string, source: string) returns (answer: Option<(nat, nat)>)
      requires Valid() && phase == Asking(0, name, source)
      modifies this
      ensures Valid() && phase == Idle && log == old(log) + [Created(name, answer)]
      ensures answer == Place(Successes(old(log)), nThreads, nWorkers)
      ensures Advanced()
    {
      hide Inv, Core, Work, Next, Place, Successes, SourceAt, FullBelow, ServerlessStep;
      HandIsRecorded(Model(), store.initial);
      var podId := FindVacancy(name, source);
      if podId.Some? {
        PlaceIn(podId.value, name, source);
      }
      answer := Answer(name);
      assert log[|old(log)|] == Created(name, answer) && log[..|old(log)|] == old(log);
      AnswerIsSequential(Model(), store.initial, |old(log)|);
    }

    /** Have pod `p` create the worker, and wait for its number. */
    method PlaceIn(p: nat, name: string, source: string)
      requires Valid() && phase == Placing(p, name, source) && p < |pods|
      modifies this
      ensures Valid() && phase == Placed(p, name, source) && ServerlessEnabled(Model())
      ensures log == old(log) && |pods| == |old(pods)| && Advanced()
    {
      hide Inv, Core, Work, Next;
      Await();
      SendTo(p, Create(source), Placed(p, name, source));
      Await();
    }

    /** Answer the creation in hand: with the place that came back, or with nothing if all pods were asked in vain. */
    method Answer(name: string) returns (answer: Option<(nat, nat)>)
      requires Valid() && ServerlessEnabled(Model())
      requires ((phase.Asking? && phase.pod == |pods|) || phase.Placed?) && phase.name == name
      modifies `placed, `log, `phase
      ensures Valid() && phase == Idle && log == old(log) + [Created(name, answer)]
      ensures Work(Model()) < Work(old(Model()))
    {
      hide Inv, Work;
      OwnStep(Model(), true, store.initial);
      ghost var next := ServerlessStep(Model(), true);
      answer := None;
      if phase.Placed? {
        answer := Some((phase.pod, placed.value));
        placed := None;
      }
      log, phase := log + [Created(name, answer)], Idle;
      assert Model() == next;
    }

    /** The first trigger of the queue is handled to its end: one entry is written for it. */
    twostate predicate Handled()
      reads this, store
      requires old(queue) != []
    {
      && phase == Idle && |log| == |old(log)| + 1 && old(log) <= log && TriggerOf(log[|old(log)|]) == old(queue[0])
      && SignalDue() == old(SignalDue())
      && |schedule| <= |old(schedule)| && (|schedule| == |old(schedule)| ==> Work(Model()) < Work(old(Model())))
    }

    /** One trigger, from the queue to its answer or its pod. A creation gets the sequential place if its name has code. A
        request ends last in the queue of its pod, if there is such a pod. An upload is answered as its name and the file
        system say, and goes to the store with just that. */
    method HandleTrigger(written: bool)
      requires Valid() && phase == Idle && queue != []
      modifies this, store
      ensures Valid() && Handled()
      ensures match old(queue[0])
        case CreateWorker(name) =>
          && store.history == old(store.history)
          && log == old(log) + [Created(name, if C.Read(old(store.files), name).None? then None
                                              else Place(Successes(old(log)), nThreads, nWorkers))]
        case ToPod(p, id, reply) =>
          && store.history == old(store.history) && log == old(log) + [Relayed(p, id, reply)] && |pods| == |old(pods)|
          && if p < |pods| then EndsWithMail(pods[p].queue, ToWorker(id, reply))
             else pods == old(pods) && settled == old(settled) + [Settlement(p, id, reply, NoPod)]
        case UploadWorkerCode(name, code) =>
          && store.history == old(store.history) + [C.Uploading(name, code, written)]
          && log == old(log) + [Uploaded(name, code, written, UploadError(name, written))]
          && (C.IsValidName(name) && written ==> C.Read(store.files, name) == if code.Text? then Some(code.source) else None)
          && (!C.IsValidName(name) || !written ==> store.files == old(store.files))
        case RemoveWorkerCode(name) =>
          && store.history == old(store.history) + [C.Removing(name)] && log == old(log) + [Removed(name)]
          && C.Read(store.files, name).None?
    {
      match queue[0]
      case CreateWorker(name) => HandleCreation(name);
      case ToPod(p, id, reply) => HandleRequest(p, id, reply);
      case UploadWorkerCode(name, code) => HandleUpload(name, code, written);
      case RemoveWorkerCode(name) => HandleRemoval(name);
    }

    method HandleCreation(name: string)
      requires Valid() && phase == Idle && queue != [] && queue[0] == Trigger.CreateWorker(name)
      modifies this
      ensures Valid() && Handled()
      ensures log == old(log) + [Created(name, if C.Read(store.files, name).None? then None
                                               else Place(Successes(old(log)), nThreads, nWorkers))]
    {
      hide Inv, Core, Work, C.Read, Place, Successes;
      OwnStep(Model(), true, store.initial);
      ghost var next := ServerlessStep(Model(), true);
      queue := queue[1..];
      var source := store.GetWorkerCode(name);
      if source.None? {
        log := log + [Created(name, None)];
        assert Model() == next;
      } else {
        phase := Asking(0, name, source.value);
        assert Model() == next;
        hide ServerlessStep;
        var answer := CreateWorker(name, source.value);
      }
    }

    /** A request for a pod that does not exist is dropped. */
    method HandleRequest(p: nat, id: nat, reply: Reply)
      requires Valid() && phase == Idle && queue != [] && queue[0] == ToPod(p, id, reply)
      modifies this
      ensures Valid() && Handled() && log == old(log) + [Relayed(p, id, reply)] && |pods| == |old(pods)|
      ensures if p < |pods| then EndsWithMail(pods[p].queue, ToWorker(id, reply))
        else pods == old(pods) && settled == old(settled) + [Settlement(p, id, reply, NoPod)]
    {
      hide Inv, Core, Work, EndsWithMail;
      OwnStep(Model(), true, store.initial);
      ghost var next := ServerlessStep(Model(), true);
      queue := queue[1..];
      log := log + [Relayed(p, id, reply)];
      if p < |pods| {
        phase := Relaying(p, id, reply);
        assert Model() == next;
        hide Receive;
        Await();
        SendTo(p, ToWorker(id, reply), Idle);
      } else {
        settled := settled + [Settlement(p, id, reply, NoPod)];
        assert Model() == next;
      }
    }

    method HandleUpload(name: string, code: C.Code, written: bool)
      requires Valid() && phase == Idle && queue != [] && queue[0] == UploadWorkerCode(name, code)
      modifies this, store
      ensures Valid() && Handled()
      ensures store.history == old(store.history) + [C.Uploading(name, code, written)]
      ensures log == old(log) + [Uploaded(name, code, written, UploadError(name, written))]
      ensures C.IsValidName(name) && written ==>
        C.Read(store.files, name) == if code.Text? then Some(code.source) else None
      ensures !C.IsValidName(name) || !written ==> store.files == old(store.files)
    {
      hide Inv, Work, Core, C.Upload, C.After, C.IsValidName, C.Read, UploadError, ServerlessStep;
      UploadIsAnswered(store.files, name, code, written);
      UploadIsTaken(Model(), written, name, code);
      OwnStep(Model(), written, store.initial);
      ghost var next := ServerlessStep(Model(), written);
      queue := queue[1..];
      var err := store.UploadWorkerCode(name, code, written);
      log := log + [Uploaded(name, code, written, err)];
      assert Model() == next;
    }

    method HandleRemoval(name: string)
      requires Valid() && phase == Idle && queue != [] && queue[0] == RemoveWorkerCode(name)
      modifies this, store
      ensures Valid() && Handled() && store.history == old(store.history) + [C.Removing(name)]
      ensures log == old(log) + [Removed(name)] && C.Read(store.files, name).None?
    {
      hide Inv, Work, Core, C.Remove, C.After;
      OwnStep(Model(), true, store.initial);
      ghost var next := ServerlessStep(Model(), true);
      queue := queue[1..];
      store.RemoveWorkerCode(name);
      log := log + [Removed(name)];
      assert Model() == next;
    }

    /** Send each pod its halt and wait for the token before the next one gets its own. */
    method Halt()
      requires Valid() && phase == HaltingNext(0)
      modifies this
      ensures Valid() && phase == HaltingNext(|pods|) && log == old(log)
      ensures forall p :: 0 <= p < |pods| ==> pods[p].phase.Stopped?
    {
      hide Inv, Core, Work, Next, EndsWithMail;
      var i := 0;
      while i < |pods|
        invariant 0 <= i <= |pods| && Valid() && phase == HaltingNext(i) && log == old(log)
        decreases |pods| - i
      {
        HaltPodAt(i);
        i := i + 1;
      }
      HaltedPodsAreStopped(Model(), store.initial);
    }

    /** Send one pod its halt, and wait for the token. */
    method HaltPodAt(i: nat)
      requires Valid() && phase == HaltingNext(i) && i < |pods|
      modifies this
      ensures Valid() && phase == HaltingNext(i + 1) && log == old(log) && |pods| == |old(pods)|
      ensures pods[i].phase.Stopped?
    {
      hide Inv, Core, Work, Next, EndsWithMail;
      Await();
      SendTo(i, HaltPod, Halting(i));
      Await();
      OwnStep(Model(), true, store.initial);
      ghost var next := ServerlessStep(Model(), true);
      phase := HaltingNext(i + 1);
      assert Model() == next;
    }

    method JoinPods()
      requires Valid() && phase == Joining(0)
      modifies this
      ensures Valid() && phase == Joining(|pods|) && log == old(log)
    {
      hide Inv, Core, Work, Next;
      var i := 0;
      while i < |pods|
        invariant 0 <= i <= |pods| && Valid() && phase == Joining(i) && log == old(log)
        decreases |pods| - i
      {
        Await();
        OwnStep(Model(), true, store.initial);
        ghost var next := ServerlessStep(Model(), true);
        i := i + 1;
        phase := Joining(i);
        assert Model() == next;
      }
    }

    /** Halt every pod in turn, then join them, and drop what is still queued. */
    method CloseServerless()
      requires Valid() && phase == HaltingNext(0)
      modifies this
      ensures Valid() && phase == Finished && log == old(log)
      ensures forall p :: 0 <= p < |pods| ==> pods[p].phase.Stopped?
    {
      hide Inv, Core, Work, Next;
      Halt();
      OwnStep(Model(), true, store.initial);
      ghost var joining := ServerlessStep(Model(), true);
      phase := Joining(0);
      assert Model() == joining;
      JoinPods();
      OwnStep(Model(), true, store.initial);
      ghost var finished := ServerlessStep(Model(), true);
      settled := settled + DropQueue(queue);
      queue, phase := [], Finished;
      assert Model() == finished;
      FinishedPodsAreStopped(Model(), store.initial);
    }

    /** Take the signal: close everything. */
    method Shutdown()
      requires Valid() && phase == Idle
      modifies this
      ensures Valid() && phase == Finished && log == old(log)
      ensures forall p :: 0 <= p < |pods| ==> pods[p].phase.Stopped?
    {
      hide Inv;
      SignalStartsHalting(Model(), store.initial);
      phase := HaltingNext(0);
      CloseServerless();
    }

    /** The event loop: a signal closes the system, a trigger is handled to its end before the next one is taken. With
        both at hand either may be taken first. The loop comes back closed exactly if a signal comes, whenever that is,
        and else when there is nothing left to wait for. */
    method Serve() returns (closed: bool)
      requires Valid() && phase == Idle && !signalled
      modifies this, store
      ensures Valid()
      ensures closed <==> CtrlC in old(schedule)
      ensures closed ==> phase == Finished && forall p :: 0 <= p < |pods| ==> pods[p].phase.Stopped?
      ensures !closed ==> phase == Idle && queue == [] && accepted == Triggers(log)
      ensures AllAnswered(store.initial, nThreads, nWorkers, log)
    {
      hide Inv, Core, Work, Next, AllAnswered;
      while true
        invariant Valid() && phase == Idle
        invariant SignalDue() == old(SignalDue())
        decreases |schedule|, Work(Model())
      {
        WorkIsNatural(Model(), store.initial);
        DueLater(schedule);
        if schedule != [] && schedule[0].ServerlessTurn? {
          var written := schedule[0].written;
          schedule := schedule[1..];
          if queue != [] {
            HandleTrigger(written);
          }
        } else if signalled || (schedule != [] && schedule[0].CtrlC?) {
          Shutdown();
          LogIsAnswered(Model(), store.initial);
          return true;
        } else if schedule != [] {
          var step := schedule[0];
          schedule := schedule[1..];
          if Enabled(Model(), step) {
            Elsewhere(step);
          }
        } else if queue != [] {
          HandleTrigger(true);
        } else {
          LogIsAnswered(Model(), store.initial);
          return false;
        }
      }
    }
  }

  predicate EndsWithMail(q: seq<PodTrigger>, t: PodTrigger) {
    q != [] && q[|q| - 1] == t
  }

  /** What an upload is told. */
  function UploadError(name: string, written: bool): Option<C.StoreError> {
    if C.IsValidName(name) then if written then None else Some(C.IoError) else Some(C.InvalidName(name))
  }

  lemma UploadIsTaken(s: State, written: bool, name: string, code: C.Code)
    requires s.phase == Idle && s.queue != [] && s.queue[0] == UploadWorkerCode(name, code)
    ensures ServerlessStep(s, written)
      == s.(queue := s.queue[1..], files := C.Upload(s.files, name, code, written).0,
            log := s.log + [Uploaded(name, code, written, C.Upload(s.files, name, code, written).1)])
  {
    hide C.Upload;
  }

  lemma UploadIsAnswered(files: C.Files, name: string, code: C.Code, written: bool)
    ensures var (now, err) := C.Upload(files, name, code, written);
      && err == UploadError(name, written)
      && (C.IsValidName(name) && written ==> C.Read(now, name) == if code.Text? then Some(code.source) else None)
      && (!C.IsValidName(name) || !written ==> now == files)
  {
    hide C.IsValidName;
  }

  lemma DueLater(schedule: seq<Step>)
    ensures schedule != [] ==> (CtrlC in schedule <==> schedule[0].CtrlC? || CtrlC in schedule[1..])
  {
    if schedule != [] { assert schedule == [schedule[0]] + schedule[1..]; }
  }

  // The invariant, as far as the serverless code needs it.

  lemma AnswerIsSequential(s: State, initial: C.Files, j: nat)
    requires Inv(s, initial) && j < |s.log| && s.log[j].Created?
    requires SourceAt(initial, s.log[..j], s.log[j].name).Some?
    ensures s.log[j].answer == Place(Successes(s.log[..j]), s.nThreads, s.nWorkers)
  {
    assert Answers(initial, s.nThreads, s.nWorkers, s.log[..j], s.log[j]);
  }

  /** What the serverless task itself does next keeps the invariant and is work done. */
  lemma OwnStep(s: State, written: bool, initial: C.Files)
    requires Inv(s, initial) && ServerlessEnabled(s)
    ensures var t := ServerlessStep(s, written);
      Inv(t, initial) && Work(t) < Work(s) && |t.pods| == |s.pods|
  {
    hide Inv, Core, Work;
    NextKeepsInv(s, ServerlessTurn(written), initial);
    ServerlessWorks(s, written, initial);
    ServerlessTouchesTarget(s, written);
  }

  lemma ServerlessWorks(s: State, written: bool, initial: C.Files)
    requires Inv(s, initial) && ServerlessEnabled(s)
    ensures Work(ServerlessStep(s, written)) < Work(s)
  {
    ServerlessTurnWorks(s, written);
  }

  lemma HandIsRecorded(s: State, initial: C.Files)
    requires Inv(s, initial) && s.phase.Asking?
    ensures SourceAt(initial, s.log, s.phase.name) == Some(s.phase.source)
  {
  }

  lemma SearchIsFirstFit(s: State, initial: C.Files)
    requires Inv(s, initial)
    ensures s.phase.Asking? ==> FullBelow(s, s.phase.pod)
    ensures s.phase.Placing? ==>
      FullBelow(s, s.phase.pod) && s.phase.pod < |s.pods| && |s.pods[s.phase.pod].workers| < s.nWorkers
  {
    hide AllPods, StoppingOk, QueuesOk, Truthful, Numbered;
  }

  lemma LogIsAnswered(s: State, initial: C.Files)
    requires Inv(s, initial)
    ensures AllAnswered(initial, s.nThreads, s.nWorkers, s.log)
    ensures s.phase == Idle && s.queue == [] ==> s.accepted == Triggers(s.log)
  {
  }

  lemma FinishedPodsAreStopped(s: State, initial: C.Files)
    requires Inv(s, initial) && s.phase == Finished
    ensures forall p :: 0 <= p < |s.pods| ==> s.pods[p].phase.Stopped?
  {
  }

  lemma HaltedPodsAreStopped(s: State, initial: C.Files)
    requires Inv(s, initial) && s.phase == HaltingNext(|s.pods|)
    ensures forall p :: 0 <= p < |s.pods| ==> s.pods[p].phase.Stopped?
  {
  }

  lemma SignalStartsHalting(s: State, initial: C.Files)
    requires Inv(s, initial) && s.phase == Idle
    ensures Inv(s.(phase := HaltingNext(0)), initial)
  {
    NextKeepsInv(s, CtrlC, initial);
  }

  /** Steps of pods, workers and clients leave the serverless task where it is. */
  lemma OtherStepIsQuiet(s: State, step: Step)
    requires Enabled(s, step) && !step.ServerlessTurn? && !step.CtrlC?
    ensures var t := Next(s, step);
      && t.phase == s.phase && t.log == s.log && t.files == s.files
      && |t.pods| == |s.pods| && t.nThreads == s.nThreads && t.nWorkers == s.nWorkers
      && (OfTask(step) ==> t.queue == s.queue && t.accepted == s.accepted)
  {
  }

  lemma OtherStepWorks(s: State, step: Step, initial: C.Files)
    requires Inv(s, initial) && Enabled(s, step) && !step.ServerlessTurn? && !step.CtrlC?
    ensures var t := Next(s, step);
      Core(t) <= Core(s) && (OfTask(step) ==> Core(t) < Core(s) && Work(t) < Work(s))
  {
    hide Core, Work, Next;
    if OfTask(step) { TaskStepWorks(s, step); } else { OutsideStepWorks(s, step); }
  }

  lemma OtherStep(s: State, step: Step, initial: C.Files)
    requires Inv(s, initial) && Enabled(s, step) && !step.ServerlessTurn? && !step.CtrlC?
    ensures var t := Next(s, step);
      && Inv(t, initial) && t.phase == s.phase && t.log == s.log && t.files == s.files
      && |t.pods| == |s.pods| && t.nThreads == s.nThreads && t.nWorkers == s.nWorkers
      && Core(t) <= Core(s)
      && (OfTask(step) ==> Core(t) < Core(s) && Work(t) < Work(s) && t.queue == s.queue && t.accepted == s.accepted)
  {
    hide Inv, Core, Work, Next, Enabled;
    NextKeepsInv(s, step, initial);
    OtherStepIsQuiet(s, step);
    OtherStepWorks(s, step, initial);
  }

  lemma WorkIsNatural(s: State, initial: C.Files)
    requires Inv(s, initial)
    ensures Core(s) >= 0 && Work(s) >= 0
  {
    CoreIsNatural(s);
  }

  lemma SomebodyMoves(s: State, initial: C.Files)
    requires Inv(s, initial) && s.phase != Finished && s.phase != Idle
    ensures CanMove(s)
  {
    ServerlessCanMove(s);
  }
}
