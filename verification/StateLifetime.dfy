/** The hand-written reference count of the worker state: one count is lent to the isolate and taken back once. */
module StateLifetime {
  /** The pointer kept in the isolate's data slot. */
  datatype Slot = Leaked | Reclaimed

  /** Where the worker's own task is. Script code and fetch tasks run while it is Serving or Waiting. */
  datatype Stage = Injected | Serving | Returned | Opened | Waiting | Waited | IsolateDropped | Released

  /** `frames` counts script callbacks on the stack, each with a handle from `get_from_isolate`;
      `tasks` counts live tracked fetch tasks, each with a handle of its own;
      `drops` counts runs of the destructor. */
  datatype Life = Life(strong: nat, slot: Slot, stage: Stage, frames: nat, tasks: nat, drops: nat)

  datatype Action =
    | Save | Enter | Leave | Spawn | Finish          // serving
    | Return | Open | CloseTracker | Wake            // closing
    | DropIsolate | Release

  // Primitive operations on the count.

  function Clone(l: Life): Life {
    l.(strong := l.strong + 1)
  }

  function DropHandle(l: Life): Life {
    if l.strong == 0 then l
    else l.(strong := l.strong - 1, drops := l.drops + if l.strong == 1 then 1 else 0)
  }

  /** A new state is cloned, and the first handle is leaked into the isolate. */
  const Born := Life(2, Leaked, Injected, 0, 0, 0)

  predicate ScriptMayRun(l: Life) {
    l.stage == Serving || (l.stage == Waiting && l.tasks > 0)
  }

  predicate IsolateAlive(l: Life) {
    l.stage != IsolateDropped && l.stage != Released
  }

  predicate Enabled(l: Life, a: Action) {
    match a
    case Save => l.stage == Injected
    case Enter => ScriptMayRun(l)
    case Leave => l.frames > 0
    case Spawn => l.frames > 0
    case Finish => l.frames == 0 && l.tasks > 0 && ScriptMayRun(l)
    case Return => l.frames == 0 && l.stage == Serving
    case Open => l.stage == Returned
    case CloseTracker => l.stage == Opened
    case Wake => l.frames == 0 && l.stage == Waiting && l.tasks == 0
    case DropIsolate => l.stage == Waited
    case Release => l.stage == IsolateDropped
  }

  function Apply(l: Life, a: Action): Life {
    match a
    case Save => Clone(l).(stage := Serving)
    case Enter => Clone(l).(frames := l.frames + 1)
    case Leave => if l.frames == 0 then l else DropHandle(l).(frames := l.frames - 1)
    case Spawn => Clone(l).(tasks := l.tasks + 1)
    case Finish => if l.tasks == 0 then l else DropHandle(l).(tasks := l.tasks - 1)
    case Return => DropHandle(l).(stage := Returned)
    case Open => l.(stage := Opened, slot := Reclaimed)
    case CloseTracker => l.(stage := Waiting)
    case Wake => DropHandle(l).(stage := Waited)
    case DropIsolate => l.(stage := IsolateDropped)
    case Release => DropHandle(l).(stage := Released)
  }

  /** A run of the worker; actions that are not enabled are refused. */
  function Run(l: Life, acts: seq<Action>): Life {
    if acts == [] then l
    else
      var before, a := Run(l, acts[..|acts| - 1]), acts[|acts| - 1];
      if Enabled(before, a) then Apply(before, a) else before
  }

  /** Handles held by the worker's own task: the local one, the saved one, the reopened one. */
  function Owned(stage: Stage): nat {
    match stage
    case Injected | Returned | Waited | IsolateDropped => 1
    case Serving | Opened | Waiting => 2
    case Released => 0
  }

  predicate BeforeClosing(stage: Stage) {
    stage.Injected? || stage.Serving? || stage.Returned?
  }

  predicate MayHaveTasks(stage: Stage) {
    stage.Serving? || stage.Returned? || stage.Opened? || stage.Waiting?
  }

  /** The count is the leaked handle, the worker's own, those of callbacks and those of tasks. */
  ghost predicate Counted(l: Life) {
    l.strong == (if l.slot == Leaked then 1 else 0) + Owned(l.stage) + l.frames + l.tasks
  }

  /** When the pointer is leaked, when script code may be on the stack and fetches under way, and when the state is
      destroyed. */
  ghost predicate Staged(l: Life) {
    && (l.slot == Leaked <==> BeforeClosing(l.stage))
    && (l.frames > 0 ==> ScriptMayRun(l))
    && (l.tasks > 0 ==> MayHaveTasks(l.stage))
    && l.drops == (if l.stage == Released then 1 else 0)
  }

  ghost predicate Accounted(l: Life) {
    Counted(l) && Staged(l)
  }

  lemma ApplyKeepsCounted(l: Life, a: Action)
    requires Accounted(l) && Enabled(l, a)
    ensures Counted(Apply(l, a))
  {
    match a
    case Save | Enter | Leave | Spawn | Finish =>
    case Return | Open | CloseTracker | Wake | DropIsolate | Release =>
  }

  lemma ApplyKeepsStaged(l: Life, a: Action)
    requires Accounted(l) && Enabled(l, a)
    ensures Staged(Apply(l, a))
  {
    match a
    case Save | Enter | Leave | Spawn | Finish =>
    case Return | Open | CloseTracker | Wake | DropIsolate | Release =>
  }

  lemma ApplyKeepsAccounted(l: Life, a: Action)
    requires Accounted(l) && Enabled(l, a)
    ensures Accounted(Apply(l, a))
  {
    hide Apply, Enabled, Counted, Staged;
    ApplyKeepsCounted(l, a);
    ApplyKeepsStaged(l, a);
  }

  lemma {:induction false} CountLaw(acts: seq<Action>)
    ensures Accounted(Run(Born, acts))
  {
    if acts != [] {
      var before, a := Run(Born, acts[..|acts| - 1]), acts[|acts| - 1];
      CountLaw(acts[..|acts| - 1]);
      if Enabled(before, a) { ApplyKeepsAccounted(before, a); }
    }
    hide Accounted, Apply, Enabled;
  }

  /** The actions that follow the isolate's raw pointer to the state, or hold the state while using the isolate. */
  predicate Dereferences(a: Action) {
    a.Enter? || a.Spawn? || a.Finish? || a.Open?
  }

  /** No use after free: whoever follows the raw pointer finds a live count and a live isolate. */
  lemma DereferenceIsSafe(acts: seq<Action>, a: Action)
    requires Dereferences(a) && Enabled(Run(Born, acts), a)
    ensures var l := Run(Born, acts); l.strong >= 1 && l.drops == 0 && IsolateAlive(l)
  {
    CountLaw(acts);
  }

  /** The destructor runs at most once, exactly when the count gets to zero, and only after the pointer was
      reclaimed, the tracker emptied and the isolate dropped. */
  lemma DestroyedOnce(acts: seq<Action>)
    ensures var l := Run(Born, acts);
      && l.drops <= 1
      && (l.drops == 1 <==> l.strong == 0)
      && (l.strong == 0 ==> l.slot == Reclaimed && l.tasks == 0 && l.frames == 0 && !IsolateAlive(l))
  {
    CountLaw(acts);
  }

  // Nothing leaks: the worker can always run on to the destructor, and it cannot be kept from it.

  function StageRank(stage: Stage): nat {
    match stage
    case Injected => 7 case Serving => 6 case Returned => 5 case Opened => 4
    case Waiting => 3 case Waited => 2 case IsolateDropped => 1 case Released => 0
  }

  function Work(l: Life): nat {
    StageRank(l.stage) + l.frames + l.tasks
  }

  /** Work only grows when script code is entered or starts a fetch. */
  lemma WorkShrinks(l: Life, a: Action)
    requires Enabled(l, a) && a != Enter && a != Spawn
    ensures Work(Apply(l, a)) < Work(l)
  {
  }

  function NextAction(l: Life): Action {
    if l.frames > 0 then Leave
    else match l.stage
      case Injected => Save
      case Serving => Return
      case Returned => Open
      case Opened => CloseTracker
      case Waiting => if l.tasks > 0 then Finish else Wake
      case Waited => DropIsolate
      case IsolateDropped => Release
      case Released => Release
  }

  lemma {:induction false} RunAppend(l: Life, acts: seq<Action>, more: seq<Action>)
    ensures Run(l, acts + more) == Run(Run(l, acts), more)
  {
    if more == [] {
      assert acts + more == acts;
    } else {
      assert (acts + more)[..|acts + more| - 1] == acts + more[..|more| - 1];
      RunAppend(l, acts, more[..|more| - 1]);
    }
  }

  lemma NextActionIsEnabled(l: Life)
    requires Accounted(l) && l.stage != Released
    ensures Enabled(l, NextAction(l)) && NextAction(l) != Enter && NextAction(l) != Spawn
  {
  }

  lemma NextActionAdvances(l: Life)
    requires Accounted(l) && l.stage != Released
    ensures Enabled(l, NextAction(l)) && Accounted(Apply(l, NextAction(l)))
    ensures Work(Apply(l, NextAction(l))) < Work(l)
  {
    hide Accounted, Apply, Enabled, NextAction, Work;
    NextActionIsEnabled(l);
    ApplyKeepsAccounted(l, NextAction(l));
    WorkShrinks(l, NextAction(l));
  }

  lemma {:induction false} CanFinish(l: Life) returns (more: seq<Action>)
    requires Accounted(l)
    ensures Run(l, more).strong == 0
    decreases Work(l)
  {
    if l.stage == Released {
      more := [];
    } else {
      var a := NextAction(l);
      NextActionAdvances(l);
      var rest := CanFinish(Apply(l, a));
      assert [a][..|[a]| - 1] == [];
      assert Run(l, []) == l && Run(l, [a]) == Apply(l, a);
      more := [a] + rest;
      RunAppend(l, [a], rest);
    }
  }

  lemma EveryRunCanFinish(acts: seq<Action>)
    ensures exists more: seq<Action> :: Run(Born, acts + more).strong == 0
  {
    CountLaw(acts);
    var more := CanFinish(Run(Born, acts));
    RunAppend(Born, acts, more);
  }

  /** The fetches left after `polls`, each of which starts some and perhaps ends one, until there is none. */
  function TasksLeft(tasks: nat, polls: seq<(nat, bool)>): nat
    decreases polls
  {
    if tasks == 0 || polls == [] then tasks
    else TasksLeft(tasks + polls[0].0 - if polls[0].1 then 1 else 0, polls[1..])
  }

  /** The count and the isolate slot, with the source's own operations. */
  class SharedState {
    var strong: nat
    var slot: Slot
    var stage: Stage
    var frames: nat
    var tasks: nat
    var drops: nat

    ghost function Model(): Life
      reads this
    {
      Life(strong, slot, stage, frames, tasks, drops)
    }

    constructor CreateInjected()
      ensures Model() == Born
    {
      strong, slot, stage, frames, tasks, drops := 2, Leaked, Injected, 0, 0, 0;
    }

    /** The worker's own task keeps a second handle, so that it can close the state whatever happens. */
    method SaveHandle()
      requires Accounted(Model()) && stage == Injected
      modifies this
      ensures Enabled(old(Model()), Save) && Model() == Apply(old(Model()), Save) && Accounted(Model())
      ensures strong == old(strong) + 1 && stage == Serving
    {
      ApplyKeepsAccounted(Model(), Save);
      strong := strong + 1;
      stage := Serving;
    }

    /** The event loop is over: its own handle is dropped, the saved one stays. */
    method ReturnFromLoop()
      requires Accounted(Model()) && stage == Serving && frames == 0
      modifies this
      ensures Enabled(old(Model()), Return) && Model() == Apply(old(Model()), Return) && Accounted(Model())
      ensures strong == old(strong) - 1 && stage == Returned && drops == 0
    {
      ApplyKeepsAccounted(Model(), Return);
      DropOne();
      stage := Returned;
    }

    method DropOne()
      requires strong >= 1
      modifies `strong, `drops
      ensures Model() == DropHandle(old(Model()))
    {
      strong := strong - 1;
      if strong == 0 { drops := drops + 1; }
    }

    /** Borrow through the isolate: the count is raised before the handle is made. */
    method GetFromIsolate()
      requires Accounted(Model()) && ScriptMayRun(Model())
      modifies this
      ensures Enabled(old(Model()), Enter) && Model() == Apply(old(Model()), Enter) && Accounted(Model())
    {
      strong := strong + 1;
      frames := frames + 1;
    }

    method ReturnFromScript()
      requires Accounted(Model()) && frames > 0
      modifies this
      ensures Enabled(old(Model()), Leave) && Model() == Apply(old(Model()), Leave) && Accounted(Model())
    {
      DropOne();
      frames := frames - 1;
    }

    /** A fetch clones the borrowed handle into a tracked task. */
    method SpawnFetch()
      requires Accounted(Model()) && frames > 0
      modifies this
      ensures Enabled(old(Model()), Spawn) && Model() == Apply(old(Model()), Spawn) && Accounted(Model())
    {
      strong := strong + 1;
      tasks := tasks + 1;
    }

    /** A fetch task ends: its handle is dropped, and the tracker forgets it. */
    method FinishFetch()
      requires Accounted(Model()) && frames == 0 && tasks > 0 && (stage == Serving || stage == Waiting)
      modifies this
      ensures Enabled(old(Model()), Finish) && Model() == Apply(old(Model()), Finish) && Accounted(Model())
      ensures tasks == old(tasks) - 1 && strong == old(strong) - 1 && stage == old(stage)
    {
      ApplyKeepsAccounted(Model(), Finish);
      DropOne();
      tasks := tasks - 1;
    }

    /** One poll of a live task: a callback that starts some fetches, and perhaps the end of the task. */
    method PollTask(fetches: nat, ends: bool)
      requires Accounted(Model()) && stage == Waiting && tasks > 0 && frames == 0
      modifies this
      ensures Accounted(Model()) && stage == Waiting && frames == 0
      ensures tasks == old(tasks) + fetches - (if ends then 1 else 0)
    {
      for i := 0 to fetches
        invariant Accounted(Model()) && stage == Waiting && frames == 0 && tasks == old(tasks) + i
      {
        GetFromIsolate();
        SpawnFetch();
        ReturnFromScript();
      }
      if ends {
        FinishFetch();
      }
    }

    /** Take back the handle that was lent to the isolate; the count does not change. */
    method OpenFromIsolate()
      requires Accounted(Model()) && stage == Returned
      modifies this
      ensures Enabled(old(Model()), Open) && Model() == Apply(old(Model()), Open) && Accounted(Model())
    {
      ApplyKeepsAccounted(Model(), Open);
      slot := Reclaimed;
      stage := Opened;
    }

    /** Wait for the tracker, then drop the reopened handle. `polls` is what the remaining tasks do. */
    method WaitClose(polls: seq<(nat, bool)>) returns (done: bool)
      requires Accounted(Model()) && stage == Opened && frames == 0
      modifies this
      ensures Accounted(Model()) && frames == 0
      ensures if done then stage == Waited && tasks == 0 else stage == Waiting && tasks > 0
      ensures tasks == TasksLeft(old(tasks), polls) && (done <==> TasksLeft(old(tasks), polls) == 0)
    {
      ApplyKeepsAccounted(Model(), CloseTracker);
      stage := Waiting;
      var i := 0;
      while i < |polls| && tasks > 0
        invariant Accounted(Model()) && stage == Waiting && frames == 0
        invariant i <= |polls| && TasksLeft(tasks, polls[i..]) == TasksLeft(old(tasks), polls)
      {
        assert polls[i..][1..] == polls[i + 1..];
        PollTask(polls[i].0, polls[i].1);
        i := i + 1;
      }
      if tasks > 0 {
        return false;
      }
      ApplyKeepsAccounted(Model(), Wake);
      DropOne();
      stage := Waited;
      done := true;
    }

    /** Reclaim the leaked handle, wait for the fetches, drop the isolate and then the last handle: the destructor runs
        now, once, unless a fetch is still under way. */
    method CloseState(polls: seq<(nat, bool)>) returns (closed: bool)
      requires Accounted(Model()) && stage == Returned && frames == 0
      modifies this
      ensures closed <==> TasksLeft(old(tasks), polls) == 0
      ensures closed ==> stage == Released && strong == 0 && tasks == 0 && drops == 1 && slot == Reclaimed
      ensures !closed ==> stage == Waiting && tasks > 0 && strong == 2 + tasks && drops == 0
    {
      OpenFromIsolate();
      closed := WaitClose(polls);
      if closed {
        ApplyKeepsAccounted(Model(), DropIsolate);
        stage := IsolateDropped;
        ApplyKeepsAccounted(Model(), Release);
        DropOne();
        stage := Released;
      }
    }
  }
}
