/** The slot allocator of a pod: a growable vector of slots and a stack of freed ids. */
module SlotAllocator {
  import opened Wrappers

  /** A worker is known to its pod by the handle that starting it returned. */
  type Handle = nat

  datatype Slots = Slots(workers: seq<Option<Handle>>, capacity: nat, vacancies: seq<nat>)

  function Empty(n: nat): Slots {
    Slots([], n, [])
  }

  predicate Vacant(s: Slots) {
    s.vacancies != [] || |s.workers| < s.capacity
  }

  /** Capacity of a vector after one more push: unchanged while there is room, else amortised growth. */
  function Grow(length: nat, capacity: nat): nat {
    if length < capacity then capacity
    else var doubled := if 2 * capacity > length + 1 then 2 * capacity else length + 1;
         if doubled > 4 then doubled else 4
  }

  function PushNone(s: Slots): Slots {
    s.(workers := s.workers + [None], capacity := Grow(|s.workers|, s.capacity))
  }

  function Top(s: Slots): nat
    requires s.vacancies != []
  {
    s.vacancies[|s.vacancies| - 1]
  }

  function Popped(s: Slots): Slots
    requires s.vacancies != []
  {
    s.(vacancies := s.vacancies[..|s.vacancies| - 1])
  }

  /** The default of the pop is evaluated eagerly: the vector grows even when an id was free. */
  function TakeId(s: Slots): (Slots, nat) {
    if s.vacancies == [] then (PushNone(s), |s.workers|) else (PushNone(Popped(s)), Top(s))
  }

  /** The allocator that grows only when no id is free. */
  function LazyTakeId(s: Slots): (Slots, nat) {
    if s.vacancies == [] then (PushNone(s), |s.workers|) else (Popped(s), Top(s))
  }

  function Put(s: Slots, id: nat, w: Handle): Slots {
    if id < |s.workers| then s.(workers := s.workers[id := Some(w)]) else s
  }

  function Get(s: Slots, id: nat): Option<Handle> {
    if id < |s.workers| then s.workers[id] else None
  }

  predicate Occupied(s: Slots, id: nat) {
    id < |s.workers| && s.workers[id].Some?
  }

  /** Free ids are distinct and name empty slots. */
  ghost predicate Sound(s: Slots) {
    && Distinct(s.vacancies)
    && (forall v :: v in s.vacancies ==> v < |s.workers| && s.workers[v].None?)
    && |s.workers| <= s.capacity
  }

  lemma TopIsFree(s: Slots)
    requires Sound(s) && s.vacancies != []
    ensures Top(s) < |s.workers| && s.workers[Top(s)].None?
    ensures forall v :: v in Popped(s).vacancies <==> v in s.vacancies && v != Top(s)
    ensures s.vacancies == Popped(s).vacancies + [Top(s)]
  {
    assert s.vacancies == Popped(s).vacancies + [Top(s)];
    assert Top(s) in s.vacancies;
    forall v | v in Popped(s).vacancies ensures v != Top(s) {
      var i :| 0 <= i < |Popped(s).vacancies| && Popped(s).vacancies[i] == v;
      assert s.vacancies[i] == v;
    }
  }

  function Create(s: Slots, w: Handle): (r: (Slots, nat))
    ensures Sound(s) ==> Sound(r.0) && !Occupied(s, r.1) && Get(r.0, r.1) == Some(w)
  {
    var (t, id) := TakeId(s);
    assert Sound(s) ==> id < |t.workers| && Sound(t) && id !in t.vacancies && t.workers[id].None? by {
      if Sound(s) && s.vacancies != [] { TopIsFree(s); }
    }
    (Put(t, id, w), id)
  }

  function LazyCreate(s: Slots, w: Handle): (r: (Slots, nat))
    ensures Sound(s) ==> Sound(r.0) && !Occupied(s, r.1) && Get(r.0, r.1) == Some(w)
  {
    var (t, id) := LazyTakeId(s);
    assert Sound(s) ==> id < |t.workers| && Sound(t) && id !in t.vacancies && t.workers[id].None? by {
      if Sound(s) && s.vacancies != [] { TopIsFree(s); }
    }
    (Put(t, id, w), id)
  }

  /** Empty the slot and offer its id again, whatever was in it. */
  function Remove(s: Slots, id: nat): (r: Slots)
    ensures id < |s.workers| ==> Vacant(r) && !Occupied(r, id)
    ensures Sound(s) && Occupied(s, id) ==> Sound(r)
  {
    if id < |s.workers| then s.(workers := s.workers[id := None], vacancies := s.vacancies + [id]) else s
  }

  /** Nothing checks that the slot holds a worker. The free ids stay sound exactly if the id was not free already. */
  lemma RemovalIsSound(s: Slots, id: nat)
    requires Sound(s)
    ensures Sound(Remove(s, id)) <==> id !in s.vacancies
    ensures Occupied(s, id) ==> id !in s.vacancies
  {
    if id in s.vacancies {
      var i :| 0 <= i < |s.vacancies| && s.vacancies[i] == id;
      var t := Remove(s, id).vacancies;
      assert t[i] == t[|t| - 1];
    }
  }

  // Runs of creations and removals.

  datatype Op = Creation(w: Handle) | Removal(id: nat)

  /** A creation is guarded by a vacancy check, and a removal names a live worker. */
  predicate Admissible(s: Slots, op: Op) {
    match op
    case Creation(_) => Vacant(s)
    case Removal(id) => Occupied(s, id)
  }

  /** A state and what the run that led to it did. */
  datatype History = History(slots: Slots, creations: nat, removals: nat, recycled: nat)

  function Step(h: History, op: Op, eager: bool): (r: History)
    requires Sound(h.slots)
    ensures Sound(r.slots)
  {
    if !Admissible(h.slots, op) then h
    else match op
      case Creation(w) =>
        History(if eager then Create(h.slots, w).0 else LazyCreate(h.slots, w).0,
                h.creations + 1, h.removals, h.recycled + if h.slots.vacancies == [] then 0 else 1)
      case Removal(id) =>
        h.(slots := Remove(h.slots, id), removals := h.removals + 1)
  }

  /** The run of `ops` from an empty pod of `n` slots; inadmissible operations are refused. */
  function Run(n: nat, ops: seq<Op>, eager: bool): (r: History)
    ensures Sound(r.slots)
  {
    if ops == [] then History(Empty(n), 0, 0, 0)
    else Step(Run(n, ops[..|ops| - 1], eager), ops[|ops| - 1], eager)
  }

  ghost function Live(s: Slots): set<nat> {
    set i | 0 <= i < |s.workers| && s.workers[i].Some?
  }

  /** Empty slots whose id is not offered again. */
  ghost function Orphans(s: Slots): set<nat> {
    set i | 0 <= i < |s.workers| && s.workers[i].None? && i !in s.vacancies
  }

  // The bookkeeping of the allocator as written.

  ghost predicate EagerAccounts(h: History, n: nat) {
    && |h.slots.workers| == h.creations
    && |Live(h.slots)| + h.removals == h.creations
    && |Orphans(h.slots)| == h.recycled
    && |h.slots.vacancies| + h.recycled == h.removals
    && (h.slots.capacity == n <==> h.creations <= n)
    && h.slots.capacity >= n
  }

  lemma EagerShape(s: Slots, w: Handle)
    requires Sound(s)
    ensures var (t, id) := Create(s, w); var n := |s.workers|;
      && |t.workers| == n + 1 && id <= n && t.workers[id] == Some(w)
      && (forall i :: 0 <= i < n && i != id ==> t.workers[i] == s.workers[i])
      && (id < n ==> s.workers[id].None? && t.workers[n].None?)
      && (forall v :: v in t.vacancies <==> v in s.vacancies && v != id)
      && (if s.vacancies == [] then id == n && t.vacancies == []
          else id < n && id in s.vacancies && |t.vacancies| + 1 == |s.vacancies|)
  {
    if s.vacancies != [] { TopIsFree(s); }
  }

  lemma EagerCreation(s: Slots, w: Handle)
    requires Sound(s)
    ensures var r := Create(s, w);
      && |r.0.workers| == |s.workers| + 1
      && |Live(r.0)| == |Live(s)| + 1
      && |Orphans(r.0)| == |Orphans(s)| + (if s.vacancies == [] then 0 else 1)
      && |r.0.vacancies| + (if s.vacancies == [] then 0 else 1) == |s.vacancies|
  {
    EagerShape(s, w);
    var (t, id) := Create(s, w);
    var extra := if s.vacancies == [] then {} else {|s.workers|};
    assert Live(t) == Live(s) + {id};
    assert Orphans(t) == Orphans(s) + extra;
  }

  lemma RemovalCounts(s: Slots, id: nat)
    requires Sound(s) && Occupied(s, id)
    ensures var r := Remove(s, id);
      && |r.workers| == |s.workers| && r.capacity == s.capacity
      && |Live(r)| + 1 == |Live(s)|
      && Orphans(r) == Orphans(s)
      && |r.vacancies| == |s.vacancies| + 1
  {
    var r := Remove(s, id);
    assert Live(r) == Live(s) - {id};
    assert Orphans(r) == Orphans(s);
  }

  /** Under any mix of guarded creations and removals: one slot per creation, one orphan per recycled id,
      and the preallocated capacity lasts exactly for the first `n` creations. */
  lemma {:induction false} EagerRun(n: nat, ops: seq<Op>)
    ensures EagerAccounts(Run(n, ops, true), n)
  {
    var h := Run(n, ops, true);
    if ops == [] {
      assert Live(h.slots) == {} && Orphans(h.slots) == {};
    } else {
      EagerRun(n, ops[..|ops| - 1]);
      var g, op := Run(n, ops[..|ops| - 1], true), ops[|ops| - 1];
      if Admissible(g.slots, op) {
        match op
        case Creation(w) => EagerCreation(g.slots, w);
        case Removal(id) => RemovalCounts(g.slots, id);
      }
    }
  }

  // The lazy allocator keeps the bound that the pod was given.

  ghost predicate LazyAccounts(h: History, n: nat) {
    && |h.slots.workers| <= n == h.slots.capacity
    && |Live(h.slots)| + |h.slots.vacancies| == |h.slots.workers|
    && Orphans(h.slots) == {}
    && |h.slots.workers| + h.recycled == h.creations
  }

  lemma LazyCreation(s: Slots, w: Handle)
    requires Sound(s) && Orphans(s) == {}
    ensures var r := LazyCreate(s, w);
      && |r.0.workers| == |s.workers| + (if s.vacancies == [] then 1 else 0)
      && |Live(r.0)| == |Live(s)| + 1
      && Orphans(r.0) == {}
      && |r.0.vacancies| + (if s.vacancies == [] then 0 else 1) == |s.vacancies|
  {
    var (t, id) := LazyCreate(s, w);
    if s.vacancies != [] { TopIsFree(s); }
    forall i ensures i in Live(t) <==> i in Live(s) + {id} {}
    assert Live(t) == Live(s) + {id};
    forall i | i in Orphans(t) ensures i in Orphans(s) {}
  }

  lemma {:induction false} LazyRun(n: nat, ops: seq<Op>)
    ensures LazyAccounts(Run(n, ops, false), n)
  {
    var h := Run(n, ops, false);
    if ops == [] {
      assert Live(h.slots) == {} && Orphans(h.slots) == {};
    } else {
      LazyRun(n, ops[..|ops| - 1]);
      var g, op := Run(n, ops[..|ops| - 1], false), ops[|ops| - 1];
      if Admissible(g.slots, op) {
        match op
        case Creation(w) => LazyCreation(g.slots, w);
        case Removal(id) => RemovalCounts(g.slots, id);
      }
    }
  }

  /** Operation `i` is a creation that is let in because an id is free, while all `n` slots are there. */
  ghost predicate Overflows(n: nat, ops: seq<Op>, i: nat) {
    i < |ops| && ops[i].Creation?
    && var s := Run(n, ops[..i], true).slots; s.vacancies != [] && |s.workers| == n
  }

  /** The code goes through the states of the lazy allocator exactly as long as no id has been recycled. */
  lemma {:induction false} EagerAgreesWithLazy(n: nat, ops: seq<Op>)
    ensures Run(n, ops, true) == Run(n, ops, false) <==> Run(n, ops, true).recycled == 0
  {
    EagerRun(n, ops);
    LazyRun(n, ops);
    if ops != [] {
      EagerAgreesWithLazy(n, ops[..|ops| - 1]);
    }
  }

  lemma OverflowsSnoc(n: nat, ops: seq<Op>, front: seq<Op>)
    requires ops != [] && front == ops[..|ops| - 1]
    ensures (exists i: nat :: Overflows(n, ops, i)) <==>
      (exists i: nat :: Overflows(n, front, i)) || Overflows(n, ops, |front|)
  {
    forall i: nat | i < |front| ensures Overflows(n, ops, i) <==> Overflows(n, front, i) {
      assert ops[..i] == front[..i];
    }
    if i: nat :| Overflows(n, ops, i) { assert i < |front| ==> Overflows(n, front, i); }
    if i: nat :| Overflows(n, front, i) { assert Overflows(n, ops, i); }
  }

  lemma RunIsStep(n: nat, ops: seq<Op>)
    requires ops != []
    ensures Run(n, ops, true) == Step(Run(n, ops[..|ops| - 1], true), ops[|ops| - 1], true)
  {
  }

  lemma StepLength(h: History, op: Op)
    requires Sound(h.slots)
    ensures |Step(h, op, true).slots.workers|
      == |h.slots.workers| + if op.Creation? && Vacant(h.slots) then 1 else 0
  {
    if op.Creation? {
      EagerShape(h.slots, op.w);
      hide Create, Sound;
    } else {
      hide Sound;
    }
  }

  lemma CapacityLasts(n: nat, ops: seq<Op>)
    ensures var s := Run(n, ops, true).slots; |s.workers| == n ==> s.capacity == n
  {
    EagerRun(n, ops);
  }

  /** One more operation gets past `n` slots only by such a creation. */
  lemma OneMoreOverflows(n: nat, ops: seq<Op>)
    requires ops != []
    ensures var before, after := |Run(n, ops[..|ops| - 1], true).slots.workers|, |Run(n, ops, true).slots.workers|;
      after > n <==> before > n || Overflows(n, ops, |ops| - 1)
  {
    hide Run, Step, Sound;
    var front := ops[..|ops| - 1];
    RunIsStep(n, ops);
    StepLength(Run(n, front, true), ops[|ops| - 1]);
    CapacityLasts(n, front);
  }

  /** And it outgrows the `n` slots of the pod exactly if a freed id is recycled when all of them are there. */
  lemma {:induction false} EagerOutgrows(n: nat, ops: seq<Op>)
    ensures |Run(n, ops, true).slots.workers| > n <==> exists i: nat :: Overflows(n, ops, i)
  {
    hide Overflows;
    if ops != [] {
      EagerOutgrows(n, ops[..|ops| - 1]);
      OverflowsSnoc(n, ops, ops[..|ops| - 1]);
      OneMoreOverflows(n, ops);
    } else {
      NoOverflow(n);
    }
  }

  lemma NoOverflow(n: nat)
    ensures !exists i: nat :: Overflows(n, [], i)
  {
  }

  /** One slot, used twice: as written, the pod then holds two slots and claims room for more. */
  lemma RecyclingExceedsTheBound()
    ensures var h := Run(1, [Creation(0), Removal(0), Creation(1)], true);
      |h.slots.workers| == 2 && h.slots.workers[1].None? && Vacant(h.slots) && |Live(h.slots)| == 1
  {
    var a, b, c := [Creation(0)], [Creation(0), Removal(0)], [Creation(0), Removal(0), Creation(1)];
    assert a[..|a| - 1] == [] && b[..|b| - 1] == a && c[..|c| - 1] == b;
    assert Run(1, [], true).slots == Empty(1);
    assert Run(1, a, true).slots == Slots([Some(0)], 1, []);
    assert Run(1, b, true).slots == Slots([None], 1, [0]);
    assert Run(1, c, true).slots == Slots([Some(1), None], 4, []);
    EagerRun(1, c);
  }

  /** Without removals the slots fill up from the front, one per creation. */
  lemma {:induction false} CreateOnlyRun(n: nat, ops: seq<Op>)
    requires forall op :: op in ops ==> op.Creation?
    ensures var s := Run(n, ops, true).slots;
      && s.vacancies == [] && s.capacity == n && |s.workers| == (if |ops| <= n then |ops| else n)
      && forall i :: 0 <= i < |s.workers| ==> s.workers[i] == Some(ops[i].w)
  {
    if ops != [] {
      CreateOnlyRun(n, ops[..|ops| - 1]);
    }
  }

  /** A thread's worker table, updated in place. */
  class Pod {
    var workers: seq<Option<Handle>>
    var capacity: nat
    var vacancies: seq<nat>

    function Model(): Slots
      reads this
    {
      Slots(workers, capacity, vacancies)
    }

    constructor (n: nat)
      ensures Model() == Empty(n)
    {
      workers, capacity, vacancies := [], n, [];
    }

    method HasVacancy() returns (r: bool)
      ensures r == Vacant(Model())
    {
      r := vacancies != [] || |workers| < capacity;
    }

    method GetNextWorkerId() returns (id: nat)
      requires Sound(Model())
      modifies this
      ensures (Model(), id) == TakeId(old(Model()))
      ensures id < |workers| && workers[id].None? && !Occupied(old(Model()), id)
    {
      var popped := None;
      if vacancies != [] {
        TopIsFree(Model());
        popped := Some(vacancies[|vacancies| - 1]);
        vacancies := vacancies[..|vacancies| - 1];
      }
      var ln := |workers|;
      capacity := Grow(|workers|, capacity);
      workers := workers + [None];
      id := match popped case Some(v) => v case None => ln;
    }

    /** Afterwards the id leads to this worker and every other id where it led before; an id that is not free can be
        filled without harm. */
    method PutWorker(id: nat, worker: Handle)
      requires id < |workers|
      modifies `workers
      ensures Model() == Put(old(Model()), id, worker)
      ensures forall i: nat :: Get(Model(), i) == if i == id then Some(worker) else Get(old(Model()), i)
      ensures |workers| == |old(workers)| && (Vacant(Model()) <==> Vacant(old(Model())))
      ensures old(Sound(Model())) ==> (Sound(Model()) <==> id !in vacancies)
    {
      workers := workers[id := Some(worker)];
    }

    method RemoveWorker(id: nat) returns (r: bool)
      modifies this
      ensures r == (id < |old(workers)|) && Model() == Remove(old(Model()), id)
      ensures old(Sound(Model())) ==> (Sound(Model()) <==> id !in old(vacancies))
    {
      if Sound(Model()) { RemovalIsSound(Model(), id); }
      r := id < |workers|;
      if r {
        workers := workers[id := None];
        vacancies := vacancies + [id];
      }
    }

    method GetWorker(id: nat) returns (r: Option<Handle>)
      ensures r == Get(Model(), id)
    {
      r := if id < |workers| then workers[id] else None;
    }

    method CreateWorker(worker: Handle) returns (id: nat)
      requires Sound(Model())
      modifies this
      ensures (Model(), id) == Create(old(Model()), worker)
      ensures Sound(Model())
    {
      ghost var before := Create(Model(), worker);
      id := GetNextWorkerId();
      PutWorker(id, worker);
      assert Sound(before.0);
    }
  }
}
