/** Where the HTTP triggers are: order across the two hops, and one place for every reply. */
module Delivery {
  import opened Wrappers
  import opened Protocol
  import opened PodInvariant
  import opened DispatchInvariant
  import A = SlotAllocator
  import C = CodeStore
  import R = ReplierTable

  // Projections of concatenations.

  lemma {:induction false} HttpsOfAppend(a: seq<WorkerTrigger>, b: seq<WorkerTrigger>)
    ensures HttpsOf(a + b) == HttpsOf(a) + HttpsOf(b)
  {
    if b == [] { assert a + b == a; } else {
      assert (a + b)[..|a + b| - 1] == a + b[..|b| - 1];
      HttpsOfAppend(a, b[..|b| - 1]);
    }
  }

  lemma {:induction false} ToSlotAppend(a: seq<PodTrigger>, b: seq<PodTrigger>, id: nat)
    ensures ToSlot(a + b, id) == ToSlot(a, id) + ToSlot(b, id)
  {
    if b == [] { assert a + b == a; } else {
      assert (a + b)[..|a + b| - 1] == a + b[..|b| - 1];
      ToSlotAppend(a, b[..|b| - 1], id);
    }
  }

  lemma {:induction false} ToPodSlotAppend(a: seq<Trigger>, b: seq<Trigger>, p: nat, id: nat)
    ensures ToPodSlot(a + b, p, id) == ToPodSlot(a, p, id) + ToPodSlot(b, p, id)
  {
    if b == [] { assert a + b == a; } else {
      assert (a + b)[..|a + b| - 1] == a + b[..|b| - 1];
      ToPodSlotAppend(a, b[..|b| - 1], p, id);
    }
  }

  lemma {:induction false} SettledAtAppend(a: seq<Settlement>, b: seq<Settlement>, p: nat, id: nat)
    ensures SettledAt(a + b, p, id) == SettledAt(a, p, id) + SettledAt(b, p, id)
    ensures KeptAt(a + b, p, id) == KeptAt(a, p, id) + KeptAt(b, p, id)
  {
    if b == [] { assert a + b == a; } else {
      assert (a + b)[..|a + b| - 1] == a + b[..|b| - 1];
      SettledAtAppend(a, b[..|b| - 1], p, id);
    }
  }

  lemma NothingSettles(pp: nat, id: nat)
    ensures SettledAt([], pp, id) == [] && KeptAt([], pp, id) == []
  {
  }

  lemma {:induction false} DropWorkerQueueSettles(p: nat, h: nat, q: seq<WorkerTrigger>, pp: nat, id: nat)
    ensures SettledAt(DropWorkerQueue(p, h, q), pp, id) == if pp == p && id == h then HttpsOf(q) else []
    ensures KeptAt(DropWorkerQueue(p, h, q), pp, id) == []
  {
    if q != [] {
      var t := q[|q| - 1];
      DropWorkerQueueSettles(p, h, q[..|q| - 1], pp, id);
      SettledAtAppend(DropWorkerQueue(p, h, q[..|q| - 1]),
                      if t.Http? then [Settlement(p, h, t.reply, Discarded)] else [], pp, id);
    }
  }

  lemma {:induction false} DropPodQueueSettles(p: nat, q: seq<PodTrigger>, pp: nat, id: nat)
    ensures SettledAt(DropPodQueue(p, q), pp, id) == if pp == p then ToSlot(q, id) else []
    ensures KeptAt(DropPodQueue(p, q), pp, id) == []
  {
    if q != [] {
      var t := q[|q| - 1];
      DropPodQueueSettles(p, q[..|q| - 1], pp, id);
      SettledAtAppend(DropPodQueue(p, q[..|q| - 1]),
                      if t.ToWorker? then [Settlement(p, t.id, t.reply, Discarded)] else [], pp, id);
    }
  }

  lemma {:induction false} DropQueueSettles(q: seq<Trigger>, p: nat, id: nat)
    ensures SettledAt(DropQueue(q), p, id) == ToPodSlot(q, p, id)
    ensures KeptAt(DropQueue(q), p, id) == []
  {
    if q != [] {
      var t := q[|q| - 1];
      DropQueueSettles(q[..|q| - 1], p, id);
      SettledAtAppend(DropQueue(q[..|q| - 1]),
                      if t.ToPod? then [Settlement(t.pod, t.id, t.reply, Discarded)] else [], p, id);
    }
  }

  // Sequences of replies, split and put together.

  lemma TakeFront(all: seq<Reply>, first: seq<Reply>, rest: seq<Reply>, settled: seq<Reply>, left: seq<Reply>)
    requires all == first + rest
    requires (settled == first && left == rest) || (settled == first + rest && left == [])
    ensures all == settled + left
  {
  }

  lemma HandOver(before: seq<Reply>, after: seq<Reply>, r: seq<Reply>, settled: seq<Reply>, delivered: seq<Reply>)
    requires (settled == r && delivered == [] && (r == [] || before == [])) || (settled == [] && delivered == r)
    ensures before + (r + after) == settled + (before + delivered) + after
  {
  }

  lemma Unmoved(a: seq<Reply>, b: seq<Reply>)
    ensures a + b == [] + a + b
  {
  }

  lemma PassOn(a: seq<Reply>, b: seq<Reply>, settled: seq<Reply>, c: seq<Reply>)
    requires settled + c == b && (settled == [] || a == [])
    ensures a + b == settled + a + c
  {
  }

  // Under way inside a pod.

  function InWorker(d: Pod, id: nat): seq<Reply> {
    if id < |d.workers| then HttpsOf(d.workers[id].queue) else []
  }

  function InPod(d: Pod, id: nat): seq<Reply> {
    (if d.phase.Forwarding? && d.phase.id == id then [d.phase.reply] else []) + ToSlot(d.queue, id)
  }

  function KeptBy(d: Pod, id: nat): seq<Reply> {
    if id < |d.workers| then d.workers[id].table.replies else []
  }

  /** The trigger that a worker step takes from its queue. */
  function First(w: Worker): seq<WorkerTrigger>
    requires WorkerEnabled(w)
  {
    if w.phase == Starting then [] else [w.queue[0]]
  }

  function Here(p: nat, h: nat, first: seq<WorkerTrigger>, o: R.Outcome): seq<Settlement> {
    if first != [] && first[0].Http? then [Settlement(p, h, first[0].reply, if R.Keeps(o) then Kept else Spent)] else []
  }

  lemma HandleHttpReplies(t: R.Table, reply: Reply, o: R.Outcome)
    ensures R.HandleHttp(t, reply, o).replies == t.replies + if R.Keeps(o) then [reply] else []
  {
  }

  /** The step takes `first` off the queue and either keeps `rest` there or drops it. */
  ghost predicate Consumes(p: nat, h: nat, w: Worker, e: WorkerEffect, o: R.Outcome,
                           first: seq<WorkerTrigger>, rest: seq<WorkerTrigger>)
  {
    && w.queue == first + rest && |first| <= 1
    && e.settled == Here(p, h, first, o) + (if e.worker.queue == rest then [] else DropWorkerQueue(p, h, rest))
    && (e.worker.queue == rest || e.worker.queue == [])
    && e.worker.table.replies
       == w.table.replies + if first != [] && first[0].Http? && R.Keeps(o) then [first[0].reply] else []
  }

  /** Leaving with `rest` still queued, after `here`. */
  lemma LeavingConsumes(p: nat, h: nat, w: Worker, v: Worker, o: R.Outcome,
                        first: seq<WorkerTrigger>, rest: seq<WorkerTrigger>)
    requires w.queue == first + rest && |first| <= 1 && v.queue == rest
    requires v.table.replies
      == w.table.replies + if first != [] && first[0].Http? && R.Keeps(o) then [first[0].reply] else []
    ensures var e := Leave(p, h, v);
      Consumes(p, h, w, WorkerEffect(e.worker, Here(p, h, first, o) + e.settled), o, first, rest)
  {
    assert DropWorkerQueue(p, h, []) == [];
    hide DropWorkerQueue, Here, R.Keeps;
  }

  lemma StartShape(p: nat, h: nat, w: Worker, started: bool, o: R.Outcome)
    requires w.phase == Starting
    ensures Consumes(p, h, w, WorkerStep(p, h, w, started, o), o, [], w.queue)
  {
    var e := WorkerStep(p, h, w, started, o);
    assert [] + w.queue == w.queue;
    if started {
      assert e.settled == [] && e.worker.queue == w.queue && e.worker.table == w.table;
      hide DropWorkerQueue, WorkerStep;
    } else {
      assert e == Leave(p, h, w);
      hide DropWorkerQueue, WorkerStep, Leave;
      LeavingConsumes(p, h, w, w, o, [], w.queue);
      assert Here(p, h, [], o) + e.settled == e.settled;
    }
  }

  lemma HaltShape(p: nat, h: nat, w: Worker, started: bool, o: R.Outcome)
    requires w.phase == Running && w.queue != [] && w.queue[0].Halt?
    ensures Consumes(p, h, w, WorkerStep(p, h, w, started, o), o, [w.queue[0]], w.queue[1..])
  {
    var v := w.(queue := w.queue[1..], table := R.Cleanup(w.table),
                podAcks := w.podAcks + if w.queue[0].halter == ByPod then 1 else 0);
    var e := WorkerStep(p, h, w, started, o);
    assert e == Leave(p, h, v);
    hide DropWorkerQueue, WorkerStep, Leave, R.Cleanup, Consumes;
    SweepKeepsReplies(w.table);
    assert w.queue == [w.queue[0]] + w.queue[1..];
    LeavingConsumes(p, h, w, v, o, [w.queue[0]], w.queue[1..]);
    assert Here(p, h, [w.queue[0]], o) + e.settled == e.settled;
  }

  lemma HttpShape(p: nat, h: nat, w: Worker, started: bool, o: R.Outcome)
    requires w.phase == Running && w.queue != [] && w.queue[0].Http?
    ensures Consumes(p, h, w, WorkerStep(p, h, w, started, o), o, [w.queue[0]], w.queue[1..])
  {
    var reply, first, rest := w.queue[0].reply, [w.queue[0]], w.queue[1..];
    var v := w.(queue := rest, table := R.HandleHttp(w.table, reply, o));
    var here := [Settlement(p, h, reply, if R.Keeps(o) then Kept else Spent)];
    hide DropWorkerQueue, R.HandleHttp, R.Keeps, R.GivesUp;
    assert WorkerStep(p, h, w, started, o)
      == if R.GivesUp(o) then WorkerEffect(Leave(p, h, v).worker, here + Leave(p, h, v).settled) else WorkerEffect(v, here);
    assert Here(p, h, first, o) == here;
    hide WorkerStep, Leave, Here;
    HandleHttpReplies(w.table, reply, o);
    assert w.queue == first + rest;
    if R.GivesUp(o) { LeavingConsumes(p, h, w, v, o, first, rest); }
  }

  lemma WorkerStepShape(p: nat, h: nat, w: Worker, started: bool, o: R.Outcome)
    requires WorkerEnabled(w)
    ensures Consumes(p, h, w, WorkerStep(p, h, w, started, o), o, First(w), Rest(w))
  {
    hide Consumes, WorkerStep;
    if w.phase == Starting {
      StartShape(p, h, w, started, o);
    } else if w.queue[0].Halt? {
      HaltShape(p, h, w, started, o);
    } else {
      HttpShape(p, h, w, started, o);
    }
  }

  lemma SweepKeepsReplies(t: R.Table)
    ensures R.Cleanup(t).replies == t.replies
  {
  }

  lemma HereSettles(p: nat, h: nat, first: seq<WorkerTrigger>, o: R.Outcome, pp: nat, id: nat)
    requires |first| <= 1
    ensures SettledAt(Here(p, h, first, o), pp, id) == if pp == p && id == h then HttpsOf(first) else []
    ensures KeptAt(Here(p, h, first, o), pp, id)
      == if pp == p && id == h && first != [] && first[0].Http? && R.Keeps(o) then [first[0].reply] else []
  {
  }

  /** A step of a worker settles the triggers it takes from its queue, from the front. */
  ghost predicate WorkerSettles(p: nat, h: nat, w: Worker, e: WorkerEffect, pp: nat, id: nat) {
    if pp == p && id == h then
      && HttpsOf(w.queue) == SettledAt(e.settled, p, h) + HttpsOf(e.worker.queue)
      && e.worker.table.replies == w.table.replies + KeptAt(e.settled, p, h)
    else SettledAt(e.settled, pp, id) == [] && KeptAt(e.settled, pp, id) == []
  }

  lemma ConsumedProjections(p: nat, h: nat, w: Worker, e: WorkerEffect, o: R.Outcome,
                            first: seq<WorkerTrigger>, rest: seq<WorkerTrigger>, pp: nat, id: nat)
    requires Consumes(p, h, w, e, o, first, rest)
    ensures HttpsOf(w.queue) == HttpsOf(first) + HttpsOf(rest)
    ensures e.worker.queue == rest || HttpsOf(e.worker.queue) == []
    ensures SettledAt(e.settled, pp, id)
      == SettledAt(Here(p, h, first, o), pp, id) + if e.worker.queue == rest || pp != p || id != h then [] else HttpsOf(rest)
    ensures KeptAt(e.settled, pp, id) == KeptAt(Here(p, h, first, o), pp, id)
  {
    var here := Here(p, h, first, o);
    HttpsOfAppend(first, rest);
    if e.worker.queue == rest {
      assert e.settled == here;
    } else {
      var dropped := DropWorkerQueue(p, h, rest);
      assert e.settled == here + dropped && HttpsOf(e.worker.queue) == [];
      SettledAtAppend(here, dropped, pp, id);
      DropWorkerQueueSettles(p, h, rest, pp, id);
    }
    hide HttpsOf, SettledAt, KeptAt, DropWorkerQueue, Here, Consumes;
  }

  lemma ConsumedIsSettled(p: nat, h: nat, w: Worker, e: WorkerEffect, o: R.Outcome,
                          first: seq<WorkerTrigger>, rest: seq<WorkerTrigger>, pp: nat, id: nat)
    requires Consumes(p, h, w, e, o, first, rest)
    ensures WorkerSettles(p, h, w, e, pp, id)
  {
    hide HttpsOf, SettledAt, KeptAt, DropWorkerQueue, Here;
    ConsumedProjections(p, h, w, e, o, first, rest, pp, id);
    HereSettles(p, h, first, o, pp, id);
    if pp == p && id == h {
      TakeFront(HttpsOf(w.queue), HttpsOf(first), HttpsOf(rest), SettledAt(e.settled, p, h), HttpsOf(e.worker.queue));
    }
  }

  lemma WorkerStepSettles(p: nat, h: nat, w: Worker, started: bool, o: R.Outcome, pp: nat, id: nat)
    requires WorkerEnabled(w)
    ensures WorkerSettles(p, h, w, WorkerStep(p, h, w, started, o), pp, id)
  {
    WorkerStepShape(p, h, w, started, o);
    ConsumedIsSettled(p, h, w, WorkerStep(p, h, w, started, o), o, First(w), Rest(w), pp, id);
  }

  /** What a pod step settles and keeps under way adds up, for worker `id` of every pod. */
  ghost predicate PodSettles(p: nat, d: Pod, e: PodEffect, pp: nat, id: nat) {
    && (pp == p ==> InWorker(d, id) + InPod(d, id)
                    == SettledAt(e.settled, p, id) + InWorker(e.pod, id) + InPod(e.pod, id))
    && KeptBy(e.pod, id) == KeptBy(d, id)
    && KeptAt(e.settled, pp, id) == []
    && (pp != p ==> SettledAt(e.settled, pp, id) == [])
  }

  /** In a serving pod the slot of an id, if there is one, holds the worker of that number. */
  ghost predicate SlotsMatch(d: Pod) {
    forall id: nat :: A.Get(d.slots, id) == if id < |d.workers| then Some(id) else None
  }

  lemma ReceivingSettles(p: nat, d: Pod, pp: nat, id: nat)
    requires d.phase.Serving? && d.queue != [] && d.queue[0].ToWorker? && SlotsMatch(d)
    ensures PodSettles(p, d, PodStep(p, d), pp, id)
  {
    assert d.queue == [d.queue[0]] + d.queue[1..];
    ToSlotAppend([d.queue[0]], d.queue[1..], id);
    assert A.Get(d.slots, d.queue[0].id) == if d.queue[0].id < |d.workers| then Some(d.queue[0].id) else None;
    assert ToSlot([d.queue[0]], id) == if d.queue[0].id == id then [d.queue[0].reply] else [];
  }

  /** A pod step that settles nothing and moves no request. */
  lemma QuietPodSettles(p: nat, d: Pod, e: PodEffect, pp: nat, id: nat)
    requires e.settled == [] && InWorker(e.pod, id) == InWorker(d, id) && InPod(e.pod, id) == InPod(d, id)
    requires KeptBy(e.pod, id) == KeptBy(d, id)
    ensures PodSettles(p, d, e, pp, id)
  {
    hide InWorker, InPod, KeptBy, SettledAt, KeptAt;
    NothingSettles(pp, id);
    Unmoved(InWorker(d, id), InPod(d, id));
  }

  lemma ControlSettles(p: nat, d: Pod, pp: nat, id: nat)
    requires d.phase.Serving? && d.queue != [] && !d.queue[0].ToWorker?
    ensures PodSettles(p, d, PodStep(p, d), pp, id)
  {
    assert d.queue == [d.queue[0]] + d.queue[1..];
    ToSlotAppend([d.queue[0]], d.queue[1..], id);
    assert ToSlot([d.queue[0]], id) == [];
    hide ToSlot;
    assert d.queue[0].Create? && id == |d.workers| ==> InWorker(PodStep(p, d).pod, id) == [];
    QuietPodSettles(p, d, PodStep(p, d), pp, id);
  }

  lemma OneSettles(e: Settlement, pp: nat, id: nat)
    ensures SettledAt([e], pp, id) == if e.pod == pp && e.id == id then [e.reply] else []
    ensures KeptAt([e], pp, id) == if e.pod == pp && e.id == id && e.fate == Kept then [e.reply] else []
  {
    assert [e][..0] == [];
  }

  lemma DeliverAppends(d: Pod, h: nat, t: WorkerTrigger, id: nat)
    requires h < |d.workers|
    ensures var e := Deliver(d, h, t);
      && |e.workers| == |d.workers| && KeptBy(e, id) == KeptBy(d, id)
      && InWorker(e, id) == InWorker(d, id) + (if id == h && !Gone(d.workers[h]) then HttpsOf([t]) else [])
  {
    HttpsOfAppend(d.workers[h].queue, [t]);
    hide HttpsOf;
  }

  lemma OneHttp(t: WorkerTrigger)
    ensures HttpsOf([t]) == if t.Http? then [t.reply] else []
  {
    assert [t][..0] == [];
  }

  lemma ForwardingStep(p: nat, d: Pod)
    requires d.phase.Forwarding? && d.phase.handle < |d.workers| && PodEnabled(d)
    ensures var e, h, r := PodStep(p, d), d.phase.handle, d.phase.reply;
      && e.pod.workers == Deliver(d, h, Http(r)).workers && e.pod.queue == d.queue && e.pod.phase == Serving
      && e.settled == if Gone(d.workers[h]) then [Settlement(p, d.phase.id, r, Refused)] else []
  {
  }

  lemma ForwardingDelivers(p: nat, d: Pod, pp: nat, id: nat)
    requires d.phase.Forwarding? && d.phase.handle < |d.workers| && PodEnabled(d)
    ensures var e, h, r := PodStep(p, d), d.phase.handle, d.phase.reply;
      && InWorker(e.pod, id) == InWorker(d, id) + (if id == h && !Gone(d.workers[h]) then [r] else [])
      && KeptBy(e.pod, id) == KeptBy(d, id)
      && InPod(d, id) == (if d.phase.id == id then [r] else []) + InPod(e.pod, id)
      && SettledAt(e.settled, pp, id) == (if pp == p && id == d.phase.id && Gone(d.workers[h]) then [r] else [])
      && KeptAt(e.settled, pp, id) == []
  {
    var h, r := d.phase.handle, d.phase.reply;
    hide PodStep, HttpsOf, ToSlot, SettledAt, KeptAt, Deliver, Gone, InWorker, InPod, KeptBy;
    ForwardingStep(p, d);
    DeliverAppends(d, h, Http(r), id);
    OneHttp(Http(r));
    OneSettles(Settlement(p, d.phase.id, r, Refused), pp, id);
    NothingSettles(pp, id);
    SameWorkersHold(PodStep(p, d).pod, Deliver(d, h, Http(r)), id);
    Forwarded(d, PodStep(p, d).pod, id);
  }

  lemma SameWorkersHold(d: Pod, e: Pod, id: nat)
    requires d.workers == e.workers
    ensures InWorker(d, id) == InWorker(e, id) && KeptBy(d, id) == KeptBy(e, id)
  {
  }

  lemma Forwarded(d: Pod, e: Pod, id: nat)
    requires d.phase.Forwarding? && e.phase == Serving && e.queue == d.queue
    ensures InPod(d, id) == (if d.phase.id == id then [d.phase.reply] else []) + InPod(e, id)
  {
    hide ToSlot;
  }

  lemma ForwardingSettles(p: nat, d: Pod, pp: nat, id: nat)
    requires d.phase.Forwarding? && d.phase.handle == d.phase.id < |d.workers| && PodEnabled(d)
    requires Gone(d.workers[d.phase.id]) ==> d.workers[d.phase.id].queue == []
    ensures PodSettles(p, d, PodStep(p, d), pp, id)
  {
    ForwardingDelivers(p, d, pp, id);
    var e, r := PodStep(p, d), if id == d.phase.id then [d.phase.reply] else [];
    assert Gone(d.workers[d.phase.id]) && id == d.phase.id ==> InWorker(d, id) == [];
    hide InWorker, InPod, KeptBy, SettledAt, KeptAt, PodStep;
    if Gone(d.workers[d.phase.id]) {
      HandOver(InWorker(d, id), InPod(e.pod, id), r, r, []);
    } else {
      HandOver(InWorker(d, id), InPod(e.pod, id), r, [], r);
    }
  }

  /** Sending a halt, waiting for its token and stopping leave all requests where they are. */
  lemma HaltSettles(p: nat, d: Pod, pp: nat, id: nat)
    requires PodEnabled(d) && !Active(d) && d.queue == []
    ensures PodSettles(p, d, PodStep(p, d), pp, id)
  {
    if d.phase.HaltNext? && d.phase.rest != [] {
      SendingHaltSettles(p, d, pp, id);
    } else {
      hide HttpsOf, ToSlot;
      assert PodStep(p, d).pod.workers == d.workers && PodStep(p, d).settled == [];
      QuietPodSettles(p, d, PodStep(p, d), pp, id);
    }
  }

  lemma SendingHaltSettles(p: nat, d: Pod, pp: nat, id: nat)
    requires PodEnabled(d) && d.phase.HaltNext? && d.phase.rest != [] && d.queue == []
    ensures PodSettles(p, d, PodStep(p, d), pp, id)
  {
    var e, first := PodStep(p, d), d.phase.rest[0];
    assert e.settled == [] && e.pod.queue == [] && !e.pod.phase.Forwarding?;
    assert e.pod.workers == if first.Some? then CountHalt(Deliver(d, first.value, Halt(ByPod)), first.value).workers
                            else d.workers;
    hide HttpsOf, ToSlot, Deliver, CountHalt, PodStep;
    if first.Some? {
      DeliverAppends(d, first.value, Halt(ByPod), id);
      OneHttp(Halt(ByPod));
      CountingMoves(Deliver(d, first.value, Halt(ByPod)), first.value, id);
    }
    QuietPodSettles(p, d, e, pp, id);
  }

  lemma CountingMoves(d: Pod, h: nat, id: nat)
    requires h < |d.workers|
    ensures InWorker(CountHalt(d, h), id) == InWorker(d, id) && KeptBy(CountHalt(d, h), id) == KeptBy(d, id)
  {
    hide HttpsOf;
  }

  lemma PodShape(d: Pod, n: nat)
    requires PodOk(d, n) && PodEnabled(d)
    ensures d.phase.Serving? ==> d.queue != [] && SlotsMatch(d)
    ensures d.phase.Forwarding? ==> d.phase.handle == d.phase.id < |d.workers|
    ensures d.phase.Forwarding? && Gone(d.workers[d.phase.id]) ==> d.workers[d.phase.id].queue == []
    ensures !Active(d) ==> d.queue == []
  {
    if d.phase.Forwarding? { assert WorkerOk(d.workers[d.phase.id]); }
  }

  lemma PodStepSettles(p: nat, d: Pod, n: nat, pp: nat, id: nat)
    requires PodOk(d, n) && PodEnabled(d)
    ensures PodSettles(p, d, PodStep(p, d), pp, id)
  {
    PodShape(d, n);
    if d.phase.Serving? {
      if d.queue[0].ToWorker? { ReceivingSettles(p, d, pp, id); } else { ControlSettles(p, d, pp, id); }
    } else if d.phase.Forwarding? {
      ForwardingSettles(p, d, pp, id);
    } else {
      HaltSettles(p, d, pp, id);
    }
  }

  // Under way in the whole system.

  function InServerless(s: State, p: nat, id: nat): seq<Reply> {
    (if s.phase.Relaying? && s.phase.pod == p && s.phase.id == id then [s.phase.reply] else []) + ToPodSlot(s.queue, p, id)
  }

  function InPods(s: State, p: nat, id: nat): seq<Reply> {
    if p < |s.pods| then InWorker(s.pods[p], id) + InPod(s.pods[p], id) else []
  }

  /** For worker `id` of pod `p`: what was accepted for it is what has been settled, then its queue, then the pod's,
      then the serverless task's, in this order. */
  ghost predicate RoutedTo(s: State, p: nat, id: nat) {
    ToPodSlot(s.accepted, p, id) == SettledAt(s.settled, p, id) + InPods(s, p, id) + InServerless(s, p, id)
  }

  /** The cells of a worker are the triggers it kept, in order. */
  ghost predicate RegisteredAt(s: State, p: nat, id: nat) {
    KeptAt(s.settled, p, id) == if p < |s.pods| then KeptBy(s.pods[p], id) else []
  }

  ghost predicate Routed(s: State) {
    forall p: nat, id: nat :: RoutedTo(s, p, id) && RegisteredAt(s, p, id)
  }

  lemma Rearrange(all: seq<Reply>, a: seq<Reply>, more: seq<Reply>, b: seq<Reply>, c: seq<Reply>,
                  b2: seq<Reply>, c2: seq<Reply>)
    requires all == a + b + c && b + c == more + b2 + c2
    ensures all == (a + more) + b2 + c2
  {
    assert a + b + c == a + (b + c);
    assert (a + more) + b2 + c2 == a + (more + b2 + c2);
  }

  function KeptIn(s: State, p: nat, id: nat): seq<Reply> {
    if p < |s.pods| then KeptBy(s.pods[p], id) else []
  }

  /** Going from `s` to `t`, the triggers of `more` are settled and nothing else changes. */
  ghost predicate Moves(s: State, t: State, more: seq<Settlement>, p: nat, id: nat) {
    && t.accepted == s.accepted && t.settled == s.settled + more
    && InPods(s, p, id) + InServerless(s, p, id) == SettledAt(more, p, id) + InPods(t, p, id) + InServerless(t, p, id)
    && KeptIn(t, p, id) == KeptIn(s, p, id) + KeptAt(more, p, id)
  }

  lemma MovesKeepRouted(s: State, t: State, more: seq<Settlement>, p: nat, id: nat)
    requires RoutedTo(s, p, id) && RegisteredAt(s, p, id) && Moves(s, t, more, p, id)
    ensures RoutedTo(t, p, id) && RegisteredAt(t, p, id)
  {
    SettledAtAppend(s.settled, more, p, id);
    Rearrange(ToPodSlot(s.accepted, p, id), SettledAt(s.settled, p, id), SettledAt(more, p, id),
              InPods(s, p, id), InServerless(s, p, id), InPods(t, p, id), InServerless(t, p, id));
  }

  lemma PodMoves(s: State, p: nat, e: PodEffect, pp: nat, id: nat)
    requires p < |s.pods| && PodSettles(p, s.pods[p], e, pp, id)
    ensures Moves(s, AfterPod(s, p, e), e.settled, pp, id)
  {
    hide SettledAt, KeptAt, HttpsOf, ToSlot, ToPodSlot;
    var t := AfterPod(s, p, e);
    assert InServerless(t, pp, id) == InServerless(s, pp, id);
    if pp == p {
      assert InPods(s, p, id) == SettledAt(e.settled, p, id) + InPods(t, p, id);
    } else {
      assert InPods(t, pp, id) == InPods(s, pp, id) && KeptIn(t, pp, id) == KeptIn(s, pp, id);
    }
  }

  lemma WorkerMoves(s: State, p: nat, h: nat, e: WorkerEffect, pp: nat, id: nat)
    requires HasWorker(s, p, h) && WorkerSettles(p, h, s.pods[p].workers[h], e, pp, id)
    ensures Moves(s, SetWorker(s, p, h, e.worker).(settled := s.settled + e.settled), e.settled, pp, id)
  {
    hide SettledAt, KeptAt, HttpsOf, ToSlot, ToPodSlot;
    var t := SetWorker(s, p, h, e.worker).(settled := s.settled + e.settled);
    assert InServerless(t, pp, id) == InServerless(s, pp, id);
    if pp == p && id == h {
      var w := s.pods[p].workers[h];
      assert InPods(s, p, h) == HttpsOf(w.queue) + InPod(s.pods[p], h);
      assert InPods(t, p, h) == HttpsOf(e.worker.queue) + InPod(s.pods[p], h);
    } else if pp == p {
      assert InPod(t.pods[p], id) == InPod(s.pods[p], id) && InWorker(t.pods[p], id) == InWorker(s.pods[p], id);
    } else {
      assert InPods(t, pp, id) == InPods(s, pp, id) && KeptIn(t, pp, id) == KeptIn(s, pp, id);
    }
  }

  // The serverless task.

  lemma PodGets(d: Pod, t: PodTrigger, id: nat)
    ensures InPod(d.(queue := d.queue + [t]), id) == InPod(d, id) + if t.ToWorker? && t.id == id then [t.reply] else []
  {
    ToSlotAppend(d.queue, [t], id);
    assert ToSlot([t], id) == if t.ToWorker? && t.id == id then [t.reply] else [];
  }

  lemma SendRoutes(s: State, p: nat, t: PodTrigger, pp: nat, id: nat)
    requires p < |s.pods|
    ensures InPods(Send(s, p, t), pp, id)
      == InPods(s, pp, id) + if pp == p && t.ToWorker? && t.id == id then [t.reply] else []
    ensures KeptIn(Send(s, p, t), pp, id) == KeptIn(s, pp, id)
  {
    var u := Send(s, p, t);
    if pp == p {
      PodGets(s.pods[p], t, id);
      assert InWorker(u.pods[p], id) == InWorker(s.pods[p], id);
    } else if pp < |s.pods| {
      assert u.pods[pp] == s.pods[pp];
    }
  }

  /** What taking the next trigger settles: one that names no pod. */
  function Unroutable(s: State): seq<Settlement>
    requires s.queue != []
  {
    var t := s.queue[0];
    if t.ToPod? && t.pod >= |s.pods| then [Settlement(t.pod, t.id, t.reply, NoPod)] else []
  }

  lemma ReceiveQueues(s: State, written: bool, pp: nat, id: nat)
    requires s.queue != [] && s.phase == Idle
    ensures var first, t := s.queue[0], Receive(s, written);
      && ToPodSlot(s.queue, pp, id) == ToPodSlot([first], pp, id) + ToPodSlot(t.queue, pp, id)
      && t.queue == s.queue[1..] && t.pods == s.pods && t.accepted == s.accepted
      && t.settled == s.settled + Unroutable(s)
      && t.phase == (match first
                     case ToPod(p, i, r) => if p < |s.pods| then Relaying(p, i, r) else Idle
                     case _ => t.phase)
      && (!first.ToPod? ==> !t.phase.Relaying?)
  {
    assert s.queue == [s.queue[0]] + s.queue[1..];
    ToPodSlotAppend([s.queue[0]], s.queue[1..], pp, id);
    hide ToPodSlot;
  }

  /** The trigger taken from the queue is in hand, settled, or no request. */
  lemma ReceiveHandsOver(s: State, written: bool, pp: nat, id: nat)
    requires s.queue != [] && s.phase == Idle
    ensures var t := Receive(s, written);
      && SettledAt(Unroutable(s), pp, id) + InServerless(t, pp, id) == InServerless(s, pp, id)
      && KeptAt(Unroutable(s), pp, id) == []
      && (SettledAt(Unroutable(s), pp, id) == [] || pp >= |s.pods|)
  {
    hide ToPodSlot, SettledAt, KeptAt, Receive;
    ReceiveQueues(s, written, pp, id);
    OneTrigger(s.queue[0], pp, id);
    UnroutableSettles(s, pp, id);
  }

  lemma ReceiveMoves(s: State, written: bool, pp: nat, id: nat)
    requires s.queue != [] && s.phase == Idle
    ensures Moves(s, Receive(s, written), Unroutable(s), pp, id)
  {
    hide ToPodSlot, SettledAt, KeptAt, InServerless, InWorker, InPod, KeptIn, Receive, Unroutable;
    var t := Receive(s, written);
    ReceiveQueues(s, written, pp, id);
    ReceiveHandsOver(s, written, pp, id);
    PodsDecide(s, t, pp, id);
    PassOn(InPods(s, pp, id), InServerless(s, pp, id), SettledAt(Unroutable(s), pp, id), InServerless(t, pp, id));
  }

  lemma OneTrigger(t: Trigger, pp: nat, id: nat)
    ensures ToPodSlot([t], pp, id) == if t.ToPod? && t.pod == pp && t.id == id then [t.reply] else []
  {
  }

  lemma UnroutableSettles(s: State, pp: nat, id: nat)
    requires s.queue != []
    ensures var more, first := Unroutable(s), s.queue[0];
      && KeptAt(more, pp, id) == []
      && SettledAt(more, pp, id) == if more != [] && first.pod == pp && first.id == id then [first.reply] else []
  {
  }

  lemma FinishMoves(s: State, pp: nat, id: nat)
    requires s.phase.Joining? && InPods(s, pp, id) == []
    ensures Moves(s, s.(phase := Finished, queue := [], settled := s.settled + DropQueue(s.queue)),
                  DropQueue(s.queue), pp, id)
  {
    DropQueueSettles(s.queue, pp, id);
  }

  lemma StoppedPodsAreEmpty(s: State, pp: nat, id: nat)
    requires AllPods(s) && StoppingOk(s) && s.phase.Joining?
    ensures InPods(s, pp, id) == []
  {
    if pp < |s.pods| {
      assert PodOk(s.pods[pp], s.nWorkers) && s.pods[pp].phase.Stopped?;
      StoppedPodHasHaltedWorkers(s.pods[pp], s.nWorkers);
    }
  }

  /** What a step of the serverless task settles. */
  function ServerlessSettles(s: State): seq<Settlement>
    requires ServerlessEnabled(s)
  {
    match s.phase
    case Idle => Unroutable(s)
    case Joining(i) => if i == |s.pods| then DropQueue(s.queue) else []
    case _ => []
  }

  lemma RelayMoves(s: State, written: bool, pp: nat, id: nat)
    requires ServerlessEnabled(s) && s.phase.Relaying?
    ensures Moves(s, ServerlessStep(s, written), [], pp, id)
  {
    hide InPods, KeptIn, SettledAt, KeptAt, ToPodSlot;
    NothingSettles(pp, id);
    SendRoutes(s, s.phase.pod, ToWorker(s.phase.id, s.phase.reply), pp, id);
    PodsDecide(Send(s, s.phase.pod, ToWorker(s.phase.id, s.phase.reply)), ServerlessStep(s, written), pp, id);
  }

  lemma PodsDecide(s: State, t: State, pp: nat, id: nat)
    requires t.pods == s.pods
    ensures InPods(t, pp, id) == InPods(s, pp, id) && KeptIn(t, pp, id) == KeptIn(s, pp, id)
  {
  }

  /** Sending a control message, or nothing, leaves every request where it is. */
  lemma ControlKeepsPods(s: State, written: bool, pp: nat, id: nat)
    requires ServerlessEnabled(s) && s.phase != Idle && !s.phase.Relaying? && !s.phase.Joining?
    ensures var t := ServerlessStep(s, written);
      InPods(t, pp, id) == InPods(s, pp, id) && KeptIn(t, pp, id) == KeptIn(s, pp, id)
  {
    ServerlessTouchesTarget(s, written);
    hide InPods, KeptIn;
    var t, to := ServerlessStep(s, written), Target(s);
    if to.Some? {
      SendRoutes(s, to.value.0, to.value.1, pp, id);
      PodsDecide(Send(s, to.value.0, to.value.1), t, pp, id);
    } else {
      PodsDecide(s, t, pp, id);
    }
  }

  lemma ControlMoves(s: State, written: bool, pp: nat, id: nat)
    requires ServerlessEnabled(s) && s.phase != Idle && !s.phase.Relaying? && !s.phase.Joining?
    ensures Moves(s, ServerlessStep(s, written), [], pp, id)
  {
    hide InPods, KeptIn, SettledAt, KeptAt, ToPodSlot;
    NothingSettles(pp, id);
    ControlKeepsPods(s, written, pp, id);
    assert InServerless(ServerlessStep(s, written), pp, id) == InServerless(s, pp, id);
  }

  lemma ServerlessMoves(s: State, written: bool, pp: nat, id: nat)
    requires ServerlessEnabled(s)
    requires s.phase.Joining? ==> InPods(s, pp, id) == []
    ensures Moves(s, ServerlessStep(s, written), ServerlessSettles(s), pp, id)
  {
    match s.phase
    case Idle => ReceiveMoves(s, written, pp, id);
    case Relaying(_, _, _) => RelayMoves(s, written, pp, id);
    case Joining(_) => FinishMoves(s, pp, id);
    case _ => ControlMoves(s, written, pp, id);
  }

  // Every step.

  lemma QuietWorkerMoves(s: State, p: nat, h: nat, w: Worker, pp: nat, id: nat)
    requires HasWorker(s, p, h) && HttpsOf(w.queue) == HttpsOf(s.pods[p].workers[h].queue)
    requires w.table.replies == s.pods[p].workers[h].table.replies
    ensures Moves(s, SetWorker(s, p, h, w), [], pp, id)
  {
    var t := SetWorker(s, p, h, w);
    assert s.settled + [] == s.settled;
    WorkerMoves(s, p, h, WorkerEffect(w, []), pp, id);
  }

  lemma MovedKeepsRequests(w: Worker, step: Step)
    requires WorkerOk(w) && OfWorker(step) && !step.WorkerTurn? && (step.WorkerCloses? ==> w.phase == Closing)
    ensures HttpsOf(Moved(w, step).queue) == HttpsOf(w.queue) && Moved(w, step).table.replies == w.table.replies
  {
    match step
    case MonitorHalts(_, _) => HttpsOfAppend(w.queue, [Halt(ByMonitor)]);
    case CallbackRuns(_, _, _, _) =>
    case WorkerCloses(_, _) => R.FlushCompletes(w.table);
  }

  lemma SendKeepsRoutedTo(s: State, t: Trigger, pp: nat, id: nat)
    requires RoutedTo(s, pp, id) && RegisteredAt(s, pp, id) && Enabled(s, ClientSend(t))
    ensures RoutedTo(Next(s, ClientSend(t)), pp, id) && RegisteredAt(Next(s, ClientSend(t)), pp, id)
  {
    ToPodSlotAppend(s.accepted, [t], pp, id);
    ToPodSlotAppend(s.queue, [t], pp, id);
    hide ToPodSlot, SettledAt, KeptAt, ToSlot, HttpsOf;
    var u := Next(s, ClientSend(t));
    assert InServerless(u, pp, id) == InServerless(s, pp, id) + ToPodSlot([t], pp, id);
    assert InPods(u, pp, id) == InPods(s, pp, id);
  }

  lemma NextKeepsRoutedTo(s: State, step: Step, pp: nat, id: nat)
    requires RoutedTo(s, pp, id) && RegisteredAt(s, pp, id) && Dispatch(s) && Enabled(s, step)
    ensures RoutedTo(Next(s, step), pp, id) && RegisteredAt(Next(s, step), pp, id)
  {
    hide InPods, KeptIn, SettledAt, KeptAt, ToPodSlot, WorkerOk, PodOk, Moves, PodSettles, WorkerSettles;
    hide PodStep, WorkerStep, ServerlessStep;
    var t := Next(s, step);
    match step
    case ClientSend(trigger) => SendKeepsRoutedTo(s, trigger, pp, id);
    case CtrlC => PodsDecide(s, t, pp, id);
    case ServerlessTurn(written) =>
      if s.phase.Joining? { StoppedPodsAreEmpty(s, pp, id); }
      ServerlessMoves(s, written, pp, id);
      MovesKeepRouted(s, t, ServerlessSettles(s), pp, id);
    case PodTurn(p) =>
      PodStepSettles(p, s.pods[p], s.nWorkers, pp, id);
      PodMoves(s, p, PodStep(p, s.pods[p]), pp, id);
      MovesKeepRouted(s, t, PodStep(p, s.pods[p]).settled, pp, id);
    case WorkerTurn(p, h, started, o) =>
      var w := s.pods[p].workers[h];
      WorkerStepSettles(p, h, w, started, o, pp, id);
      WorkerMoves(s, p, h, WorkerStep(p, h, w, started, o), pp, id);
      MovesKeepRouted(s, t, WorkerStep(p, h, w, started, o).settled, pp, id);
    case _ =>
      var w := s.pods[step.p].workers[step.h];
      WorkersAreOk(s, step.p, step.h);
      MovedKeepsRequests(w, step);
      QuietWorkerMoves(s, step.p, step.h, Moved(w, step), pp, id);
      MovesKeepRouted(s, t, [], pp, id);
  }

  lemma NextKeepsRouted(s: State, step: Step)
    requires Routed(s) && Dispatch(s) && Enabled(s, step)
    ensures Routed(Next(s, step))
  {
    forall p: nat, id: nat ensures RoutedTo(Next(s, step), p, id) && RegisteredAt(Next(s, step), p, id) {
      assert RoutedTo(s, p, id);
      NextKeepsRoutedTo(s, step, p, id);
    }
  }

  lemma InitRouted(nThreads: nat, nWorkers: nat, files: map<string, C.Code>)
    ensures Routed(Init(nThreads, nWorkers, files))
  {
  }
}
