/** The replier table of a worker: slots that point at cells, and callbacks that empty the cells behind its back. */
module ReplierTable {
  import opened Wrappers

  /** The one-shot reply of one HTTP request. */
  type Reply = nat

  datatype Answer = Answer(cell: nat, text: string)

  /** Cells are numbered by registration: cell `c` was made for `replies[c]`, and is live while unanswered. */
  datatype Table = Table(slots: seq<Option<nat>>, live: set<nat>, replies: seq<Reply>, answers: seq<Answer>)

  const NoRepliers := Table([], {}, [], [])

  function CleanSlot(slot: Option<nat>, live: set<nat>): Option<nat> {
    if slot.Some? && slot.value !in live then None else slot
  }

  function Cleanup(t: Table): (r: Table)
    ensures r.live == t.live && r.replies == t.replies && r.answers == t.answers && |r.slots| == |t.slots|
  {
    t.(slots := seq(|t.slots|, i requires 0 <= i < |t.slots| => CleanSlot(t.slots[i], t.live)))
  }

  function FirstFree(slots: seq<Option<nat>>): (i: nat)
    ensures i <= |slots| && (i < |slots| ==> slots[i].None?)
    ensures forall k :: 0 <= k < i ==> slots[k].Some?
  {
    if slots == [] || slots[0].None? then 0 else 1 + FirstFree(slots[1..])
  }

  function NextIdx(t: Table): (Table, nat) {
    var u := Cleanup(t);
    var i := FirstFree(u.slots);
    (if i < |u.slots| then u else u.(slots := u.slots + [None]), i)
  }

  /** Point slot `idx` at a new cell for `reply`. */
  function AddReplier(t: Table, idx: nat, reply: Reply): Table
    requires idx < |t.slots|
  {
    t.(slots := t.slots[idx := Some(|t.replies|)], live := t.live + {|t.replies|}, replies := t.replies + [reply])
  }

  function Register(t: Table, reply: Reply): Table {
    var (u, i) := NextIdx(t);
    AddReplier(u, i, reply)
  }

  /** The callback of a fulfilled promise answers its cell, if that was not done before. */
  function Fire(t: Table, c: nat, text: string): Table {
    if c in t.live then t.(live := t.live - {c}, answers := t.answers + [Answer(c, text)]) else t
  }

  function FlushSlot(t: Table, slot: Option<nat>): Table {
    if slot.Some? then Fire(t, slot.value, "") else t
  }

  function FlushSlots(t: Table, slots: seq<Option<nat>>): Table {
    if slots == [] then t else FlushSlot(FlushSlots(t, slots[..|slots| - 1]), slots[|slots| - 1])
  }

  /** Dropping the state drains the table and answers what is left with the empty string. */
  function Flush(t: Table): Table {
    FlushSlots(t, t.slots).(slots := [])
  }

  // One HTTP event of the worker loop.

  /** What calling the script's fetch handler came to. */
  datatype Outcome =
    | NoHandler     // the module exports no fetch function
    | CallFailed    // the call threw or was terminated: the worker gives up
    | NotPromise    // a plain value: the request is dropped
    | Promised      // a promise with a callback on it
    | ThenFailed    // the callback could not be built: the cell is registered and the worker gives up

  predicate Keeps(o: Outcome) {
    o == Promised || o == ThenFailed
  }

  predicate GivesUp(o: Outcome) {
    o == CallFailed || o == ThenFailed
  }

  function HandleHttp(t: Table, reply: Reply, o: Outcome): Table {
    if Keeps(o) then Register(Cleanup(t), reply) else Cleanup(t)
  }

  // What every operation keeps.

  function CellsOf(answers: seq<Answer>): (r: seq<nat>)
    ensures |r| == |answers| && forall i :: 0 <= i < |r| ==> r[i] == answers[i].cell
  {
    seq(|answers|, i requires 0 <= i < |answers| => answers[i].cell)
  }

  ghost predicate Injective(slots: seq<Option<nat>>) {
    forall i, j :: 0 <= i < j < |slots| && slots[i].Some? ==> slots[i] != slots[j]
  }

  /** Slots point at pairwise distinct registered cells, and every unanswered cell is in some slot. */
  ghost predicate Located(t: Table) {
    && (forall i :: 0 <= i < |t.slots| && t.slots[i].Some? ==> t.slots[i].value < |t.replies|)
    && Injective(t.slots)
    && (forall c :: c in t.live ==> Some(c) in t.slots)
  }

  /** Every registered cell is either unanswered or answered exactly once. */
  ghost predicate Settled(t: Table) {
    && (forall c :: c in t.live ==> c < |t.replies|)
    && Distinct(CellsOf(t.answers))
    && (forall c :: 0 <= c < |t.replies| ==> (c in CellsOf(t.answers) <==> c !in t.live))
    && (forall c :: c in CellsOf(t.answers) ==> c < |t.replies|)
  }

  lemma CleanupKeeps(t: Table)
    requires Located(t)
    ensures Located(Cleanup(t))
    ensures forall i :: 0 <= i < |t.slots| ==>
      Cleanup(t).slots[i] == if t.slots[i].Some? && t.slots[i].value in t.live then t.slots[i] else None
  {
    var u := Cleanup(t);
    forall c | c in u.live ensures Some(c) in u.slots {
      var i :| 0 <= i < |t.slots| && t.slots[i] == Some(c);
      assert u.slots[i] == Some(c);
    }
  }

  /** Slot `i`, free or new, is pointed at cell `n`. */
  function Fill(slots: seq<Option<nat>>, i: nat, n: nat): seq<Option<nat>>
    requires i <= |slots|
  {
    if i < |slots| then slots[i := Some(n)] else slots + [Some(n)]
  }

  lemma FillKeepsInjective(slots: seq<Option<nat>>, i: nat, n: nat)
    requires i <= |slots| && Injective(slots) && Some(n) !in slots
    ensures Injective(Fill(slots, i, n))
  {
  }

  lemma FillKeepsOthers(slots: seq<Option<nat>>, i: nat, n: nat, c: nat)
    requires i <= |slots| && (i < |slots| ==> slots[i].None?)
    ensures Some(n) in Fill(slots, i, n)
    ensures Some(c) in slots ==> Some(c) in Fill(slots, i, n)
  {
    assert Fill(slots, i, n)[i] == Some(n);
    if Some(c) in slots {
      var k :| 0 <= k < |slots| && slots[k] == Some(c);
      assert Fill(slots, i, n)[k] == Some(c);
    }
  }

  lemma RegisterFillsSlot(t: Table, reply: Reply)
    ensures var u, r := Cleanup(t), Register(t, reply);
      && r.slots == Fill(u.slots, FirstFree(u.slots), |t.replies|)
      && r.live == t.live + {|t.replies|} && r.replies == t.replies + [reply]
  {
    hide FirstFree, Cleanup;
  }

  lemma RegisterKeepsLocated(t: Table, reply: Reply)
    requires Located(t) && forall c :: c in t.live ==> c < |t.replies|
    ensures Located(Register(t, reply))
  {
    hide Cleanup, Register, FirstFree, Injective;
    CleanupKeeps(t);
    RegisterFillsSlot(t, reply);
    var u, n := Cleanup(t), |t.replies|;
    var i, r := FirstFree(u.slots), Register(t, reply);
    FillKeepsInjective(u.slots, i, n);
    forall c | c in r.live ensures Some(c) in r.slots {
      FillKeepsOthers(u.slots, i, n, c);
    }
  }

  lemma RegisterKeeps(t: Table, reply: Reply)
    requires Located(t) && Settled(t)
    ensures Located(Register(t, reply)) && Settled(Register(t, reply))
  {
    RegisterKeepsLocated(t, reply);
    var r := Register(t, reply);
    assert r.live == t.live + {|t.replies|} && r.replies == t.replies + [reply] && r.answers == t.answers;
    hide Located, Register;
  }

  lemma FireKeeps(t: Table, c: nat, text: string)
    requires Settled(t)
    ensures Settled(Fire(t, c, text))
    ensures Located(t) ==> Located(Fire(t, c, text))
  {
    if c in t.live {
      assert CellsOf(Fire(t, c, text).answers) == CellsOf(t.answers) + [c];
    }
  }

  // Runs of registrations, callbacks and sweeps.

  datatype Event = Registration(reply: Reply) | Callback(cell: nat, text: string) | Sweep

  function Apply(t: Table, e: Event): Table {
    match e
    case Registration(reply) => Register(t, reply)
    case Callback(c, text) => Fire(t, c, text)
    case Sweep => Cleanup(t)
  }

  function Run(es: seq<Event>): Table {
    if es == [] then NoRepliers else Apply(Run(es[..|es| - 1]), es[|es| - 1])
  }

  lemma ApplyKeeps(t: Table, e: Event)
    requires Located(t) && Settled(t)
    ensures Located(Apply(t, e)) && Settled(Apply(t, e))
  {
    match e
    case Registration(reply) => RegisterKeeps(t, reply);
    case Callback(c, text) => FireKeeps(t, c, text);
    case Sweep => CleanupKeeps(t);
  }

  lemma {:induction false} RunKeeps(es: seq<Event>)
    ensures Located(Run(es)) && Settled(Run(es))
  {
    if es != [] {
      RunKeeps(es[..|es| - 1]);
      ApplyKeeps(Run(es[..|es| - 1]), es[|es| - 1]);
    }
  }

  // The table is exactly as long as the largest number of requests ever unanswered at once.

  function Registrations(es: seq<Event>): nat {
    if es == [] then 0
    else Registrations(es[..|es| - 1]) + if es[|es| - 1].Registration? then 1 else 0
  }

  /** The registrations of a run whose callback has not come, told without the table. */
  function Unanswered(es: seq<Event>): set<nat> {
    if es == [] then {}
    else
      var before, e := es[..|es| - 1], es[|es| - 1];
      match e
      case Registration(_) => Unanswered(before) + {Registrations(before)}
      case Callback(c, _) => Unanswered(before) - {c}
      case Sweep => Unanswered(before)
  }

  /** How many requests are unanswered after the first `k` events. */
  function Pending(es: seq<Event>, k: nat): nat
    requires k <= |es|
  {
    |Unanswered(es[..k])|
  }

  ghost predicate IsPeak(es: seq<Event>, peak: nat) {
    && (forall k: nat :: k <= |es| ==> Pending(es, k) <= peak)
    && (exists k: nat :: k <= |es| && Pending(es, k) == peak)
  }

  lemma {:induction false} LiveIsUnanswered(es: seq<Event>)
    ensures Run(es).live == Unanswered(es) && |Run(es).replies| == Registrations(es)
  {
    if es != [] {
      LiveIsUnanswered(es[..|es| - 1]);
    }
  }

  ghost function LiveSlots(slots: seq<Option<nat>>, live: set<nat>): set<nat> {
    set i | 0 <= i < |slots| && slots[i].Some? && slots[i].value in live
  }

  /** Each unanswered cell has one slot of its own. */
  lemma {:induction false} LiveSlotsMatch(slots: seq<Option<nat>>, live: set<nat>)
    requires Injective(slots) && forall c :: c in live ==> Some(c) in slots
    ensures |live| == |LiveSlots(slots, live)|
  {
    if slots == [] {
      assert forall c :: c in live ==> Some(c) in slots;
      assert live == {};
    } else {
      var n := |slots| - 1;
      var front, last := slots[..n], slots[n];
      var rest := if last.Some? then live - {last.value} else live;
      forall c | c in rest ensures Some(c) in front {
        var i :| 0 <= i < |slots| && slots[i] == Some(c);
        assert i < n && front[i] == Some(c);
      }
      LiveSlotsMatch(front, rest);
      LiveSlotsFront(slots, live);
    }
  }

  lemma LiveSlotsFront(slots: seq<Option<nat>>, live: set<nat>)
    requires slots != [] && Injective(slots)
    ensures var n := |slots| - 1;
      if slots[n].Some? && slots[n].value in live then
        |LiveSlots(slots, live)| == |LiveSlots(slots[..n], live - {slots[n].value})| + 1
      else
        LiveSlots(slots, live) == LiveSlots(slots[..n], live)
        && (slots[n].Some? ==> live - {slots[n].value} == live)
  {
    var n := |slots| - 1;
    var front, last := slots[..n], slots[n];
    if last.Some? && last.value in live {
      var rest := live - {last.value};
      forall i | i in LiveSlots(front, rest) ensures i in LiveSlots(slots, live) { assert front[i] == slots[i]; }
      forall i | i in LiveSlots(slots, live) && i != n ensures i in LiveSlots(front, rest) {
        assert front[i] == slots[i] != slots[n];
      }
      assert LiveSlots(slots, live) == LiveSlots(front, rest) + {n};
    }
  }

  lemma LiveSlotsCount(slots: seq<Option<nat>>, live: set<nat>)
    requires Injective(slots) && forall c :: c in live ==> Some(c) in slots
    ensures |live| <= |slots|
    ensures |live| == |slots| <==> LiveSlots(slots, live) == Below(|slots|)
  {
    LiveSlotsMatch(slots, live);
    SubsetCardinality(LiveSlots(slots, live), Below(|slots|));
  }

  /** In a swept table a slot is free exactly if there are more slots than unanswered cells. */
  lemma SweptTableIsTight(slots: seq<Option<nat>>, live: set<nat>)
    requires Injective(slots) && forall c :: c in live ==> Some(c) in slots
    requires forall i :: 0 <= i < |slots| && slots[i].Some? ==> slots[i].value in live
    ensures |live| <= |slots| && (FirstFree(slots) < |slots| <==> |live| < |slots|)
  {
    LiveSlotsCount(slots, live);
    hide Injective;
    var k := FirstFree(slots);
    if k < |slots| {
      assert k !in LiveSlots(slots, live) && k in Below(|slots|);
    } else {
      forall i ensures i in LiveSlots(slots, live) <==> i in Below(|slots|) {
        if i in Below(|slots|) { assert slots[i].Some?; }
      }
    }
  }

  /** A slot is added only when cleaning up has left every slot live. */
  lemma RegisterLength(t: Table, reply: Reply)
    requires Located(t) && Settled(t)
    ensures var n, pending := |t.slots|, |Register(t, reply).live|;
      pending == |t.live| + 1 && |Register(t, reply).slots| == if pending > n then pending else n
  {
    var u := Cleanup(t);
    CleanupKeeps(t);
    RegisterFillsSlot(t, reply);
    SweptTableIsTight(u.slots, u.live);
    assert |t.replies| !in t.live;
    hide Cleanup, Register, FirstFree, Located, Settled;
  }

  function Max(a: nat, b: nat): nat {
    if a > b then a else b
  }

  lemma PendingBefore(es: seq<Event>, k: nat)
    requires k < |es|
    ensures Pending(es, k) == Pending(es[..|es| - 1], k)
  {
    assert es[..k] == es[..|es| - 1][..k];
  }

  lemma PeakGrows(es: seq<Event>, before: seq<Event>, peak: nat)
    requires es != [] && before == es[..|es| - 1] && IsPeak(before, peak)
    ensures IsPeak(es, Max(peak, Pending(es, |es|)))
  {
    hide Pending;
    forall k: nat | k < |es| ensures Pending(es, k) == Pending(before, k) { PendingBefore(es, k); }
    var k: nat :| k <= |before| && Pending(before, k) == peak;
    var at := if Pending(es, |es|) > peak then |es| else k;
    assert Pending(es, at) == Max(peak, Pending(es, |es|));
  }

  lemma ApplyLength(t: Table, e: Event)
    requires Located(t) && Settled(t)
    ensures |Apply(t, e).slots| == Max(|t.slots|, |Apply(t, e).live|)
  {
    LiveSlotsCount(t.slots, t.live);
    match e
    case Registration(reply) => RegisterLength(t, reply);
    case Callback(c, _) => SubsetCardinality(t.live - {c}, t.live);
    case Sweep =>
  }

  lemma {:induction false} TableLengthIsPeak(es: seq<Event>)
    ensures IsPeak(es, |Run(es).slots|)
  {
    if es == [] {
      assert Pending(es, 0) == 0;
    } else {
      var before := es[..|es| - 1];
      TableLengthIsPeak(before);
      RunKeeps(before);
      ApplyLength(Run(before), es[|es| - 1]);
      LiveIsUnanswered(es);
      assert es[..|es|] == es;
      PeakGrows(es, before, |Run(before).slots|);
    }
  }

  // No unanswered replier is moved or overwritten.

  lemma ApplyIsStable(t: Table, e: Event, i: nat)
    requires Located(t) && Settled(t)
    requires i < |t.slots| && t.slots[i].Some? && t.slots[i].value in Apply(t, e).live
    ensures i < |Apply(t, e).slots| && Apply(t, e).slots[i] == t.slots[i] && t.slots[i].value in t.live
  {
    if e.Registration? {
      CleanupKeeps(t);
    }
  }

  /** Once answered, a cell never comes back to life. */
  lemma {:induction false} AnsweredForGood(es: seq<Event>, fs: seq<Event>, c: nat)
    requires c < |Run(es).replies|
    ensures c < |Run(es + fs).replies|
    ensures c in Run(es + fs).live ==> c in Run(es).live
  {
    if fs == [] {
      assert es + fs == es;
    } else {
      var n := |fs| - 1;
      assert (es + fs)[..|es + fs| - 1] == es + fs[..n];
      AnsweredForGood(es, fs[..n], c);
    }
  }

  lemma {:induction false} UnansweredStaysInPlace(es: seq<Event>, fs: seq<Event>, i: nat)
    requires i < |Run(es).slots| && Run(es).slots[i].Some?
    requires Run(es).slots[i].value in Run(es + fs).live
    ensures i < |Run(es + fs).slots| && Run(es + fs).slots[i] == Run(es).slots[i]
  {
    if fs == [] {
      assert es + fs == es;
    } else {
      var n := |fs| - 1;
      var t, e := Run(es + fs[..n]), fs[n];
      assert (es + fs)[..|es + fs| - 1] == es + fs[..n] && (es + fs)[|es + fs| - 1] == e;
      RunKeeps(es);
      RunKeeps(es + fs[..n]);
      AnsweredForGood(es, fs[..n], Run(es).slots[i].value);
      assert Run(es + fs) == Apply(t, e);
      assert Run(es).slots[i].value in t.live;
      UnansweredStaysInPlace(es, fs[..n], i);
      ApplyIsStable(t, e, i);
    }
  }

  /** Event `k` is the callback that finds cell `c` still unanswered. */
  ghost predicate AnswersCell(es: seq<Event>, k: nat, c: nat, text: string) {
    k < |es| && es[k] == Callback(c, text) && c in Unanswered(es[..k])
  }

  /** An answer given before the drop carries the value of the first callback of its cell. */
  lemma {:induction false} AnswersComeFromCallbacks(es: seq<Event>, i: nat)
    requires i < |Run(es).answers|
    ensures exists k: nat :: AnswersCell(es, k, Run(es).answers[i].cell, Run(es).answers[i].text)
  {
    if es != [] {
      var n := |es| - 1;
      var before, a := es[..n], Run(es).answers[i];
      LiveIsUnanswered(before);
      if i < |Run(before).answers| {
        AnswersComeFromCallbacks(before, i);
        var k: nat :| AnswersCell(before, k, a.cell, a.text);
        assert es[..k] == before[..k];
        assert AnswersCell(es, k, a.cell, a.text);
      } else {
        assert AnswersCell(es, n, a.cell, a.text);
      }
    }
  }

  // Dropping the state completes the accounting.

  lemma {:induction false} FlushSlotsAnswers(t: Table, slots: seq<Option<nat>>)
    requires Settled(t)
    ensures var u := FlushSlots(t, slots);
      && Settled(u) && u.replies == t.replies && u.slots == t.slots
      && u.live == (set c | c in t.live && Some(c) !in slots)
      && t.answers <= u.answers
      && forall i :: |t.answers| <= i < |u.answers| ==> u.answers[i].cell in t.live && u.answers[i].text == ""
  {
    if slots != [] {
      var n := |slots| - 1;
      FlushSlotsAnswers(t, slots[..n]);
      var u := FlushSlots(t, slots[..n]);
      assert slots == slots[..n] + [slots[n]];
      if slots[n].Some? { FireKeeps(u, slots[n].value, ""); }
    } else {
      assert (set c | c in t.live && Some(c) !in slots) == t.live;
    }
  }

  /** After the drop nothing is pending: the answers name every registered cell exactly once, those given by a
      callback before the drop stand, and the others carry the empty string. */
  lemma FlushCompletes(t: Table)
    requires Located(t) && Settled(t)
    ensures var u := Flush(t);
      && Located(u) && Settled(u) && u.live == {} && u.slots == [] && u.replies == t.replies
      && t.answers <= u.answers
      && (forall i :: |t.answers| <= i < |u.answers| ==> u.answers[i].cell in t.live && u.answers[i].text == "")
      && |u.answers| == |u.replies|
      && forall c :: 0 <= c < |u.replies| ==> c in CellsOf(u.answers)
  {
    FlushSlotsAnswers(t, t.slots);
    var u := Flush(t);
    DistinctCardinality(CellsOf(u.answers));
    assert Elements(CellsOf(u.answers)) == Below(|u.replies|);
  }

  /** Answer `i` is the only one to `c`. It carries the value of the first callback of `c`, or the empty string if none
      came. */
  ghost predicate AnsweredAt(es: seq<Event>, i: nat, c: nat) {
    var t, u := Run(es), Flush(Run(es));
    && i < |u.answers| && u.answers[i].cell == c
    && (c in Unanswered(es) <==> i >= |t.answers|)
    && (c in Unanswered(es) ==> u.answers[i].text == "")
    && (c !in Unanswered(es) ==> exists k: nat :: AnswersCell(es, k, c, u.answers[i].text))
    && (forall k :: 0 <= k < |u.answers| && u.answers[k].cell == c ==> k == i)
  }

  /** Over a whole life of a worker, whatever promises are rejected or never settle. */
  lemma EveryReplierAnsweredOnce(es: seq<Event>, c: nat)
    requires c < Registrations(es)
    ensures |Flush(Run(es)).answers| == Registrations(es)
    ensures exists i: nat :: AnsweredAt(es, i, c)
  {
    RunKeeps(es);
    LiveIsUnanswered(es);
    FlushCompletes(Run(es));
    var t, u := Run(es), Flush(Run(es));
    assert c in CellsOf(u.answers);
    var i :| 0 <= i < |CellsOf(u.answers)| && CellsOf(u.answers)[i] == c;
    if i < |t.answers| {
      assert CellsOf(t.answers)[i] == c;
      assert u.answers[i] == t.answers[i];
      AnswersComeFromCallbacks(es, i);
    }
    hide Flush, Run, AnswersCell, Registrations, Unanswered;
    forall k | 0 <= k < |u.answers| && u.answers[k].cell == c ensures k == i {
      assert CellsOf(u.answers)[k] == CellsOf(u.answers)[i];
    }
    assert AnsweredAt(es, i, c);
  }
}
