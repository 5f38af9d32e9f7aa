/** The CPU-time monitor of one worker. Times are in nanoseconds. */
module Monitor {
  import opened Wrappers

  /** Deadline of one slice: 100 ms. */
  const SLICE: nat := 100_000_000
  /** The first total whose whole seconds exceed ten. */
  const BUDGET: nat := 11_000_000_000

  predicate OverBudget(elapsed: int) {
    elapsed / 1_000_000_000 > 10
  }

  /** Why the monitor stopped watching; Idle means that it still waits for a tick, with the channel open. */
  datatype Exit = TimeUp | SliceOver | ChannelClosed | Idle

  ghost predicate Ordered(ticks: seq<nat>) {
    forall i, j :: 0 <= i <= j < |ticks| ==> ticks[i] <= ticks[j]
  }

  /** The length of slice `i`: from the tick that arms the monitor to the tick that disarms it. */
  function Gap(ticks: seq<nat>, i: nat): int
    requires 2 * i + 1 < |ticks|
  {
    (ticks[2 * i + 1] as int) - (ticks[2 * i] as int)
  }

  /** Total length of the first `k` slices. */
  function Charged(ticks: seq<nat>, k: nat): int
    requires 2 * k <= |ticks|
  {
    if k == 0 then 0 else Charged(ticks, k - 1) + Gap(ticks, k - 1)
  }

  /** Every one of the first `k` slices met its deadline and began within the budget. */
  ghost predicate Survives(ticks: seq<nat>, k: nat) {
    2 * k <= |ticks| && forall i :: 0 <= i < k ==> Gap(ticks, i) <= SLICE && Charged(ticks, i) < BUDGET
  }

  /** The monitor gets through `k` slices and no more. */
  ghost predicate SurvivesExactly(ticks: seq<nat>, k: nat) {
    forall j: nat :: j <= k <==> Survives(ticks, j)
  }

  /** The channel is closed in time for the slice that began with the last tick. */
  predicate ClosedInTime(ticks: seq<nat>, closed: Option<nat>) {
    closed.Some? && |ticks| > 0 && closed.value <= ticks[|ticks| - 1] + SLICE
  }

  /** What the source promises of a run that ended after `k` slices. */
  ghost predicate Verdict(ticks: seq<nat>, closed: Option<nat>, k: nat, exit: Exit) {
    && Survives(ticks, k)
    && match exit
       case TimeUp => 2 * k < |ticks| && Charged(ticks, k) >= BUDGET
       case SliceOver =>
         && 2 * k < |ticks| && Charged(ticks, k) < BUDGET
         && if 2 * k + 1 < |ticks| then Gap(ticks, k) > SLICE else !ClosedInTime(ticks, closed)
       case ChannelClosed =>
         || (2 * k == |ticks| && closed.Some?)
         || (2 * k + 1 == |ticks| && Charged(ticks, k) < BUDGET && ClosedInTime(ticks, closed))
       case Idle => 2 * k == |ticks| && closed.None?
  }

  /** The verdict, the number of slices and the charged time of a run; a slice cut short by the closing of the channel
      is charged, but counts for nothing. */
  ghost predicate Watched(ticks: seq<nat>, closed: Option<nat>, k: nat, exit: Exit, elapsed: int) {
    && Verdict(ticks, closed, k, exit)
    && SurvivesExactly(ticks, k)
    && 0 <= Charged(ticks, k) <= elapsed < BUDGET + SLICE
    && (elapsed == Charged(ticks, k) || (exit == ChannelClosed && 2 * k + 1 == |ticks|))
  }

  /** The state of the monitor after `k` slices. */
  ghost predicate Watching(ticks: seq<nat>, k: nat, elapsed: int) {
    Survives(ticks, k) && 0 <= elapsed == Charged(ticks, k) < BUDGET + SLICE
  }

  /** The loop of the monitor on the ticks it receives, in order; `closed` is when the worker's end goes away. */
  method MonitorWorkerTask(ticks: seq<nat>, closed: Option<nat>)
    returns (exit: Exit, elapsed: int, slices: nat)
    requires Ordered(ticks) && (closed.Some? && |ticks| > 0 ==> ticks[|ticks| - 1] <= closed.value)
    ensures Watched(ticks, closed, slices, exit, elapsed)
  {
    hide Watched, Watching, Ordered;
    elapsed, slices := 0, 0;
    var next := 0;
    WatchBegins(ticks);
    while next < |ticks|
      invariant next == 2 * slices <= |ticks| && Watching(ticks, slices, elapsed)
    {
      var start := ticks[next];
      if OverBudget(elapsed) {
        exit := TimeUp;
        WatchEnds(ticks, closed, slices, exit, elapsed, elapsed);
        return;
      }
      if next + 1 < |ticks| && ticks[next + 1] - start <= SLICE {
        WatchGoesOn(ticks, slices, elapsed);
        elapsed := elapsed + (ticks[next + 1] - start);
        next, slices := next + 2, slices + 1;
      } else if next + 1 == |ticks| && closed.Some? && closed.value - start <= SLICE {
        WatchEnds(ticks, closed, slices, ChannelClosed, elapsed, elapsed + (closed.value - start));
        elapsed := elapsed + (closed.value - start);
        exit := ChannelClosed;
        return;
      } else {
        exit := SliceOver;
        WatchEnds(ticks, closed, slices, exit, elapsed, elapsed);
        return;
      }
    }
    exit := if closed.Some? then ChannelClosed else Idle;
    WatchEnds(ticks, closed, slices, exit, elapsed, elapsed);
  }

  lemma WatchBegins(ticks: seq<nat>)
    ensures Watching(ticks, 0, 0)
  {
  }

  lemma WatchGoesOn(ticks: seq<nat>, k: nat, elapsed: int)
    requires Ordered(ticks) && Watching(ticks, k, elapsed) && !OverBudget(elapsed)
    requires 2 * k + 2 <= |ticks| && Gap(ticks, k) <= SLICE
    ensures Watching(ticks, k + 1, elapsed + Gap(ticks, k))
  {
    OverBudgetIs(elapsed);
    GapIsNatural(ticks, k);
    SurvivalGoesOn(ticks, k);
    hide Survives, Charged, OverBudget, Gap;
  }

  lemma WatchEnds(ticks: seq<nat>, closed: Option<nat>, k: nat, exit: Exit, elapsed: int, total: int)
    requires Watching(ticks, k, elapsed)
    requires match exit
      case TimeUp => 2 * k < |ticks| && OverBudget(elapsed) && total == elapsed
      case SliceOver =>
        && 2 * k < |ticks| && !OverBudget(elapsed) && total == elapsed
        && if 2 * k + 1 < |ticks| then Gap(ticks, k) > SLICE else !ClosedInTime(ticks, closed)
      case ChannelClosed =>
        || (2 * k == |ticks| && closed.Some? && total == elapsed)
        || (2 * k + 1 == |ticks| && !OverBudget(elapsed) && ClosedInTime(ticks, closed)
            && elapsed <= total <= elapsed + SLICE)
      case Idle => 2 * k == |ticks| && closed.None? && total == elapsed
    ensures Watched(ticks, closed, k, exit, total)
  {
    OverBudgetIs(elapsed);
    SurvivalEnds(ticks, k);
    hide Survives, SurvivesExactly, Charged, OverBudget, Gap, ClosedInTime;
  }

  /** Whole seconds above ten are eleven seconds or more. */
  lemma OverBudgetIs(elapsed: int)
    ensures OverBudget(elapsed) <==> elapsed >= 11_000_000_000
    ensures BUDGET == 11_000_000_000 && SLICE == 100_000_000
  {
  }

  lemma GapIsNatural(ticks: seq<nat>, i: nat)
    requires Ordered(ticks) && 2 * i + 1 < |ticks|
    ensures Gap(ticks, i) >= 0
  {
  }

  lemma SurvivalGoesOn(ticks: seq<nat>, k: nat)
    requires Survives(ticks, k) && 2 * k + 2 <= |ticks| && Gap(ticks, k) <= SLICE && Charged(ticks, k) < BUDGET
    ensures Survives(ticks, k + 1) && Charged(ticks, k + 1) == Charged(ticks, k) + Gap(ticks, k)
  {
    hide Gap;
    assert Charged(ticks, k + 1) == Charged(ticks, k) + Gap(ticks, k);
    hide Charged;
    forall i | 0 <= i < k + 1 ensures Gap(ticks, i) <= SLICE && Charged(ticks, i) < BUDGET {}
  }

  lemma SurvivalEnds(ticks: seq<nat>, k: nat)
    requires Survives(ticks, k)
    requires 2 * k + 2 > |ticks| || Gap(ticks, k) > SLICE || Charged(ticks, k) >= BUDGET
    ensures SurvivesExactly(ticks, k)
  {
    hide Gap, Charged;
  }

  /** The charged time only grows, and never reaches the budget by more than one slice. */
  lemma {:induction false} ChargedIsBounded(ticks: seq<nat>, j: nat, k: nat)
    requires Ordered(ticks) && Survives(ticks, k) && j <= k
    ensures 0 <= Charged(ticks, j) <= Charged(ticks, k)
    ensures Charged(ticks, k) < 11_100_000_000
  {
    ChargedGrows(ticks, 0, j);
    ChargedGrows(ticks, j, k);
    if k > 0 {
      assert Gap(ticks, k - 1) <= SLICE;
    }
  }

  lemma {:induction false} ChargedGrows(ticks: seq<nat>, j: nat, k: nat)
    requires Ordered(ticks) && j <= k && 2 * k <= |ticks|
    ensures Charged(ticks, j) <= Charged(ticks, k)
  {
    if j < k {
      ChargedGrows(ticks, j, k - 1);
    }
  }

  lemma {:induction false} ChargedAtLeast(ticks: seq<nat>, k: nat, d: nat)
    requires 2 * k <= |ticks| && forall i :: 0 <= i < k ==> Gap(ticks, i) >= d
    ensures Charged(ticks, k) >= k * d
  {
    if k > 0 {
      ChargedAtLeast(ticks, k - 1, d);
      assert k * d == (k - 1) * d + d;
    }
  }

  function CeilDiv(a: nat, d: nat): nat
    requires d > 0
  {
    (a + d - 1) / d
  }

  /** When every slice costs at least `d`, the worker gets at most ceil(11 s / d) of them, and the next tick ends it. */
  lemma BudgetEnds(ticks: seq<nat>, k: nat, d: nat)
    requires Survives(ticks, k) && d > 0
    requires forall i :: 0 <= i < k ==> Gap(ticks, i) >= d
    ensures k <= CeilDiv(BUDGET, d)
    ensures k == CeilDiv(BUDGET, d) ==> Charged(ticks, k) >= BUDGET
  {
    var c := CeilDiv(BUDGET, d);
    CeilDivCovers(BUDGET, d);
    ChargedAtLeast(ticks, k, d);
    if k >= c {
      ChargedAtLeast(ticks, c, d);
      assert Charged(ticks, c) >= BUDGET;
    }
  }

  lemma CeilDivCovers(a: nat, d: nat)
    requires d > 0
    ensures CeilDiv(a, d) * d >= a
  {
    var c := CeilDiv(a, d);
    assert a + d - 1 == d * c + (a + d - 1) % d;
    assert d * c == c * d;
  }

  /** A worker with an open channel that ticks no more is left alone exactly if its ticks came in pairs. */
  lemma IdleWorkerIsSpared(ticks: seq<nat>, k: nat, exit: Exit)
    requires Verdict(ticks, None, k, exit)
    ensures exit == Idle <==> |ticks| % 2 == 0 && Survives(ticks, |ticks| / 2)
  {
  }

  // The tick channel holds one tick; a tick sent while one is pending is dropped.

  /** Ticks are numbered as they are sent. */
  datatype Channel = Channel(sent: nat, pending: Option<nat>, delivered: seq<nat>, lost: seq<nat>)

  const Quiet := Channel(0, None, [], [])

  datatype Move = Tick | Receive

  function Try(c: Channel): Channel {
    if c.pending.None? then c.(sent := c.sent + 1, pending := Some(c.sent))
    else c.(sent := c.sent + 1, lost := c.lost + [c.sent])
  }

  function Take(c: Channel): Channel {
    if c.pending.Some? then c.(pending := None, delivered := c.delivered + [c.pending.value]) else c
  }

  function Go(c: Channel, moves: seq<Move>): Channel {
    if moves == [] then c
    else
      var before := Go(c, moves[..|moves| - 1]);
      if moves[|moves| - 1].Tick? then Try(before) else Take(before)
  }

  /** The monitor waits for the closing tick of a slice. */
  predicate Armed(c: Channel) {
    |c.delivered| % 2 == 1
  }

  /** Strictly increasing, and below the bound. */
  ghost predicate Ascending(s: seq<nat>, bound: nat) {
    && (forall i, j :: 0 <= i < j < |s| ==> s[i] < s[j])
    && (forall i :: 0 <= i < |s| ==> s[i] < bound)
  }

  /** Each tick sent is delivered, lost or pending, and the delivered ones arrive in the order of sending. */
  ghost predicate Lossy(c: Channel) {
    && Ascending(c.delivered, if c.pending.Some? then c.pending.value else c.sent)
    && Ascending(c.lost, c.sent)
    && (c.pending.Some? ==> c.pending.value < c.sent && c.pending.value !in c.lost)
    && (forall t :: 0 <= t < c.sent ==> t in c.delivered || t in c.lost || c.pending == Some(t))
    && (forall t :: t in c.delivered ==> t !in c.lost)
    && |c.delivered| + |c.lost| + (if c.pending.Some? then 1 else 0) == c.sent
  }

  lemma MoveKeepsLossy(c: Channel)
    requires Lossy(c)
    ensures Lossy(Try(c)) && Lossy(Take(c))
    ensures |Try(c).lost| > |c.lost| <==> c.pending.Some?
  {
    if c.pending.None? {
      var d := Try(c);
      assert d.sent - 1 !in d.lost;
    } else {
      assert Try(c).lost == c.lost + [c.sent];
      var d := Take(c);
      assert d.delivered == c.delivered + [c.pending.value];
    }
  }

  lemma {:induction false} ChannelIsLossy(moves: seq<Move>)
    ensures Lossy(Go(Quiet, moves))
  {
    if moves != [] {
      ChannelIsLossy(moves[..|moves| - 1]);
      MoveKeepsLossy(Go(Quiet, moves[..|moves| - 1]));
    }
  }

  function Ticks(moves: seq<Move>): nat {
    if moves == [] then 0 else Ticks(moves[..|moves| - 1]) + if moves[|moves| - 1].Tick? then 1 else 0
  }

  lemma {:induction false} TicksAppend(moves: seq<Move>, more: seq<Move>)
    ensures Ticks(moves + more) == Ticks(moves) + Ticks(more)
  {
    if more == [] {
      assert moves + more == moves;
    } else {
      assert (moves + more)[..|moves + more| - 1] == moves + more[..|more| - 1];
      TicksAppend(moves, more[..|more| - 1]);
    }
  }

  lemma {:induction false} TicksAreSpent(moves: seq<Move>)
    ensures var c := Go(Quiet, moves);
      |c.delivered| + |c.lost| + (if c.pending.Some? then 1 else 0) == Ticks(moves) == c.sent
  {
    if moves != [] { TicksAreSpent(moves[..|moves| - 1]); }
  }

  /** Tick `Ticks(moves[..i])`, sent by move `i`, is lost exactly if another one is pending at that moment. */
  lemma {:induction false} LostBehindPending(moves: seq<Move>, i: nat)
    requires i < |moves| && moves[i].Tick?
    ensures Ticks(moves[..i]) in Go(Quiet, moves).lost <==> Go(Quiet, moves[..i]).pending.Some?
  {
    var n := |moves| - 1;
    var front := moves[..n];
    TicksAreSpent(front);
    ChannelIsLossy(front);
    if i == n {
      var c := Go(Quiet, front);
      assert c.sent == Ticks(front);
      if c.pending.Some? { assert Try(c).lost[|c.lost|] == c.sent; }
    } else {
      assert front[..i] == moves[..i];
      LostBehindPending(front, i);
      TicksBefore(front, i);
      LosesOnlyTheNewest(Go(Quiet, front), moves[n], Ticks(moves[..i]));
    }
  }

  lemma {:induction false} TicksBefore(moves: seq<Move>, i: nat)
    requires i < |moves| && moves[i].Tick?
    ensures Ticks(moves[..i]) < Ticks(moves)
  {
    assert moves[..i + 1][..i] == moves[..i];
    assert moves[..i + 1] + moves[i + 1..] == moves;
    TicksAppend(moves[..i + 1], moves[i + 1..]);
  }

  lemma LosesOnlyTheNewest(c: Channel, move: Move, tick: nat)
    requires tick < c.sent
    ensures tick in (if move.Tick? then Try(c) else Take(c)).lost <==> tick in c.lost
  {
  }

  /** Each poll of a monitored future sends two ticks, so a run of polls sends an even number. From one moment at which
      all ticks are received to another, it leaves the monitor's phase as it was exactly if an even number is lost. */
  lemma PollsKeepPhase(moves: seq<Move>, polls: seq<Move>)
    requires Ticks(polls) % 2 == 0
    requires Go(Quiet, moves).pending.None? && Go(Quiet, moves + polls).pending.None?
    ensures Armed(Go(Quiet, moves)) == Armed(Go(Quiet, moves + polls)) <==>
      (|Go(Quiet, moves + polls).lost| - |Go(Quiet, moves).lost|) % 2 == 0
  {
    hide *;
    TicksAreSpent(moves);
    TicksAreSpent(moves + polls);
    TicksAppend(moves, polls);
    SamePhase(Go(Quiet, moves), Go(Quiet, moves + polls), Ticks(polls));
  }

  lemma SamePhase(c: Channel, d: Channel, sent: nat)
    requires |d.delivered| + |d.lost| == |c.delivered| + |c.lost| + sent && sent % 2 == 0
    ensures Armed(c) == Armed(d) <==> (|d.lost| - |c.lost|) % 2 == 0
  {
    assert |d.delivered| - |c.delivered| == sent - (|d.lost| - |c.lost|);
  }

  /** Each tick drained before the next is sent. */
  predicate Drained(moves: seq<Move>) {
    forall i :: 0 <= i < |moves| ==> (moves[i].Tick? <==> i % 2 == 0)
  }

  lemma {:induction false} DrainedRunsLoseNothing(c: Channel, moves: seq<Move>)
    requires Drained(moves) && c.pending.None?
    ensures var d := Go(c, moves);
      && d.lost == c.lost && d.sent == c.sent + (|moves| + 1) / 2 && |d.delivered| == |c.delivered| + |moves| / 2
      && (d.pending.Some? <==> |moves| % 2 == 1)
  {
    if moves != [] { DrainedRunsLoseNothing(c, moves[..|moves| - 1]); }
  }

  /** So polls whose ticks are received one by one keep the phase: a poll is a tick and its receipt, twice. */
  lemma DrainedPollsKeepPhase(c: Channel, polls: seq<Move>)
    requires Drained(polls) && |polls| % 4 == 0 && c.pending.None?
    ensures Armed(Go(c, polls)) == Armed(c) && Go(c, polls).pending.None? && Go(c, polls).lost == c.lost
  {
    DrainedRunsLoseNothing(c, polls);
  }

  // Which code sends ticks, and how many.

  datatype Activity =
    | Startup                   // one after compiling, one after evaluating the module
    | Dispatch                  // one before and one after the call of the fetch handler
    | Answering                 // a promise callback: one tick, and no second one
    | FirstPoll | Poll | LastPoll | OnlyPoll   // polls of a fetch task: two, and one more at its start and at its end

  function TicksOf(a: Activity): nat {
    match a
    case Startup | Dispatch | Poll => 2
    case Answering => 1
    case FirstPoll | LastPoll => 3
    case OnlyPoll => 4
  }

  function TicksSent(acts: seq<Activity>): nat {
    if acts == [] then 0 else TicksSent(acts[..|acts| - 1]) + TicksOf(acts[|acts| - 1])
  }

  function Tally(acts: seq<Activity>, kind: Activity): nat {
    if acts == [] then 0
    else Tally(acts[..|acts| - 1], kind) + if acts[|acts| - 1] == kind then 1 else 0
  }

  /** Ticks are meant to come in pairs. They do exactly if the number of answered requests, with the fetches that are
      begun and not ended, is even. */
  lemma {:induction false} TicksArePaired(acts: seq<Activity>)
    ensures TicksSent(acts) % 2 == Unpaired(acts) % 2
  {
    if acts != [] { TicksArePaired(acts[..|acts| - 1]); }
  }

  /** Answers, and fetches that began or ended: each leaves one tick without a partner. */
  function Unpaired(acts: seq<Activity>): nat {
    Tally(acts, Answering) + Tally(acts, FirstPoll) + Tally(acts, LastPoll)
  }

  /** The monitor sees exactly the ticks that a worker's activities send over the channel and that arrive there, at
      these times. */
  ghost predicate Sees(acts: seq<Activity>, moves: seq<Move>, times: seq<nat>) {
    var c := Go(Quiet, moves);
    Ticks(moves) == TicksSent(acts) && c.pending.None? && |times| == |c.delivered|
  }

  /** When a worker with an open channel does nothing more, its monitor leaves it alone exactly if answers, fetches
      that began or ended and lost ticks are even in number, and every slice was in time and in budget. */
  lemma SparedExactly(acts: seq<Activity>, moves: seq<Move>, times: seq<nat>, k: nat, exit: Exit)
    requires Sees(acts, moves, times) && Verdict(times, None, k, exit)
    ensures exit == Idle <==>
      (Unpaired(acts) + |Go(Quiet, moves).lost|) % 2 == 0 && Survives(times, |times| / 2)
  {
    TicksArePaired(acts);
    TicksAreSpent(moves);
    IdleWorkerIsSpared(times, k, exit);
    hide Survives, Verdict, Go, Ticks, TicksSent, Tally;
    SameRemainder(|times|, |Go(Quiet, moves).lost|, TicksSent(acts), Unpaired(acts));
  }

  lemma SameRemainder(seen: nat, lost: nat, sent: nat, unpaired: nat)
    requires seen + lost == sent && sent % 2 == unpaired % 2
    ensures seen % 2 == 0 <==> (unpaired + lost) % 2 == 0
  {
    assert unpaired + lost == seen + 2 * lost + (unpaired - sent);
  }

  /** One answered request, or one fetch that does not end: a worker that then rests is terminated however fast it was,
      unless an odd number of its ticks is lost. */
  lemma OneUnpairedTickEndsTheWorker(acts: seq<Activity>, moves: seq<Move>, times: seq<nat>, k: nat, exit: Exit)
    requires Sees(acts, moves, times) && Verdict(times, None, k, exit) && Unpaired(acts) == 1
    ensures exit == Idle <==> |Go(Quiet, moves).lost| % 2 == 1 && Survives(times, |times| / 2)
  {
    SparedExactly(acts, moves, times, k, exit);
    hide Survives, Verdict, Go, Sees;
  }

  /** A call of script code sends a tick and then never returns: nothing more is sent, and what is pending arrives. The
      monitor ends it, unless it waited for a closing tick when the call began: then the tick that arrives closes that
      slice, and the call runs unwatched. Whether the call's own tick is lost makes no difference. */
  lemma EndlessCallIsWatched(before: seq<Move>, rest: seq<Move>, times: seq<nat>, k: nat, exit: Exit)
    requires rest != [] && forall i :: 0 <= i < |rest| ==> rest[i].Receive?
    requires |times| == |Go(Quiet, before + [Tick] + rest).delivered| && Verdict(times, None, k, exit)
    ensures exit == Idle <==> Armed(Go(Quiet, before)) && Survives(times, |times| / 2)
  {
    var c := Go(Quiet, before);
    assert (before + [Tick])[..|before|] == before;
    GoReceives(before + [Tick], rest);
    assert Go(Quiet, before + [Tick] + rest) == Take(Try(c));
    hide Survives, Verdict, Go;
    assert |times| == |c.delivered| + 1;
    IdleWorkerIsSpared(times, k, exit);
  }

  /** Once one receipt has emptied the channel, more of them change nothing. */
  lemma {:induction false} GoReceives(before: seq<Move>, rest: seq<Move>)
    requires rest != [] && forall i :: 0 <= i < |rest| ==> rest[i].Receive?
    ensures Go(Quiet, before + rest) == Take(Go(Quiet, before))
  {
    assert (before + rest)[..|before + rest| - 1] == before + rest[..|rest| - 1];
    if |rest| == 1 {
      assert before + rest[..0] == before;
    } else {
      GoReceives(before, rest[..|rest| - 1]);
    }
  }
}
