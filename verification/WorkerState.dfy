/** The worker state and the worker's event loop, in place: cells are shared with the promise callbacks. */
module WorkerState {
  import opened Wrappers
  import opened ReplierTable

  /** A heap cell holding the reply sender of one request. The table and one callback both point at it. */
  class Cell {
    const number: nat
    var sender: Option<Reply>

    constructor (number: nat, reply: Reply)
      ensures this.number == number && sender == Some(reply)
    {
      this.number := number;
      sender := Some(reply);
    }
  }

  class State {
    var repliers: seq<Cell?>
    /** Every answer sent so far, in order. */
    var outbox: seq<Answer>
    ghost var cells: seq<Cell>
    ghost var replies: seq<Reply>

    ghost predicate Valid()
      reads this, cells
    {
      && |cells| == |replies|
      && (forall c :: 0 <= c < |cells| ==> cells[c].number == c)
      && (forall c :: 0 <= c < |cells| && cells[c].sender.Some? ==> cells[c].sender.value == replies[c])
      && (forall i :: 0 <= i < |repliers| && repliers[i] != null ==>
            repliers[i].number < |cells| && cells[repliers[i].number] == repliers[i])
    }

    static function Slot(cell: Cell?): Option<nat> {
      if cell == null then None else Some(cell.number)
    }

    ghost function Slots(): seq<Option<nat>>
      reads this
    {
      seq(|repliers|, i requires 0 <= i < |repliers| reads this => Slot(repliers[i]))
    }

    ghost function LiveCells(): set<nat>
      reads this, cells
    {
      set c | 0 <= c < |cells| && cells[c].sender.Some?
    }

    ghost function Model(): Table
      reads this, cells
    {
      Table(Slots(), LiveCells(), replies, outbox)
    }

    constructor ()
      ensures Valid() && Model() == NoRepliers && cells == []
    {
      repliers, outbox, cells, replies := [], [], [], [];
    }

    method CleanupDeadRepliers()
      requires Valid()
      modifies `repliers
      ensures Valid() && Model() == Cleanup(old(Model()))
    {
      var i := 0;
      while i < |repliers|
        invariant 0 <= i <= |repliers| == |old(repliers)|
        invariant forall k :: 0 <= k < i ==> Slot(repliers[k]) == CleanSlot(Slot(old(repliers[k])), LiveCells())
        invariant forall k :: i <= k < |repliers| ==> repliers[k] == old(repliers[k])
        invariant Valid()
      {
        var replier := repliers[i];
        if replier != null && replier.sender.None? {
          repliers := repliers[i := null];
        }
        i := i + 1;
      }
      assert Slots() == Cleanup(old(Model())).slots;
    }

    method GetNextReplierIdx() returns (idx: nat)
      requires Valid()
      modifies `repliers
      ensures Valid() && (Model(), idx) == NextIdx(old(Model()))
      ensures idx < |repliers| && repliers[idx] == null
      ensures forall k :: 0 <= k < idx ==> repliers[k] != null
    {
      CleanupDeadRepliers();
      ghost var clean := Model();
      idx := 0;
      while idx < |repliers| && repliers[idx] != null
        invariant 0 <= idx <= |repliers|
        invariant forall k :: 0 <= k < idx ==> repliers[k] != null
      {
        idx := idx + 1;
      }
      FirstFreeIs(clean.slots, idx);
      if idx == |repliers| {
        repliers := repliers + [null];
        assert Slots() == clean.slots + [None] && LiveCells() == clean.live;
      }
    }

    method AddReplier(idx: nat, replier: Cell)
      requires Valid() && idx < |repliers|
      requires replier.number == |cells| && replier.sender.Some? && replier !in cells
      modifies this
      ensures Valid() && cells == old(cells) + [replier]
      ensures Model() == ReplierTable.AddReplier(old(Model()), idx, replier.sender.value)
    {
      repliers := repliers[idx := replier];
      cells := cells + [replier];
      replies := replies + [replier.sender.value];
      assert Slots() == old(Slots())[idx := Some(replier.number)];
      assert LiveCells() == old(LiveCells()) + {replier.number};
    }

    /** A promise came back: box the sender, and let the table point at the box. */
    method Register(number: nat, reply: Reply) returns (replier: Cell)
      requires Valid() && number == |cells|
      modifies this
      ensures Valid() && Model() == ReplierTable.Register(old(Model()), reply)
      ensures fresh(replier) && cells == old(cells) + [replier]
    {
      replier := new Cell(number, reply);
      var idx := GetNextReplierIdx();
      AddReplier(idx, replier);
    }

    /** The callback holds the cell itself and empties it without going through the table. */
    method RunCallback(replier: Cell, text: string)
      requires Valid() && replier in cells
      modifies replier, `outbox
      ensures Valid() && Model() == Fire(old(Model()), replier.number, text)
    {
      var taken := replier.sender;
      replier.sender := None;
      if taken.Some? {
        outbox := outbox + [Answer(replier.number, text)];
      }
      assert LiveCells() == old(LiveCells()) - {replier.number};
    }

    /** The destructor: every replier that is left gets the empty string. */
    method Drop()
      requires Valid()
      modifies this, cells
      ensures Valid() && Model() == Flush(old(Model()))
      ensures cells == old(cells)
    {
      hide Fire, Cleanup;
      var drained := repliers;
      repliers := [];
      ghost var slots := old(Slots());
      var i := 0;
      while i < |drained|
        invariant 0 <= i <= |drained| == |slots|
        invariant forall k :: 0 <= k < |drained| ==> slots[k] == Slot(drained[k])
        invariant forall k :: 0 <= k < |drained| && drained[k] != null ==> drained[k] in cells
        invariant Valid() && repliers == [] && cells == old(cells)
        invariant Model() == FlushSlots(old(Model()), slots[..i]).(slots := [])
      {
        assert slots[..i + 1][..i] == slots[..i];
        FlushSlotsFrame(old(Model()), slots[..i]);
        if drained[i] != null {
          FireIgnoresSlots(FlushSlots(old(Model()), slots[..i]), drained[i].number, "");
          RunCallback(drained[i], "");
        }
        i := i + 1;
      }
      assert slots[..i] == slots;
    }
  }

  lemma {:induction false} FirstFreeIs(slots: seq<Option<nat>>, i: nat)
    requires i <= |slots| && (i < |slots| ==> slots[i].None?)
    requires forall k :: 0 <= k < i ==> slots[k].Some?
    ensures FirstFree(slots) == i
  {
    var j := FirstFree(slots);
    assert !(j < i) && !(i < j);
  }

  lemma FireIgnoresSlots(t: Table, c: nat, text: string)
    ensures Fire(t.(slots := []), c, text) == Fire(t, c, text).(slots := [])
  {
  }

  lemma {:induction false} FlushSlotsFrame(t: Table, slots: seq<Option<nat>>)
    ensures FlushSlots(t, slots).slots == t.slots
  {
    if slots != [] { FlushSlotsFrame(t, slots[..|slots| - 1]); }
  }
}
