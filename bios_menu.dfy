/** The system configuration menu (components/BiosMenu.tsx): a selection
    index over a fixed table of two entries, a key policy, and the click
    handlers on the two entries. Sounds and the console acknowledgement are
    recorded as events. */
module Menu {
  import AppStates

  /** One menu entry: identifier, display label, and the screen it names. */
  datatype Item = Item(id: string, caption: string, target: AppStates.AppState)

  /** The fixed table: 0 is the memory card, 1 the CD player. */
  const Items: seq<Item> := [
    Item("mem", "Memory Card", AppStates.MemoryCard),
    Item("cd", "CD Player", AppStates.CdPlayer)
  ]

  datatype Direction = Left | Right

  /** What a key press asks the menu to do. */
  datatype Action = Move(dir: Direction) | Confirm | Ignore

  /** Observable side effects: the two sounds and the logged acknowledgement. */
  datatype MenuEvent = MoveSound | SelectSound | Ack(caption: string)

  /** The keydown dispatch: the arrows move, Enter and Space confirm,
      every other key is ignored. */
  function KeyAction(key: string): Action {
    if key == "ArrowLeft" then Move(Left)
    else if key == "ArrowRight" then Move(Right)
    else if key == "Enter" || key == " " then Confirm
    else Ignore
  }

  /** A move sets the index outright: left to the first entry, right to the last. */
  function MoveTarget(d: Direction): (i: int)
    ensures 0 <= i < |Items|
    ensures d == Left <==> i == 0
  {
    match d
    case Left => 0
    case Right => 1
  }

  /** The selection index after a key press. */
  function NextIndex(idx: int, key: string): (r: int)
    ensures 0 <= idx < |Items| ==> 0 <= r < |Items|
    ensures r != idx ==> KeyAction(key).Move?
  {
    match KeyAction(key)
    case Move(d) => MoveTarget(d)
    case _ => idx
  }

  /** The side effects of confirming while the render saw `idx`. */
  function SelectEffects(idx: int): seq<MenuEvent>
    requires 0 <= idx < |Items|
  {
    [SelectSound, Ack(Items[idx].caption)]
  }

  /** The side effects of a key press while the selection is `idx`. */
  function KeyEffects(idx: int, key: string): seq<MenuEvent>
    requires 0 <= idx < |Items|
  {
    match KeyAction(key)
    case Move(_) => [MoveSound]
    case Confirm => SelectEffects(idx)
    case Ignore => []
  }

  /** The selection after a sequence of key presses. */
  ghost function RunKeys(idx: int, keys: seq<string>): (r: int)
    requires 0 <= idx < |Items|
    ensures 0 <= r < |Items|
    decreases |keys|
  {
    if keys == [] then idx else RunKeys(NextIndex(idx, keys[0]), keys[1..])
  }

  /** The side effects of a sequence of key presses, in order. */
  ghost function RunEffects(idx: int, keys: seq<string>): seq<MenuEvent>
    requires 0 <= idx < |Items|
    decreases |keys|
  {
    if keys == [] then []
    else KeyEffects(idx, keys[0]) + RunEffects(NextIndex(idx, keys[0]), keys[1..])
  }

  /** Number of key presses in `keys` that move the selection. */
  ghost function MoveKeys(keys: seq<string>): nat
    decreases |keys|
  {
    if keys == [] then 0
    else (if KeyAction(keys[0]).Move? then 1 else 0) + MoveKeys(keys[1..])
  }

  /** Number of key presses in `keys` that confirm. */
  ghost function ConfirmKeys(keys: seq<string>): nat
    decreases |keys|
  {
    if keys == [] then 0
    else (if KeyAction(keys[0]) == Confirm then 1 else 0) + ConfirmKeys(keys[1..])
  }

  /** Key presses that do not move leave the selection where it was. */
  lemma {:induction false} NoMoveKeepsSelection(idx: int, keys: seq<string>)
    requires 0 <= idx < |Items|
    requires forall i :: 0 <= i < |keys| ==> !KeyAction(keys[i]).Move?
    ensures RunKeys(idx, keys) == idx
    decreases |keys|
  {
    if keys != [] {
      assert !KeyAction(keys[0]).Move?;
      NoMoveKeepsSelection(idx, keys[1..]);
    }
  }

  /** The selection after any sequence of keys is set by the last move in it,
      whatever the selection was before: moves are absolute. */
  lemma {:induction false} LastMoveDecides(idx: int, keys: seq<string>, j: int)
    requires 0 <= idx < |Items|
    requires 0 <= j < |keys| && KeyAction(keys[j]).Move?
    requires forall i :: j < i < |keys| ==> !KeyAction(keys[i]).Move?
    ensures RunKeys(idx, keys) == MoveTarget(KeyAction(keys[j]).dir)
    decreases |keys|
  {
    if j == 0 {
      NoMoveKeepsSelection(NextIndex(idx, keys[0]), keys[1..]);
    } else {
      LastMoveDecides(NextIndex(idx, keys[0]), keys[1..], j - 1);
    }
  }

  /** Keys outside the dispatch table produce no event and no change. */
  lemma {:induction false} IgnoredKeysAreInert(idx: int, keys: seq<string>)
    requires 0 <= idx < |Items|
    requires forall i :: 0 <= i < |keys| ==> KeyAction(keys[i]) == Ignore
    ensures RunKeys(idx, keys) == idx
    ensures RunEffects(idx, keys) == []
    decreases |keys|
  {
    if keys != [] {
      assert KeyAction(keys[0]) == Ignore;
      IgnoredKeysAreInert(idx, keys[1..]);
    }
  }

  /** Every move key plays exactly one move sound, every confirm key exactly
      one select sound, and each confirm acknowledges one label. */
  lemma {:induction false} SoundsMatchKeys(idx: int, keys: seq<string>)
    requires 0 <= idx < |Items|
    ensures multiset(RunEffects(idx, keys))[MoveSound] == MoveKeys(keys)
    ensures multiset(RunEffects(idx, keys))[SelectSound] == ConfirmKeys(keys)
    ensures |RunEffects(idx, keys)| == MoveKeys(keys) + 2 * ConfirmKeys(keys)
    decreases |keys|
  {
    if keys != [] {
      SoundsMatchKeys(NextIndex(idx, keys[0]), keys[1..]);
    }
  }

  /** The same move twice is the same as once, and its result does not depend
      on the selection before it. */
  lemma MoveIsAbsolute(idx: int, other: int, key: string)
    requires KeyAction(key).Move?
    ensures NextIndex(NextIndex(idx, key), key) == NextIndex(idx, key)
    ensures NextIndex(idx, key) == NextIndex(other, key)
  {
  }

  /** Confirming acknowledges the label of the entry the render saw; a click on
      another entry therefore acknowledges the entry selected before it. */
  lemma ClickAcknowledgesPrevious(prev: int, clicked: int)
    requires 0 <= prev < |Items| && 0 <= clicked < |Items| && prev != clicked
    ensures SelectEffects(prev)[1] == Ack(Items[prev].caption)
    ensures SelectEffects(prev)[1] != Ack(Items[clicked].caption)
  {
  }

  /** From the first entry, ArrowRight then Enter selects and acknowledges the
      CD player. */
  lemma RightThenConfirm()
    ensures RunKeys(0, ["ArrowRight", "Enter"]) == 1
    ensures RunEffects(0, ["ArrowRight", "Enter"]) == [MoveSound, SelectSound, Ack("CD Player")]
  {
    assert ["ArrowRight", "Enter"][1..] == ["Enter"];
    assert ["Enter"][1..] == [];
  }

  /** One mounted BiosMenu component. */
  class BiosMenu {
    var selectedIdx: int
    var events: seq<MenuEvent>

    ghost predicate Valid()
      reads this
    {
      0 <= selectedIdx < |Items|
    }

    /** Mounting: the selection starts on the first entry. */
    constructor ()
      ensures Valid() && selectedIdx == 0 && events == []
    {
      selectedIdx := 0;
      events := [];
    }

    /** A move: the move sound first, then the index is set. */
    method HandleMove(d: Direction)
      requires Valid()
      modifies this
      ensures Valid() && selectedIdx == MoveTarget(d)
      ensures events == old(events) + [MoveSound]
    {
      events := events + [MoveSound];
      if d == Left { selectedIdx := 0; }
      if d == Right { selectedIdx := 1; }
    }

    /** The select handler built by the render that saw `renderedIdx`: the
        select sound, then the acknowledgement of that entry's label. The
        selection itself is not changed. */
    method HandleSelect(renderedIdx: int)
      requires 0 <= renderedIdx < |Items|
      modifies this
      ensures selectedIdx == old(selectedIdx)
      ensures events == old(events) + SelectEffects(renderedIdx)
    {
      events := events + [SelectSound];
      events := events + [Ack(Items[renderedIdx].caption)];
    }

    /** The keydown listener; it is re-attached after every render, so it sees
        the current selection. */
    method KeyDown(key: string)
      requires Valid()
      modifies this
      ensures Valid() && selectedIdx == NextIndex(old(selectedIdx), key)
      ensures events == old(events) + KeyEffects(old(selectedIdx), key)
    {
      if key == "ArrowLeft" { HandleMove(Left); }
      if key == "ArrowRight" { HandleMove(Right); }
      if key == "Enter" || key == " " { HandleSelect(selectedIdx); }
    }

    /** A click on entry `i`: the index is set to `i` without a move sound, then
        the select handler of the current render runs, which still sees the
        selection from before the click. */
    method Click(i: int)
      requires Valid() && 0 <= i < |Items|
      modifies this
      ensures Valid() && selectedIdx == i
      ensures events == old(events) + SelectEffects(old(selectedIdx))
      ensures i != old(selectedIdx) ==> events[|events| - 1] != Ack(Items[i].caption)
    {
      var rendered := selectedIdx;
      selectedIdx := i;
      HandleSelect(rendered);
    }
  }
}
