/**
  The todo list of projects/todo.java: `TodoItem` objects held in an ordered,
  1-based list that the menu adds to, removes from and marks done in place.
 */
module Todo {
  import opened Wrappers
  import opened Text

  /** What one `TodoItem` holds at a given moment. Priority 1 is High, 2 Medium, 3 Low. */
  datatype Item = Item(task: string, done: bool, priority: int)

  /** The default the menu falls back on when the priority typed is missing or out of range. */
  const LowPriority := 3

  /**
    The priority the Add menu entry stores, given what `Integer.parseInt` made of the
    line typed (`None` when it threw): 1, 2 and 3 are kept, anything else becomes Low.
   */
  function CoercePriority(parsed: Option<int>): (p: int)
    ensures 1 <= p <= 3
    ensures parsed.Some? && 1 <= parsed.value <= 3 ==> p == parsed.value
    ensures parsed.None? || parsed.value < 1 || parsed.value > 3 ==> p == LowPriority
  {
    match parsed
    case None => LowPriority
    case Some(n) => if n < 1 || n > 3 then LowPriority else n
  }

  /** The label `toString` prints for a priority: only 1 and 2 have labels of their own. */
  function PriorityLabel(priority: int): (tag: string)
    ensures tag == "(High)" <==> priority == 1
    ensures tag == "(Medium)" <==> priority == 2
    ensures tag == "(Low)" <==> priority != 1 && priority != 2
  {
    match priority
    case 1 => "(High)"
    case 2 => "(Medium)"
    case _ => "(Low)"
  }

  /** The status box `toString` prints: ticked exactly when the item is done. */
  function StatusMarker(done: bool): (marker: string)
    ensures |marker| == 3
    ensures marker == "[✔]" <==> done
    ensures marker == "[ ]" <==> !done
  {
    if done then "[✔]" else "[ ]"
  }

  /**
    `TodoItem.toString`: status box, task and priority label, separated by single spaces.
    The box opens the line, the task follows at a fixed offset and the label closes it.
   */
  function Render(item: Item): (line: string)
    ensures |line| == 3 + 1 + |item.task| + 1 + |PriorityLabel(item.priority)|
    ensures line[..3] == StatusMarker(item.done)
    ensures line[3] == ' ' && line[4 + |item.task|] == ' '
    ensures line[4..4 + |item.task|] == item.task
    ensures line[|line| - |PriorityLabel(item.priority)|..] == PriorityLabel(item.priority)
  {
    StatusMarker(item.done) + " " + item.task + " " + PriorityLabel(item.priority)
  }

  /** None of the three labels is a suffix of another, so a rendered line ends with only one of them. */
  lemma {:induction false} LabelOfSuffix(line: string, p: int, q: int)
    requires |PriorityLabel(p)| <= |line| && |PriorityLabel(q)| <= |line|
    requires line[|line| - |PriorityLabel(p)|..] == PriorityLabel(p)
    requires line[|line| - |PriorityLabel(q)|..] == PriorityLabel(q)
    ensures PriorityLabel(p) == PriorityLabel(q)
  {
    // the labels differ in the letter just before the closing parenthesis
    var lp, lq := PriorityLabel(p), PriorityLabel(q);
    var n := |line|;
    assert line[n - 2] == lp[|lp| - 2];
    assert line[n - 2] == lq[|lq| - 2];
  }

  /**
    A rendered line gives back everything it shows: the done flag, the task and the
    priority label. Only priorities that share the label "(Low)" render alike.
   */
  lemma RenderDeterminesItem(a: Item, b: Item)
    requires Render(a) == Render(b)
    ensures a.done == b.done && a.task == b.task
    ensures PriorityLabel(a.priority) == PriorityLabel(b.priority)
  {
  }

  /**
    A `TodoItem`. The task and the priority are fixed when the item is created;
    only `markDone` changes it, and only its done flag.
   */
  class TodoItem {
    const task: string
    var done: bool
    const priority: int

    function View(): Item
      reads this
    {
      Item(task, done, priority)
    }

    /** A new item is not done and stores exactly the task and priority it was given. */
    constructor(task: string, priority: int)
      ensures View() == Item(task, false, priority)
    {
      this.task := task;
      this.priority := priority;
      this.done := false;
    }

    /** Sets the done flag, whatever it was: calling it on a done item changes nothing. */
    method MarkDone()
      modifies this
      ensures View() == old(View()).(done := true)
    {
      done := true;
    }
  }

  /** What the Remove and Mark menu entries report back. */
  datatype Status =
    | Changed        // the item was removed or marked
    | NoItems        // the list was empty, so no number was asked for
    | InvalidNumber  // the number was outside 1..size

  /** The outcome of Remove or Mark for item number `num` in a list of `size` items. */
  function PositionStatus(size: nat, num: int): (s: Status)
    ensures s == Changed <==> 0 < num <= size
    ensures s == NoItems <==> size == 0
  {
    if size == 0 then NoItems
    else if num > 0 && num <= size then Changed
    else InvalidNumber
  }

  /** A task as Add stores it: trimmed, and not empty. */
  predicate WellFormed(item: Item) {
    item.task != [] && IsTrimmed(item.task) && 1 <= item.priority <= 3
  }

  /** The in-memory `ArrayList<TodoItem>` that the menu loop works on. */
  class TodoList {
    var items: seq<TodoItem>

    /** Every position holds its own object, and every item was stored through Add. */
    ghost predicate Valid()
      reads this, items
    {
      && (forall i, j :: 0 <= i < j < |items| ==> items[i] != items[j])
      && (forall i :: 0 <= i < |items| ==> WellFormed(items[i].View()))
    }

    /** The list as the menu shows it, item by item. */
    ghost function Contents(): (c: seq<Item>)
      reads this, items
      ensures |c| == |items|
      ensures forall i :: 0 <= i < |items| ==> c[i] == items[i].View()
    {
      seq(|items|, i reads this, items requires 0 <= i < |items| => items[i].View())
    }

    /** The list a first run starts from, when no saved file exists. */
    constructor()
      ensures Valid() && Contents() == []
    {
      items := [];
    }

    /**
      The Add menu entry, given the task line and the parsed priority. A task that is
      empty once trimmed is not added; otherwise a new item goes at the end.
     */
    method Add(taskLine: string, parsedPriority: Option<int>) returns (added: bool)
      requires Valid()
      modifies this
      ensures Valid()
      ensures added <==> Trim(taskLine) != []
      ensures added ==> Contents() == old(Contents()) + [Item(Trim(taskLine), false, CoercePriority(parsedPriority))]
      ensures !added ==> Contents() == old(Contents())
      ensures added ==> |items| == |old(items)| + 1 && fresh(items[|items| - 1])
      ensures items[..|old(items)|] == old(items)
    {
      var task := Trim(taskLine);
      if task == [] {
        return false;
      }
      ghost var before := Contents();
      var item := new TodoItem(task, CoercePriority(parsedPriority));
      items := items + [item];
      assert Contents() == before + [item.View()];
      added := true;
    }

    /**
      The Remove menu entry for item number `num` (1-based). In range, the item goes
      and those after it move down one place; otherwise nothing changes.
     */
    method Remove(num: int) returns (status: Status)
      requires Valid()
      modifies this
      ensures Valid()
      ensures status == PositionStatus(|old(items)|, num)
      ensures status == Changed ==> Contents() == old(Contents())[..num - 1] + old(Contents())[num..]
      ensures status != Changed ==> Contents() == old(Contents())
      ensures items == if status == Changed then old(items)[..num - 1] + old(items)[num..] else old(items)
    {
      if |items| == 0 {
        return NoItems;
      }
      if num > 0 && num <= |items| {
        ghost var before := Contents();
        ghost var kept := before[..num - 1] + before[num..];
        items := items[..num - 1] + items[num..];
        assert forall i :: 0 <= i < |items| ==> items[i] == old(items)[if i < num - 1 then i else i + 1];
        assert Contents() == kept by {
          forall i | 0 <= i < |items| ensures Contents()[i] == kept[i] {
            if i < num - 1 {
              assert kept[i] == before[i];
            } else {
              assert kept[i] == before[i + 1];
            }
          }
        }
        status := Changed;
      } else {
        status := InvalidNumber;
      }
    }

    /**
      The Mark menu entry for item number `num` (1-based). In range, that item alone
      becomes done, in place; the list keeps its length, order and other items.
     */
    method Mark(num: int) returns (status: Status)
      requires Valid()
      modifies items
      ensures Valid()
      ensures items == old(items)
      ensures status == PositionStatus(|items|, num)
      ensures status == Changed ==> Contents() == old(Contents())[num - 1 := old(Contents())[num - 1].(done := true)]
      ensures status != Changed ==> Contents() == old(Contents())
    {
      if |items| == 0 {
        return NoItems;
      }
      if num > 0 && num <= |items| {
        items[num - 1].MarkDone();
        status := Changed;
      } else {
        status := InvalidNumber;
      }
    }
  }

  /**
    A client session: add two tasks (High, then an unparsable priority) and mark the
    first one done.
   */
  method Walkthrough(first: string, second: string)
    requires first != [] && IsTrimmed(first)
    requires second != [] && IsTrimmed(second)
  {
    TrimOfTrimmed(first);
    TrimOfTrimmed(second);
    var list := new TodoList();
    var added := list.Add(first, Some(1));
    added := list.Add(second, None);
    var a, b := Item(first, false, 1), Item(second, false, LowPriority);
    assert list.Contents() == [a, b];
    var status := list.Mark(1);
    assert list.Contents() == [a.(done := true), b];
  }

  /**
    The session continued on a two-item list: an item number past the end is refused,
    and removing the first item moves the second into position 1.
   */
  method WalkthroughRemove(list: TodoList)
    requires list.Valid() && |list.items| == 2
    modifies list
  {
    var b := list.Contents()[1];
    var status := list.Remove(5);
    assert status == InvalidNumber;
    status := list.Remove(1);
    assert list.Contents() == [b];
  }
}
