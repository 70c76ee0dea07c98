/** `TaskCard`: a Kanban card holding its own copy of the checklist, which
    the user ticks item by item. */
module TaskCard {
  import opened Wrappers
  import opened Rounding
  import opened Counting

  datatype ChecklistItem = ChecklistItem(id: string, text: string, completed: bool)

  datatype Priority = Low | Medium | High

  predicate IsTicked(item: ChecklistItem) { item.completed }

  /** `items.filter(item => item.completed).length`. */
  function CompletedItems(items: seq<ChecklistItem>): nat
  {
    Count(items, IsTicked)
  }

  /** The progress bar: 0 for an empty checklist, otherwise the rounded
      percentage of completed items. */
  function ChecklistProgress(items: seq<ChecklistItem>): (r: int)
    ensures 0 <= r <= 100
    ensures |items| == 0 ==> r == 0
  {
    if |items| > 0 then
      PercentBounds(CompletedItems(items), |items|);
      Percent(CompletedItems(items), |items|)
    else 0
  }

  // ---------------------------------------------------------------------
  // handleCheckboxChange

  function ToggleItem(item: ChecklistItem, itemId: string): ChecklistItem
  {
    if item.id == itemId then item.(completed := !item.completed) else item
  }

  /** The checklist after `handleCheckboxChange(itemId)`. */
  function Toggled(items: seq<ChecklistItem>, itemId: string): (r: seq<ChecklistItem>)
    ensures |r| == |items|
    ensures forall k :: 0 <= k < |items| ==> r[k].id == items[k].id
  {
    if |items| == 0 then []
    else Toggled(items[..|items| - 1], itemId) + [ToggleItem(items[|items| - 1], itemId)]
  }

  /** The toast a newly completed item raises. */
  function CompletionNotice(item: ChecklistItem): string
  {
    item.text + " foi marcado como concluído"
  }

  /** The toasts `handleCheckboxChange(itemId)` raises, in order. */
  function Notices(items: seq<ChecklistItem>, itemId: string): (r: seq<string>)
    ensures |r| <= |items|
    ensures (forall k :: 0 <= k < |items| ==> items[k].id != itemId) ==> r == []
  {
    if |items| == 0 then []
    else
      var last := items[|items| - 1];
      Notices(items[..|items| - 1], itemId)
        + (if last.id == itemId && !last.completed then [CompletionNotice(last)] else [])
  }

  /** The toggle keeps length and order, and flips `completed` on exactly the
      items whose id matches; ids and texts never change. */
  lemma {:induction false} ToggledPointwise(items: seq<ChecklistItem>, itemId: string)
    ensures |Toggled(items, itemId)| == |items|
    ensures forall k :: 0 <= k < |items| ==>
      && Toggled(items, itemId)[k].id == items[k].id
      && Toggled(items, itemId)[k].text == items[k].text
      && (Toggled(items, itemId)[k].completed == if items[k].id == itemId then !items[k].completed else items[k].completed)
  {
    if |items| > 0 {
      ToggledPointwise(items[..|items| - 1], itemId);
    }
  }

  /** Toggling the same id twice restores the checklist. */
  lemma ToggleTwice(items: seq<ChecklistItem>, itemId: string)
    ensures Toggled(Toggled(items, itemId), itemId) == items
  {
    var once := Toggled(items, itemId);
    ToggledPointwise(items, itemId);
    ToggledPointwise(once, itemId);
    var twice := Toggled(once, itemId);
    assert forall k :: 0 <= k < |items| ==> twice[k] == items[k];
  }

  /** Toggling an id no item has changes nothing. */
  lemma ToggleAbsent(items: seq<ChecklistItem>, itemId: string)
    requires forall k :: 0 <= k < |items| ==> items[k].id != itemId
    ensures Toggled(items, itemId) == items
  {
    ToggledPointwise(items, itemId);
    var t := Toggled(items, itemId);
    assert forall k :: 0 <= k < |items| ==> t[k] == items[k];
  }

  /** Number of items with the given id that are not yet completed. */
  function PendingMatches(items: seq<ChecklistItem>, itemId: string): nat
  {
    if |items| == 0 then 0
    else
      var last := items[|items| - 1];
      PendingMatches(items[..|items| - 1], itemId) + (if last.id == itemId && !last.completed then 1 else 0)
  }

  /** One toast per matching item that goes from open to completed, and none
      for an item that is being unticked. */
  lemma {:induction false} NoticesOnlyOnCompletion(items: seq<ChecklistItem>, itemId: string)
    ensures |Notices(items, itemId)| == PendingMatches(items, itemId)
    ensures forall n :: n in Notices(items, itemId) ==>
      exists k :: 0 <= k < |items| && items[k].id == itemId && !items[k].completed && n == CompletionNotice(items[k])
  {
    if |items| > 0 {
      var init := items[..|items| - 1];
      NoticesOnlyOnCompletion(init, itemId);
      forall n | n in Notices(items, itemId)
        ensures exists k :: 0 <= k < |items| && items[k].id == itemId && !items[k].completed && n == CompletionNotice(items[k])
      {
        if n in Notices(init, itemId) {
          var k :| 0 <= k < |init| && init[k].id == itemId && !init[k].completed && n == CompletionNotice(init[k]);
          assert items[k] == init[k];
        } else {
          assert items[|items| - 1].id == itemId && !items[|items| - 1].completed;
        }
      }
    }
  }

  // ---------------------------------------------------------------------
  // What the card shows

  /** `items.slice(0, 3)`. */
  function VisibleItems(items: seq<ChecklistItem>): seq<ChecklistItem>
  {
    if |items| <= 3 then items else items[..3]
  }

  /** The "+n itens não exibidos" note, present only beyond three items. */
  function HiddenCount(items: seq<ChecklistItem>): Option<nat>
  {
    if |items| > 3 then Some(|items| - 3) else None
  }

  /** At most three items are listed, they are the first ones, and together with
      the hidden count they account for the whole checklist. */
  lemma VisibleAndHidden(items: seq<ChecklistItem>)
    ensures |VisibleItems(items)| <= 3
    ensures VisibleItems(items) == items[..|VisibleItems(items)|]
    ensures |VisibleItems(items)| + (if HiddenCount(items).Some? then HiddenCount(items).value else 0) == |items|
    ensures HiddenCount(items).Some? <==> |items| > 3
  {
  }

  function PriorityLabel(p: Priority): string
  {
    match p
    case Low => "Baixa"
    case Medium => "Média"
    case High => "Alta"
  }

  function PriorityColors(p: Priority): string
  {
    match p
    case Low => "bg-blue-100 text-blue-800"
    case Medium => "bg-amber-100 text-amber-800"
    case High => "bg-red-100 text-red-800"
  }

  /** Each priority has its own label and its own colours. */
  lemma PriorityPresentationDistinct(p: Priority, q: Priority)
    ensures PriorityLabel(p) == PriorityLabel(q) ==> p == q
    ensures PriorityColors(p) == PriorityColors(q) ==> p == q
  {
  }

  // ---------------------------------------------------------------------
  // The card's state

  class TaskCardState {
    var items: seq<ChecklistItem>

    constructor (checklist: seq<ChecklistItem>)
      ensures items == checklist
    {
      items := checklist;
    }

    function Progress(): (r: int)
      reads this
      ensures 0 <= r <= 100
    {
      ChecklistProgress(items)
    }

    /** `handleCheckboxChange`: flips the matching items and returns the toasts raised. */
    method HandleCheckboxChange(itemId: string) returns (notices: seq<string>)
      modifies this
      ensures items == Toggled(old(items), itemId)
      ensures notices == Notices(old(items), itemId)
    {
      var current := items;
      var updated: seq<ChecklistItem> := [];
      notices := [];
      var i := 0;
      while i < |current|
        invariant 0 <= i <= |current|
        invariant updated == Toggled(current[..i], itemId)
        invariant notices == Notices(current[..i], itemId)
      {
        var item := current[i];
        assert current[..i + 1][..i] == current[..i];
        if item.id == itemId {
          var newState := !item.completed;
          if newState {
            notices := notices + [item.text + " foi marcado como concluído"];
          }
          updated := updated + [item.(completed := newState)];
        } else {
          updated := updated + [item];
        }
        i := i + 1;
      }
      assert current[..i] == current;
      items := updated;
    }
  }
}
