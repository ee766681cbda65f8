/**
 * app/components/ui/Accordion.tsx: the list of open items and how a click
 * on an item's header changes it, in single and multiple mode.
 */
module Accordion {
  import opened Wrappers
  import opened Text

  /** `useState(defaultOpen ? [defaultOpen] : [])`. */
  function InitialItems(defaultOpen: Option<string>): (r: seq<string>)
    ensures Truthy(defaultOpen) ==> r == [defaultOpen.value]
    ensures !Truthy(defaultOpen) ==> r == []
  {
    if Truthy(defaultOpen) then [defaultOpen.value] else []
  }

  /** `prev.filter((item) => item !== id)`. */
  function Without(prev: seq<string>, id: string): (r: seq<string>)
    ensures |r| <= |prev|
    ensures forall x :: x in r <==> x in prev && x != id
    ensures id !in prev ==> r == prev
  {
    if prev == [] then []
    else
      var rest := Without(prev[1..], id);
      assert forall x :: x in prev <==> x == prev[0] || x in prev[1..];
      if prev[0] == id then rest else [prev[0]] + rest
  }

  /** Removing an item from a concatenation removes it from each part: the others keep their order and repeats. */
  lemma {:induction false} WithoutAppend(a: seq<string>, b: seq<string>, id: string)
    ensures Without(a + b, id) == Without(a, id) + Without(b, id)
    decreases |a|
  {
    if a != [] {
      var head := if a[0] == id then [] else [a[0]];
      assert (a + b)[0] == a[0] && (a + b)[1..] == a[1..] + b;
      assert Without(a + b, id) == head + Without(a[1..] + b, id);
      assert Without(a, id) == head + Without(a[1..], id);
      WithoutAppend(a[1..], b, id);
    } else {
      assert a + b == b;
    }
  }

  /** One item is kept exactly when it is not the one removed. */
  lemma WithoutSingleton(x: string, id: string)
    ensures Without([x], id) == if x == id then [] else [x]
  {
    assert [x][1..] == [];
  }

  /** The new list `toggleItem(id)` computes from `prev`. */
  function Toggled(prev: seq<string>, id: string, allowMultiple: bool): seq<string> {
    if allowMultiple then
      if id in prev then Without(prev, id) else prev + [id]
    else
      if id in prev then [] else [id]
  }

  /** No item is listed twice. */
  predicate Distinct(items: seq<string>) {
    forall i, j :: 0 <= i < j < |items| ==> items[i] != items[j]
  }

  lemma {:induction false} WithoutDistinct(prev: seq<string>, id: string)
    requires Distinct(prev)
    ensures Distinct(Without(prev, id))
  {
    if prev != [] {
      WithoutDistinct(prev[1..], id);
      assert prev[0] !in prev[1..];
    }
  }

  /** A toggle flips the clicked item, in either mode. */
  lemma ToggleFlips(prev: seq<string>, id: string, allowMultiple: bool)
    ensures id in Toggled(prev, id, allowMultiple) <==> id !in prev
  {
  }

  /** In multiple mode no other item opens or closes; an item opened goes last. */
  lemma ToggleMultipleKeepsOthers(prev: seq<string>, id: string, other: string)
    requires other != id
    ensures other in Toggled(prev, id, true) <==> other in prev
    ensures id !in prev ==> Toggled(prev, id, true) == prev + [id]
  {
  }

  /** In single mode a toggle leaves at most the clicked item open. */
  lemma ToggleSingleKeepsOne(prev: seq<string>, id: string)
    ensures |Toggled(prev, id, false)| <= 1
    ensures forall x :: x in Toggled(prev, id, false) ==> x == id
  {
  }

  class AccordionState {
    const allowMultiple: bool
    var activeItems: seq<string>

    /** No item listed twice, and at most one in single mode. */
    ghost predicate Valid()
      reads this
    {
      Distinct(activeItems) && (!allowMultiple ==> |activeItems| <= 1)
    }

    constructor (defaultOpen: Option<string>, allowMultiple: bool)
      ensures this.allowMultiple == allowMultiple
      ensures activeItems == InitialItems(defaultOpen)
      ensures Valid()
    {
      this.allowMultiple := allowMultiple;
      activeItems := InitialItems(defaultOpen);
    }

    /** `toggleItem(id)`. */
    method ToggleItem(id: string)
      requires Valid()
      modifies this
      ensures activeItems == Toggled(old(activeItems), id, allowMultiple)
      ensures Valid()
    {
      if allowMultiple {
        if id in activeItems {
          WithoutDistinct(activeItems, id);
          activeItems := Without(activeItems, id);
        } else {
          activeItems := activeItems + [id];
        }
      } else {
        activeItems := if id in activeItems then [] else [id];
      }
    }

    /** `isItemActive(id)`: the item is listed. */
    predicate IsItemActive(id: string)
      reads this
    {
      id in activeItems
    }
  }
}
