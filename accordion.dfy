// The accordion (src/components/ui/Accordion/Accordion.tsx): which items are
// open, and how toggling one item changes that set in single and multiple
// mode.
module Accordion {

  /** `toggleItem`'s update of the open set. */
  function Toggle(open: set<nat>, index: nat, allowMultiple: bool): (r: set<nat>)
    ensures index in r <==> index !in open
    ensures forall j :: j in r && j != index ==> j in open
    ensures allowMultiple || index in open ==> forall j :: j in open && j != index ==> j in r
    ensures !allowMultiple && index !in open ==> r == {index}
  {
    if index in open then open - {index}
    else if allowMultiple then open + {index}
    else {index}
  }

  /** Closing an open item removes exactly that item. */
  lemma CloseRemovesOnlyIt(open: set<nat>, index: nat, allowMultiple: bool)
    requires index in open
    ensures Toggle(open, index, allowMultiple) == open - {index}
  {
  }

  /** With several items allowed open, toggling the same item twice restores the open set. */
  lemma ToggleTwiceRestores(open: set<nat>, index: nat)
    ensures Toggle(Toggle(open, index, true), index, true) == open
  {
  }

  /** In single mode at most one item is ever open once at most one was. */
  lemma SingleModeKeepsOne(open: set<nat>, index: nat)
    requires |open| <= 1
    ensures |Toggle(open, index, false)| <= 1
  {
    if index in open {
      assert |open - {index}| == |open| - 1;
    }
  }

  /** In single mode, opening one item and toggling it again closes everything. */
  lemma SingleModeToggleTwiceCloses(open: set<nat>, index: nat)
    requires index !in open
    ensures Toggle(Toggle(open, index, false), index, false) == {}
  {
  }

  class Group {
    const allowMultiple: bool
    var openItems: set<nat>

    /** `useState(new Set(defaultOpenItems))`. */
    constructor (defaultOpenItems: seq<nat>, allowMultiple: bool)
      ensures this.allowMultiple == allowMultiple
      ensures forall i :: i in openItems <==> i in defaultOpenItems
    {
      this.allowMultiple := allowMultiple;
      openItems := set i | i in defaultOpenItems;
    }

    /** `isOpen` of the item at `index`. */
    predicate IsOpen(index: nat)
      reads this
    {
      index in openItems
    }

    /** `onToggle` of the item at `index`. */
    method ToggleItem(index: nat)
      modifies this
      ensures openItems == Toggle(old(openItems), index, allowMultiple)
      ensures IsOpen(index) <==> !old(IsOpen(index))
    {
      openItems := Toggle(openItems, index, allowMultiple);
    }
  }
}
