/** The FAQ accordion: clicking an item closes all and opens it unless it was open; Escape closes all. */
module Faq {
  import Marks

  /** The items' `active` flags after toggleFAQ on item `e`. */
  function Toggled(open: seq<bool>, e: nat): (r: seq<bool>)
    requires e < |open|
    ensures |r| == |open|
  {
    seq(|open|, i requires 0 <= i < |open| => i == e && !open[e])
  }

  /** After a toggle at most one item is open. */
  lemma ToggleLeavesAtMostOne(open: seq<bool>, e: nat)
    requires e < |open|
    ensures Marks.Count(Toggled(open, e)) <= 1
  {
    Marks.CountOnlyAt(Toggled(open, e), e);
  }

  /** Clicking a closed item makes it the only open one. */
  lemma ToggleClosedOpensOnlyIt(open: seq<bool>, e: nat)
    requires e < |open| && !open[e]
    ensures Marks.Count(Toggled(open, e)) == 1 && Toggled(open, e)[e]
  {
    Marks.CountOnlyAt(Toggled(open, e), e);
  }

  /** Clicking the open item leaves none open. */
  lemma ToggleOpenClosesAll(open: seq<bool>, e: nat)
    requires e < |open| && open[e]
    ensures Marks.Count(Toggled(open, e)) == 0
  {
    Marks.CountOnlyAt(Toggled(open, e), e);
  }

  /** The `.faq-item` elements' `active` flags. */
  class FaqList {
    const items: array<bool>

    constructor (markup: seq<bool>)
      ensures items[..] == markup && fresh(items)
    {
      items := new bool[|markup|](i requires 0 <= i < |markup| => markup[i]);
    }

    /** toggleFAQ on item `e`: note whether it was open, close every item, then reopen it only if it was closed. */
    method Toggle(e: nat)
      requires e < items.Length
      modifies items
      ensures items[..] == Toggled(old(items[..]), e)
    {
      var wasActive := items[e];
      var i := 0;
      while i < items.Length
        invariant 0 <= i <= items.Length
        invariant forall k :: 0 <= k < i ==> !items[k]
        invariant wasActive == old(items[e])
      {
        items[i] := false;
        i := i + 1;
      }
      if !wasActive {
        items[e] := true;
      }
    }

    /** The Escape key: remove `active` from every item that has it. */
    method Escape()
      modifies items
      ensures forall k :: 0 <= k < items.Length ==> !items[k]
      ensures Marks.Count(items[..]) == 0
    {
      var i := 0;
      while i < items.Length
        invariant 0 <= i <= items.Length
        invariant forall k :: 0 <= k < i ==> !items[k]
      {
        if items[i] {
          items[i] := false;
        }
        i := i + 1;
      }
      Marks.CountOnlyAt(items[..], -1);
    }
  }
}
