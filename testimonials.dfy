/**
 * The testimonial slider: an index advanced modulo the number of cards by a
 * timer tick or set by a dot, with the current card active and the rest blurred.
 */
module Testimonials {

  /** The index after one timer tick: `(current + 1) % n`. */
  function Advance(current: int, n: nat): int
    requires n > 0
  {
    (current + 1) % n
  }

  /** The index after `k` ticks. */
  function AdvanceTimes(current: int, n: nat, k: nat): int
    requires n > 0
    decreases k
  {
    if k == 0 then current else Advance(AdvanceTimes(current, n, k - 1), n)
  }

  /** On a valid index a tick moves to the next card, or from the last card back to the first. */
  lemma AdvanceOnCard(current: nat, n: nat)
    requires current < n
    ensures Advance(current, n) == if current + 1 < n then current + 1 else 0
  {
  }

  /** `x` reduced by whole rounds of `n`: the card reached after `x` ticks from card 0. */
  function Wrap(x: nat, n: nat): (r: nat)
    requires n > 0
    ensures r < n
  {
    if x < n then x else Wrap(x - n, n)
  }

  /** Counting one further tick moves the wrapped count by one card. */
  lemma {:induction false} WrapSucc(x: nat, n: nat)
    requires n > 0
    ensures Wrap(x + 1, n) == if Wrap(x, n) + 1 < n then Wrap(x, n) + 1 else 0
  {
    if x >= n {
      WrapSucc(x - n, n);
    }
  }

  /** After `k` ticks from a valid index the index is `current + k` wrapped round the cards. */
  lemma {:induction false} AdvanceTimesIsWrap(current: nat, n: nat, k: nat)
    requires current < n
    ensures AdvanceTimes(current, n, k) == Wrap(current + k, n)
    decreases k
  {
    if k > 0 {
      AdvanceTimesIsWrap(current, n, k - 1);
      WrapSucc(current + k - 1, n);
      AdvanceOnCard(Wrap(current + k - 1, n), n);
    }
  }

  /** The rotation stays on a card and comes back to where it started after `n` ticks. */
  lemma FullCycle(current: nat, n: nat, k: nat)
    requires current < n
    ensures 0 <= AdvanceTimes(current, n, k) < n
    ensures AdvanceTimes(current, n, n) == current
  {
    AdvanceTimesIsWrap(current, n, k);
    AdvanceTimesIsWrap(current, n, n);
  }

  /** A card's `active` and `blur` classes: neither (as in the page markup), active, or blurred. */
  datatype Look = Unstyled | Active | Blurred

  class TestimonialSlider {
    var current: int
    const cards: array<Look>
    const dots: array<bool>

    /**
     * There is a card and the index is not negative. The index need not name a
     * card: it starts at 1 even with a single card, and a dot beyond the last
     * card sets an index past the end.
     */
    ghost predicate Valid()
      reads this
    {
      cards.Length > 0 && 0 <= current
    }

    /** What updateTestimonials leaves: the current card active, every other card blurred, only the current dot active. */
    ghost predicate Shows(idx: int)
      reads this, cards, dots
    {
      && (forall i :: 0 <= i < cards.Length ==> cards[i] == if i == idx then Active else Blurred)
      && (forall i :: 0 <= i < dots.Length ==> dots[i] == (i == idx))
    }

    /**
     * Page load: the index starts at 1 and the cards and dots keep the classes
     * of the markup until the first update.
     */
    constructor (markup: seq<Look>, dotMarkup: seq<bool>)
      requires |markup| > 0
      ensures Valid() && current == 1
      ensures cards[..] == markup && dots[..] == dotMarkup
      ensures fresh(cards) && fresh(dots)
    {
      current := 1;
      cards := new Look[|markup|](i requires 0 <= i < |markup| => markup[i]);
      dots := new bool[|dotMarkup|](i requires 0 <= i < |dotMarkup| => dotMarkup[i]);
    }

    /** updateTestimonials: rewrite every card's classes, then every dot's. */
    method Update()
      modifies cards, dots
      ensures Shows(current)
    {
      var i := 0;
      while i < cards.Length
        modifies cards
        invariant 0 <= i <= cards.Length
        invariant forall k :: 0 <= k < i ==> cards[k] == if k == current then Active else Blurred
      {
        cards[i] := if i == current then Active else Blurred;
        i := i + 1;
      }
      i := 0;
      while i < dots.Length
        modifies dots
        invariant 0 <= i <= dots.Length
        invariant forall k :: 0 <= k < i ==> dots[k] == (k == current)
      {
        dots[i] := i == current;
        i := i + 1;
      }
    }

    /**
     * The five-second timer's callback: advance modulo the number of cards,
     * then update. Whatever the index was, it now names a card.
     */
    method Tick()
      requires Valid()
      modifies this, cards, dots
      ensures Valid() && Shows(current)
      ensures current == Advance(old(current), cards.Length)
      ensures current < cards.Length
    {
      current := (current + 1) % cards.Length;
      Update();
    }

    /** The handler of dot `index`: jump to card `index`, then update. */
    method DotClicked(index: nat)
      requires Valid() && index < dots.Length
      modifies this, cards, dots
      ensures Valid() && Shows(current)
      ensures current == index
    {
      current := index;
      Update();
    }
  }
}
