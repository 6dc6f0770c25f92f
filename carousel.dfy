/**
 * The CEO carousel: an index into the slides, moved by the prev and next
 * buttons and set by the dots, with exactly the current slide and dot shown.
 */
module Carousel {

  /** A click the carousel reacts to. */
  datatype Click = Prev | Next | Dot(index: nat)

  /** The index after one click on a carousel of `n` slides. */
  function Step(current: int, n: nat, click: Click): int
  {
    match click
    case Prev => if current > 0 then current - 1 else current
    case Next => if current < n - 1 then current + 1 else current
    case Dot(i) => i
  }

  /** The index after a sequence of clicks. */
  function Run(current: int, n: nat, clicks: seq<Click>): int
    decreases |clicks|
  {
    if clicks == [] then current else Run(Step(current, n, clicks[0]), n, clicks[1..])
  }

  /** Every dot clicked names a slide (the page has as many dots as slides). */
  predicate DotsInRange(n: nat, clicks: seq<Click>)
  {
    forall k :: 0 <= k < |clicks| && clicks[k].Dot? ==> clicks[k].index < n
  }

  /** Starting on a slide, the index stays on a slide whatever is clicked. */
  lemma {:induction false} RunStaysInRange(current: int, n: nat, clicks: seq<Click>)
    requires 0 <= current < n && DotsInRange(n, clicks)
    ensures 0 <= Run(current, n, clicks) < n
    decreases |clicks|
  {
    if clicks != [] {
      assert DotsInRange(n, clicks[1..]) by {
        forall k | 0 <= k < |clicks[1..]| && clicks[1..][k].Dot? ensures clicks[1..][k].index < n {
          assert clicks[1..][k] == clicks[k + 1];
        }
      }
      RunStaysInRange(Step(current, n, clicks[0]), n, clicks[1..]);
    }
  }

  /** `k` clicks on next from slide `current` reach slide `current + k`, and stop at the last slide. */
  lemma {:induction false} NextClicksStopAtLast(current: nat, n: nat, k: nat)
    requires current < n
    ensures Run(current, n, seq(k, _ => Next)) == if current + k < n then current + k else n - 1
    decreases k
  {
    if k > 0 {
      assert seq(k, _ => Next)[1..] == seq(k - 1, _ => Next);
      NextClicksStopAtLast(Step(current, n, Next), n, k - 1);
    }
  }

  /** `k` clicks on prev from slide `current` go back `k` slides, and stop at the first slide. */
  lemma {:induction false} PrevClicksStopAtFirst(current: nat, n: nat, k: nat)
    requires current < n
    ensures Run(current, n, seq(k, _ => Prev)) == if current >= k then current - k else 0
    decreases k
  {
    if k > 0 {
      assert seq(k, _ => Prev)[1..] == seq(k - 1, _ => Prev);
      PrevClicksStopAtFirst(Step(current, n, Prev), n, k - 1);
    }
  }

  /** The carousel's state: the index, the `active` class of each slide and dot, and the buttons' `disabled`. */
  class CeoCarousel {
    var current: int
    const slides: array<bool>
    const dots: array<bool>
    var prevDisabled: bool
    var nextDisabled: bool

    /** What showSlide(idx) leaves on the page. */
    ghost predicate Shows(idx: int)
      reads this, slides, dots
    {
      && (forall i :: 0 <= i < slides.Length ==> slides[i] == (i == idx))
      && (forall i :: 0 <= i < dots.Length ==> dots[i] == (i == idx))
      && prevDisabled == (idx == 0)
      && nextDisabled == (idx == slides.Length - 1)
    }

    /**
     * The index is never negative and, with slides on the page, the page shows
     * it. A dot beyond the last slide can set an index that names no slide.
     */
    ghost predicate Valid()
      reads this, slides, dots
    {
      && slides != dots
      && 0 <= current
      && (slides.Length > 0 ==> Shows(current))
      && (slides.Length == 0 ==> current == 0)
    }

    /** Page load: `current` starts at 0, and with slides present showSlide(0) runs. */
    constructor (slideCount: nat, dotCount: nat)
      ensures Valid() && current == 0
      ensures slides.Length == slideCount && dots.Length == dotCount
      ensures fresh(slides) && fresh(dots)
    {
      current := 0;
      slides := new bool[slideCount](_ => false);
      dots := new bool[dotCount](_ => false);
      prevDisabled, nextDisabled := false, false;
      new;
      if slideCount > 0 {
        ShowSlide(0);
      }
    }

    /** showSlide: toggle every slide and dot, then the two buttons' `disabled`. */
    method ShowSlide(idx: int)
      requires slides != dots
      modifies this, slides, dots
      ensures Shows(idx) && current == old(current)
    {
      var i := 0;
      while i < slides.Length
        modifies slides
        invariant 0 <= i <= slides.Length
        invariant forall k :: 0 <= k < i ==> slides[k] == (k == idx)
      {
        slides[i] := i == idx;
        i := i + 1;
      }
      i := 0;
      while i < dots.Length
        modifies dots
        invariant 0 <= i <= dots.Length
        invariant forall k :: 0 <= k < slides.Length ==> slides[k] == (k == idx)
        invariant forall k :: 0 <= k < i ==> dots[k] == (k == idx)
      {
        dots[i] := i == idx;
        i := i + 1;
      }
      prevDisabled := idx == 0;
      nextDisabled := idx == slides.Length - 1;
    }

    /**
     * The prev button's handler (attached only when there are slides). At the
     * first slide the index stays and, as Valid fixes the page by the index,
     * nothing on the page changes.
     */
    method PrevClicked()
      requires Valid() && slides.Length > 0
      modifies this, slides, dots
      ensures Valid()
      ensures current == Step(old(current), slides.Length, Prev)
      ensures old(current) < slides.Length ==> current < slides.Length
      ensures old(current) == 0 ==>
        && slides[..] == old(slides[..]) && dots[..] == old(dots[..])
        && prevDisabled == old(prevDisabled) && nextDisabled == old(nextDisabled)
    {
      if current > 0 {
        current := current - 1;
        ShowSlide(current);
      }
    }

    /** The next button's handler: at the last slide nothing changes. */
    method NextClicked()
      requires Valid() && slides.Length > 0
      modifies this, slides, dots
      ensures Valid()
      ensures current == Step(old(current), slides.Length, Next)
      ensures old(current) < slides.Length ==> current < slides.Length
      ensures old(current) >= slides.Length - 1 ==>
        && slides[..] == old(slides[..]) && dots[..] == old(dots[..])
        && prevDisabled == old(prevDisabled) && nextDisabled == old(nextDisabled)
    {
      if current < slides.Length - 1 {
        current := current + 1;
        ShowSlide(current);
      }
    }

    /** The handler of dot `i`: jump to slide `i`. */
    method DotClicked(i: nat)
      requires Valid() && i < dots.Length && slides.Length > 0
      modifies this, slides, dots
      ensures Valid()
      ensures current == Step(old(current), slides.Length, Dot(i))
    {
      current := i;
      ShowSlide(current);
    }
  }
}
