/**
 * The testimonial slider: the testimonials of one kind, ordered by their
 * display order, shown one at a time. The shown position moves forward and
 * back around a ring, jumps to a clicked dot, and advances on a timer when
 * there is more than one slide.
 */
module TestimonialSlider {
  import opened Sorting

  datatype TestimonialType = Customer | Employee

  datatype Testimonial = Testimonial(id: string, text: string, author: string, authorFunction: string,
                                     kind: TestimonialType, displayOrder: int)

  function DisplayOrder(t: Testimonial): int { t.displayOrder }

  function OfType(kind: TestimonialType): Testimonial -> bool {
    (t: Testimonial) => t.kind == kind
  }

  /** The slides: the testimonials of the requested kind, in stable ascending display order. */
  function Slides(testimonials: seq<Testimonial>, kind: TestimonialType): seq<Testimonial> {
    SortBy(Filter(testimonials, OfType(kind)), DisplayOrder)
  }

  /**
   * The slides are ordered by display order, hold every matching
   * testimonial as often as the input does and nothing else, and keep the
   * input order among testimonials with equal display order.
   */
  lemma SlidesMeaning(testimonials: seq<Testimonial>, kind: TestimonialType, t: Testimonial, order: int)
    ensures SortedBy(Slides(testimonials, kind), DisplayOrder)
    ensures multiset(Slides(testimonials, kind))[t] == if t.kind == kind then multiset(testimonials)[t] else 0
    ensures WithKey(Slides(testimonials, kind), DisplayOrder, order) == WithKey(Filter(testimonials, OfType(kind)), DisplayOrder, order)
  {
    FilterCount(testimonials, OfType(kind), t);
    SortByStable(Filter(testimonials, OfType(kind)), DisplayOrder, order);
  }

  /** `(i + 1) % n`. */
  function NextIndex(i: nat, n: nat): (r: nat)
    requires n > 0
    ensures r < n
  {
    (i + 1) % n
  }

  /** `(i - 1 + n) % n`; for `i >= 0` the dividend is never negative, so JavaScript's remainder agrees. */
  function PrevIndex(i: nat, n: nat): (r: nat)
    requires n > 0
    ensures r < n
  {
    (i - 1 + n) % n
  }

  /** From a valid position, next steps one forward and wraps from the last slide to the first; previous does the reverse. */
  lemma IndexSteps(i: nat, n: nat)
    requires i < n
    ensures NextIndex(i, n) == if i == n - 1 then 0 else i + 1
    ensures PrevIndex(i, n) == if i == 0 then n - 1 else i - 1
  {
  }

  /** Previous undoes next, and next undoes previous. */
  lemma NextPrevInverse(i: nat, n: nat)
    requires i < n
    ensures PrevIndex(NextIndex(i, n), n) == i
    ensures NextIndex(PrevIndex(i, n), n) == i
  {
    IndexSteps(i, n);
    IndexSteps(NextIndex(i, n), n);
    IndexSteps(PrevIndex(i, n), n);
  }

  /** The slider's state: its slides, recomputed from the props, and the position shown. */
  class Slider {
    const slides: seq<Testimonial>
    var current: nat

    ghost predicate Valid()
      reads this
    {
      current < |slides|
    }

    /** The first render; with no slides the component renders nothing and has no controls. */
    constructor (testimonials: seq<Testimonial>, kind: TestimonialType)
      ensures slides == Slides(testimonials, kind) && current == 0
      ensures |slides| > 0 ==> Valid()
    {
      slides := Slides(testimonials, kind);
      current := 0;
    }

    /** Whether the component renders at all. */
    function Renders(): bool
      reads this
    {
      |slides| > 0
    }

    /** The arrows, the dots and the timer exist only with more than one slide. */
    function HasControls(): bool
      reads this
    {
      |slides| > 1
    }

    function Shown(): Testimonial
      reads this
      requires Valid()
    {
      slides[current]
    }

    method HandleNext()
      requires Renders()
      modifies this
      ensures current == NextIndex(old(current), |slides|)
      ensures Valid()
    {
      current := (current + 1) % |slides|;
    }

    method HandlePrev()
      requires Renders()
      modifies this
      ensures current == PrevIndex(old(current), |slides|)
      ensures Valid()
    {
      current := (current - 1 + |slides|) % |slides|;
    }

    /** A dot click moves to exactly that dot's slide; the dots are numbered over the slides. */
    method HandleDotClick(index: nat)
      requires index < |slides|
      modifies this
      ensures current == index
      ensures Valid()
    {
      current := index;
    }

    /** One tick of the eight-second timer, which runs only when there are controls. */
    method Tick()
      requires Renders()
      modifies this
      ensures current == if HasControls() then NextIndex(old(current), |slides|) else old(current)
    {
      if |slides| > 1 {
        HandleNext();
      }
    }
  }
}
