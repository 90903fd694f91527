/** The testimonial carousel: which testimonial is on screen, how the
    arrow buttons, the indicator dots and the autoplay timer move it, and
    how a rating is drawn as a row of five stars. */
module Testimonials {
  import Flags

  datatype Testimonial = Testimonial(
    id: nat,
    name: string,
    role: string,
    rating: int,
    text: string,
    image: string)

  const Testimonial1: Testimonial := Testimonial(1, "Mike Rodriguez", "Professional Mechanic", 5,
    "AutoParts Pro has been my go-to supplier for over 10 years. Their quality is unmatched and the customer service is exceptional. Every part I order arrives exactly as described.",
    "/placeholder.svg")
  const Testimonial2: Testimonial := Testimonial(2, "Sarah Chen", "Car Enthusiast", 5,
    "I've restored three classic cars using parts from AutoParts Pro. Their extensive catalog and expert advice helped me find even the most obscure components.",
    "/placeholder.svg")
  const Testimonial3: Testimonial := Testimonial(3, "David Thompson", "Fleet Manager", 5,
    "Managing a fleet of 50+ vehicles requires reliable parts suppliers. AutoParts Pro consistently delivers quality parts on time, helping us maintain our uptime.",
    "/placeholder.svg")
  const Testimonial4: Testimonial := Testimonial(4, "Lisa Martinez", "DIY Car Owner", 5,
    "As someone who likes to work on my own car, I appreciate the detailed product descriptions and installation guides. The parts always fit perfectly.",
    "/placeholder.svg")

  /** The four testimonials of the section, in display order. */
  function AllTestimonials(): (ts: seq<Testimonial>)
    ensures |ts| == 4
    ensures forall j :: 0 <= j < |ts| ==> ts[j].id == j + 1 && ts[j].rating == 5
  {
    [Testimonial1, Testimonial2, Testimonial3, Testimonial4]
  }

  // ---------------------------------------------------------------------
  // Modular arithmetic used by the slide transitions
  // ---------------------------------------------------------------------

  lemma MulAtLeast(a: int, n: int)
    requires a >= 1 && n > 0
    ensures a * n >= n
  {
  }

  /** Quotient and remainder are unique: x == q * n + r with 0 <= r < n
      fixes x % n and x / n. */
  lemma ModUnique(x: int, n: int, q: int, r: int)
    requires n > 0 && 0 <= r < n && x == q * n + r
    ensures x % n == r && x / n == q
  {
    var q', r' := x / n, x % n;
    assert x == q' * n + r';
    if q' > q {
      assert (q' - q) * n == q' * n - q * n;
      MulAtLeast(q' - q, n);
    } else if q' < q {
      assert (q - q') * n == q * n - q' * n;
      MulAtLeast(q - q', n);
    }
  }

  /** Adding a multiple of n changes nothing modulo n. */
  lemma ModAddMultiple(x: int, n: int, m: int)
    requires n > 0
    ensures (x + m * n) % n == x % n
  {
    var q := x / n;
    assert x == q * n + x % n;
    assert q * n + m * n == (q + m) * n;
    ModUnique(x + m * n, n, q + m, x % n);
  }

  /** Reducing one summand modulo n first changes nothing modulo n. */
  lemma ModReduceSummand(i: int, k: int, n: int)
    requires n > 0
    ensures (i + k) % n == (i + k % n) % n
  {
    var q, r := k / n, k % n;
    assert k == q * n + r;
    ModAddMultiple(i + r, n, q);
  }

  /** Taking the remainder before adding one changes nothing modulo n. */
  lemma ModSucc(x: nat, n: nat)
    requires n > 0
    ensures (x % n + 1) % n == (x + 1) % n
  {
    var q, r := x / n, x % n;
    assert x == q * n + r;
    if r + 1 < n {
      ModUnique(x + 1, n, q, r + 1);
      ModUnique(r + 1, n, 0, r + 1);
    } else {
      assert x + 1 == (q + 1) * n + 0;
      ModUnique(x + 1, n, q + 1, 0);
      ModUnique(r + 1, n, 1, 0);
    }
  }

  // ---------------------------------------------------------------------
  // Slide transitions
  // ---------------------------------------------------------------------

  /** The slide after `i` in a carousel of `n` slides, `(i + 1) % n`: the
      one to its right, wrapping from the last back to the first. */
  function NextIndex(i: nat, n: nat): (r: nat)
    requires i < n
    ensures r < n
    ensures r == if i == n - 1 then 0 else i + 1
  {
    (i + 1) % n
  }

  /** The slide before `i` in a carousel of `n` slides, `(i - 1 + n) % n`:
      the one to its left, wrapping from the first to the last. */
  function PrevIndex(i: nat, n: nat): (r: nat)
    requires i < n
    ensures r < n
    ensures r == if i == 0 then n - 1 else i - 1
  {
    (i - 1 + n) % n
  }

  /** Going back one slide and then forward one, or forward and then
      back, returns to the slide one started from. */
  lemma PrevNextInverse(i: nat, n: nat)
    requires i < n
    ensures NextIndex(PrevIndex(i, n), n) == i
    ensures PrevIndex(NextIndex(i, n), n) == i
  {
  }

  /** The slide reached from `i` after `k` forward steps. */
  function Advance(i: nat, n: nat, k: nat): (r: nat)
    requires i < n
    ensures r < n
    decreases k
  {
    if k == 0 then i else NextIndex(Advance(i, n, k - 1), n)
  }

  /** k forward steps from slide i land on slide (i + k) % n. */
  lemma {:induction false} AdvanceIsModularSum(i: nat, n: nat, k: nat)
    requires i < n
    ensures Advance(i, n, k) == (i + k) % n
    decreases k
  {
    if k == 0 {
      ModUnique(i, n, 0, i);
    } else {
      AdvanceIsModularSum(i, n, k - 1);
      ModSucc(i + k - 1, n);
    }
  }

  /** n forward steps in a carousel of n slides come back to the start. */
  lemma FullCycle(i: nat, n: nat)
    requires i < n
    ensures Advance(i, n, n) == i
  {
    AdvanceIsModularSum(i, n, n);
    ModUnique(i + n, n, 1, i);
  }

  /** k autoplay ticks (one every 5000 ms) move the carousel on by k mod n
      slides. */
  lemma AutoplayAdvance(i: nat, n: nat, k: nat)
    requires i < n
    ensures Advance(i, n, k) == (i + k % n) % n
  {
    AdvanceIsModularSum(i, n, k);
    ModReduceSummand(i, k, n);
  }

  // ---------------------------------------------------------------------
  // Rendering
  // ---------------------------------------------------------------------

  /** The number of stars drawn for every rating. */
  const StarCount: nat := 5

  /** The five stars of a rating: star i is filled when i < rating. */
  function RenderStars(rating: int): (filled: seq<bool>)
    ensures |filled| == StarCount
    ensures forall i :: 0 <= i < StarCount ==> filled[i] == (i < rating)
  {
    seq(StarCount, i => i < rating)
  }

  /** The number of filled stars is the rating clipped to [0, 5]. */
  lemma FilledStars(rating: int)
    ensures Flags.CountTrue(RenderStars(rating)) == Flags.Clamp(rating, 0, StarCount)
  {
    Flags.CountTruePrefix(RenderStars(rating), rating);
  }

  /** Every built-in testimonial shows five filled stars. */
  lemma AllTestimonialsShowFiveStars(j: nat)
    requires j < |AllTestimonials()|
    ensures Flags.CountTrue(RenderStars(AllTestimonials()[j].rating)) == 5
  {
    FilledStars(AllTestimonials()[j].rating);
  }

  /** The indicator dots, one per slide: dot j is active when j is the
      current slide. */
  function Indicators(current: nat, n: nat): (active: seq<bool>)
    ensures |active| == n
    ensures forall j :: 0 <= j < n ==> active[j] == (j == current)
  {
    seq(n, j => j == current)
  }

  /** Exactly one dot is active while the current slide is valid. */
  lemma ExactlyOneIndicatorActive(current: nat, n: nat)
    requires current < n
    ensures Flags.CountTrue(Indicators(current, n)) == 1
  {
    Flags.CountTrueSingle(Indicators(current, n), current);
  }

  // ---------------------------------------------------------------------
  // The carousel state
  // ---------------------------------------------------------------------

  class Carousel {
    const testimonials: seq<Testimonial>
    var currentSlide: nat

    /** The current slide is always a valid index of a non-empty list. */
    ghost predicate Valid()
      reads this
    {
      0 < |testimonials| && currentSlide < |testimonials|
    }

    /** The carousel starts on the first slide. */
    constructor (testimonials: seq<Testimonial>)
      requires 0 < |testimonials|
      ensures Valid()
      ensures this.testimonials == testimonials && currentSlide == 0
    {
      this.testimonials := testimonials;
      currentSlide := 0;
    }

    /** The dots under the card, as the current state draws them. */
    function ActiveIndicators(): (active: seq<bool>)
      requires Valid()
      reads this
      ensures |active| == |testimonials|
      ensures Flags.CountTrue(active) == 1
      ensures active[currentSlide]
    {
      ExactlyOneIndicatorActive(currentSlide, |testimonials|);
      Indicators(currentSlide, |testimonials|)
    }

    /** The right arrow. */
    method NextSlide()
      requires Valid()
      modifies this
      ensures Valid()
      ensures currentSlide == NextIndex(old(currentSlide), |testimonials|)
    {
      currentSlide := (currentSlide + 1) % |testimonials|;
    }

    /** The left arrow. */
    method PrevSlide()
      requires Valid()
      modifies this
      ensures Valid()
      ensures currentSlide == PrevIndex(old(currentSlide), |testimonials|)
    {
      currentSlide := (currentSlide - 1 + |testimonials|) % |testimonials|;
    }

    /** One firing of the autoplay interval: the same transition as the
        right arrow. */
    method Tick()
      requires Valid()
      modifies this
      ensures Valid()
      ensures currentSlide == NextIndex(old(currentSlide), |testimonials|)
    {
      currentSlide := (currentSlide + 1) % |testimonials|;
    }

    /** `k` firings of the autoplay interval in a row: the carousel moves
        on by `k` slides, that is by `k mod n`. */
    method Autoplay(k: nat)
      requires Valid()
      modifies this
      ensures Valid()
      ensures currentSlide == Advance(old(currentSlide), |testimonials|, k)
      ensures currentSlide == (old(currentSlide) + k % |testimonials|) % |testimonials|
    {
      ghost var start := currentSlide;
      var j := 0;
      while j < k
        invariant j <= k && Valid()
        invariant currentSlide == Advance(start, |testimonials|, j)
      {
        Tick();
        j := j + 1;
      }
      AutoplayAdvance(start, |testimonials|, k);
    }

    /** A click on indicator dot `index`; the dots are generated from the
        list itself, so `index` is always a valid position. */
    method GoTo(index: nat)
      requires Valid() && index < |testimonials|
      modifies this
      ensures Valid()
      ensures currentSlide == index
    {
      currentSlide := index;
    }
  }

  /** The four built-in testimonials: four presses of the right arrow from
      the first slide come back to it, and one press of the left arrow
      from the first slide reaches the last. */
  method FourTestimonialScenario() returns (afterFourNext: nat, afterOnePrev: nat)
    ensures afterFourNext == 0 && afterOnePrev == 3
  {
    var c := new Carousel(AllTestimonials());
    c.NextSlide();
    c.NextSlide();
    c.NextSlide();
    c.NextSlide();
    afterFourNext := c.currentSlide;
    var d := new Carousel(AllTestimonials());
    d.PrevSlide();
    afterOnePrev := d.currentSlide;
  }
}
