/**
 * The testimonial carousel: the index of the testimonial on show, the
 * autoplay flag, the previous/next buttons, the autoplay tick, and the row
 * of five rating stars.
 */
module TestimonialCarousel {
  import opened Types

  /** The index after "next" (and after an autoplay tick) among `n` testimonials: one on, wrapping to 0. */
  function Next(i: nat, n: nat): (r: nat)
    requires n > 0
    ensures r < n
    ensures i < n ==> r == (if i == n - 1 then 0 else i + 1)
  {
    (i + 1) % n
  }

  /** The index after "previous" among `n` testimonials: one back, wrapping to the last. */
  function Prev(i: nat, n: nat): (r: nat)
    requires n > 0
    ensures r < n
    ensures i < n ==> r == (if i == 0 then n - 1 else i - 1)
  {
    (i - 1 + n) % n
  }

  /** "Previous" undoes "next". */
  lemma PrevUndoesNext(i: nat, n: nat)
    requires i < n
    ensures Prev(Next(i, n), n) == i
  {
  }

  /** "Next" undoes "previous". */
  lemma NextUndoesPrev(i: nat, n: nat)
    requires i < n
    ensures Next(Prev(i, n), n) == i
  {
  }

  /** The index after `k` autoplay ticks (or `k` presses of "next"). */
  function Advance(i: nat, n: nat, k: nat): (r: nat)
    requires n > 0
    ensures r < n || (k == 0 && r == i)
  {
    if k == 0 then i else Next(Advance(i, n, k - 1), n)
  }

  /** Within one round, `k` ticks move the index `k` places on, wrapping once past the end. */
  lemma {:induction false} AdvanceWithinRound(i: nat, n: nat, k: nat)
    requires i < n && k <= n
    ensures Advance(i, n, k) == (if i + k < n then i + k else i + k - n)
  {
    if k > 0 {
      AdvanceWithinRound(i, n, k - 1);
    }
  }

  /** After exactly `n` ticks the carousel is back at the testimonial it started from. */
  lemma FullRoundReturns(i: nat, n: nat)
    requires i < n
    ensures Advance(i, n, n) == i
  {
    AdvanceWithinRound(i, n, n);
  }

  /** Autoplay shows every testimonial within one round, wherever it starts. */
  lemma EveryTestimonialShown(i: nat, n: nat, j: nat)
    requires i < n && j < n
    ensures exists k :: 0 <= k < n && Advance(i, n, k) == j
  {
    var k: nat := if i <= j then j - i else j + n - i;
    AdvanceWithinRound(i, n, k);
  }

  /** The smallest integer not below `x`. */
  function Ceiling(x: real): (c: int)
    ensures (c - 1) as real < x <= c as real
  {
    -((-x).Floor)
  }

  /** The fill of each of the five stars for a rating: star `i` (from 0) is filled when `i < rating`. */
  function StarFills(rating: real): (stars: seq<bool>)
    ensures |stars| == 5
  {
    seq(5, i requires 0 <= i < 5 => (i as real) < rating)
  }

  /** How many stars a rating fills: the rating rounded up, kept within 0 to 5. */
  function FilledStars(rating: real): (k: nat)
    ensures k <= 5
  {
    var c := Ceiling(rating);
    if c < 0 then 0 else if c > 5 then 5 else c
  }

  /**
   * The stars always read as a run of filled stars followed by a run of
   * empty ones, and the filled run is the rating rounded up: 4 fills four
   * stars and 4.5 fills all five.
   */
  lemma StarsFilledPrefix(rating: real)
    ensures StarFills(rating)
            == seq(FilledStars(rating), _ => true) + seq(5 - FilledStars(rating), _ => false)
  {
    var stars := StarFills(rating);
    var k := FilledStars(rating);
    var expected := seq(k, _ => true) + seq(5 - k, _ => false);
    forall i | 0 <= i < 5
      ensures stars[i] == expected[i]
    {
      assert stars[i] == ((i as real) < rating);
      assert (i as real) < rating <==> i < Ceiling(rating);
    }
  }

  /** A whole-number rating from 0 to 5 fills exactly that many stars. */
  lemma WholeRatingFillsThatMany(k: nat)
    requires k <= 5
    ensures FilledStars(k as real) == k
  {
  }

  /**
   * The carousel's state: the testimonials it shows (fixed for its lifetime),
   * the index of the one on show and whether autoplay is running.
   */
  class Carousel {
    const items: seq<Testimonial>
    var currentIndex: nat
    var autoplay: bool

    /** The index always points at a testimonial. */
    predicate Valid()
      reads this
    {
      currentIndex < |items|
    }

    /** Starts on the first testimonial with autoplay on; needs at least one testimonial. */
    constructor(items: seq<Testimonial>)
      requires |items| > 0
      ensures this.items == items
      ensures currentIndex == 0 && autoplay
      ensures Valid()
    {
      this.items := items;
      currentIndex := 0;
      autoplay := true;
    }

    /** The testimonial on show. */
    function Current(): (t: Testimonial)
      reads this
      requires Valid()
      ensures t in items
      ensures t == items[currentIndex]
    {
      items[currentIndex]
    }

    /** The "next" button. */
    method ShowNext()
      requires Valid()
      modifies this
      ensures currentIndex == Next(old(currentIndex), |items|)
      ensures autoplay == old(autoplay)
      ensures Valid()
    {
      currentIndex := (currentIndex + 1) % |items|;
    }

    /** The "previous" button. */
    method ShowPrevious()
      requires Valid()
      modifies this
      ensures currentIndex == Prev(old(currentIndex), |items|)
      ensures autoplay == old(autoplay)
      ensures Valid()
    {
      currentIndex := (currentIndex - 1 + |items|) % |items|;
    }

    /** One autoplay interval elapsing: the index moves on only while autoplay is running. */
    method Tick()
      requires Valid()
      modifies this
      ensures old(autoplay) ==> currentIndex == Next(old(currentIndex), |items|)
      ensures !old(autoplay) ==> currentIndex == old(currentIndex)
      ensures autoplay == old(autoplay)
      ensures Valid()
    {
      if autoplay {
        currentIndex := (currentIndex + 1) % |items|;
      }
    }

    /** The pointer entering the carousel pauses autoplay. */
    method MouseEnter()
      modifies this
      ensures !autoplay
      ensures currentIndex == old(currentIndex)
    {
      autoplay := false;
    }

    /** The pointer leaving the carousel resumes autoplay. */
    method MouseLeave()
      modifies this
      ensures autoplay
      ensures currentIndex == old(currentIndex)
    {
      autoplay := true;
    }
  }
}
