/** The slide index of the image carousel (`src/components/ui/carousel.tsx`). The index is a
    JavaScript number: with no items, `x % 0` is `NaN`, and `NaN` stays `NaN` under `+ 1`,
    `- 1` and `%`. */
module Carousel {

  datatype Index = At(i: int) | NaN

  /** JavaScript `a % n` on integers: the sign follows the dividend, and `n == 0` gives NaN. */
  function JsRem(a: int, n: int): (r: Index)
    ensures n == 0 <==> r.NaN?
    ensures n > 0 && a >= 0 ==> r == At(a % n)
  {
    if n == 0 then NaN
    else if a >= 0 then At(a % (if n > 0 then n else -n))
    else At(-((-a) % (if n > 0 then n else -n)))
  }

  /** `(prevIndex + 1) % items.length`. */
  function NextIndex(c: Index, n: nat): Index {
    match c
    case NaN => NaN
    case At(i) => JsRem(i + 1, n)
  }

  /** `prevIndex === 0 ? items.length - 1 : prevIndex - 1`. */
  function PrevIndex(c: Index, n: nat): Index {
    match c
    case NaN => NaN
    case At(i) => if i == 0 then At(n - 1) else At(i - 1)
  }

  predicate InRange(c: Index, n: nat) {
    c.At? && 0 <= c.i < n
  }

  /** Both steps keep an index in range; next moves forward by one and wraps to 0, previous
      moves back by one and wraps to the last slide. */
  lemma StepsStayInRange(c: Index, n: nat)
    requires InRange(c, n)
    ensures InRange(NextIndex(c, n), n) && InRange(PrevIndex(c, n), n)
    ensures NextIndex(c, n) == if c.i == n - 1 then At(0) else At(c.i + 1)
    ensures PrevIndex(c, n) == if c.i == 0 then At(n - 1) else At(c.i - 1)
  {
    if c.i + 1 < n {
      assert (c.i + 1) % n == c.i + 1;
    } else {
      assert c.i + 1 == n && n % n == 0;
    }
  }

  /** Next and previous undo each other on the slides. */
  lemma NextPrevInverse(c: Index, n: nat)
    requires InRange(c, n)
    ensures PrevIndex(NextIndex(c, n), n) == c
    ensures NextIndex(PrevIndex(c, n), n) == c
  {
    StepsStayInRange(c, n);
  }

  /** The index after `k` next steps. */
  function Advance(c: Index, n: nat, k: nat): Index {
    if k == 0 then c else NextIndex(Advance(c, n, k - 1), n)
  }

  /** Up to one full round, `k` next steps move `k` slides forward, wrapping once. */
  lemma {:induction false} AdvanceWraps(c: Index, n: nat, k: nat)
    requires InRange(c, n) && k <= n
    ensures Advance(c, n, k) == At(if c.i + k < n then c.i + k else c.i + k - n)
  {
    if k > 0 {
      AdvanceWraps(c, n, k - 1);
      StepsStayInRange(Advance(c, n, k - 1), n);
    }
  }

  /** As many next steps as there are slides return to the starting slide. */
  lemma FullCycle(c: Index, n: nat)
    requires InRange(c, n)
    ensures Advance(c, n, n) == c
  {
    AdvanceWraps(c, n, n);
  }

  /** With no slides, one next step makes the index NaN for good, while a previous step from
      0 gives -1. */
  lemma EmptyCarousel(k: nat)
    ensures NextIndex(At(0), 0) == NaN
    ensures Advance(NaN, 0, k) == NaN
    ensures PrevIndex(At(0), 0) == At(-1)
  {
    if k > 0 {
      EmptyCarousel(k - 1);
    }
  }

  /** The stateful component: `count` is `items.length`. */
  class Slides {
    const count: nat
    const autoPlay: bool
    var current: Index

    /** `useState(0)`. */
    constructor (count: nat, autoPlay: bool)
      ensures this.count == count && this.autoPlay == autoPlay
      ensures current == At(0)
    {
      this.count := count;
      this.autoPlay := autoPlay;
      current := At(0);
    }

    method GoToNext()
      modifies this
      ensures current == NextIndex(old(current), count)
    {
      current := NextIndex(current, count);
    }

    method GoToPrevious()
      modifies this
      ensures current == PrevIndex(old(current), count)
    {
      current := PrevIndex(current, count);
    }

    /** `goToSlide(index)`: sets the index as given. */
    method GoToSlide(index: int)
      modifies this
      ensures current == At(index)
    {
      current := At(index);
    }

    /** One firing of the autoplay interval, which exists only when `autoPlay` is set. */
    method Tick()
      modifies this
      ensures current == if autoPlay then NextIndex(old(current), count) else old(current)
    {
      if autoPlay {
        current := NextIndex(current, count);
      }
    }
  }

  /** `count` autoplay ticks bring a running carousel back to the slide it showed. */
  method TickAround(s: Slides)
    requires s.autoPlay && InRange(s.current, s.count)
    modifies s
    ensures s.current == old(s.current)
  {
    var k := 0;
    while k < s.count
      invariant 0 <= k <= s.count
      invariant s.current == Advance(old(s.current), s.count, k)
    {
      s.Tick();
      k := k + 1;
    }
    FullCycle(old(s.current), s.count);
  }
}
