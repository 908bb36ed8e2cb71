/** components/TestimonialsSlider.tsx: the testimonial carousel — which review is shown,
    and how the arrows, the dots, the keyboard and autoplay move it. */
module TestimonialsSlider {

  /** `(i + 1) % total`: the next review, wrapping to the first. */
  function NextIndex(i: int, total: int): (r: int)
    requires 0 <= i < total
    ensures 0 <= r < total
    ensures i < total - 1 ==> r == i + 1
    ensures i == total - 1 ==> r == 0
  {
    (i + 1) % total
  }

  /** `(i - 1 + total) % total`: the previous review, wrapping to the last. */
  function PrevIndex(i: int, total: int): (r: int)
    requires 0 <= i < total
    ensures 0 <= r < total
    ensures i > 0 ==> r == i - 1
    ensures i == 0 ==> r == total - 1
  {
    (i - 1 + total) % total
  }

  /** Back after forward, and forward after back, return to the same review. */
  lemma PrevUndoesNext(i: int, total: int)
    requires 0 <= i < total
    ensures PrevIndex(NextIndex(i, total), total) == i
    ensures NextIndex(PrevIndex(i, total), total) == i
  {
  }

  /** `n` steps forward. */
  function Advance(i: int, total: int, n: nat): (r: int)
    requires 0 <= i < total
    ensures 0 <= r < total
  {
    if n == 0 then i else NextIndex(Advance(i, total, n - 1), total)
  }

  /** `n` steps forward land `n` places further on, modulo the number of reviews: a full
      round of autoplay comes back to the review it started from. */
  lemma {:induction false} AdvanceWraps(i: int, total: int, n: nat)
    requires 0 <= i < total
    ensures Advance(i, total, n) == (i + n) % total
  {
    if n > 0 {
      AdvanceWraps(i, total, n - 1);
      ModSucc(i + n - 1, total);
    }
  }

  /** Division with remainder determines both. */
  lemma ModUnique(x: int, q: int, r: int, t: int)
    requires t > 0 && 0 <= r < t && x == q * t + r
    ensures x % t == r
  {
    var q' := x / t;
    var r' := x % t;
    assert x == q' * t + r';
    if q' < q {
      Spread(q, q', t);
      assert false;
    } else if q < q' {
      Spread(q', q, t);
      assert false;
    }
  }

  /** Multiples of `t` with different factors are at least `t` apart. */
  lemma {:induction false} Spread(a: int, b: int, t: int)
    requires a > b && t > 0
    ensures a * t - b * t >= t
    decreases a - b
  {
    if a - b > 1 {
      Spread(a - 1, b, t);
      assert a * t == (a - 1) * t + t;
    }
  }

  /** Stepping forward from a remainder agrees with the remainder of the successor. */
  lemma ModSucc(x: nat, t: int)
    requires t > 0
    ensures NextIndex(x % t, t) == (x + 1) % t
  {
    var q := x / t;
    var j := x % t;
    assert x == q * t + j;
    if j + 1 == t {
      ModUnique(x + 1, q + 1, 0, t);
    } else {
      ModUnique(x + 1, q, j + 1, t);
    }
  }

  /** `Array.from({ length: total }, (_, i) => i)`: one dot per review. */
  function Dots(total: nat): (r: seq<int>)
    ensures |r| == total
    ensures forall k :: 0 <= k < total ==> r[k] == k
  {
    seq(total, k => k)
  }

  /** The slider's state: the shown review and whether autoplay is paused.  With no
      reviews the component cannot render (`reviews[0]` is undefined), so there is at
      least one. */
  class Slider {
    const total: nat
    var index: int
    var paused: bool

    predicate Valid()
      reads this
    {
      0 <= index < total
    }

    constructor (total: nat)
      requires total > 0
      ensures this.total == total && index == 0 && !paused
      ensures Valid()
    {
      this.total := total;
      index := 0;
      paused := false;
    }

    /** The "Next" button, and a swipe towards the end. */
    method Next()
      requires Valid()
      modifies this
      ensures index == NextIndex(old(index), total) && paused == old(paused)
      ensures Valid()
    {
      index := (index + 1) % total;
    }

    /** The "Previous" button, and a swipe towards the start. */
    method Prev()
      requires Valid()
      modifies this
      ensures index == PrevIndex(old(index), total) && paused == old(paused)
      ensures Valid()
    {
      index := (index - 1 + total) % total;
    }

    /** A click on dot `d` shows review `d`. */
    method SelectDot(d: int)
      requires Valid() && d in Dots(total)
      modifies this
      ensures index == d && paused == old(paused)
      ensures Valid()
    {
      index := d;
    }

    /** The window's `keydown` listener: ArrowRight moves forward, ArrowLeft back, any
        other key does nothing. */
    method OnKey(key: string)
      requires Valid()
      modifies this
      ensures key == "ArrowRight" ==> index == NextIndex(old(index), total)
      ensures key == "ArrowLeft" ==> index == PrevIndex(old(index), total)
      ensures key != "ArrowRight" && key != "ArrowLeft" ==> index == old(index)
      ensures paused == old(paused) && Valid()
    {
      if key == "ArrowRight" {
        Next();
      }
      if key == "ArrowLeft" {
        Prev();
      }
    }

    /** Hover and touch: entering or touching pauses, leaving or lifting resumes. */
    method SetPaused(p: bool)
      modifies this
      ensures paused == p && index == old(index)
    {
      paused := p;
    }

    /** Whether the autoplay timer is running: only unpaused and with something to
        move to. */
    function AutoplayRuns(): (r: bool)
      reads this
      ensures r ==> total >= 2
      ensures r <==> !paused && total > 1
    {
      !(paused || total <= 1)
    }
  }

  /** With a single review, forward and back both stay on it. */
  lemma SingleReviewStays()
    ensures NextIndex(0, 1) == 0 && PrevIndex(0, 1) == 0
  {
  }
}
