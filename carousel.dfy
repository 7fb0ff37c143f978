/** The experience carousel: one slide per experience record, one of which is
    current. Buttons move to the next or previous slide with wrap-around, a dot
    jumps to its slide, and the active dot, the track offset and each slide's
    colour are derived from the current index. */
module ExperienceCarousel {
  import opened JsNumber

  /** The colour classes the slides cycle through, in order. */
  const Colors: seq<string> :=
    ["card-coral", "card-blue", "card-green", "card-purple", "card-yellow", "card-mint"]

  /** The index `nextSlide` moves to from i, with n slides. */
  function NextIndex(i: int, n: int): (j: int)
    requires 0 <= i < n
    ensures 0 <= j < n
    ensures j == if i == n - 1 then 0 else i + 1
  {
    JsRem(i + 1, n)
  }

  /** The index `prevSlide` moves to from i, with n slides. */
  function PrevIndex(i: int, n: int): (j: int)
    requires 0 <= i < n
    ensures 0 <= j < n
    ensures j == if i == 0 then n - 1 else i - 1
  {
    JsRem(i - 1 + n, n)
  }

  /** Next then previous comes back to where it started. */
  lemma NextThenPrev(i: int, n: int)
    requires 0 <= i < n
    ensures PrevIndex(NextIndex(i, n), n) == i
  {
  }

  /** Previous then next comes back to where it started. */
  lemma PrevThenNext(i: int, n: int)
    requires 0 <= i < n
    ensures NextIndex(PrevIndex(i, n), n) == i
  {
  }

  /** With a single slide neither button moves. */
  lemma SingleSlideStays(i: int)
    requires 0 <= i < 1
    ensures NextIndex(i, 1) == 0 && PrevIndex(i, 1) == 0
  {
  }

  /** The index reached from i after k presses of the next button. */
  function Advance(i: int, k: nat, n: int): (j: int)
    requires 0 <= i < n
    ensures 0 <= j < n
  {
    if k == 0 then i else NextIndex(Advance(i, k - 1, n), n)
  }

  /** The index reached from i after k presses of the previous button. */
  function Retreat(i: int, k: nat, n: int): (j: int)
    requires 0 <= i < n
    ensures 0 <= j < n
  {
    if k == 0 then i else PrevIndex(Retreat(i, k - 1, n), n)
  }

  /** A positive multiple of n is at least n. */
  lemma MulAtLeast(a: int, n: int)
    requires a >= 1 && n > 0
    ensures a * n >= n
  {
  }

  /** x % n is determined by any decomposition x == q * n + r with 0 <= r < n. */
  lemma ModOfDecomposition(x: int, n: int, q: int, r: int)
    requires n > 0 && 0 <= r < n && x == q * n + r
    ensures x % n == r
  {
    var q', r' := x / n, x % n;
    assert x == q' * n + r';
    if q' < q {
      assert (q - q') * n == q * n - q' * n;
      MulAtLeast(q - q', n);
    } else if q' > q {
      assert (q' - q) * n == q' * n - q * n;
      MulAtLeast(q' - q, n);
    }
  }

  /** One step up, in residues modulo n. */
  lemma ModSucc(x: int, n: int)
    requires n > 0
    ensures (x + 1) % n == if x % n == n - 1 then 0 else x % n + 1
  {
    var q, r := x / n, x % n;
    assert x == q * n + r;
    if r == n - 1 {
      assert x + 1 == (q + 1) * n + 0;
      ModOfDecomposition(x + 1, n, q + 1, 0);
    } else {
      ModOfDecomposition(x + 1, n, q, r + 1);
    }
  }

  /** One step down, in residues modulo n. */
  lemma ModPred(x: int, n: int)
    requires n > 0
    ensures (x - 1) % n == if x % n == 0 then n - 1 else x % n - 1
  {
    var q, r := x / n, x % n;
    assert x == q * n + r;
    if r == 0 {
      assert x - 1 == (q - 1) * n + (n - 1);
      ModOfDecomposition(x - 1, n, q - 1, n - 1);
    } else {
      ModOfDecomposition(x - 1, n, q, r - 1);
    }
  }

  /** k presses of the next button land on (i + k) mod n. */
  lemma {:induction false} AdvanceIsModular(i: int, k: nat, n: int)
    requires 0 <= i < n
    ensures Advance(i, k, n) == (i + k) % n
  {
    if k == 0 {
      ModOfDecomposition(i, n, 0, i);
    } else {
      AdvanceIsModular(i, k - 1, n);
      ModSucc(i + k - 1, n);
    }
  }

  /** k presses of the previous button land on (i - k) mod n. */
  lemma {:induction false} RetreatIsModular(i: int, k: nat, n: int)
    requires 0 <= i < n
    ensures Retreat(i, k, n) == (i - k) % n
  {
    if k == 0 {
      ModOfDecomposition(i, n, 0, i);
    } else {
      RetreatIsModular(i, k - 1, n);
      ModPred(i - k + 1, n);
    }
  }

  /** Whether the dot for slide `index` is drawn as the active one. */
  function DotActive(index: int, current: int): bool {
    index == current
  }

  /** How many of the first n dots are active. */
  function ActiveDotCount(n: nat, current: int): (c: nat)
    ensures c <= n
  {
    if n == 0 then 0 else ActiveDotCount(n - 1, current) + (if DotActive(n - 1, current) then 1 else 0)
  }

  /** Among the first n dots, exactly the current one is active if it is among
      them, and none otherwise. */
  lemma {:induction false} ActiveDotCountIs(n: nat, current: int)
    ensures ActiveDotCount(n, current) == if 0 <= current < n then 1 else 0
  {
    if n > 0 {
      ActiveDotCountIs(n - 1, current);
    }
  }

  /** With a valid current index, exactly one of the n dots is active. */
  lemma ExactlyOneActiveDot(n: nat, current: int)
    requires 0 <= current < n
    ensures ActiveDotCount(n, current) == 1
    ensures forall k :: 0 <= k < n && DotActive(k, current) ==> k == current
  {
    ActiveDotCountIs(n, current);
  }

  /** The track's leftward shift, in percent of one slide's width. */
  function TrackOffset(current: nat): (percent: nat)
    ensures percent % 100 == 0 && percent / 100 == current
  {
    current * 100
  }

  /** The shift stays within the track: never past the last slide. */
  lemma TrackOffsetRange(current: nat, n: nat)
    requires current < n
    ensures 0 <= TrackOffset(current) <= (n - 1) * 100
  {
  }

  /** The colour class of slide `index`: the first six slides take the six
      classes in order (and `SlideColorPeriodic` repeats them). */
  function SlideColor(index: nat): (c: string)
    ensures c in Colors
    ensures index < |Colors| ==> c == Colors[index]
  {
    Colors[index % |Colors|]
  }

  /** The colours repeat with period six. */
  lemma SlideColorPeriodic(index: nat)
    ensures SlideColor(index + 6) == SlideColor(index)
  {
  }

  /** Neighbouring slides never share a colour. */
  lemma NeighbourColorsDiffer(index: nat)
    ensures SlideColor(index) != SlideColor(index + 1)
  {
    var k := index % 6;
    assert (index + 1) % 6 == if k == 5 then 0 else k + 1;
  }

  /** The mounted carousel. `slideCount` is `experiences.length`, which must
      be at least one. */
  class Carousel {
    const slideCount: nat
    var currentIndex: int

    ghost predicate Valid()
      reads this
    {
      0 <= currentIndex < slideCount
    }

    constructor (slideCount: nat)
      requires slideCount >= 1
      ensures Valid()
      ensures this.slideCount == slideCount && currentIndex == 0
    {
      this.slideCount := slideCount;
      currentIndex := 0;
    }

    /** The "next" button. */
    method NextSlide()
      requires Valid()
      modifies this
      ensures Valid()
      ensures currentIndex == NextIndex(old(currentIndex), slideCount)
    {
      currentIndex := JsRem(currentIndex + 1, slideCount);
    }

    /** The "previous" button. */
    method PrevSlide()
      requires Valid()
      modifies this
      ensures Valid()
      ensures currentIndex == PrevIndex(old(currentIndex), slideCount)
    {
      currentIndex := JsRem(currentIndex - 1 + slideCount, slideCount);
    }

    /** A click on the dot of slide `index`. */
    method GoTo(index: int)
      requires Valid()
      requires 0 <= index < slideCount
      modifies this
      ensures Valid()
      ensures currentIndex == index
    {
      currentIndex := index;
    }
  }
}
