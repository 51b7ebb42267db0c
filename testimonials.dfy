/**
 * The testimonial carousel: a current index moved by next, previous, a dot
 * click and a 5-second autoplay interval, and the five-star rating row.
 */
module TestimonialsSection {
  import opened Collections

  /** Milliseconds between two autoplay steps. */
  const AutoPlayIntervalMs: nat := 5000

  /** `(prev + 1) % n`. */
  function NextIndex(i: nat, n: nat): (r: nat)
    requires i < n
    ensures r < n
    ensures r == if i + 1 < n then i + 1 else 0
  {
    (i + 1) % n
  }

  /** `(prev - 1 + n) % n`; the dividend is never negative, so JavaScript's `%` agrees with Dafny's. */
  function PrevIndex(i: nat, n: nat): (r: nat)
    requires n > 0 && i < n
    ensures r < n
    ensures r == if i == 0 then n - 1 else i - 1
  {
    (i - 1 + n) % n
  }

  lemma PrevUndoesNext(i: nat, n: nat)
    requires i < n
    ensures PrevIndex(NextIndex(i, n), n) == i
  {
  }

  lemma NextUndoesPrev(i: nat, n: nat)
    requires i < n
    ensures NextIndex(PrevIndex(i, n), n) == i
  {
  }

  /** `k` next steps from `i`. */
  function Advance(i: nat, n: nat, k: nat): (r: nat)
    requires i < n
    ensures r < n
  {
    if k == 0 then i else NextIndex(Advance(i, n, k - 1), n)
  }

  /** Up to a full turn, `k` steps land `k` places on, wrapping once past the end. */
  lemma {:induction false} AdvanceWraps(i: nat, n: nat, k: nat)
    requires i < n && k <= n
    ensures Advance(i, n, k) == if i + k < n then i + k else i + k - n
  {
    if k > 0 {
      AdvanceWraps(i, n, k - 1);
    }
  }

  /** `n` next steps go round the whole carousel and back. */
  lemma FullCircle(i: nat, n: nat)
    requires i < n
    ensures Advance(i, n, n) == i
  {
    AdvanceWraps(i, n, n);
  }

  class Carousel {
    const count: nat
    var currentIndex: nat
    var isAutoPlaying: bool

    predicate Valid()
      reads this
    {
      count > 0 && currentIndex < count
    }

    /** Mounting: the first testimonial, autoplay on. */
    constructor (count: nat)
      requires count > 0
      ensures Valid()
      ensures this.count == count && currentIndex == 0 && isAutoPlaying
    {
      this.count := count;
      currentIndex := 0;
      isAutoPlaying := true;
    }

    method Next()
      requires Valid()
      modifies this
      ensures Valid()
      ensures currentIndex == NextIndex(old(currentIndex), count) && !isAutoPlaying
    {
      currentIndex := NextIndex(currentIndex, count);
      isAutoPlaying := false;
    }

    method Prev()
      requires Valid()
      modifies this
      ensures Valid()
      ensures currentIndex == PrevIndex(old(currentIndex), count) && !isAutoPlaying
    {
      currentIndex := PrevIndex(currentIndex, count);
      isAutoPlaying := false;
    }

    /** A dot click; the dots carry the indices `0 .. count - 1`. */
    method GoTo(k: nat)
      requires Valid() && k < count
      modifies this
      ensures Valid()
      ensures currentIndex == k && !isAutoPlaying
    {
      currentIndex := k;
      isAutoPlaying := false;
    }

    /** One firing of the interval: it is only installed while autoplay is on. */
    method AutoPlayTick()
      requires Valid()
      modifies this
      ensures Valid()
      ensures isAutoPlaying == old(isAutoPlaying)
      ensures currentIndex == if old(isAutoPlaying) then NextIndex(old(currentIndex), count) else old(currentIndex)
    {
      if isAutoPlaying {
        currentIndex := NextIndex(currentIndex, count);
      }
    }

    /** Whether a dot is drawn as the active one. */
    function DotActive(k: nat): bool
      reads this
    {
      k == currentIndex
    }
  }

  /** The five stars of a rating, `true` for a filled star. */
  function RenderStars(rating: int): (stars: seq<bool>)
    ensures |stars| == 5
    ensures forall i :: 0 <= i < 5 ==> (stars[i] <==> i < rating)
  {
    seq(5, i => i < rating)
  }

  function IsFilled(b: bool): bool { b }

  /** The number of filled stars is the rating clamped to 0 .. 5. */
  lemma FilledStars(rating: int)
    ensures Count(RenderStars(rating), IsFilled) == if rating < 0 then 0 else if rating > 5 then 5 else rating
  {
    var stars := RenderStars(rating);
    var k := if rating < 0 then 0 else if rating > 5 then 5 else rating;
    assert stars == seq(k, _ => true) + seq(5 - k, _ => false);
    FilterConcat(seq(k, _ => true), seq(5 - k, _ => false), IsFilled);
    FilterKeepsAll(seq(k, _ => true), IsFilled);
    FilterDropsAll(seq(5 - k, _ => false), IsFilled);
  }
}
