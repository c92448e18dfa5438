/** The testimonial carousel: one of six testimonials is shown, the arrow
    buttons step forward and back with wrap-around, and each dot jumps to
    its testimonial. */
module Testimonials {

  datatype Testimonial = Testimonial(id: nat, name: string, role: string, rating: nat)

  const Entries: seq<Testimonial> := [
    Testimonial(1, "Sarah Johnson", "Small Business Owner", 5),
    Testimonial(2, "Michael Chen", "IT Security Manager", 5),
    Testimonial(3, "Emily Rodriguez", "Freelance Designer", 5),
    Testimonial(4, "David Thompson", "Retired Teacher", 5),
    Testimonial(5, "Lisa Park", "Marketing Director", 5),
    Testimonial(6, "James Wilson", "E-commerce Store Owner", 5)
  ]

  /** `testimonials.length`. */
  const Count: nat := |Entries|

  /** `(prev + 1) % length`: one step forward, from the last back to the
      first. */
  function NextIndex(i: int): (j: int)
    requires 0 <= i < Count
    ensures 0 <= j < Count
    ensures j == if i == Count - 1 then 0 else i + 1
  {
    (i + 1) % Count
  }

  /** `(prev - 1 + length) % length`: one step back, from the first to the
      last. */
  function PrevIndex(i: int): (j: int)
    requires 0 <= i < Count
    ensures 0 <= j < Count
    ensures j == if i == 0 then Count - 1 else i - 1
  {
    (i - 1 + Count) % Count
  }

  /** The two arrows undo each other. */
  lemma NextPrevInverse(i: int)
    requires 0 <= i < Count
    ensures PrevIndex(NextIndex(i)) == i
    ensures NextIndex(PrevIndex(i)) == i
  {
  }

  /** Pressing "next" `k` times from `i`. */
  function Advance(i: int, k: nat): (j: int)
    requires 0 <= i < Count
    ensures 0 <= j < Count
  {
    if k == 0 then i else NextIndex(Advance(i, k - 1))
  }

  /** `k` presses of "next" move `k` places round the circle. */
  lemma {:induction false} AdvanceMoves(i: int, k: nat)
    requires 0 <= i < Count
    ensures Advance(i, k) == (i + k) % Count
  {
    if k > 0 {
      AdvanceMoves(i, k - 1);
      var j := (i + k - 1) % Count;
      assert i + k - 1 == (i + k - 1) / Count * Count + j;
      if j == Count - 1 {
        assert i + k == ((i + k - 1) / Count + 1) * Count;
      } else {
        assert i + k == (i + k - 1) / Count * Count + (j + 1);
      }
    }
  }

  /** Six presses of "next" come back to the same testimonial. */
  lemma FullCircle(i: int)
    requires 0 <= i < Count
    ensures Advance(i, Count) == i
  {
    AdvanceMoves(i, Count);
    assert (i + Count) % Count == i;
  }

  /** The carousel's `currentIndex` state. */
  class Carousel {
    var currentIndex: int

    /** `testimonials[currentIndex]` always exists. */
    predicate Valid()
      reads this
    {
      0 <= currentIndex < Count
    }

    /** The testimonial on display. */
    function Shown(): (t: Testimonial)
      requires Valid()
      reads this
      ensures t.id == currentIndex + 1
    {
      Entries[currentIndex]
    }

    constructor ()
      ensures Valid() && currentIndex == 0
    {
      currentIndex := 0;
    }

    /** The right arrow. */
    method Next()
      requires Valid()
      modifies this
      ensures Valid() && currentIndex == NextIndex(old(currentIndex))
    {
      currentIndex := (currentIndex + 1) % Count;
    }

    /** The left arrow. */
    method Prev()
      requires Valid()
      modifies this
      ensures Valid() && currentIndex == PrevIndex(old(currentIndex))
    {
      currentIndex := (currentIndex - 1 + Count) % Count;
    }

    /** A dot: shows the testimonial at `index`. */
    method Select(index: int)
      requires 0 <= index < Count
      modifies this
      ensures Valid() && currentIndex == index
    {
      currentIndex := index;
    }
  }
}
