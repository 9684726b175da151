/** The featured-healers carousel: a slide index that wraps over
    `max(1, n - 2)` positions and shows three healers at a time, with a
    category-filtered fallback list when the healer endpoint fails. */
module FeaturedHealers {
  import opened Wrappers
  import opened Lists

  datatype FeaturedHealer = FeaturedHealer(id: string, name: string, category: string)

  const MockHealers: seq<FeaturedHealer> := [
    FeaturedHealer("healer-1", "Dr. Priya Sharma", "Ayurvedic Healers"),
    FeaturedHealer("healer-2", "Maya Patel", "Crystal Healing Experts"),
    FeaturedHealer("healer-3", "Ravi Kumar", "Sound Healing Practitioners"),
    FeaturedHealer("healer-4", "Ananya Gupta", "Breathwork Coaches"),
    FeaturedHealer("healer-5", "Arjun Singh", "Spiritual Life Coaches"),
    FeaturedHealer("healer-6", "Kavya Menon", "Spiritual Life Coaches"),
    FeaturedHealer("healer-7", "Sarika Jain", "Manifestation Coaches")]

  /** JavaScript's `a % b` for `b > 0`: the remainder takes the sign of `a`. */
  function JsRem(a: int, b: int): (r: int)
    requires b > 0
    ensures a >= 0 ==> 0 <= r < b && r == a % b
    ensures a < 0 ==> -b < r <= 0
  {
    if a >= 0 then a % b else -((-a) % b)
  }

  /** `Math.max(1, healers.length - 2)`: the number of slide positions and of indicators. */
  function SlideCount(n: nat): (m: nat)
    ensures m >= 1
    ensures n > 3 ==> m == n - 2
  {
    if n - 2 > 1 then n - 2 else 1
  }

  /** `nextSlide`. */
  function NextSlide(slide: int, n: nat): (r: int)
    requires 0 <= slide
    ensures 0 <= r < SlideCount(n)
  {
    JsRem(slide + 1, SlideCount(n))
  }

  /** `prevSlide`. */
  function PrevSlide(slide: int, n: nat): (r: int)
    requires 0 <= slide
    ensures 0 <= r < SlideCount(n)
  {
    JsRem(slide - 1 + SlideCount(n), SlideCount(n))
  }

  /** Forward wraps from the last position to the first, backward from the first to the last. */
  lemma SlidesWrap(n: nat)
    ensures NextSlide(SlideCount(n) - 1, n) == 0
    ensures PrevSlide(0, n) == SlideCount(n) - 1
  {
  }

  lemma ModBelow(a: int, m: int)
    requires 0 <= a < m
    ensures a % m == a
  {
  }

  lemma ModShift(a: int, m: int)
    requires 0 <= a < m
    ensures (a + m) % m == a
  {
    ModBelow(a, m);
  }

  /** Going back undoes going forward. */
  lemma PrevUndoesNext(slide: int, n: nat)
    requires 0 <= slide < SlideCount(n)
    ensures PrevSlide(NextSlide(slide, n), n) == slide
  {
    var m := SlideCount(n);
    if slide + 1 < m {
      ModBelow(slide + 1, m);
      ModShift(slide, m);
    } else {
      assert (slide + 1) % m == 0;
      ModBelow(m - 1, m);
    }
  }

  /** Going forward undoes going back. */
  lemma NextUndoesPrev(slide: int, n: nat)
    requires 0 <= slide < SlideCount(n)
    ensures NextSlide(PrevSlide(slide, n), n) == slide
  {
    var m := SlideCount(n);
    if slide > 0 {
      ModShift(slide - 1, m);
      ModBelow(slide, m);
    } else {
      ModBelow(m - 1, m);
      assert m % m == 0;
    }
  }

  /** `getVisibleHealers`. */
  function VisibleHealers(healers: seq<FeaturedHealer>, slide: nat): (r: seq<FeaturedHealer>)
    ensures |healers| <= 3 ==> r == healers
    ensures |healers| > 3 && slide < SlideCount(|healers|) ==>
      |r| == 3 && r == healers[slide..slide + 3]
  {
    if |healers| <= 3 then healers else Slice(healers, slide, slide + 3)
  }

  /** The fallback list: every mock healer for "all", else those of the category. */
  function FallbackHealers(mock: seq<FeaturedHealer>, category: string): (r: seq<FeaturedHealer>)
    ensures category == "all" ==> r == mock
    ensures category != "all" ==> forall i :: 0 <= i < |r| ==> r[i].category == category
    ensures category != "all" ==> forall i :: 0 <= i < |mock| && mock[i].category == category ==> mock[i] in r
    ensures IsSubsequence(r, mock)
  {
    if category == "all" then SubsequenceOfSelf(mock); mock
    else
      FilterIsSubsequence(mock, InHealerCategory(category));
      Filter(mock, InHealerCategory(category))
  }

  function InHealerCategory(category: string): FeaturedHealer -> bool {
    (h: FeaturedHealer) => h.category == category
  }

  /** The carousel's state. */
  class Carousel {
    var healers: seq<FeaturedHealer>
    var currentSlide: int
    var selectedCategory: string
    var isLoading: bool

    /** The slide index is one of the positions. */
    predicate Valid()
      reads this
    {
      0 <= currentSlide < SlideCount(|healers|)
    }

    constructor ()
      ensures Valid() && healers == [] && currentSlide == 0 && selectedCategory == "all" && isLoading
    {
      healers := [];
      currentSlide := 0;
      selectedCategory := "all";
      isLoading := true;
    }

    /** The end of `fetchHealers`: the fetched list (`None` for a failed
        request, which uses the fallback list), slide back to the start. */
    method Load(fetched: Option<seq<FeaturedHealer>>)
      modifies this`healers, this`currentSlide, this`isLoading
      ensures Valid() && currentSlide == 0 && !isLoading
      ensures fetched.Some? ==> healers == fetched.value
      ensures fetched.None? ==> healers == FallbackHealers(MockHealers, selectedCategory)
    {
      if fetched.Some? {
        healers := fetched.value;
      } else {
        healers := FallbackHealers(MockHealers, selectedCategory);
      }
      currentSlide := 0;
      isLoading := false;
    }

    method Next()
      requires Valid()
      modifies this`currentSlide
      ensures Valid() && currentSlide == NextSlide(old(currentSlide), |healers|)
    {
      currentSlide := NextSlide(currentSlide, |healers|);
    }

    method Prev()
      requires Valid()
      modifies this`currentSlide
      ensures Valid() && currentSlide == PrevSlide(old(currentSlide), |healers|)
    {
      currentSlide := PrevSlide(currentSlide, |healers|);
    }

    /** An indicator click: indicators exist for the positions only. */
    method GoTo(index: int)
      requires 0 <= index < SlideCount(|healers|)
      modifies this`currentSlide
      ensures Valid() && currentSlide == index
    {
      currentSlide := index;
    }

    /** The healers on screen: all of them up to three, otherwise exactly three in a row. */
    function Visible(): (r: seq<FeaturedHealer>)
      requires Valid()
      reads this
      ensures |r| == if |healers| <= 3 then |healers| else 3
    {
      VisibleHealers(healers, currentSlide)
    }
  }
}
