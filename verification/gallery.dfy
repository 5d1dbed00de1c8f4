/**
 * The product image carousel: one selected index over a fixed list of
 * images, moved by the previous and next arrows (which wrap around) and set
 * directly by clicking a thumbnail.
 */
module Gallery {

  /**
   * The index after the next arrow: the last image wraps to the first, any
   * other moves one on. For a list of n images this is (i + 1) mod n, and
   * it stays in range.
   */
  function Next(n: int, i: int): (r: int)
    ensures 1 <= n && 0 <= i < n ==> 0 <= r < n && r == (i + 1) % n
  {
    if i == n - 1 then 0 else i + 1
  }

  /**
   * The index after the previous arrow: the first image wraps to the last,
   * any other moves one back. For a list of n images this is (i - 1) mod n,
   * and it stays in range.
   */
  function Prev(n: int, i: int): (r: int)
    ensures 1 <= n && 0 <= i < n ==> 0 <= r < n && r == (i - 1) % n
  {
    if i == 0 then n - 1 else i - 1
  }

  /** The two arrows undo each other. */
  lemma PrevNextInverse(n: int, i: int)
    requires 1 <= n && 0 <= i < n
    ensures Prev(n, Next(n, i)) == i
    ensures Next(n, Prev(n, i)) == i
  {
  }

  /** The index after k presses of the next arrow. */
  function Advance(n: int, i: int, k: nat): int {
    if k == 0 then i else Next(n, Advance(n, i, k - 1))
  }

  /** m reduced into [0, n) by repeatedly taking n away: a position m steps round a circle of n places. */
  function Wrap(n: int, m: nat): (r: nat)
    requires 1 <= n
    ensures r < n
    ensures r <= m
    decreases m
  {
    if m < n then m else Wrap(n, m - n)
  }

  /** One press of the next arrow is one more step round the circle. */
  lemma {:induction false} NextWrap(n: int, m: nat)
    requires 1 <= n
    ensures Next(n, Wrap(n, m)) == Wrap(n, m + 1)
    decreases m
  {
    if m >= n {
      NextWrap(n, m - n);
    }
  }

  /** k presses of the next arrow move the selection k places round the circle. */
  lemma {:induction false} AdvanceIsRotation(n: int, i: int, k: nat)
    requires 1 <= n && 0 <= i < n
    ensures Advance(n, i, k) == Wrap(n, i + k)
  {
    if k > 0 {
      AdvanceIsRotation(n, i, k - 1);
      NextWrap(n, i + k - 1);
    }
  }

  /** Pressing the next arrow once per image brings the selection back to where it was. */
  lemma FullTurn(n: int, i: int)
    requires 1 <= n && 0 <= i < n
    ensures Advance(n, i, n) == i
  {
    AdvanceIsRotation(n, i, n);
  }

  class ProductGallery {
    /** The product's images, in display order. */
    const images: seq<string>
    var selectedIndex: int

    /** The selected index always names an image. */
    ghost predicate Valid()
      reads this
    {
      0 <= selectedIndex < |images|
    }

    /** The gallery opens on the first image. */
    constructor (images: seq<string>)
      requires |images| >= 1
      ensures Valid() && this.images == images && selectedIndex == 0
    {
      this.images := images;
      selectedIndex := 0;
    }

    /** The image in the main view, always one of the product's images. */
    function MainImage(): (image: string)
      reads this
      requires Valid()
      ensures image in images
    {
      images[selectedIndex]
    }

    method GoToPrev()
      requires Valid()
      modifies this
      ensures Valid() && selectedIndex == Prev(|images|, old(selectedIndex))
    {
      selectedIndex := if selectedIndex == 0 then |images| - 1 else selectedIndex - 1;
    }

    method GoToNext()
      requires Valid()
      modifies this
      ensures Valid() && selectedIndex == Next(|images|, old(selectedIndex))
    {
      selectedIndex := if selectedIndex == |images| - 1 then 0 else selectedIndex + 1;
    }

    /** A click on the thumbnail at `index`. */
    method SelectThumbnail(index: int)
      requires Valid() && 0 <= index < |images|
      modifies this
      ensures Valid() && selectedIndex == index
    {
      selectedIndex := index;
    }

    /** Whether the thumbnail at `index` is drawn as active. */
    predicate IsActive(index: int)
      reads this
    {
      index == selectedIndex
    }

    /** The thumbnails drawn as active: exactly the one of the selected image. */
    function ActiveThumbnails(): (active: set<int>)
      reads this
      requires Valid()
      ensures active == {selectedIndex}
    {
      set index | 0 <= index < |images| && IsActive(index)
    }
  }
}
