/**
 * The star rating: a row of stars 35 units apart. Hovering a star highlights
 * it and every star before it; leaving it shows the rating again; clicking it
 * sets the rating to its position (counting from one) and reports the rating.
 * The state-machine hooks play no part.
 */
module StarRatingWidget {
  import opened UiTypes

  const Gap: real := 35.0
  const DefaultMaxStars: nat := 5
  /** The hover index when no star is hovered. */
  const NoHover: int := -1

  /** The number of stars `update` highlights: the hovered count while hovering, the rating otherwise. */
  function Highlight(hoverIndex: int, rating: real): (h: real)
    ensures 0 <= hoverIndex ==> h == hoverIndex as real
    ensures hoverIndex < 0 ==> h == rating
  {
    if hoverIndex >= 0 then hoverIndex as real else rating
  }

  /** The fill `update` gives each of `n` stars: star `i` is filled iff `i < highlight`. */
  function Filled(n: nat, highlight: real): (filled: seq<bool>)
    ensures |filled| == n
  {
    seq(n, i => (i as real) < highlight)
  }

  /** The filled stars always form a prefix of the row. */
  lemma FilledIsPrefix(n: nat, highlight: real, j: nat, k: nat)
    requires k <= j < n && Filled(n, highlight)[j]
    ensures Filled(n, highlight)[k]
  {
  }

  /** With a whole-number highlight `k`, exactly `k` stars are filled (all of them when `k` exceeds the row). */
  lemma {:induction false} FilledCount(n: nat, k: nat)
    ensures CountTrue(Filled(n, k as real)) == if k <= n then k else n
  {
    if n > 0 {
      assert Filled(n, k as real) == Filled(n - 1, k as real) + [((n - 1) as real) < k as real];
      CountTrueAppend(Filled(n - 1, k as real), [((n - 1) as real) < k as real]);
      assert CountTrue([((n - 1) as real) < k as real]) == if n - 1 < k then 1 else 0 by {
        assert [((n - 1) as real) < k as real][1..] == [];
      }
      FilledCount(n - 1, k);
    } else {
      assert Filled(n, k as real) == [];
    }
  }

  /** The fill loop of `update`: one flag per star, filled iff its position is below the highlight. */
  method StarFills(n: nat, highlight: real) returns (filled: seq<bool>)
    ensures |filled| == n
    ensures forall i :: 0 <= i < n ==> (filled[i] <==> (i as real) < highlight)
  {
    filled := [];
    var i := 0;
    while i < n
      invariant 0 <= i <= n && |filled| == i
      invariant forall j :: 0 <= j < i ==> (filled[j] <==> (j as real) < highlight)
    {
      filled := filled + [(i as real) < highlight];
      i := i + 1;
    }
  }

  class StarRating {
    const maxStars: nat
    var rating: real
    var hoverIndex: int
    var hasCallback: bool
    /** The arguments of every call of the change callback, oldest first. */
    var ratings: seq<real>

    /** The horizontal position of each star, in order. */
    var starX: seq<real>
    /** Whether each star is drawn filled, in order. */
    var starFilled: seq<bool>

    /**
     * The rating lies in [0, maxStars], there is one star per possible point,
     * star `i` sits at `35 i`, and the fills are those `update` computes.
     */
    ghost predicate Valid()
      reads this
    {
      0.0 <= rating <= maxStars as real &&
      |starX| == maxStars &&
      (forall i :: 0 <= i < maxStars ==> starX[i] == (i as real) * Gap) &&
      starFilled == Filled(maxStars, Highlight(hoverIndex, rating))
    }

    /** A new rating is 0, nothing is hovered, and `maxStars` stars are drawn. */
    constructor (maxStars: nat := DefaultMaxStars)
      ensures Valid() && this.maxStars == maxStars
      ensures rating == 0.0 && hoverIndex == NoHover && !hasCallback && ratings == []
    {
      this.maxStars := maxStars;
      rating := 0.0;
      hoverIndex := NoHover;
      hasCallback := false;
      ratings := [];
      starX, starFilled := [], [];
      new;
      Render();
    }

    /** Places `maxStars` stars 35 apart, then draws their fills. */
    method Render()
      requires starX == [] && 0.0 <= rating <= maxStars as real
      modifies this`starX, this`starFilled
      ensures Valid()
    {
      var i := 0;
      while i < maxStars
        invariant 0 <= i <= maxStars && |starX| == i
        invariant forall j :: 0 <= j < i ==> starX[j] == (j as real) * Gap
      {
        starX := starX + [(i as real) * Gap];
        i := i + 1;
      }
      Update();
    }

    /** Fills each star below the highlight and clears the others. */
    method Update()
      requires 0.0 <= rating <= maxStars as real && |starX| == maxStars
      requires forall i :: 0 <= i < maxStars ==> starX[i] == (i as real) * Gap
      modifies this`starFilled
      ensures Valid()
    {
      starFilled := StarFills(|starX|, Highlight(hoverIndex, rating));
    }

    /** Stores `v` clamped to [0, maxStars] and redraws. */
    method SetRating(v: real)
      requires Valid()
      modifies this`rating, this`starFilled
      ensures Valid() && rating == Clamp(0.0, maxStars as real, v)
    {
      rating := Max(0.0, Min(maxStars as real, v));
      Update();
    }

    method OnChange()
      requires Valid()
      modifies this`hasCallback
      ensures Valid() && hasCallback
    {
      hasCallback := true;
    }

    /** Hovering star `i` highlights it and every star before it, whatever the rating. */
    method MouseOver(i: nat)
      requires Valid() && i < maxStars
      modifies this`hoverIndex, this`starFilled
      ensures Valid() && hoverIndex == i + 1
      ensures forall j :: 0 <= j < maxStars ==> (starFilled[j] <==> j <= i)
    {
      hoverIndex := i + 1;
      Update();
    }

    /** Leaving a star shows the rating again. */
    method MouseOut()
      requires Valid()
      modifies this`hoverIndex, this`starFilled
      ensures Valid() && hoverIndex == NoHover
      ensures forall j :: 0 <= j < maxStars ==> (starFilled[j] <==> (j as real) < rating)
    {
      hoverIndex := NoHover;
      Update();
    }

    /** Clicking star `i` makes the rating `i + 1` and reports it, if a callback is registered. */
    method Click(i: nat)
      requires Valid() && i < maxStars
      modifies this`rating, this`starFilled, this`ratings
      ensures Valid() && rating == (i + 1) as real
      ensures ratings == if hasCallback then old(ratings) + [rating] else old(ratings)
    {
      SetRating((i + 1) as real);
      if hasCallback {
        ratings := ratings + [rating];
      }
    }

    /** All nine state hooks do nothing. */
    method EnterState(s: WidgetState)
      ensures unchanged(this)
    {
    }
  }

  /** After a click on star `i` and the pointer leaving, exactly `i + 1` stars stay filled. */
  method ClickThenLeave(r: StarRating, i: nat)
    requires r.Valid() && i < r.maxStars
    modifies r
    ensures r.Valid() && r.rating == (i + 1) as real
    ensures CountTrue(r.starFilled) == i + 1
  {
    r.Click(i);
    r.MouseOut();
    FilledCount(r.maxStars, i + 1);
  }
}
