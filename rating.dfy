/** The star rating: the whole part of the rating in full stars, one half
    star when the fractional part is at least one half, and empty stars up
    to the maximum. Ratings are exact reals rather than IEEE doubles. */
module Rating {
  import opened Js

  const DefaultMaxRating := 5

  datatype Star = FullStar | HalfStar | EmptyStar

  /** The three counts the component computes. */
  datatype StarCounts = StarCounts(full: int, hasHalf: bool, empty: int)

  /** `Math.trunc(r)`: the integer part, rounded toward zero. */
  function Trunc(r: real): (t: int)
    ensures r >= 0.0 ==> t == r.Floor
    ensures r < 0.0 ==> r <= t as real < r + 1.0
  {
    if r >= 0.0 then r.Floor else -((-r).Floor)
  }

  /** JavaScript's `r % 1`: the remainder takes the sign of `r`. */
  function RemOne(r: real): (m: real)
    ensures -1.0 < m < 1.0
    ensures r >= 0.0 ==> m == r - r.Floor as real
    ensures r < 0.0 ==> m <= 0.0
  {
    r - Trunc(r) as real
  }

  /** `maxRating = 5`: the default applies when no maximum is passed. */
  function MaxOrDefault(maxRating: Option<int>): int {
    if maxRating.Some? then maxRating.value else DefaultMaxRating
  }

  /** `fullStars`, `hasHalfStar` and `emptyStars`. */
  function Counts(rating: real, maxRating: Option<int>): StarCounts {
    var full := rating.Floor;
    var hasHalf := RemOne(rating) >= 0.5;
    StarCounts(full, hasHalf, MaxOrDefault(maxRating) - full - (if hasHalf then 1 else 0))
  }

  /** What the three counts mean: full stars are the floor, a half star
      shows exactly when a non-negative rating's fraction reaches one half
      (a negative rating never shows one), and the three add up to the
      maximum. */
  lemma CountsMeaning(rating: real, maxRating: Option<int>)
    ensures var c := Counts(rating, maxRating);
      && c.full as real <= rating < c.full as real + 1.0
      && (rating >= 0.0 ==> (c.hasHalf <==> rating - c.full as real >= 0.5))
      && (rating < 0.0 ==> !c.hasHalf)
      && c.full + (if c.hasHalf then 1 else 0) + c.empty == MaxOrDefault(maxRating)
  {
  }

  /** A rating between 0 and the maximum leaves no negative count and no
      more full stars than the maximum. */
  lemma CountsInRange(rating: real, maxRating: Option<int>)
    requires 0.0 <= rating <= MaxOrDefault(maxRating) as real
    ensures var c := Counts(rating, maxRating);
      0 <= c.full <= MaxOrDefault(maxRating) && c.empty >= 0
  {
    var c := Counts(rating, maxRating);
    var m := MaxOrDefault(maxRating);
    assert c.full as real <= rating;
    if c.hasHalf {
      assert c.full as real + 0.5 <= rating;
      assert c.full < m;
    }
  }

  function Repeat(s: Star, n: nat): (r: seq<Star>)
    ensures |r| == n
    ensures forall i :: 0 <= i < n ==> r[i] == s
  {
    if n == 0 then [] else Repeat(s, n - 1) + [s]
  }

  lemma {:induction false} RepeatCount(s: Star, n: nat, t: Star)
    ensures multiset(Repeat(s, n))[t] == if t == s then n else 0
  {
    if n > 0 {
      RepeatCount(s, n - 1, t);
    }
  }

  /** The icons rendered, in order, or None when `Array(n)` would throw
      `RangeError` for a negative count. */
  function Render(rating: real, maxRating: Option<int>): (icons: Option<seq<Star>>)
    ensures icons.Some? <==> Counts(rating, maxRating).full >= 0 && Counts(rating, maxRating).empty >= 0
  {
    var c := Counts(rating, maxRating);
    if c.full < 0 || c.empty < 0 then None
    else Some(Repeat(FullStar, c.full) + (if c.hasHalf then [HalfStar] else []) + Repeat(EmptyStar, c.empty))
  }

  /** A rendered rating shows exactly `maxRating` icons: the full stars,
      at most one half star, and the empty stars. */
  lemma RenderCounts(rating: real, maxRating: Option<int>)
    requires Render(rating, maxRating).Some?
    ensures var icons := Render(rating, maxRating).value;
      var c := Counts(rating, maxRating);
      && |icons| == MaxOrDefault(maxRating)
      && multiset(icons)[FullStar] == c.full
      && multiset(icons)[HalfStar] == (if c.hasHalf then 1 else 0)
      && multiset(icons)[HalfStar] <= 1
      && multiset(icons)[EmptyStar] == c.empty
      && (forall i :: 0 <= i < c.full ==> icons[i] == FullStar)
      && (c.hasHalf ==> icons[c.full] == HalfStar)
      && (forall i :: |icons| - c.empty <= i < |icons| ==> icons[i] == EmptyStar)
  {
    var c := Counts(rating, maxRating);
    var half: seq<Star> := if c.hasHalf then [HalfStar] else [];
    CountsMeaning(rating, maxRating);
    RepeatCount(FullStar, c.full, FullStar);
    RepeatCount(FullStar, c.full, HalfStar);
    RepeatCount(FullStar, c.full, EmptyStar);
    RepeatCount(EmptyStar, c.empty, FullStar);
    RepeatCount(EmptyStar, c.empty, HalfStar);
    RepeatCount(EmptyStar, c.empty, EmptyStar);
  }

  /** Leaving the maximum out renders exactly as passing 5 does: five
      icons whenever the rating renders at all. */
  lemma DefaultMaximum(rating: real)
    ensures Counts(rating, None) == Counts(rating, Some(5))
    ensures Render(rating, None) == Render(rating, Some(5))
    ensures Render(rating, None).Some? ==> |Render(rating, None).value| == 5
  {
    if Render(rating, None).Some? {
      RenderCounts(rating, None);
    }
  }

  /** Every rating from 0 to the maximum renders. */
  lemma InRangeRenders(rating: real, maxRating: Option<int>)
    requires 0.0 <= rating <= MaxOrDefault(maxRating) as real
    ensures Render(rating, maxRating).Some?
  {
    CountsInRange(rating, maxRating);
  }
}
