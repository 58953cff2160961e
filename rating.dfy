/**
  The rating presentation of the book form: the caption chosen for a
  numeric rating, and `renderStars`, which draws a rating as five stars.
 */
module Rating {

  datatype Result<T, E> = Success(value: T) | Failure(error: E)

  /** The exception `String.prototype.repeat` throws for a negative count. */
  datatype RenderError = RangeError

  const NoRating: string := "No rating"
  const HatedIt: string := "Hated it"
  const NotForMe: string := "Not for me"
  const PrettyDecent: string := "Pretty decent"
  const LikedIt: string := "I liked it"
  const LovedIt: string := "Loved it"

  /** The six captions, indexed by how good they are (`NoRating` first). */
  const Captions: seq<string> := [NoRating, HatedIt, NotForMe, PrettyDecent, LikedIt, LovedIt]

  /** The caption under the star picker for a numeric rating: exactly 0 is
      "No rating", then inclusive upper thresholds 1.5, 2.5, 3.5 and 4.5;
      everything else, negative numbers included, falls in the first band
      whose threshold it does not exceed. NaN is not modelled. */
  function RatingLabel(r: real): (caption: string)
    ensures caption in Captions
  {
    if r == 0.0 then NoRating
    else if r <= 1.5 then HatedIt
    else if r <= 2.5 then NotForMe
    else if r <= 3.5 then PrettyDecent
    else if r <= 4.5 then LikedIt
    else LovedIt
  }

  /** Position of a caption in `Captions`. */
  function CaptionRank(caption: string): (k: nat)
    requires caption in Captions
    ensures k < |Captions| && Captions[k] == caption
  {
    if caption == NoRating then 0
    else if caption == HatedIt then 1
    else if caption == NotForMe then 2
    else if caption == PrettyDecent then 3
    else if caption == LikedIt then 4
    else 5
  }

  /** Each caption is chosen for exactly one range of ratings (both
      directions), so each threshold belongs to the lower caption. */
  lemma RatingLabelBands(r: real)
    ensures RatingLabel(r) == NoRating <==> r == 0.0
    ensures RatingLabel(r) == HatedIt <==> r != 0.0 && r <= 1.5
    ensures RatingLabel(r) == NotForMe <==> 1.5 < r <= 2.5
    ensures RatingLabel(r) == PrettyDecent <==> 2.5 < r <= 3.5
    ensures RatingLabel(r) == LikedIt <==> 3.5 < r <= 4.5
    ensures RatingLabel(r) == LovedIt <==> 4.5 < r
  {
  }

  /** Over the non-negative ratings a higher rating never gets a worse
      caption ("No rating" for 0 ranks lowest); only a negative rating,
      which gets "Hated it", outranks 0. */
  lemma RatingLabelMonotone(r: real, s: real)
    requires 0.0 <= r <= s
    ensures CaptionRank(RatingLabel(r)) <= CaptionRank(RatingLabel(s))
  {
  }

  /** A whole number of stars k from 1 to 5 gets the k-th caption, so the
      five star choices show five different captions, none "No rating". */
  lemma StarCaption(k: int)
    requires 1 <= k <= 5
    ensures RatingLabel(k as real) == Captions[k]
  {
  }

  const FilledStar: char := '\U{2605}'
  const EmptyStar: char := '\U{2606}'

  /** `c.repeat(n)` for a non-negative count. */
  function Repeat(c: char, n: nat): (s: string)
    ensures |s| == n
    ensures forall i :: 0 <= i < n ==> s[i] == c
  {
    if n == 0 then [] else [c] + Repeat(c, n - 1)
  }

  /** `'★'.repeat(r) + '☆'.repeat(5 - r)` for an integer rating. `repeat`
      throws a RangeError for a negative count, which happens for r < 0 and
      for r > 5; otherwise the picture is five stars, the first r filled. */
  function RenderStars(r: int): (res: Result<string, RenderError>)
    ensures res.Success? <==> 0 <= r <= 5
    ensures res.Success? ==>
      && |res.value| == 5
      && forall i :: 0 <= i < 5 ==> res.value[i] == (if i < r then FilledStar else EmptyStar)
  {
    if r < 0 then Failure(RangeError)
    else if 5 - r < 0 then Failure(RangeError)
    else Success(Repeat(FilledStar, r) + Repeat(EmptyStar, 5 - r))
  }

  /** How many times `c` occurs in `s`. */
  function CountChar(c: char, s: string): (n: nat)
    ensures n <= |s|
  {
    if s == [] then 0 else (if s[0] == c then 1 else 0) + CountChar(c, s[1..])
  }

  lemma {:induction false} CountCharConcat(c: char, s: string, t: string)
    ensures CountChar(c, s + t) == CountChar(c, s) + CountChar(c, t)
  {
    if s == [] {
      assert s + t == t;
    } else {
      assert (s + t)[1..] == s[1..] + t;
      CountCharConcat(c, s[1..], t);
    }
  }

  lemma {:induction false} CountCharRepeat(c: char, d: char, n: nat)
    ensures CountChar(c, Repeat(d, n)) == if c == d then n else 0
  {
    if n > 0 {
      CountCharRepeat(c, d, n - 1);
      assert Repeat(d, n)[1..] == Repeat(d, n - 1);
    }
  }

  /** Reading the picture back: the number of filled stars drawn is the
      rating, and the rest of the five are empty. */
  lemma StarsShowRating(r: int)
    requires 0 <= r <= 5
    ensures RenderStars(r).Success?
    ensures CountChar(FilledStar, RenderStars(r).value) == r
    ensures CountChar(EmptyStar, RenderStars(r).value) == 5 - r
  {
    var filled, empty := Repeat(FilledStar, r), Repeat(EmptyStar, 5 - r);
    CountCharConcat(FilledStar, filled, empty);
    CountCharConcat(EmptyStar, filled, empty);
    CountCharRepeat(FilledStar, FilledStar, r);
    CountCharRepeat(FilledStar, EmptyStar, 5 - r);
    CountCharRepeat(EmptyStar, FilledStar, r);
    CountCharRepeat(EmptyStar, EmptyStar, 5 - r);
  }

  /** Different ratings are drawn differently. */
  lemma StarsInjective(r: int, s: int)
    requires 0 <= r <= 5 && 0 <= s <= 5
    requires RenderStars(r) == RenderStars(s)
    ensures r == s
  {
    StarsShowRating(r);
    StarsShowRating(s);
  }
}
