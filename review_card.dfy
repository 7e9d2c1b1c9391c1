/** One review in the list (src/components/ReviewCard.tsx): the helpful
    button's vote state, the star row and the photo strip. */
module ReviewCard {
  import opened Types
  import Seqs

  /** The helpful button's state: the count starts at the review's own count
      and a reader votes at most once. */
  class HelpfulVote {
    const initial: int
    var helpfulCount: int
    var hasVoted: bool

    /** The count is the review's count plus the reader's vote, if cast. */
    ghost predicate Valid()
      reads this
    {
      helpfulCount == initial + (if hasVoted then 1 else 0)
    }

    constructor(review: Review)
      ensures initial == review.helpful && helpfulCount == review.helpful && !hasVoted
      ensures Valid()
    {
      initial := review.helpful;
      helpfulCount := review.helpful;
      hasVoted := false;
    }

    /** `handleHelpfulClick`: the first click adds one and records the vote;
        later clicks change nothing. */
    method HandleHelpfulClick()
      requires Valid()
      modifies this
      ensures Valid() && hasVoted
      ensures !old(hasVoted) ==> helpfulCount == old(helpfulCount) + 1
      ensures old(hasVoted) ==> helpfulCount == old(helpfulCount)
      ensures initial <= helpfulCount <= initial + 1
    {
      if !hasVoted {
        helpfulCount := helpfulCount + 1;
        hasVoted := true;
      }
    }
  }

  /** Star i (0 to 4) of the row is filled. */
  predicate StarFilled(i: int, rating: int) {
    i < rating
  }

  /** The five stars of the row, left to right. */
  function StarRow(rating: int): (r: seq<bool>)
    ensures |r| == 5
  {
    seq(5, i => StarFilled(i, rating))
  }

  /** Number of true entries. */
  function CountFilled(row: seq<bool>): nat {
    if row == [] then 0 else (if row[0] then 1 else 0) + CountFilled(row[1..])
  }

  /** Reference definition: `rating` clamped to 0..5. */
  function Clamp5(rating: int): nat {
    if rating < 0 then 0 else if rating > 5 then 5 else rating
  }

  lemma {:induction false} CountFilledOfPrefixRow(row: seq<bool>, m: int)
    requires 0 <= m <= |row|
    requires forall i :: 0 <= i < |row| ==> row[i] == (i < m)
    ensures CountFilled(row) == m
  {
    if row != [] {
      var m' := if m > 0 then m - 1 else 0;
      if m == 0 {
        assert !row[0];
      }
      assert forall i :: 0 <= i < |row[1..]| ==> row[1..][i] == (i < m') by {
        forall i | 0 <= i < |row[1..]| ensures row[1..][i] == (i < m') {
          assert row[1..][i] == row[i + 1];
        }
      }
      CountFilledOfPrefixRow(row[1..], m');
    }
  }

  /** The row fills the first stars, as many as the rating clamped to 0..5. */
  lemma StarRowSpec(rating: int)
    ensures CountFilled(StarRow(rating)) == Clamp5(rating)
    ensures forall i :: 0 <= i < 5 ==> (StarRow(rating)[i] <==> i < rating)
  {
    CountFilledOfPrefixRow(StarRow(rating), Clamp5(rating));
  }

  /** The photo strip is shown for a non-empty image list. */
  predicate ShowsPhotos(images: seq<string>) {
    |images| > 0
  }

  /** `images.slice(0, 3)`. */
  function Thumbnails(images: seq<string>): seq<string> {
    Seqs.Take(images, 3)
  }

  /** The "+n" tile, shown for more than three images. */
  function OverflowTile(images: seq<string>): Option<int> {
    if |images| > 3 then Some(|images| - 3) else None
  }

  /** At most three thumbnails, the first images in order; with the overflow
      tile every image is accounted for exactly once. */
  lemma PhotoStripSpec(images: seq<string>)
    ensures |Thumbnails(images)| <= 3
    ensures Thumbnails(images) == images[..|Thumbnails(images)|]
    ensures OverflowTile(images).Some? <==> |images| > 3
    ensures OverflowTile(images).Some? ==> OverflowTile(images).value > 0
    ensures |Thumbnails(images)| + (if OverflowTile(images).Some? then OverflowTile(images).value else 0) == |images|
  {
    assert images[..|images|] == images;
  }
}
