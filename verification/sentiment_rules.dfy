/**
 The two rule tables of the sentiment pipeline: the categorizer, which combines the
 text's compound sentiment score with the star rating, and the bucketizer, which
 puts the score into one of four text ranges.
 Scores are mathematical reals: only ordering tests against fixed thresholds are made.
 */
module SentimentRules {

  /** The five sentiment categories; `Label` gives the text stored in the table. */
  datatype Category = Positive | Negative | MixedPositive | MixedNegative | Neutral
  {
    function Label(): string {
      match this
      case Positive => "Positive"
      case Negative => "Negative"
      case MixedPositive => "Mixed Positive"
      case MixedNegative => "Mixed Negative"
      case Neutral => "Neutral"
    }
  }

  /** The four score ranges, from strongly positive down to strongly negative. */
  datatype Bucket = StronglyPositive | MildlyPositive | MildlyNegative | StronglyNegative
  {
    function Label(): string {
      match this
      case StronglyPositive => "0.5 to 1.0"
      case MildlyPositive => "0.0 to 0.49"
      case MildlyNegative => "-0.49 to 0.0"
      case StronglyNegative => "-1.0 to -0.5"
    }

    /** The range of scores the bucket stands for: closed below, open above. */
    predicate Covers(score: real) {
      match this
      case StronglyPositive => 0.5 <= score
      case MildlyPositive => 0.0 <= score < 0.5
      case MildlyNegative => -0.5 <= score < 0.0
      case StronglyNegative => score < -0.5
    }

    /** Position on the scale strongly negative < mildly negative < mildly positive < strongly positive. */
    function Rank(): nat {
      match this
      case StronglyNegative => 0
      case MildlyNegative => 1
      case MildlyPositive => 2
      case StronglyPositive => 3
    }
  }

  /** Combines the score and the rating; the rating is not validated, so any integer is accepted. */
  function Categorize(score: real, rating: int): (c: Category)
    // each category, read back as the set of inputs that produce it
    ensures c == Positive <==> rating >= 4 && score >= -0.05
    ensures c == Negative <==> rating <= 2 && score <= 0.05
    ensures c == MixedPositive <==> (score > 0.05 && rating == 3) || (score < -0.05 && rating >= 4)
    ensures c == MixedNegative <==> (score < -0.05 && rating == 3) || (score > 0.05 && rating <= 2)
    ensures c == Neutral <==> -0.05 <= score <= 0.05 && rating == 3
  {
    if score > 0.05 then
      if rating >= 4 then Positive
      else if rating == 3 then MixedPositive
      else MixedNegative
    else if score < -0.05 then
      if rating <= 2 then Negative
      else if rating == 3 then MixedNegative
      else MixedPositive
    else
      if rating >= 4 then Positive
      else if rating <= 2 then Negative
      else Neutral
  }

  /** Picks the range of a score; the chained test of the second case is kept as written. */
  function BucketOf(score: real): (b: Bucket)
    ensures b.Covers(score)
    ensures forall other: Bucket :: other.Covers(score) ==> other == b
  {
    if score >= 0.5 then StronglyPositive
    else if 0.0 <= score < 0.5 then MildlyPositive
    else if -0.5 <= score < 0.0 then MildlyNegative
    else StronglyNegative
  }

  // ---------------------------------------------------------------------------
  // The categorizer as an explicit decision table over score and rating bands.

  datatype ScoreBand = Favourable | Unfavourable | Flat
  datatype RatingBand = High | Middle | Low

  function ScoreBandOf(score: real): ScoreBand {
    if score > 0.05 then Favourable else if score < -0.05 then Unfavourable else Flat
  }

  function RatingBandOf(rating: int): RatingBand {
    if rating >= 4 then High else if rating == 3 then Middle else Low
  }

  function Table(s: ScoreBand, r: RatingBand): Category {
    match (s, r)
    case (Favourable, High) => Positive
    case (Favourable, Middle) => MixedPositive
    case (Favourable, Low) => MixedNegative
    case (Unfavourable, High) => MixedPositive
    case (Unfavourable, Middle) => MixedNegative
    case (Unfavourable, Low) => Negative
    case (Flat, High) => Positive
    case (Flat, Middle) => Neutral
    case (Flat, Low) => Negative
  }

  /** The nested branches agree with the three-by-three table for every score and every integer rating. */
  lemma CategorizeIsTable(score: real, rating: int)
    ensures Categorize(score, rating) == Table(ScoreBandOf(score), RatingBandOf(rating))
  {
  }

  /** The stored texts identify the categories and the buckets: no two share a label. */
  lemma LabelsDistinct(c1: Category, c2: Category, b1: Bucket, b2: Bucket)
    ensures c1.Label() == c2.Label() ==> c1 == c2
    ensures b1.Label() == b2.Label() ==> b1 == b2
  {
  }

  /** There is no validation branch: a rating outside 1..5 goes through the same comparisons
      as the ratings 1..5, and so is categorized like the nearest rating in that range. */
  lemma CategorizeUnvalidatedRatings(score: real, rating: int)
    requires rating < 1 || rating > 5
    ensures Categorize(score, rating) == Categorize(score, if rating > 5 then 5 else 1)
    ensures score > 0.05 ==> Categorize(score, rating) == (if rating > 5 then Positive else MixedNegative)
    ensures score < -0.05 ==> Categorize(score, rating) == (if rating > 5 then MixedPositive else Negative)
    ensures -0.05 <= score <= 0.05 ==> Categorize(score, rating) == (if rating > 5 then Positive else Negative)
  {
  }

  /** The comparisons against 0.05 are strict, so the boundary scores are in the flat band. */
  lemma CategorizeBoundaries(rating: int)
    ensures Categorize(0.05, rating) == Categorize(0.0, rating)
    ensures Categorize(-0.05, rating) == Categorize(0.0, rating)
    ensures Categorize(0.05, 3) == Neutral && Categorize(-0.05, 3) == Neutral
  {
  }

  /** Boundary scores go to the upper of the two neighbouring buckets. */
  lemma BucketBoundaries()
    ensures BucketOf(0.5) == StronglyPositive && BucketOf(0.5).Label() == "0.5 to 1.0"
    ensures BucketOf(0.0) == MildlyPositive && BucketOf(0.0).Label() == "0.0 to 0.49"
    ensures BucketOf(-0.5) == MildlyNegative && BucketOf(-0.5).Label() == "-0.49 to 0.0"
  {
  }

  /** A higher score never lands in a lower bucket. */
  lemma BucketMonotone(s1: real, s2: real)
    requires s1 <= s2
    ensures BucketOf(s1).Rank() <= BucketOf(s2).Rank()
  {
  }
}
