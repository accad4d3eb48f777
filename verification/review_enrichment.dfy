/**
 The per-row enrichment of the review table. The table is an array of rows; each row
 keeps the review's original columns and gains three derived columns, which are absent
 until the script assigns them: first the sentiment score of every row, then the
 category of every row, then the bucket of every row. The sentiment scorer is a
 parameter of the model: any total function from review text to a real.
 */
module ReviewEnrichment {
  import opened SentimentRules

  datatype Option<T> = None | Some(value: T)

  /** The original columns of one review, as fetched; the date is passed through as text. */
  datatype Review = Review(
    reviewId: int,
    customerId: int,
    productId: int,
    reviewDate: string,
    rating: int,
    reviewText: string)

  /** One row of the table: the original columns and the three derived ones. */
  datatype Row = Row(
    review: Review,
    score: Option<real>,
    category: Option<Category>,
    bucket: Option<Bucket>)

  /** A row carries all three derived columns, and the category and bucket agree with its score. */
  predicate Consistent(row: Row) {
    row.score.Some? &&
    row.category == Some(Categorize(row.score.value, row.review.rating)) &&
    row.bucket == Some(BucketOf(row.score.value))
  }

  /** The enriched form of one row. */
  function EnrichRow(row: Row, scorer: string -> real): (r: Row)
    ensures r.review == row.review
    ensures r.score == Some(scorer(row.review.reviewText))
    ensures Consistent(r)
  {
    var s := scorer(row.review.reviewText);
    Row(row.review, Some(s), Some(Categorize(s, row.review.rating)), Some(BucketOf(s)))
  }

  /** The enriched table: one enriched row per input row, in the same order. */
  function EnrichRows(rows: seq<Row>, scorer: string -> real): (r: seq<Row>)
    ensures |r| == |rows|
    ensures forall i :: 0 <= i < |rows| ==> r[i] == EnrichRow(rows[i], scorer)
  {
    if rows == [] then [] else [EnrichRow(rows[0], scorer)] + EnrichRows(rows[1..], scorer)
  }

  /** Rows are enriched independently: enriching a split table gives the two enriched halves. */
  lemma EnrichRowsAppend(a: seq<Row>, b: seq<Row>, scorer: string -> real)
    ensures EnrichRows(a + b, scorer) == EnrichRows(a, scorer) + EnrichRows(b, scorer)
  {
  }

  /** Running the enrichment again on its own output changes nothing. */
  lemma EnrichRowsIdempotent(rows: seq<Row>, scorer: string -> real)
    ensures EnrichRows(EnrichRows(rows, scorer), scorer) == EnrichRows(rows, scorer)
  {
  }

  /** Summary of the contracts of EnrichRows and EnrichRow, stated over the whole table:
      every enriched row keeps its original columns and is consistent. */
  lemma EnrichRowsKeepsColumns(rows: seq<Row>, scorer: string -> real)
    ensures forall i :: 0 <= i < |rows| ==>
      EnrichRows(rows, scorer)[i].review == rows[i].review && Consistent(EnrichRows(rows, scorer)[i])
  {
  }

  /** With a scorer that keeps to [-1, 1], every stored score lies in [-1, 1]. */
  lemma EnrichRowsScoreRange(rows: seq<Row>, scorer: string -> real)
    requires forall t :: -1.0 <= scorer(t) <= 1.0
    ensures forall i :: 0 <= i < |rows| ==>
      -1.0 <= EnrichRows(rows, scorer)[i].score.value <= 1.0
  {
  }

  // ---------------------------------------------------------------------------
  // The in-place column assignments of the script.

  /** Assigns the score column: the scorer applied to each row's review text. */
  method AssignScores(table: array<Row>, scorer: string -> real)
    modifies table
    ensures forall i :: 0 <= i < table.Length ==>
      table[i] == old(table[i]).(score := Some(scorer(old(table[i]).review.reviewText)))
  {
    var i := 0;
    while i < table.Length
      invariant 0 <= i <= table.Length
      invariant forall k :: 0 <= k < i ==>
        table[k] == old(table[k]).(score := Some(scorer(old(table[k]).review.reviewText)))
      invariant forall k :: i <= k < table.Length ==> table[k] == old(table[k])
    {
      table[i] := table[i].(score := Some(scorer(table[i].review.reviewText)));
      i := i + 1;
    }
  }

  /** Assigns the category column from each row's score and rating; the score column must be there. */
  method AssignCategories(table: array<Row>)
    requires forall i :: 0 <= i < table.Length ==> table[i].score.Some?
    modifies table
    ensures forall i :: 0 <= i < table.Length ==>
      table[i] == old(table[i]).(category := Some(Categorize(old(table[i]).score.value, old(table[i]).review.rating)))
  {
    var i := 0;
    while i < table.Length
      invariant 0 <= i <= table.Length
      invariant forall k :: 0 <= k < i ==>
        table[k] == old(table[k]).(category := Some(Categorize(old(table[k]).score.value, old(table[k]).review.rating)))
      invariant forall k :: i <= k < table.Length ==> table[k] == old(table[k])
    {
      table[i] := table[i].(category := Some(Categorize(table[i].score.value, table[i].review.rating)));
      i := i + 1;
    }
  }

  /** Assigns the bucket column from each row's score; the score column must be there. */
  method AssignBuckets(table: array<Row>)
    requires forall i :: 0 <= i < table.Length ==> table[i].score.Some?
    modifies table
    ensures forall i :: 0 <= i < table.Length ==>
      table[i] == old(table[i]).(bucket := Some(BucketOf(old(table[i]).score.value)))
  {
    var i := 0;
    while i < table.Length
      invariant 0 <= i <= table.Length
      invariant forall k :: 0 <= k < i ==>
        table[k] == old(table[k]).(bucket := Some(BucketOf(old(table[k]).score.value)))
      invariant forall k :: i <= k < table.Length ==> table[k] == old(table[k])
    {
      table[i] := table[i].(bucket := Some(BucketOf(table[i].score.value)));
      i := i + 1;
    }
  }

  /** The three assignments in the script's order; the table ends up as its enriched form. */
  method EnrichTable(table: array<Row>, scorer: string -> real)
    modifies table
    ensures table[..] == EnrichRows(old(table[..]), scorer)
  {
    AssignScores(table, scorer);
    AssignCategories(table);
    AssignBuckets(table);
    assert forall i :: 0 <= i < table.Length ==> table[..][i] == EnrichRow(old(table[..])[i], scorer);
  }
}
