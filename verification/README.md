# Sentiment classification and bucketing of customer reviews

A Dafny model of the decision logic of the marketing-analysis script
`marketing-analysis-project/pythonSentimentAnalysis.py`. The script takes a table of
customer reviews and adds three columns. `SentimentScore` is the VADER compound score
of the review text. `SentimentCategory` combines that score with the star rating into
one of Positive, Negative, Mixed Positive, Mixed Negative and Neutral.
`SentimentBucket` is one of four score ranges.

- `sentiment_rules.dfy` (module `SentimentRules`): the categorizer and the bucketizer
  as functions over a real score and an integer rating, the categories and buckets
  as datatypes whose `Label` is the exact text the script stores, and the lemmas about them.
- `review_enrichment.dfy` (module `ReviewEnrichment`): the table as an array of rows.
  Each row keeps its original columns and has three optional derived columns. The three
  column assignments of the script are in-place loops. The whole enrichment is proved
  equal to a pure specification, `EnrichRows`, and the lemmas are stated about that.

The VADER scorer is a parameter `scorer: string -> real`. The model assumes nothing about
it, except in `EnrichRowsScoreRange`, which takes the documented range [-1, 1] as its requirement.

The script has no validation branch for the rating. A rating outside 1..5 goes through the
same comparisons as the ratings 1..5. For example, with a score above 0.05, rating 6 gives
Positive and rating 0 gives Mixed Negative.

A score of exactly -0.5 is bucketed as `-0.49 to 0.0`, because line 76 tests `-0.5 <= score`.

## Model

| member | source | states |
|---|---|---|
| SentimentRules.Categorize | marketing-analysis-project/pythonSentimentAnalysis.py:46-68 | For every real score and every integer rating, it gives one of the five categories. Each category is characterised by its inputs: Positive iff rating >= 4 and score >= -0.05. Negative iff rating <= 2 and score <= 0.05. Mixed Positive iff (score > 0.05 and rating = 3) or (score < -0.05 and rating >= 4). Mixed Negative iff (score < -0.05 and rating = 3) or (score > 0.05 and rating <= 2). Neutral iff -0.05 <= score <= 0.05 and rating = 3. |
| SentimentRules.CategorizeIsTable | marketing-analysis-project/pythonSentimentAnalysis.py:48-68 | The nested branches equal a 3x3 decision table. Score bands are > 0.05, < -0.05 and the closed middle. Rating bands are >= 4, = 3 and everything else. |
| SentimentRules.CategorizeUnvalidatedRatings | marketing-analysis-project/pythonSentimentAnalysis.py:48-68 | For every score and every integer rating outside 1..5, the category is the one for the nearest rating in range: 5 for ratings above 5 and 1 for ratings below 1. Above 5: a score above 0.05 gives Positive, below -0.05 gives Mixed Positive, and a flat score gives Positive. Below 1: a score above 0.05 gives Mixed Negative, and below -0.05 or flat gives Negative. |
| SentimentRules.CategorizeBoundaries | marketing-analysis-project/pythonSentimentAnalysis.py:48-68 | Scores of exactly 0.05 and -0.05 are treated like 0.0 for every rating, because both comparisons are strict. With rating 3 they give Neutral. |
| SentimentRules.BucketOf | marketing-analysis-project/pythonSentimentAnalysis.py:71-79 | The returned bucket covers the score: [0.5, inf), [0.0, 0.5), [-0.5, 0.0) or (-inf, -0.5). No other bucket covers it, so the four ranges partition the reals. |
| SentimentRules.BucketBoundaries | marketing-analysis-project/pythonSentimentAnalysis.py:72-77 | Boundary values go to the upper bucket. 0.5 gives "0.5 to 1.0", 0.0 gives "0.0 to 0.49", and -0.5 gives "-0.49 to 0.0". |
| SentimentRules.BucketMonotone | marketing-analysis-project/pythonSentimentAnalysis.py:71-79 | If s1 <= s2, the bucket of s1 ranks no higher than the bucket of s2. The order is strongly negative < mildly negative < mildly positive < strongly positive. |
| SentimentRules.LabelsDistinct | marketing-analysis-project/pythonSentimentAnalysis.py:48-79 | The five category texts are pairwise different, and so are the four bucket texts. Modelling them as datatypes therefore loses nothing. |
| ReviewEnrichment.EnrichRow | marketing-analysis-project/pythonSentimentAnalysis.py:82-89 | An enriched row keeps the original columns, and its score is the scorer applied to its review text. Its category is the categorization of that score and the row's rating, and its bucket is the bucket of that score. |
| ReviewEnrichment.EnrichRows | marketing-analysis-project/pythonSentimentAnalysis.py:82-89 | The output has as many rows as the input, in the same order. Row i is the enrichment of input row i. |
| ReviewEnrichment.EnrichRowsAppend | marketing-analysis-project/pythonSentimentAnalysis.py:82-89 | Rows are enriched independently: enriching a + b gives the enrichment of a followed by the enrichment of b. |
| ReviewEnrichment.EnrichRowsIdempotent | marketing-analysis-project/pythonSentimentAnalysis.py:82-89 | Re-running the three column assignments on an enriched table leaves it unchanged. |
| ReviewEnrichment.EnrichRowsKeepsColumns | marketing-analysis-project/pythonSentimentAnalysis.py:82-89 | A summary of the EnrichRows and EnrichRow contracts, stated over the whole table: every output row has the original columns of its input row. Its category and bucket agree with its score and rating. |
| ReviewEnrichment.EnrichRowsScoreRange | marketing-analysis-project/pythonSentimentAnalysis.py:41-43 | If the scorer returns values in [-1, 1], every stored score is in [-1, 1]. |
| ReviewEnrichment.AssignScores | marketing-analysis-project/pythonSentimentAnalysis.py:82 | In place, every row's score column becomes the scorer applied to its review text. Every other column of every row is unchanged. |
| ReviewEnrichment.AssignCategories | marketing-analysis-project/pythonSentimentAnalysis.py:85-86 | In place, every row's category column becomes the categorization of its score and rating. Every other column is unchanged. It needs the score column to be present. |
| ReviewEnrichment.AssignBuckets | marketing-analysis-project/pythonSentimentAnalysis.py:89 | In place, every row's bucket column becomes the bucket of its score. Every other column is unchanged. It needs the score column to be present. |
| ReviewEnrichment.EnrichTable | marketing-analysis-project/pythonSentimentAnalysis.py:82-89 | After the three assignments in the script's order, the table equals EnrichRows of the table it started from. |

## Left out

- The database fetch (connection string, query, `read_sql`, lines 9-33) is I/O. The table is given as the input array.
- The lexicon download and VADER's scoring algorithm (lines 6 and 36-43) are a foreign library. The scorer is a function parameter. Its [-1, 1] range is assumed only by `EnrichRowsScoreRange`.
- Printing the first rows (line 92) and writing the CSV file (line 95) are output I/O. CSV quoting is not modelled.
- Floating point: scores are mathematical reals. Rounding is not modelled, and neither is NaN, which would reach the last `else` of the bucketizer.
- SQL NULLs are not modelled: `Rating` is a non-null integer and `ReviewText` a non-null string. A NULL rating would arrive as NaN and fail every rating test, and a NULL text would be outside the scorer's domain.
- The rating column is modelled as an integer. A fractional rating would behave differently in the `== 3` tests.
- A missing `SentimentScore` column, which would make pandas raise a key error, is excluded by the requirements of `AssignCategories` and `AssignBuckets`. The script always assigns that column first.
- The table is an array of whole rows. Pandas stores it by columns, and the model does not capture that layout or any aliasing between columns.
