/**
 * The data-scale classifier at the head of the supervised recommender: the
 * overall data size (low/high), the feature-to-data ratio (low/high) and the
 * two importance flags derived from 1-5 ratings.
 *
 * Only the unit letters of the size answers matter. The bytes answer is
 * lower-cased before it is searched; the samples answer is searched as typed,
 * so only a lower-case 't' or 'm' in it has any effect.
 */
module DataScale {
  import opened Text
  import opened Records

  datatype Level = Low | High

  /** The size bucket that picks the feature-count threshold. */
  datatype Bucket = Thousands | Millions | Billions

  /** The feature count above which the ratio of a bucket is high. */
  function Threshold(b: Bucket): nat {
    match b
    case Thousands => 50
    case Millions => 5000
    case Billions => 500000
  }

  /** The size test shared by the data-size decision and the first ratio bucket. */
  predicate SmallData(i: IntakeAnswers)
    ensures SmallData(i) <==> 'k' in i.sizeBytes || 'K' in i.sizeBytes || 't' in i.sizeSamples
  {
    LowerContains(i.sizeBytes, 'k');
    'k' in Lower(i.sizeBytes) || 't' in i.sizeSamples
  }

  /** data_size: low exactly when the bytes answer names kilobytes or the samples answer a lower-case 't'. */
  function DataSize(i: IntakeAnswers): (l: Level)
    ensures l == Low <==> 'k' in i.sizeBytes || 'K' in i.sizeBytes || 't' in i.sizeSamples
  {
    if SmallData(i) then Low else High
  }

  /** Which of the three ratio buckets applies: K/T first, then 'm', then everything else. */
  function SizeBucket(i: IntakeAnswers): (b: Bucket)
    ensures b == Thousands <==> DataSize(i) == Low
    ensures b == Millions <==>
      DataSize(i) == High && ('m' in i.sizeBytes || 'M' in i.sizeBytes || 'm' in i.sizeSamples)
  {
    LowerContains(i.sizeBytes, 'm');
    if SmallData(i) then Thousands
    else if 'm' in Lower(i.sizeBytes) || 'm' in i.sizeSamples then Millions
    else Billions
  }

  /** ftod_ratio: high exactly when the feature count is strictly above the threshold of the data's bucket. */
  function FtodRatio(i: IntakeAnswers): (l: Level)
    ensures l == High <==> i.featuresCount > Threshold(SizeBucket(i))
    ensures DataSize(i) == Low ==> (l == High <==> i.featuresCount > 50)
  {
    if SmallData(i) then
      (if i.featuresCount > 50 then High else Low)
    else if 'm' in Lower(i.sizeBytes) || 'm' in i.sizeSamples then
      (if i.featuresCount > 5000 then High else Low)
    else
      (if i.featuresCount > 500000 then High else Low)
  }

  /** A rating of 3 or more marks a metric as important. */
  predicate Important(rating: int) {
    rating >= 3
  }

  /** interpretability: set when the interpretability rating is 3 or more. */
  predicate Interpretable(i: IntakeAnswers)
    ensures Interpretable(i) <==> i.metricInterpretability >= 3
  {
    Important(i.metricInterpretability)
  }

  /** faster: set when the speed rating is 3 or more. */
  predicate Faster(i: IntakeAnswers)
    ensures Faster(i) <==> i.metricSpeed >= 3
  {
    Important(i.metricSpeed)
  }

  /** 3 is the lowest important rating, 2 the highest unimportant one, and importance is monotone. */
  lemma RatingBoundary(r: int, s: int)
    requires r <= s
    ensures Important(3) && !Important(2)
    ensures Important(r) ==> Important(s)
    ensures Interpretable(IntakeAnswers(3, 3, 1, 1, 1, "", "", "", "", "", 1, ""))
    ensures !Faster(IntakeAnswers(2, 3, 1, 1, 1, "", "", "", "", "", 1, ""))
  {
  }

  /** Within a bucket the ratio flips from low to high exactly between the threshold and the next count. */
  lemma RatioFlipsAtThreshold(i: IntakeAnswers)
    ensures FtodRatio(i.(featuresCount := Threshold(SizeBucket(i)))) == Low
    ensures FtodRatio(i.(featuresCount := Threshold(SizeBucket(i)) + 1)) == High
  {
    var lo := i.(featuresCount := Threshold(SizeBucket(i)));
    var hi := i.(featuresCount := Threshold(SizeBucket(i)) + 1);
    assert SizeBucket(lo) == SizeBucket(i) == SizeBucket(hi);
  }

  /** The thresholds of the three buckets, on concrete answers: 51, 5001 and 500001 are the first high counts. */
  lemma RatioBoundaries()
    ensures FtodRatio(IntakeAnswers(1, 1, 1, 1, 50, "", "", "", "10K", "", 1, "")) == Low
    ensures FtodRatio(IntakeAnswers(1, 1, 1, 1, 51, "", "", "", "10K", "", 1, "")) == High
    ensures FtodRatio(IntakeAnswers(1, 1, 1, 1, 5000, "", "", "", "5M", "", 1, "")) == Low
    ensures FtodRatio(IntakeAnswers(1, 1, 1, 1, 5001, "", "", "", "5M", "", 1, "")) == High
    ensures FtodRatio(IntakeAnswers(1, 1, 1, 1, 500000, "", "", "", "1G", "1B", 1, "")) == Low
    ensures FtodRatio(IntakeAnswers(1, 1, 1, 1, 500001, "", "", "", "1G", "1B", 1, "")) == High
  {
    assert "10K"[2] == 'K';
    assert "5M"[1] == 'M';
    assert forall k :: 0 <= k < |"1G"| ==> "1G"[k] in {'1', 'G'};
    assert forall k :: 0 <= k < |"1B"| ==> "1B"[k] in {'1', 'B'};
  }

  /** The samples answer is not lower-cased: "10T" samples with gigabytes is high-scale data in the billions bucket. */
  lemma UpperCaseSamplesIgnored()
    ensures DataSize(IntakeAnswers(1, 1, 1, 1, 10, "", "", "", "1G", "10T", 1, "")) == High
    ensures SizeBucket(IntakeAnswers(1, 1, 1, 1, 10, "", "", "", "1G", "1M", 1, "")) == Billions
    ensures DataSize(IntakeAnswers(1, 1, 1, 1, 10, "", "", "", "1G", "10t", 1, "")) == Low
  {
    assert forall k :: 0 <= k < |"1G"| ==> "1G"[k] in {'1', 'G'};
    assert forall k :: 0 <= k < |"10T"| ==> "10T"[k] in {'1', '0', 'T'};
    assert forall k :: 0 <= k < |"1M"| ==> "1M"[k] in {'1', 'M'};
    assert "10t"[2] == 't';
  }
}
