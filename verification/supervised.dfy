/**
 * The supervised recommender. High-scale data gets exactly one
 * recommendation from rating, column and signal answers. Low-scale data runs
 * the ratio test and then the output-type tests in one pass, so it prints one
 * or two recommendations: the flag from_b lets the "binary" branch run after
 * a ratio or regression message.
 */
module Supervised {
  import opened Text
  import opened Records
  import opened DataScale

  datatype Rec =
    | DecisionTree | RandomForest | RNN | CNN | NaiveBayes | ANN
    | SvmGaussian | LinearRegression | PolynomialRegression
    | LassoRidge | LogisticRegression | KNN

  /** The message printed for a recommendation: the common prefix, then the algorithm's name. */
  function Message(r: Rec): (m: string)
    ensures |m| > |Prefix|
    ensures m[..|Prefix|] == Prefix && m[|Prefix|..] == Name(r)
  {
    Prefix + Name(r)
  }

  const Prefix := "Start with Supervised Learning - "

  /** The algorithm named at the end of a recommendation's message. */
  function Name(r: Rec): string {
    match r
    case DecisionTree => "Decision Tree"
    case RandomForest => "Random Forest"
    case RNN => "RNN"
    case CNN => "CNN"
    case NaiveBayes => "Naive Bayes"
    case ANN => "ANN"
    case SvmGaussian => "SVN with Gaussian Kernel"
    case LinearRegression => "Linear Regression or Linear SVM"
    case PolynomialRegression => "Polynomial Regression or nonLinear SVM"
    case LassoRidge => "LASSO or Ridge Regression"
    case LogisticRegression => "Logistic Regression"
    case KNN => "KNN"
  }

  /** Whether a column/signal answer pair names audio or timeseries signals. */
  predicate AudioOrTimeseries(i: IntakeAnswers) {
    i.column == 2 && (i.signalType == 2 || i.signalType == 3)
  }

  /** The high-scale branch: one of six families, decided by the rating flags, then the column and signal type. */
  function HighScale(i: IntakeAnswers): (r: Rec)
    ensures r in {DecisionTree, RandomForest, RNN, CNN, NaiveBayes, ANN}
    ensures r == DecisionTree <==> Interpretable(i) && Faster(i)
    ensures r == RandomForest <==> Interpretable(i) && !Faster(i)
    ensures r == RNN <==> !Interpretable(i) && i.column == 3
    ensures r == CNN <==> !Interpretable(i) && i.column == 2 && i.signalType == 1
    ensures r == NaiveBayes <==> !Interpretable(i) && AudioOrTimeseries(i) && HasYes(i.outputProb)
    ensures r == ANN <==>
      && !Interpretable(i) && i.column != 3
      && !(i.column == 2 && i.signalType == 1)
      && !(AudioOrTimeseries(i) && HasYes(i.outputProb))
  {
    if Interpretable(i) then
      if Faster(i) then DecisionTree else RandomForest
    else if i.column == 3 then RNN
    else if i.column == 2 && i.signalType == 1 then CNN
    else if i.column == 2 && (i.signalType == 2 || i.signalType == 3) then
      if HasYes(i.outputProb) then NaiveBayes else ANN
    else ANN
  }

  /** The continuous-output branch: a linear model when a linear input/output relation is likely. */
  function Regression(i: IntakeAnswers): (r: Rec)
    ensures r in {LinearRegression, PolynomialRegression}
    ensures r == LinearRegression <==> 'y' in i.ioRelation || 'Y' in i.ioRelation
  {
    if HasYes(i.ioRelation) then LinearRegression else PolynomialRegression
  }

  /** The from_b branch: binary output is split by probability, independence and correlation; any other output type gets KNN. */
  function BinaryBranch(i: IntakeAnswers): (r: Rec)
    ensures r in {NaiveBayes, LassoRidge, LogisticRegression, PolynomialRegression, KNN}
    ensures r == KNN <==> i.outputType != 4
    ensures r == PolynomialRegression <==> i.outputType == 4 && !HasYes(i.outputProb)
    ensures r == NaiveBayes <==> i.outputType == 4 && HasYes(i.outputProb) && HasYes(i.condIndep)
    ensures r == LassoRidge <==>
      i.outputType == 4 && HasYes(i.outputProb) && !HasYes(i.condIndep) && HasYes(i.correlation)
    ensures r == LogisticRegression <==>
      i.outputType == 4 && HasYes(i.outputProb) && !HasYes(i.condIndep) && !HasYes(i.correlation)
  {
    if i.outputType == 4 then
      if HasYes(i.outputProb) then
        if HasYes(i.condIndep) then NaiveBayes
        else if HasYes(i.correlation) then LassoRidge
        else LogisticRegression
      else PolynomialRegression
    else KNN
  }

  /**
   * The low-scale branch, in the order its messages are printed: the SVM
   * message when the ratio is low, the regression message for continuous
   * output, and the binary branch whenever from_b was set (ratio high or
   * output not continuous).
   */
  function LowScale(i: IntakeAnswers): (recs: seq<Rec>)
    ensures 1 <= |recs| <= 2
    ensures recs[0] == SvmGaussian <==> FtodRatio(i) == Low
    ensures |recs| == 1 <==> FtodRatio(i) == High && i.outputType != 2
    ensures FtodRatio(i) == Low && i.outputType == 2 ==> recs == [SvmGaussian, Regression(i)]
    ensures FtodRatio(i) == Low && i.outputType != 2 ==> recs == [SvmGaussian, BinaryBranch(i)]
    ensures FtodRatio(i) == High && i.outputType == 2 ==> recs == [Regression(i), KNN]
    ensures FtodRatio(i) == High && i.outputType != 2 ==> recs == [BinaryBranch(i)]
  {
    var svm := if FtodRatio(i) == Low then [SvmGaussian] else [];
    var fromRatio := FtodRatio(i) != Low;
    var regression := if i.outputType == 2 then [Regression(i)] else [];
    var fromB := fromRatio || i.outputType != 2;
    var binary := if fromB then [BinaryBranch(i)] else [];
    svm + regression + binary
  }

  /** decide_supervised: the messages printed for one intake. */
  function DecideSupervised(i: IntakeAnswers): (recs: seq<Rec>)
    ensures 1 <= |recs| <= 2
    ensures |recs| == 1 <==> DataSize(i) == High || (FtodRatio(i) == High && i.outputType != 2)
    ensures SvmGaussian in recs <==> DataSize(i) == Low && i.featuresCount <= 50
    ensures SvmGaussian in recs ==> recs[0] == SvmGaussian
    ensures DataSize(i) == High ==> recs == [HighScale(i)]
    ensures DataSize(i) == Low ==> recs == LowScale(i)
  {
    if DataSize(i) == High then [HighScale(i)] else LowScale(i)
  }

  /** The high-scale path reads neither the ratio nor the answers only the low-scale path uses. */
  lemma HighScaleIgnoresRatio(i: IntakeAnswers, j: IntakeAnswers)
    requires DataSize(i) == High
    requires j.sizeBytes == i.sizeBytes && j.sizeSamples == i.sizeSamples
    requires j.metricInterpretability == i.metricInterpretability && j.metricSpeed == i.metricSpeed
    requires j.column == i.column && j.signalType == i.signalType && j.outputProb == i.outputProb
    ensures DecideSupervised(j) == DecideSupervised(i)
  {
  }

  /** Interpretable high-scale data: Decision Tree when speed matters (rating 3 or more), Random Forest otherwise. */
  lemma InterpretableHighScale(i: IntakeAnswers)
    requires DataSize(i) == High && Interpretable(i)
    ensures DecideSupervised(i) == (if i.metricSpeed >= 3 then [DecisionTree] else [RandomForest])
  {
  }

  /** Not interpretable (rating 1), image signals on high-scale data: CNN, never a tree. */
  lemma CnnScenario(i: IntakeAnswers)
    requires DataSize(i) == High && i.metricInterpretability == 1 && i.column == 2 && i.signalType == 1
    ensures DecideSupervised(i) == [CNN]
  {
  }

  /** Low-scale data with a high ratio and continuous output prints the regression message and then KNN. */
  lemma ContinuousHighRatioAlsoKnn(i: IntakeAnswers)
    requires DataSize(i) == Low && i.featuresCount > 50 && i.outputType == 2
    ensures DecideSupervised(i) == [Regression(i), KNN]
  {
  }

  /** Each recommendation is printed as its own message, so the printed text identifies the recommendation. */
  lemma MessagesDistinct(r: Rec, s: Rec)
    requires r != s
    ensures Message(r) != Message(s)
  {
  }
}
