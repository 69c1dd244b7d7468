/**
 * The questionnaire answers the decision policy reads, as the wizards hand
 * them over: free-text answers stay strings (the rules test them by
 * lower-casing and looking for 'y'), and the answers the rules pass through
 * int() are integers.
 */
module Records {

  /** Answers of the four "need for ML" wizards (data_availability ... data_pattern). */
  datatype FeasibilityAnswers = FeasibilityAnswers(
    availability: string,
    creativity: string,
    programmability: string,
    knowledge: string,
    pattern: string)

  /**
   * Answers of the generic wizard that some rule reads. The fields no rule
   * reads (goal, accuracy, ease of implementation, text type, "features well
   * defined", distribution, missing values) are not carried.
   */
  datatype IntakeAnswers = IntakeAnswers(
    metricSpeed: int,            // metric_speed, a 1-5 rating
    metricInterpretability: int, // metric_interpretability, a 1-5 rating
    column: int,                 // data_column: 1 features, 2 signals, 3 text, 4 other
    signalType: int,             // data_signal_type: 1 image, 2 audio, 3 timeseries, 4 other, 5 n/a
    featuresCount: int,          // data_features_count
    ioRelation: string,          // data_io_relation
    correlation: string,         // data_correlation
    condIndep: string,           // data_cond_indep
    sizeBytes: string,           // data_size_bytes, e.g. "10G"
    sizeSamples: string,         // data_size_samples, e.g. "1M"
    outputType: int,             // data_type_output: 1 discrete, 2 continuous, 3 ordinal, 4 binary, 5 multiclass
    outputProb: string)          // data_output_prob

  /** Answers of the reinforcement wizard that some rule reads (ri_info is not). */
  datatype ReinforcementAnswers = ReinforcementAnswers(
    modelPreference: string,
    modelAvailability: string,
    modelfreeValue: string,
    modelfreeValueState: string)
}
