/**
 * The reinforcement recommender: a four-level tree over the reinforcement
 * answers and the intake's output type, ending in one of five algorithm
 * families. Every answer is tested with the substring yes-test.
 */
module Reinforced {
  import opened Text
  import opened Records

  datatype Rec =
    | AlphaZero           // model-based, with a model at hand
    | ModelBased          // World Models, I2A, MBMF, MBVE
    | PolicyGradient      // Policy Gradient, Actor Critic
    | MonteCarloTD        // Monte Carlo, TD(0), TD(Lambda)
    | SarsaQLearning      // SARSA, QLearning, Deep Q Nets

  /**
   * The message printed for a recommendation. Only AlphaZero is a single
   * algorithm to start with; every other message lists models to consider.
   */
  function Message(r: Rec): (m: string)
    ensures |m| > |StartPrefix| && |m| > |ConsiderPrefix|
    ensures m[..|StartPrefix|] == StartPrefix <==> r == AlphaZero
    ensures m[..|ConsiderPrefix|] == ConsiderPrefix <==> r != AlphaZero
  {
    assert StartPrefix[0] != ConsiderPrefix[0];
    match r
    case AlphaZero => StartPrefix + "Reinforcement Learning - AlphaZero"
    case ModelBased => ConsiderPrefix + " - World Models, I2A, MBMF, and MBVE"
    case PolicyGradient => ConsiderPrefix + ": Policy Gradient and Actor Critic"
    case MonteCarloTD => ConsiderPrefix + " - Monte Carlo, TD(0), and TD(Lambda)"
    case SarsaQLearning => ConsiderPrefix + " - SARSA, QLearning, Deep Queue Nets"
  }

  const StartPrefix := "Start with "
  const ConsiderPrefix := "Reinforcement Learning models to consider"

  /** decide_reinforced: the one message printed for an output type (data_type_output) and the reinforcement answers. */
  function DecideReinforced(outputType: int, ri: ReinforcementAnswers): (recs: seq<Rec>)
    ensures |recs| == 1
    ensures recs[0] == AlphaZero <==>
      outputType == 2 && HasYes(ri.modelPreference) && HasYes(ri.modelAvailability)
    ensures recs[0] == ModelBased <==>
      || (outputType == 2 && !(HasYes(ri.modelPreference) && HasYes(ri.modelAvailability)))
      || (outputType != 2 && HasYes(ri.modelPreference))
    ensures recs[0] == PolicyGradient <==>
      outputType != 2 && !HasYes(ri.modelPreference) && !HasYes(ri.modelfreeValue)
    ensures recs[0] == MonteCarloTD <==>
      outputType != 2 && !HasYes(ri.modelPreference) && HasYes(ri.modelfreeValue) && HasYes(ri.modelfreeValueState)
    ensures recs[0] == SarsaQLearning <==>
      outputType != 2 && !HasYes(ri.modelPreference) && HasYes(ri.modelfreeValue) && !HasYes(ri.modelfreeValueState)
  {
    if outputType == 2 then
      if HasYes(ri.modelPreference) && HasYes(ri.modelAvailability) then [AlphaZero]
      else [ModelBased]
    else if HasYes(ri.modelPreference) then [ModelBased]
    else if !HasYes(ri.modelfreeValue) then [PolicyGradient]
    else if HasYes(ri.modelfreeValueState) then [MonteCarloTD]
    else [SarsaQLearning]
  }

  /** Outside continuous output the model-availability answer is never read. */
  lemma AvailabilityOnlyForContinuous(outputType: int, ri: ReinforcementAnswers, availability: string)
    requires outputType != 2
    ensures DecideReinforced(outputType, ri.(modelAvailability := availability)) == DecideReinforced(outputType, ri)
  {
  }

  /** Outside continuous output a preference for model-based learning decides alone, whatever the other answers. */
  lemma PreferenceDominates(outputType: int, ri: ReinforcementAnswers)
    requires outputType != 2 && HasYes(ri.modelPreference)
    ensures DecideReinforced(outputType, ri) == [ModelBased]
  {
  }

  /** Discrete output, no model preference, value-based with state-only values: Monte Carlo / TD. */
  lemma ValueStateScenario()
    ensures DecideReinforced(1, ReinforcementAnswers("N", "N", "Y", "Y")) == [MonteCarloTD]
  {
    assert "Y"[0] == 'Y';
  }

  /** Continuous output with a preferred and available model: AlphaZero. */
  lemma AlphaZeroScenario()
    ensures DecideReinforced(2, ReinforcementAnswers("Y", "yes", "N", "N")) == [AlphaZero]
  {
    assert "Y"[0] == 'Y';
    assert "yes"[0] == 'y';
  }

  /** Each family is printed with its own message. */
  lemma MessagesDistinct(r: Rec, s: Rec)
    requires r != s
    ensures Message(r) != Message(s)
  {
  }
}
