/**
 * The feasibility gate: the branching of the main wizard, which decides from
 * up to four yes/no answers whether the problem needs machine learning.
 * Each answer is tested with the exact yes-test (lower-cased answer equals "y").
 */
module Feasibility {
  import opened Text
  import opened Records

  datatype Verdict = NeedML | NotRequired

  /**
   * The message printed for a verdict (without its terminal colour codes).
   * Only the "not required" message carries an extra trailing newline.
   */
  function Message(v: Verdict): (m: string)
    ensures |m| > 0
    ensures m[|m| - 1] == '\n' <==> v == NotRequired
  {
    match v
    case NeedML => "Looks like you need ML, let's continue"
    case NotRequired => "ML is not required - Please consider alternate approaches\n"
  }

  /** The question each wizard level asks. */
  datatype Question = Availability | Creativity | Programmability | Knowledge | Pattern

  function Answer(a: FeasibilityAnswers, q: Question): string {
    match q
    case Availability => a.availability
    case Creativity => a.creativity
    case Programmability => a.programmability
    case Knowledge => a.knowledge
    case Pattern => a.pattern
  }

  /** The messages printed by one pass through the gate. */
  function Gate(a: FeasibilityAnswers): (msgs: seq<Verdict>)
    ensures |msgs| == 1
    ensures msgs[0] == NeedML <==>
      || (IsYes(a.availability) && !IsYes(a.programmability) && (IsYes(a.knowledge) || IsYes(a.pattern)))
      || (!IsYes(a.availability) && IsYes(a.creativity))
  {
    if IsYes(a.availability) then
      if IsYes(a.programmability) then [NotRequired]
      else if IsYes(a.knowledge) then [NeedML]
      else if IsYes(a.pattern) then [NeedML]
      else [NotRequired]
    else
      if IsYes(a.creativity) then [NeedML] else [NotRequired]
  }

  /** The wizard level (1 to 4) that asks a question. */
  function Level(q: Question): nat {
    match q
    case Availability => 1
    case Creativity | Programmability => 2
    case Knowledge => 3
    case Pattern => 4
  }

  /** The questions asked, in order: each level's wizard runs only on its branch, one level after another. */
  function Asked(a: FeasibilityAnswers): (qs: seq<Question>)
    ensures 2 <= |qs| <= 4 && qs[0] == Availability
    ensures forall k :: 0 <= k < |qs| ==> Level(qs[k]) == k + 1
    ensures Creativity in qs <==> !IsYes(a.availability)
    ensures Programmability in qs <==> IsYes(a.availability)
    ensures Knowledge in qs <==> IsYes(a.availability) && !IsYes(a.programmability)
    ensures Pattern in qs <==> IsYes(a.availability) && !IsYes(a.programmability) && !IsYes(a.knowledge)
  {
    if IsYes(a.availability) then
      if IsYes(a.programmability) then [Availability, Programmability]
      else if IsYes(a.knowledge) then [Availability, Programmability, Knowledge]
      else [Availability, Programmability, Knowledge, Pattern]
    else
      [Availability, Creativity]
  }

  /** The gate reads nothing but the questions it asked: two answer sets that agree on those get the same verdict. */
  lemma GateReadsOnlyAsked(a: FeasibilityAnswers, b: FeasibilityAnswers)
    requires forall q :: q in Asked(a) ==> Answer(a, q) == Answer(b, q)
    ensures Asked(b) == Asked(a)
    ensures Gate(b) == Gate(a)
  {
    assert Answer(a, Availability) == Answer(b, Availability);
    if IsYes(a.availability) {
      assert Answer(a, Programmability) == Answer(b, Programmability);
      if !IsYes(a.programmability) {
        assert Answer(a, Knowledge) == Answer(b, Knowledge);
        if !IsYes(a.knowledge) {
          assert Answer(a, Pattern) == Answer(b, Pattern);
        }
      }
    } else {
      assert Answer(a, Creativity) == Answer(b, Creativity);
    }
  }

  /** An availability answer other than "y"/"Y" ("U", "N", even "yes") leads to the creativity question. */
  lemma UnsureAvailabilityAsksCreativity(a: FeasibilityAnswers)
    requires a.availability in {"U", "N", "yes"}
    ensures Asked(a) == [Availability, Creativity]
    ensures Gate(a) == (if a.creativity in {"y", "Y"} then [NeedML] else [NotRequired])
  {
  }

  /** Availability "y" with programmability "Y" stops the wizard: ML is not required. */
  lemma StopOnProgrammability(a: FeasibilityAnswers)
    requires a.availability == "y" && a.programmability == "Y"
    ensures Gate(a) == [NotRequired]
    ensures Pattern !in Asked(a)
  {
  }

  /** Availability yes, programmability and knowledge no, pattern yes: ML is needed. */
  lemma ContinueViaPattern(a: FeasibilityAnswers)
    requires a.availability == "Y" && a.programmability == "N" && a.knowledge == "N" && a.pattern == "y"
    ensures Gate(a) == [NeedML]
    ensures Asked(a) == [Availability, Programmability, Knowledge, Pattern]
  {
  }
}
