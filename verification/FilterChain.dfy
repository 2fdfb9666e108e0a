/** A chain of filters asked in turn until one of them commits itself. */
module FilterChain {
  import opened Models

  datatype Decision = Keep | Drop | Uncertain

  datatype FilterDecision = FilterDecision(decision: Decision, filterName: string, reason: string)

  const UNDECIDED := FilterDecision(Uncertain, "", "")

  predicate Stops(answer: Answer<FilterDecision>) {
    answer.Raise? || answer.value.decision != Uncertain
  }

  /** `answers[i]` is what the i-th filter says, or raises, when it is asked. */
  function Run(answers: seq<Answer<FilterDecision>>): Answer<FilterDecision> {
    if answers == [] then Ok(UNDECIDED)
    else if Stops(answers[0]) then answers[0]
    else Run(answers[1..])
  }

  /** The filter is undecided. */
  predicate Silent(answer: Answer<FilterDecision>) {
    answer.Ok? && answer.value.decision == Uncertain
  }

  /** The first filter from the i-th on that is not silent. */
  function FirstLoud(answers: seq<Answer<FilterDecision>>, i: nat): (first: nat)
    requires i <= |answers|
    ensures i <= first <= |answers| && forall j | i <= j < first :: Silent(answers[j])
    ensures first < |answers| ==> !Silent(answers[first])
    decreases |answers| - i
  {
    if i == |answers| || !Silent(answers[i]) then i else FirstLoud(answers, i + 1)
  }

  /** The chain answers with its first filter that keeps, drops or raises; nothing behind that
      filter matters, whatever it would have said.  If all are silent, it is undecided. */
  lemma {:induction false} FirstToStopDecides(answers: seq<Answer<FilterDecision>>, first: nat)
    requires first <= |answers| && forall j | 0 <= j < first :: answers[j].Ok? && answers[j].value.decision == Uncertain
    requires first < |answers| ==> answers[first].Raise? || answers[first].value.decision in {Keep, Drop}
    ensures Run(answers) == if first < |answers| then answers[first] else Ok(FilterDecision(Uncertain, "", ""))
  {
    if first > 0 {
      FirstToStopDecides(answers[1..], first - 1);
    }
  }

  /** The filters are asked in turn. */
  method Ask(answers: seq<Answer<FilterDecision>>) returns (ruling: Answer<FilterDecision>)
    ensures ruling == Run(answers)
  {
    assert answers[0..] == answers;
    for i := 0 to |answers|
      invariant Run(answers) == Run(answers[i..])
    {
      assert answers[i..][0] == answers[i] && answers[i..][1..] == answers[i + 1..];
      if answers[i].Raise? || answers[i].value.decision in {Keep, Drop} {
        return answers[i];
      }
    }
    ruling := Ok(UNDECIDED);
  }
}
