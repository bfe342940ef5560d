/** What the feedback and contact forms make of their POST request: the
    outcome of the request and the status line shown under the form. */
module Http {

  const FillAllFields := "Fill All Fields!"
  const SubmitSucceeded := "\U{2705} Feedback submitted successfully!"
  const SubmitRejected := "\U{274C} Failed to submit feedback."
  const SubmitErrored := "\U{274C} Error submitting feedback."

  /** The cross mark the feedback page looks for to colour its message red. */
  const CrossMark := '\U{274C}'

  /** How an `axios.post` settles: it throws, or a response with a status
      arrives. */
  datatype PostOutcome = Threw | Responded(status: int)

  /** `response.status === 200 || response.status === 201` */
  predicate Accepted(outcome: PostOutcome)
    ensures Accepted(outcome) ==> outcome.Responded?
    ensures outcome.Responded? ==> (Accepted(outcome) <==> outcome.status in {200, 201})
  {
    outcome.Responded? && (outcome.status == 200 || outcome.status == 201)
  }

  /** The message set after a submission that passed validation: success for
      200 or 201, the "failed" text for any other status, the "error" text
      when the request threw. The three texts are distinct, so the message
      tells the three outcomes apart. */
  function SubmitMessage(outcome: PostOutcome): (m: string)
    ensures m == SubmitSucceeded <==> Accepted(outcome)
    ensures m == SubmitErrored <==> outcome.Threw?
    ensures m == SubmitRejected <==> outcome.Responded? && !Accepted(outcome)
  {
    assert SubmitSucceeded[0] != SubmitErrored[0] && SubmitSucceeded[0] != SubmitRejected[0];
    assert SubmitRejected[2] != SubmitErrored[2];
    if outcome.Threw? then SubmitErrored
    else if Accepted(outcome) then SubmitSucceeded
    else SubmitRejected
  }

  /** `message.includes("❌")`: whether the feedback page shows the message in red. */
  predicate ErrorStyled(m: string)
    ensures ErrorStyled(m) ==> m != ""
    ensures ErrorStyled(m) <==> exists k :: 0 <= k < |m| && m[k] == CrossMark
  {
    CrossMark in m
  }

  /** A submission message is shown in red exactly when the submission did
      not succeed; the validation message is not marked as an error. */
  lemma ErrorStyledIffNotAccepted(outcome: PostOutcome)
    ensures ErrorStyled(SubmitMessage(outcome)) <==> !Accepted(outcome)
    ensures !ErrorStyled(FillAllFields)
  {
    assert SubmitRejected[0] == CrossMark && SubmitErrored[0] == CrossMark;
    assert forall k :: 0 <= k < |SubmitSucceeded| ==> SubmitSucceeded[k] != CrossMark;
    assert forall k :: 0 <= k < |FillAllFields| ==> FillAllFields[k] != CrossMark;
  }
}
