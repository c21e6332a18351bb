/**
 * The true/false vote under a question post. The vote handler is split at
 * its first `await`: `BeginVote` is the synchronous part, `FinishVote` the
 * rest, which ends the same way on every path.
 */
module QuestionContent {
  import opened Wrappers

  /** The two buttons and the answers they submit. */
  datatype Answer = True | False {
    function Text(): (text: string)
      ensures text == "true" || text == "false"
    {
      match this
      case True => "true"
      case False => "false"
    }
  }

  /** How the rest of the handler goes: no signed-in user, the vote recorded, or an exception. */
  datatype VoteOutcome = NotAuthenticated | Recorded | Threw

  /** Both buttons are disabled once an answer is selected. */
  function ButtonsDisabled(selectedAnswer: Option<string>): (b: bool)
    ensures FromButtons(selectedAnswer) ==> (b <==> ThankYouShown(selectedAnswer))
  {
    selectedAnswer.Some?
  }

  /** `selectedAnswer && …`: the thank-you line shows for a non-empty selected answer. */
  function ThankYouShown(selectedAnswer: Option<string>): (b: bool)
    ensures b ==> selectedAnswer.Some?
    ensures selectedAnswer == Some("true") || selectedAnswer == Some("false") ==> b
  {
    selectedAnswer.Some? && selectedAnswer.value != ""
  }

  /** The selections the two buttons can produce. */
  predicate FromButtons(selectedAnswer: Option<string>) {
    selectedAnswer.None? || selectedAnswer.value == "true" || selectedAnswer.value == "false"
  }

  class QuestionContentState {
    const question: string
    const postId: string
    var selectedAnswer: Option<string>
    var isSubmitting: bool

    constructor (question: string, postId: string)
      ensures this.question == question && this.postId == postId
      ensures selectedAnswer == None && !isSubmitting
    {
      this.question := question;
      this.postId := postId;
      selectedAnswer := None;
      isSubmitting := false;
    }

    /**
     * The synchronous part of `handleVote`: ignored while a vote is in
     * flight; otherwise marks one in flight and selects the answer before
     * any remote call.
     */
    method BeginVote(answer: string) returns (started: bool)
      modifies this`selectedAnswer, this`isSubmitting
      ensures started == !old(isSubmitting)
      ensures started ==> isSubmitting && selectedAnswer == Some(answer)
      ensures !started ==> isSubmitting == old(isSubmitting) && selectedAnswer == old(selectedAnswer)
    {
      if isSubmitting {
        return false;
      }
      isSubmitting := true;
      selectedAnswer := Some(answer);
      started := true;
    }

    /** The rest of `handleVote`: whatever happened inside the `try`, the vote is no longer in flight. */
    method FinishVote(outcome: VoteOutcome)
      modifies this`isSubmitting
      ensures !isSubmitting
    {
      match outcome {
        case NotAuthenticated =>
          isSubmitting := false;
        case Recorded =>
          isSubmitting := false;
        case Threw =>
          isSubmitting := false;
      }
    }

    /**
     * A click on a button: a disabled button does nothing, an enabled one
     * starts a vote with its answer. Through the buttons the answer is
     * always "true" or "false", and the first one stays.
     */
    method Click(button: Answer) returns (started: bool)
      requires FromButtons(selectedAnswer)
      modifies this`selectedAnswer, this`isSubmitting
      ensures FromButtons(selectedAnswer)
      ensures old(selectedAnswer).Some? ==>
        selectedAnswer == old(selectedAnswer) && isSubmitting == old(isSubmitting) && !started
      ensures old(selectedAnswer).None? ==> started == !old(isSubmitting)
      ensures started ==> isSubmitting && selectedAnswer == Some(button.Text())
      ensures !started ==> selectedAnswer == old(selectedAnswer) && isSubmitting == old(isSubmitting)
    {
      if ButtonsDisabled(selectedAnswer) {
        return false;
      }
      started := BeginVote(button.Text());
    }
  }
}
