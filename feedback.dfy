/** The feedback page: a form with name, email, message and a one-to-five
    star rating, posted to the feedback endpoint. */
module FeedbackPage {
  import opened Wrappers
  import opened Http
  import opened Collections

  datatype FeedbackData = FeedbackData(name: string, email: string, message: string, rating: int)

  /** The form's initial contents, and what a successful submission resets it to. */
  const Blank := FeedbackData("", "", "", 0)

  /** The `name` attributes of the form's text inputs. */
  datatype Field = Name | Email | MessageField

  /** `{ ...prev, [e.target.name]: e.target.value }`: the named field takes
      the value and every other field keeps its own. */
  function WithField(d: FeedbackData, field: Field, value: string): (r: FeedbackData)
    ensures r.rating == d.rating
    ensures r.name == (if field == Name then value else d.name)
    ensures r.email == (if field == Email then value else d.email)
    ensures r.message == (if field == MessageField then value else d.message)
  {
    match field
    case Name => d.(name := value)
    case Email => d.(email := value)
    case MessageField => d.(message := value)
  }

  /** The submit guard: no field may be falsy, so each text must be
      non-empty and the rating must not be 0. */
  predicate Complete(d: FeedbackData)
    ensures Complete(d) ==> d.rating != 0
    ensures d.rating != 0 ==> (Complete(d) <==> d.name != "" && d.email != "" && d.message != "")
  {
    d.name != "" && d.email != "" && d.message != "" && d.rating != 0
  }

  /** Emptying any one text field, from any form, blocks the submission. */
  lemma ClearingAnyFieldBlocksSubmit(d: FeedbackData, field: Field)
    ensures !Complete(WithField(d, field, ""))
  {
  }

  /** Star `k` (1 to 5) is filled when `k <= rating`. */
  function Stars(rating: int): (filled: seq<bool>)
    ensures |filled| == 5
    ensures forall k :: 0 <= k < 5 ==> (filled[k] <==> k + 1 <= rating)
  {
    seq(5, k requires 0 <= k < 5 => k + 1 <= rating)
  }

  /** A row whose first `n` entries are filled, and only those, counts `n`. */
  lemma {:induction false} CountFilledPrefix(filled: seq<bool>, n: nat)
    requires n <= |filled|
    requires forall k :: 0 <= k < |filled| ==> (filled[k] <==> k < n)
    ensures CountTrue(filled) == n
  {
    if filled != [] {
      CountFilledPrefix(filled[1..], if n > 0 then n - 1 else 0);
    }
  }

  /** The filled stars are a prefix: their number is the rating. */
  lemma StarsShowRating(rating: int)
    requires 0 <= rating <= 5
    ensures CountTrue(Stars(rating)) == rating
  {
    CountFilledPrefix(Stars(rating), rating);
  }

  class FeedbackForm {
    var formData: FeedbackData
    var message: string
    var loading: bool
    /** Clear-message timers started and not yet fired. */
    var pendingClears: nat

    /** The rating is one of the stars, or 0 before any is clicked. */
    ghost predicate Valid()
      reads this
    {
      0 <= formData.rating <= 5
    }

    constructor()
      ensures Valid()
      ensures formData == Blank && message == "" && !loading && pendingClears == 0
    {
      formData := Blank;
      message := "";
      loading := false;
      pendingClears := 0;
    }

    /** `handleChange` */
    method HandleChange(field: Field, value: string)
      requires Valid()
      modifies this
      ensures Valid()
      ensures formData == WithField(old(formData), field, value)
      ensures message == old(message) && loading == old(loading) && pendingClears == old(pendingClears)
    {
      formData := WithField(formData, field, value);
    }

    /** `handleRating`, called by clicking one of the five stars. */
    method HandleRating(star: int)
      requires Valid() && 1 <= star <= 5
      modifies this
      ensures Valid()
      ensures formData == old(formData).(rating := star)
      ensures Complete(formData) <==> old(formData).name != "" && old(formData).email != "" && old(formData).message != ""
      ensures message == old(message) && loading == old(loading) && pendingClears == old(pendingClears)
    {
      formData := formData.(rating := star);
    }

    /** `handleSubmit`, which the disabled button keeps from running while a
        submission is in flight. An incomplete form is not sent and shows
        "Fill All Fields!"; a complete one is posted as it stands and the
        message reports the outcome, the form being reset only on success.
        Either way a timer to clear the message is started. */
    method HandleSubmit(outcome: PostOutcome) returns (posted: Option<FeedbackData>)
      requires Valid() && !loading
      modifies this
      ensures Valid()
      ensures posted.Some? <==> Complete(old(formData))
      ensures posted.Some? ==> posted.value == old(formData)
      ensures !Complete(old(formData)) ==> message == FillAllFields && formData == old(formData)
      ensures Complete(old(formData)) ==> message == SubmitMessage(outcome)
      ensures Complete(old(formData)) && Accepted(outcome) ==> formData == Blank
      ensures Complete(old(formData)) && !Accepted(outcome) ==> formData == old(formData)
      ensures !loading && pendingClears == old(pendingClears) + 1
    {
      if !Complete(formData) {
        message := FillAllFields;
        pendingClears := pendingClears + 1;
        return None;
      }
      loading := true;
      posted := Some(formData);
      if outcome.Threw? {
        message := SubmitErrored;
      } else if outcome.status == 200 || outcome.status == 201 {
        message := SubmitSucceeded;
        formData := Blank;
      } else {
        message := SubmitRejected;
      }
      loading := false;
      pendingClears := pendingClears + 1;
    }

    /** One of the three-second timers fires and empties the message,
        whichever message is showing by then. */
    method MessageClearFires()
      requires Valid() && pendingClears > 0
      modifies this
      ensures Valid()
      ensures message == "" && pendingClears == old(pendingClears) - 1
      ensures formData == old(formData) && loading == old(loading)
    {
      message := "";
      pendingClears := pendingClears - 1;
    }

    /** The star row under the form. */
    function StarRow(): (filled: seq<bool>)
      reads this
      requires Valid()
      ensures |filled| == 5 && CountTrue(filled) == formData.rating
    {
      StarsShowRating(formData.rating);
      Stars(formData.rating)
    }
  }

  /** After a successful submission the form is blank, so submitting again
      at once is refused by the guard. */
  lemma BlankIsIncomplete()
    ensures !Complete(Blank)
    ensures Stars(Blank.rating) == [false, false, false, false, false]
  {
  }
}
