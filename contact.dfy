/** The contact page: name, email and a query, posted to the contact
    endpoint. */
module ContactPage {
  import opened Wrappers
  import opened Http

  datatype ContactData = ContactData(name: string, email: string, query: string)

  const Blank := ContactData("", "", "")

  /** The `name` attributes of the form's inputs. */
  datatype Field = Name | Email | Query

  /** `{ ...prev, [e.target.name]: e.target.value }` */
  function WithField(d: ContactData, field: Field, value: string): (r: ContactData)
    ensures r.name == (if field == Name then value else d.name)
    ensures r.email == (if field == Email then value else d.email)
    ensures r.query == (if field == Query then value else d.query)
  {
    match field
    case Name => d.(name := value)
    case Email => d.(email := value)
    case Query => d.(query := value)
  }

  /** The submit guard: every field non-empty. */
  predicate Complete(d: ContactData)
    ensures Complete(d) ==> d.name != "" && d.email != "" && d.query != ""
    ensures d.name == "" || d.email == "" || d.query == "" ==> !Complete(d)
  {
    d.name != "" && d.email != "" && d.query != ""
  }

  /** Emptying any one field, from any form, blocks the submission. */
  lemma ClearingAnyFieldBlocksSubmit(d: ContactData, field: Field)
    ensures !Complete(WithField(d, field, ""))
  {
  }

  class ContactForm {
    var formData: ContactData
    var message: string
    var loading: bool
    /** Clear-message timers started and not yet fired. */
    var pendingClears: nat

    constructor()
      ensures formData == Blank && message == "" && !loading && pendingClears == 0
    {
      formData := Blank;
      message := "";
      loading := false;
      pendingClears := 0;
    }

    /** `handleChange` */
    method HandleChange(field: Field, value: string)
      modifies this
      ensures formData == WithField(old(formData), field, value)
      ensures message == old(message) && loading == old(loading) && pendingClears == old(pendingClears)
    {
      formData := WithField(formData, field, value);
    }

    /** `handleSubmit`, kept from running during a submission by the disabled
        button: the same guard, messages and reset as the feedback form. */
    method HandleSubmit(outcome: PostOutcome) returns (posted: Option<ContactData>)
      requires !loading
      modifies this
      ensures posted.Some? <==> Complete(old(formData))
      ensures posted.Some? ==> posted.value == old(formData)
      ensures !Complete(old(formData)) ==> message == FillAllFields && formData == old(formData)
      ensures Complete(old(formData)) ==> message == SubmitMessage(outcome)
      ensures Complete(old(formData)) && Accepted(outcome) ==> formData == Blank
      ensures Complete(old(formData)) && !Accepted(outcome) ==> formData == old(formData)
      ensures !loading && pendingClears == old(pendingClears) + 1
    {
      if !Complete(formData) {
        message := FillAllFields;
        pendingClears := pendingClears + 1;
        return None;
      }
      loading := true;
      posted := Some(formData);
      if outcome.Threw? {
        message := SubmitErrored;
      } else if outcome.status == 200 || outcome.status == 201 {
        message := SubmitSucceeded;
        formData := Blank;
      } else {
        message := SubmitRejected;
      }
      loading := false;
      pendingClears := pendingClears + 1;
    }

    /** A three-second timer fires and empties whatever message is showing. */
    method MessageClearFires()
      requires pendingClears > 0
      modifies this
      ensures message == "" && pendingClears == old(pendingClears) - 1
      ensures formData == old(formData) && loading == old(loading)
    {
      message := "";
      pendingClears := pendingClears - 1;
    }
  }

  /** A successful submission leaves a form the guard refuses to send again. */
  lemma BlankIsIncomplete()
    ensures !Complete(Blank)
  {
  }
}
