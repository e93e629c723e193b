/**
 * The invite-users page (app/modules/invite/routes/invite-users.tsx): the
 * five form fields, the error and success messages and the loading flag,
 * and how `handleSubmit` moves them around the invitation call. The call
 * is a remote call whose outcome is a parameter.
 */
module InviteUsers {
  import opened Js

  datatype InviteForm = InviteForm(
    email: string,
    password: string,
    firstName: string,
    lastName: string,
    role: string,
    error: Option<string>,
    success: Option<string>,
    isLoading: bool)

  /** The page's first state: empty fields, the customer-service role, no
      message, not loading. */
  const Initial := InviteForm("", "", "", "", "customer_service", None, None, false)

  /** The fields of the form, without the status. */
  predicate SameFields(a: InviteForm, b: InviteForm)
  {
    a.email == b.email && a.password == b.password && a.firstName == b.firstName
    && a.lastName == b.lastName && a.role == b.role
  }

  /** What the invitation endpoint is asked for. */
  datatype InviteRequest = InviteRequest(
    email: string, password: string, firstName: string, lastName: Option<string>, role: string)

  /** The request built from the form: `lastName || undefined`, so an empty
      last name is left out and every other field is sent as typed. */
  function RequestOf(f: InviteForm): (r: InviteRequest)
    ensures r.lastName.None? <==> f.lastName == ""
    ensures r.lastName.Some? ==> r.lastName.value == f.lastName
    ensures r.email == f.email && r.password == f.password && r.firstName == f.firstName && r.role == f.role
  {
    InviteRequest(f.email, f.password, f.firstName, if f.lastName == "" then None else Some(f.lastName), f.role)
  }

  /** What the call ended with: the invited user as the server reports it,
      or a thrown value, which is an `Error` with a message or anything else. */
  datatype Thrown = ErrorObject(message: string) | OtherValue
  datatype InviteOutcome = Invited(invitedEmail: string, invitedRole: string) | Threw(thrown: Thrown)

  /** `err instanceof Error ? err.message : "Failed to invite user"`. */
  function ErrorMessage(thrown: Thrown): (m: string)
    ensures thrown.ErrorObject? ==> m == thrown.message
    ensures thrown.OtherValue? ==> m == "Failed to invite user"
  {
    match thrown
    case ErrorObject(message) => message
    case OtherValue => "Failed to invite user"
  }

  function SuccessMessage(email: string, role: string): string
  {
    "Successfully invited " + email + " as " + role
  }

  /** Before the call: both messages cleared and loading set, fields kept. */
  function Submitting(f: InviteForm): (t: InviteForm)
    ensures t.error.None? && t.success.None? && t.isLoading
    ensures SameFields(t, f)
  {
    f.(error := None, success := None, isLoading := true)
  }

  /** After the call: on success the form goes back to its first state and
      shows the success message; on failure the fields are kept and the
      error is shown. Either way loading ends. */
  function Settled(f: InviteForm, outcome: InviteOutcome): (t: InviteForm)
    ensures !t.isLoading
    ensures outcome.Invited? ==>
              SameFields(t, Initial) && t.error == f.error
              && t.success == Some(SuccessMessage(outcome.invitedEmail, outcome.invitedRole))
    ensures outcome.Threw? ==>
              SameFields(t, f) && t.error == Some(ErrorMessage(outcome.thrown)) && t.success == f.success
  {
    match outcome
    case Invited(email, role) =>
      InviteForm("", "", "", "", "customer_service", f.error, Some(SuccessMessage(email, role)), false)
    case Threw(thrown) =>
      f.(error := Some(ErrorMessage(thrown)), isLoading := false)
  }

  /** A whole submission leaves the page not loading, with exactly one of
      the two messages: the success message when the user was invited, the
      error otherwise. */
  lemma SubmitSettles(f: InviteForm, outcome: InviteOutcome)
    ensures var t := Settled(Submitting(f), outcome);
            && !t.isLoading
            && (t.error.Some? <==> t.success.None?)
            && (t.success.Some? <==> outcome.Invited?)
  {
  }

  /** A successful submission resets every field, the role included; a
      failed one keeps every field as typed, so the user can retry. */
  lemma SubmitFields(f: InviteForm, outcome: InviteOutcome)
    ensures outcome.Invited? ==> SameFields(Settled(Submitting(f), outcome), Initial)
    ensures outcome.Threw? ==> SameFields(Settled(Submitting(f), outcome), f)
  {
  }

  /** The page's state. */
  class InviteUsersPage {
    var email: string
    var password: string
    var firstName: string
    var lastName: string
    var role: string
    var error: Option<string>
    var success: Option<string>
    var isLoading: bool

    function State(): InviteForm
      reads this
    {
      InviteForm(email, password, firstName, lastName, role, error, success, isLoading)
    }

    constructor ()
      ensures State() == Initial
    {
      email, password, firstName, lastName := "", "", "", "";
      role := "customer_service";
      error, success, isLoading := None, None, false;
    }

    /** The inputs' `onChange` handlers and the role select's
        `onValueChange`: each replaces its own field; the messages and the
        loading flag are left as they are. */
    method Edit(email: string, password: string, firstName: string, lastName: string, role: string)
      modifies this
      ensures State() == old(State()).(email := email, password := password, firstName := firstName,
                                       lastName := lastName, role := role)
    {
      this.email, this.password, this.firstName, this.lastName, this.role := email, password, firstName, lastName, role;
    }

    /** `handleSubmit`. The call's outcome is `outcome`; the request sent
        and the state while it is in flight are returned. */
    method HandleSubmit(outcome: InviteOutcome) returns (request: InviteRequest, ghost during: InviteForm)
      modifies this
      ensures during == Submitting(old(State()))
      ensures request == RequestOf(old(State()))
      ensures State() == Settled(during, outcome)
    {
      error := None;
      success := None;
      isLoading := true;
      during := State();
      request := InviteRequest(email, password, firstName, if lastName == "" then None else Some(lastName), role);
      match outcome {
        case Invited(invitedEmail, invitedRole) =>
          success := Some(SuccessMessage(invitedEmail, invitedRole));
          email := "";
          password := "";
          firstName := "";
          lastName := "";
          role := "customer_service";
        case Threw(thrown) =>
          error := Some(if thrown.ErrorObject? then thrown.message else "Failed to invite user");
      }
      isLoading := false;
    }
  }
}
