/** The submit handler of the add-subscriber form: a guard on the typed email, a POST
    to `/api/subscribers`, and the table that turns a failed reply into a message. */
module SubscriberForm {
  import opened Base

  /** The form's `state`. */
  datatype FormState = Idle | Loading | Succeeded(message: string) | Failed(message: string)

  /** How the POST ends: an HTTP reply (its status, whether the body said `ok: false`,
      and the body's `error` when that is a string), or a thrown `fetch`. A body that is
      not JSON reads as `{}`: `okFalse` false and no error. */
  datatype Reply = Answered(status: int, okFalse: bool, error: Option<string>) | NetworkFailure

  const EnterEmail: string := "Please enter your email."
  const Added: string := "Subscriber added successfully."
  const NetworkError: string := "Network error. Please try again."
  const GenericFailure: string := "Failed to subscribe."
  const InvalidEmail: string := "Please enter a valid email address."
  const AuthFailed: string := "Authentication failed. Check CONVERTKIT_API_KEY."
  const TagMissing: string := "Tag not found. Check CONVERTKIT_TAG_ID is a numeric tag ID."
  const ValidationFailed: string := "Validation failed. Please check the email."
  const ServerTrouble: string := "Server error. Please try again shortly."

  /** `!email.trim()`: nothing but whitespace. */
  predicate IsBlank(s: string) {
    Trim(s) == ""
  }

  /** `res.ok`. */
  predicate IsOkStatus(status: int) {
    200 <= status <= 299
  }

  /** The statuses whose message is the server's error when it gives one. */
  predicate ShowsServerError(status: int) {
    status == 400 || status == 422 || status >= 500
  }

  /** The message for a failed reply: the server's error for 400, 422 and 5xx when it
      is a non-empty string, else a fixed text per status; never empty. */
  function FriendlyMessage(status: int, serverError: Option<string>): (m: string)
    ensures m != ""
    ensures ShowsServerError(status) && Truthy(serverError) ==> m == serverError.value
    ensures status == 400 && !Truthy(serverError) ==> m == InvalidEmail
    ensures (status == 401 || status == 403) ==> m == AuthFailed
    ensures status == 404 ==> m == TagMissing
    ensures status == 422 && !Truthy(serverError) ==> m == ValidationFailed
    ensures status >= 500 && !Truthy(serverError) ==> m == ServerTrouble
    ensures !ShowsServerError(status) && status !in {401, 403, 404} ==> m == GenericFailure
  {
    if status == 400 then OrElse(serverError, InvalidEmail)
    else if status == 401 || status == 403 then AuthFailed
    else if status == 404 then TagMissing
    else if status == 422 then OrElse(serverError, ValidationFailed)
    else if status >= 500 then OrElse(serverError, ServerTrouble)
    else GenericFailure
  }

  /** Outside 400, 422 and 5xx the server's error never reaches the user. */
  lemma ServerErrorIgnoredElsewhere(status: int, e1: Option<string>, e2: Option<string>)
    requires !ShowsServerError(status)
    ensures FriendlyMessage(status, e1) == FriendlyMessage(status, e2)
  {
  }

  /** The state a sent request ends in: success exactly for a 2xx reply whose body does
      not say `ok: false`; a failed reply shows its status's message; a thrown fetch
      shows the network message. */
  function SubmitOutcome(reply: Reply): (s: FormState)
    ensures s.Succeeded? <==> reply.Answered? && IsOkStatus(reply.status) && !reply.okFalse
    ensures s.Succeeded? ==> s.message == Added
    ensures reply.NetworkFailure? ==> s == Failed(NetworkError)
    ensures reply.Answered? && !s.Succeeded? ==> s == Failed(FriendlyMessage(reply.status, reply.error))
  {
    match reply
    case NetworkFailure => Failed(NetworkError)
    case Answered(status, okFalse, error) =>
      if !IsOkStatus(status) || okFalse then Failed(FriendlyMessage(status, error)) else Succeeded(Added)
  }

  /** A 2xx reply whose body says `ok: false` is a failure with the generic message. */
  lemma OkFalseIsGenericFailure(status: int, error: Option<string>)
    requires IsOkStatus(status)
    ensures SubmitOutcome(Answered(status, true, error)) == Failed(GenericFailure)
  {
  }

  /** The form's state: the typed email, the current state, the request bodies sent
      so far, and every state the handler has set, in order. */
  class Form {
    var email: string
    var state: FormState
    var requests: seq<string>
    ghost var history: seq<FormState>

    constructor()
      ensures email == "" && state == Idle && requests == [] && history == []
    {
      email, state, requests, history := "", Idle, [], [];
    }

    /** The input's change handler. */
    method Type(value: string)
      modifies this`email
      ensures email == value
    {
      email := value;
    }

    /** `handleSubmit`. A blank email (after trimming) fails at once: no request and no
        loading state. Otherwise the untrimmed email is sent once, the state passes
        through loading to the reply's outcome, and only a success clears the email. */
    method HandleSubmit(reply: Reply)
      modifies this`email, this`state, this`requests, this`history
      ensures IsBlank(old(email)) ==>
        && state == Failed(EnterEmail) && email == old(email)
        && requests == old(requests) && history == old(history) + [state]
      ensures !IsBlank(old(email)) ==>
        && state == SubmitOutcome(reply)
        && requests == old(requests) + [old(email)]
        && history == old(history) + [Loading] + [state]
        && email == (if state.Succeeded? then "" else old(email))
    {
      if IsBlank(email) {
        state := Failed(EnterEmail);
      } else {
        history := history + [Loading];
        requests := requests + [email];
        state := SubmitOutcome(reply);
        if state.Succeeded? {
          email := "";
        }
      }
      history := history + [state];
    }
  }
}
