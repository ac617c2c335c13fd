/** `subscribeWithAccount`: the guard chain in front of the Kit adapter. It selects a
    database client, resolves the user, loads that user's account settings, refuses a
    missing API key and only then hands the email to `subscribeEmailToTag`, passing its
    outcome through. The database answers and the adapter are inputs here. */
module SubscribeWithAccount {
  import opened Base
  import opened KitProvider
  import opened ConvertKit

  /** The outcome of an awaited call: a value, or an exception (whose message is
      `None` when what was thrown is not an `Error`). */
  datatype Attempt<T> = Done(value: T) | Raised(message: Option<string>)

  /** The two columns read from the user's account row. */
  datatype AccountSettings = AccountSettings(apiKey: Option<string>, tagLabel: Option<string>)

  /** `{ data, error }` of the account query; `error` holds the error's message. */
  datatype AccountReply = AccountReply(row: Option<AccountSettings>, error: Option<string>)

  /** `SubscribeInput`; `hasDb` says whether a preconfigured client was passed. */
  datatype SubscribeInput = SubscribeInput(
    email: string, phone: Option<string>, userJwt: Option<string>, hasDb: bool, userId: Option<string>)

  /** What the selected client answers: the signed-in user's id (`auth.getUser()`) and
      the account query for a user id. */
  datatype Backend = Backend(currentUser: Attempt<Option<string>>, accountFor: string -> Attempt<AccountReply>)

  /** Where the guard chain ends: an early failure, or the adapter call it makes. */
  datatype Step =
    | Stop(result: SubscribeResult)
    | CallAdapter(email: string, tagName: string, apiKey: string, phone: Option<string>)

  /** The catch block (lines 67-71): an exception becomes a 500 carrying its message. */
  function ThrownOutcome(message: Option<string>): (r: SubscribeResult)
    ensures r.NotSubscribed? && r.status == 500
    ensures message.Some? ==> r.error == message.value
    ensures message.None? ==> r.error == "Server error"
  {
    NotSubscribed(500, GetOr(message, "Server error"))
  }

  /** The user the account is looked up for (line 34): a truthy provided id wins over
      the signed-in user's; `None` when neither is truthy. */
  function ResolvedUser(input: SubscribeInput, current: Option<string>): (u: Option<string>)
    ensures u.Some? ==> u.value != ""
    ensures Truthy(input.userId) ==> u == input.userId
    ensures !Truthy(input.userId) ==> (u.Some? <==> Truthy(current)) && (u.Some? ==> u == current)
  {
    if Truthy(input.userId) then input.userId else if Truthy(current) then current else None
  }

  /** The phone handed on, `phone || undefined`. */
  function PhoneArgument(phone: Option<string>): (p: Option<string>)
    ensures p.Some? ==> Truthy(p) && p == phone
    ensures Truthy(phone) ==> p == phone
  {
    if Truthy(phone) then phone else None
  }

  /** The guard chain (lines 17-60) up to the adapter call. Every early stop is a
      failure, and the adapter is reached only with a non-empty API key and tag name. */
  function Plan(input: SubscribeInput, backend: Backend): (step: Step)
    ensures step.Stop? ==> step.result.NotSubscribed?
    ensures step.CallAdapter? ==>
      && step.apiKey != "" && step.tagName != ""
      && step.email == input.email && step.phone == PhoneArgument(input.phone)
    ensures step.CallAdapter? ==> (input.hasDb || Truthy(input.userJwt)) && backend.currentUser.Done?
  {
    if !input.hasDb && !Truthy(input.userJwt) then Stop(NotSubscribed(500, "Server misconfiguration."))
    else match backend.currentUser
      case Raised(m) => Stop(ThrownOutcome(m))
      case Done(current) =>
        var user := ResolvedUser(input, current);
        if user.None? then Stop(NotSubscribed(401, "Not authenticated."))
        else match backend.accountFor(user.value)
          case Raised(m) => Stop(ThrownOutcome(m))
          case Done(reply) =>
            if reply.error.Some? then Stop(NotSubscribed(500, Or(reply.error.value, "Failed to load account.")))
            else
              var apiKey := if reply.row.Some? then OrElse(reply.row.value.apiKey, "") else "";
              var tagName := if reply.row.Some? then OrElse(reply.row.value.tagLabel, DefaultTagName) else DefaultTagName;
              if apiKey == "" then Stop(NotSubscribed(400, "Missing ConvertKit API Key. Add it in Settings."))
              else CallAdapter(input.email, tagName, apiKey, PhoneArgument(input.phone))
  }

  /** Lines 61-66 and the catch: the adapter's outcome is passed through unchanged
      (a success keeps only its status), and an exception becomes a 500. */
  function Finish(outcome: Attempt<SubscribeResult>): (r: SubscribeResult)
    ensures outcome.Done? ==> r == outcome.value
    ensures outcome.Raised? ==> r == ThrownOutcome(outcome.message)
  {
    match outcome
    case Done(result) => result
    case Raised(m) => ThrownOutcome(m)
  }

  /** `subscribeWithAccount`, with the adapter as a parameter. A success is always the
      adapter's own success, for the arguments the guard chain settled on. */
  function SubscribeWithAccount(input: SubscribeInput, backend: Backend,
                                subscribe: (string, string, string, Option<string>) -> Attempt<SubscribeResult>)
    : (r: SubscribeResult)
    ensures Plan(input, backend).Stop? ==> r == Plan(input, backend).result
    ensures r.Subscribed? ==>
      var step := Plan(input, backend);
      step.CallAdapter? && subscribe(step.email, step.tagName, step.apiKey, step.phone) == Done(r)
  {
    match Plan(input, backend)
    case Stop(result) => result
    case CallAdapter(email, tagName, apiKey, phone) => Finish(subscribe(email, tagName, apiKey, phone))
  }

  /** Without a client and without a JWT the answer is fixed before the user, the
      account or the adapter is consulted. */
  lemma MisconfigurationStopsFirst(input: SubscribeInput, b1: Backend, b2: Backend,
                                   s1: (string, string, string, Option<string>) -> Attempt<SubscribeResult>,
                                   s2: (string, string, string, Option<string>) -> Attempt<SubscribeResult>)
    requires !input.hasDb && !Truthy(input.userJwt)
    ensures SubscribeWithAccount(input, b1, s1) == SubscribeWithAccount(input, b2, s2)
    ensures SubscribeWithAccount(input, b1, s1) == NotSubscribed(500, "Server misconfiguration.")
  {
  }

  /** Without a truthy provided id or signed-in user, the answer is 401 whatever the
      account table or the adapter would say. */
  lemma NoUserIsNotAuthenticated(input: SubscribeInput, backend: Backend, current: Option<string>,
                                 subscribe: (string, string, string, Option<string>) -> Attempt<SubscribeResult>)
    requires input.hasDb || Truthy(input.userJwt)
    requires backend.currentUser == Done(current)
    requires !Truthy(input.userId) && !Truthy(current)
    ensures SubscribeWithAccount(input, backend, subscribe) == NotSubscribed(401, "Not authenticated.")
  {
  }

  /** The account lookup is scoped to the resolved user: two databases that agree on
      the signed-in user and on that user's account row give the same answer, whatever
      rows they hold for anyone else. */
  lemma AccountLookupIsScoped(input: SubscribeInput, b1: Backend, b2: Backend,
                              subscribe: (string, string, string, Option<string>) -> Attempt<SubscribeResult>)
    requires b1.currentUser == b2.currentUser
    requires b1.currentUser.Done? && ResolvedUser(input, b1.currentUser.value).Some? ==>
      var u := ResolvedUser(input, b1.currentUser.value).value;
      b1.accountFor(u) == b2.accountFor(u)
    ensures SubscribeWithAccount(input, b1, subscribe) == SubscribeWithAccount(input, b2, subscribe)
  {
  }

  /** An account error is a 500 carrying the database's message, or "Failed to load
      account." when that message is empty. */
  lemma AccountErrorIs500(input: SubscribeInput, backend: Backend, current: Option<string>, message: string,
                          row: Option<AccountSettings>,
                          subscribe: (string, string, string, Option<string>) -> Attempt<SubscribeResult>)
    requires input.hasDb || Truthy(input.userJwt)
    requires backend.currentUser == Done(current) && ResolvedUser(input, current).Some?
    requires backend.accountFor(ResolvedUser(input, current).value) == Done(AccountReply(row, Some(message)))
    ensures SubscribeWithAccount(input, backend, subscribe) == NotSubscribed(500, Or(message, "Failed to load account."))
  {
  }

  /** A missing or empty API key is a 400, and the adapter is never asked: the answer is
      the same whatever it would have done. */
  lemma MissingKeyNeverCallsAdapter(input: SubscribeInput, backend: Backend, current: Option<string>,
                                    row: Option<AccountSettings>,
                                    s1: (string, string, string, Option<string>) -> Attempt<SubscribeResult>,
                                    s2: (string, string, string, Option<string>) -> Attempt<SubscribeResult>)
    requires input.hasDb || Truthy(input.userJwt)
    requires backend.currentUser == Done(current) && ResolvedUser(input, current).Some?
    requires backend.accountFor(ResolvedUser(input, current).value) == Done(AccountReply(row, None))
    requires row.None? || !Truthy(row.value.apiKey)
    ensures SubscribeWithAccount(input, backend, s1) == SubscribeWithAccount(input, backend, s2)
    ensures SubscribeWithAccount(input, backend, s1) == NotSubscribed(400, "Missing ConvertKit API Key. Add it in Settings.")
  {
  }

  /** With a key on the account, the adapter receives that key and the account's tag
      label, or "source-howdy" when the label is missing or empty, and its outcome is
      the answer. */
  lemma AccountSettingsReachAdapter(input: SubscribeInput, backend: Backend, current: Option<string>,
                                    settings: AccountSettings,
                                    subscribe: (string, string, string, Option<string>) -> Attempt<SubscribeResult>)
    requires input.hasDb || Truthy(input.userJwt)
    requires backend.currentUser == Done(current) && ResolvedUser(input, current).Some?
    requires backend.accountFor(ResolvedUser(input, current).value) == Done(AccountReply(Some(settings), None))
    requires Truthy(settings.apiKey)
    ensures Plan(input, backend) ==
      CallAdapter(input.email, OrElse(settings.tagLabel, DefaultTagName), settings.apiKey.value, PhoneArgument(input.phone))
    ensures SubscribeWithAccount(input, backend, subscribe) ==
      Finish(subscribe(input.email, OrElse(settings.tagLabel, DefaultTagName), settings.apiKey.value, PhoneArgument(input.phone)))
  {
  }

  /** The modelled adapter, `subscribeEmailToTag`, as the parameter
      `SubscribeWithAccount` takes: run against a provider in state `s`, it never throws
      (every exception is caught inside it). */
  function KitAdapter(s: KitState): (string, string, string, Option<string>) -> Attempt<SubscribeResult> {
    (email: string, tagName: string, apiKey: string, phone: Option<string>) =>
      Done(Subscription(s, email, Some(tagName), apiKey, phone).value)
  }

  /** `subscribeWithAccount` running the modelled adapter against a Kit provider in
      state `s`. Its answer is the one `SubscribeWithAccount` gives for that adapter; an
      early stop makes no provider call; otherwise every provider call carries the
      account's key, and a success means the address is now held under the tag the
      account's label (trimmed, or "source-howdy" when blank) resolves to, with the phone
      when one was given. */
  function SubscribeWithAccountAt(s: KitState, input: SubscribeInput, backend: Backend): (c: Called<SubscribeResult>)
    ensures c.value == SubscribeWithAccount(input, backend, KitAdapter(s))
    ensures Plan(input, backend).Stop? ==> c.after == s
    ensures var step := Plan(input, backend);
      step.CallAdapter? ==> c == Subscription(s, step.email, Some(step.tagName), step.apiKey, step.phone)
    ensures var step := Plan(input, backend);
      step.CallAdapter? ==> CallsWith(s.log, c.after.log, step.apiKey)
    ensures c.value.Subscribed? ==>
      var step := Plan(input, backend);
      var tagName := DesiredTagName(Some(step.tagName));
      var tag := TagResolution(s, tagName, step.apiKey).value;
      && step.CallAdapter? && tag.TagInfo?
      && TagResolvesTo(c.after.tags, tagName, tag.id)
      && Enrolled(c.after.subscribers, Trim(step.email), tag.id, step.phone)
  {
    match Plan(input, backend)
    case Stop(result) => Called(result, s)
    case CallAdapter(email, tagName, apiKey, phone) => Subscription(s, email, Some(tagName), apiKey, phone)
  }

  /** `subscribeWithAccount` (lines 16-72) calling `subscribeEmailToTag` on a Kit
      provider. */
  method SubscribeWithAccountOnKit(kit: Kit, input: SubscribeInput, backend: Backend) returns (r: SubscribeResult)
    modifies kit
    ensures Called(r, kit.State()) == SubscribeWithAccountAt(old(kit.State()), input, backend)
  {
    match Plan(input, backend) {
      case Stop(result) =>
        r := result;
      case CallAdapter(email, tagName, apiKey, phone) =>
        r := SubscribeEmailToTag(kit, email, Some(tagName), apiKey, phone);
    }
  }
}
