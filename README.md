# Howdy subscription core, modelled in Dafny

Howdy is a small Next.js app that adds an email address to a creator's Kit (ConvertKit v4)
mailing list, under the creator's chosen tag. This project models the app's server-side
subscription path and the pieces around it:

- **The Kit adapter** (`convertkit.ts`). It resolves a tag by name, creating it when missing,
  and does the same for the "Phone" custom field, whose key comes from a slug function. It
  then creates the subscriber, falling back to a lookup by email when the provider reports
  a conflict. Finally it writes the phone and tags the subscriber, and combines the step
  results into one outcome.
- **The guard chain** in front of the adapter (`subscribeWithAccount.ts`). It selects a
  database client and resolves the user. It loads the user's API key and tag label,
  refuses a missing key, and passes the adapter's outcome through.
- **Account find-or-create** (`ensureAccountForUser.ts`).
- **Base-URL precedence** (`appUrl.ts`).
- **The submit handler of the add-subscriber form** (`AddSubscriberForm.tsx`) and its
  status-to-message table.

Files and modules:

| file | module | holds |
|---|---|---|
| `base.dfy` | `Base` | `Option`; JavaScript truthiness, `\|\|` and `??`; `String.prototype.trim`; ASCII `toLowerCase` |
| `field_key.dfy` | `FieldKey` | `slugifyFieldKey`, as the adapter's pipeline and as a one-pass scan proved equal to it |
| `kit_provider.dfy` | `KitProvider` | the provider as the adapter sees it (see below) |
| `convertkit.dfy` | `ConvertKit` | the adapter: each operation as a specification function and as a method over a `Kit` |
| `subscribe_with_account.dfy` | `SubscribeWithAccount` | the guard chain as a function, and run against a `Kit` |
| `accounts.dfy` | `Accounts` | the `accounts` table as a class, with find-or-create |
| `app_url.dfy` | `AppUrl` | `getAppUrl` and a reference precedence function |
| `subscriber_form.dfy` | `SubscriberForm` | the form's state as a class, and the message table |

The provider's state is a value `KitProvider.KitState`. It holds three tables (tags,
custom fields, subscribers), the counter ids are drawn from, a log of every call with the
API key it carried, and a *script* that says how each upcoming call is answered. Each
endpoint is a function from a state to the reply and the next state (`Called(value,
after)`). A call whose script entry is empty is answered from the tables the way Kit's v4
API behaves:

- listings return the table;
- creating a tag returns an existing case-insensitive match with 200, else stores a new tag (201);
- creating a subscriber is an upsert: a known address gives 200 with the existing id and the sent fields are dropped;
- field updates and tagging give 404 for an unknown id.

A scripted entry can replace the answer with a non-2xx failure or a thrown exception, in
either case with no effect. It can also let the request take effect but lose the reply's
payload. So a 2xx reply always comes with the real effect. That is what lets the
adapter's contracts say, for example, that a successful subscription leaves the address
at the provider under the tag. The class `KitProvider.Kit` holds the same state in
fields; each of its methods updates them exactly as the endpoint function says.

Each adapter operation appears twice in `ConvertKit`. A function of the provider's state
(`TagResolution`, `FieldResolution`, `CreateRequest`, `Compensation`, `LookupFallback`,
`SubscriberCreation`, `PhoneUpdate`, `Tagging`, `Enrollment`, `Subscription`) is the
specification: its contract states the operation's reply, the calls it makes and how the
provider changes, and lemmas prove what the adapter promises about it. A method with the
source's name (`EnsureTagByName`, `CreateSubscriberAndGetId`, `SubscribeEmailToTag`, …)
makes the same calls on a `Kit`, in the source's order, and its contract says that its
result and the provider's new state are exactly what the function gives for the old state.

The subscribe chain uses the corrected subscriber resolution (see "## Findings"): an
exception from the compensating lookup is contained there. The code as written is kept
as `SubscriberCreationAsWritten` and `CreateSubscriberAndGetIdAsWritten`, and
`AsWrittenDiffersOnlyOnCompensationThrow` proves the two differ only in that case.

JavaScript values are modelled as follows:

- `undefined` and `null` are `None`.
- A falsy id (the provider's ids are numbers) is id `0`.
- An absent or empty custom-field `key` is `""`.
- Caught exceptions carry `Some(message)` for an `Error` and `None` for anything else.

## Model

| member | source | states |
|---|---|---|
| Base.GetOr | src/features/subscribers/lib/convertkit.ts:63 | `x ?? fallback`: the value when present, even an empty string, else the fallback |
| Base.Or | src/features/subscribers/lib/convertkit.ts:84 | `a \|\| b` on strings: `a` unless it is empty |
| Base.OrElse | src/features/subscribers/lib/subscribeWithAccount.ts:52-53 | `o \|\| fallback`: the value only when present and non-empty |
| Base.TrimStart | src/features/subscribers/lib/convertkit.ts:40 | a suffix of the input that starts with a non-whitespace character, all dropped characters being whitespace |
| Base.TrimEnd | src/features/subscribers/lib/convertkit.ts:40 | a prefix of the input that ends in a non-whitespace character, all dropped characters being whitespace |
| Base.Trim | src/features/subscribers/lib/convertkit.ts:40 | `trim()`: never longer, no whitespace at either end, identity on a string already without it |
| Base.TrimIdempotent | src/features/subscribers/lib/convertkit.ts:173 | trimming an already trimmed name changes nothing |
| Base.TrimNoTrimmable | src/features/subscribers/lib/convertkit.ts:105 | a string with no whitespace at all is its own trim |
| Base.LowerChar | src/features/subscribers/lib/convertkit.ts:61 | `toLowerCase` of one character maps `A`-`Z` to `a`-`z` and fixes every other character |
| Base.Lower | src/features/subscribers/lib/convertkit.ts:61 | `toLowerCase` keeps the length |
| Base.LowerPointwise | src/features/subscribers/lib/convertkit.ts:61 | each character of the lowered string is the lowered character |
| Base.LowerFixesLowercase | src/features/subscribers/lib/convertkit.ts:106 | a string without upper-case letters is its own lowering |
| Base.LowerIdempotent | src/features/subscribers/lib/convertkit.ts:61 | lowering twice is lowering once, so the name comparison is reflexive on lowered names |
| FieldKey.InfixKeyShaped | src/features/subscribers/lib/convertkit.ts:108 | cutting underscores off the ends keeps a key-shaped string key-shaped |
| FieldKey.CollapseRuns | src/features/subscribers/lib/convertkit.ts:107 | replacing runs of non-`[a-z0-9]` yields only `[a-z0-9_]` with no two underscores in a row, never longer |
| FieldKey.DropLeadingUnderscores | src/features/subscribers/lib/convertkit.ts:108 | the `^_+` removal: a suffix that does not start with `_` |
| FieldKey.DropTrailingUnderscores | src/features/subscribers/lib/convertkit.ts:108 | the `_+$` removal: a prefix that does not end with `_` |
| FieldKey.SlugPipeline | src/features/subscribers/lib/convertkit.ts:103-109 | the four steps in the source's order always give a well-formed key: `[a-z0-9_]` only, no `_` at either end, no `__`; never longer than the input |
| FieldKey.ScanMatchesPipeline | src/features/subscribers/lib/convertkit.ts:103-109 | a one-pass scan (keep what lower-cases into `[a-z0-9]`, one `_` for each run between two kept characters) computes exactly the pipeline, for every input |
| FieldKey.SlugifyFieldKey | src/features/subscribers/lib/convertkit.ts:103-109 | the slug is always a well-formed key and never longer than the input |
| FieldKey.CollapseRunsOfKey | src/features/subscribers/lib/convertkit.ts:107 | run replacement leaves a key-shaped string unchanged |
| FieldKey.PipelineFixesKeys | src/features/subscribers/lib/convertkit.ts:103-109 | the pipeline leaves every well-formed key unchanged |
| FieldKey.SlugifyFixesKeys | src/features/subscribers/lib/convertkit.ts:103-109 | every well-formed key is its own slug |
| FieldKey.SlugifyIdempotent | src/features/subscribers/lib/convertkit.ts:103-109 | slugifying a slug changes nothing |
| FieldKey.PipelineOfAlphanumeric | src/features/subscribers/lib/convertkit.ts:103-109 | the pipeline only lowers a name of ASCII letters and digits |
| FieldKey.SlugifyOfAlphanumeric | src/features/subscribers/lib/convertkit.ts:103-109 | a name of ASCII letters and digits slugifies to its lowering (so the "Phone" field is created with key `phone`) |
| KitProvider.FindTag | src/features/subscribers/lib/convertkit.ts:61 | the found tag is in the list and its name (`?? ""`) matches case-insensitively; `None` only when no tag matches |
| KitProvider.FindTagAfterAppend | src/features/subscribers/lib/convertkit.ts:60-90 | a created tag never hides an earlier match and is itself found when nothing matched before |
| KitProvider.FieldLookupName | src/features/subscribers/lib/convertkit.ts:130 | a field is looked up by `name`, by `label` only when `name` is absent |
| KitProvider.FindField | src/features/subscribers/lib/convertkit.ts:129-132 | the found field is in the list and matches; `None` only when none matches |
| KitProvider.FindFieldAfterAppend | src/features/subscribers/lib/convertkit.ts:128-157 | a created field never hides an earlier match and is found when nothing matched before |
| KitProvider.CreateSubscriberCallFacts | src/features/subscribers/lib/convertkit.ts:198-208 | the create request is logged, tags and fields are untouched, subscribers only grow; an id in the reply belongs to the address; a fault-free provider always answers ok with an id |
| KitProvider.FindSubscribersCallFacts | src/features/subscribers/lib/convertkit.ts:212-217 | the lookup is logged and changes no table; answered normally it lists the ids with the address |
| KitProvider.UpdateFieldsCallFacts | src/features/subscribers/lib/convertkit.ts:285-292 | the PUT is logged; only the fields of subscribers with that id change; a success means they hold the values; answered normally it succeeds exactly for a known id, else 404 |
| KitProvider.TagSubscriberCallFacts | src/features/subscribers/lib/convertkit.ts:317-323 | the tagging call is logged; only the tags of subscribers with that id change; a success means they carry the tag; answered normally it succeeds exactly when tag and subscriber exist, else 404 |
| ConvertKit.ErrorMessage | src/features/subscribers/lib/convertkit.ts:82-84 | the first `errors` entry when non-empty, else `message`, else the fallback; non-empty whenever the fallback is |
| ConvertKit.StatusOr500 | src/features/subscribers/lib/convertkit.ts:85 | a reported failure status is never 0, and any other status is kept |
| ConvertKit.ThrownMessage | src/features/subscribers/lib/convertkit.ts:93 | an `Error`'s message, else "Network error" |
| ConvertKit.StepOutcome | src/features/subscribers/lib/convertkit.ts:298-309 | success exactly for an ok reply, keeping its status; a failure keeps status and message; a throw is 500 |
| ConvertKit.ListedTag | src/features/subscribers/lib/convertkit.ts:60-65 | a tag is reused exactly when the listing is ok, has a payload, and its first match has a truthy id |
| ConvertKit.CreatedTagResult | src/features/subscribers/lib/convertkit.ts:80-91 | a created tag succeeds (201, name defaulting to the requested one) exactly for an ok reply with a truthy id; the failure cases with their statuses and messages |
| ConvertKit.CallsWithNothing | src/features/subscribers/lib/convertkit.ts:41-43 | making no call trivially keeps "every call carries the key" |
| ConvertKit.CallsWithStep | src/features/subscribers/lib/convertkit.ts:51 | one more call with the same key keeps every call carrying the key |
| ConvertKit.CallsWithTrans | src/features/subscribers/lib/convertkit.ts:174 | runs of calls made with one key compose |
| ConvertKit.FindTagInPrefix | src/features/subscribers/lib/convertkit.ts:60-64 | adding tags after a match never changes which tag a name finds |
| ConvertKit.TagCreation | src/features/subscribers/lib/convertkit.ts:67-91 | one create request, logged; a success names the tag the provider now resolves the name to; only the tag table changes, by growing |
| ConvertKit.TagListThenCreate | src/features/subscribers/lib/convertkit.ts:45-95 | the exact call log: the listing, then a create only when the listing did not throw and settled on no tag; tag requests only, all with the key; a success names the tag the provider resolves the name to |
| ConvertKit.TagResolution | src/features/subscribers/lib/convertkit.ts:39-96 | a blank name is a 400 with no call; only tag calls, with the key; only the tag table changes, by growing; a success names the tag the provider resolves the trimmed name to |
| ConvertKit.TagReuse | src/features/subscribers/lib/convertkit.ts:60-64 | answered normally, an existing match with a truthy id is reused with 200 after the one listing call |
| ConvertKit.TagResolutionSucceeds | src/features/subscribers/lib/convertkit.ts:45-91 | against a fault-free provider a non-blank name always resolves, unless its first match has a falsy id |
| ConvertKit.EnsureTagTwice | src/features/subscribers/lib/convertkit.ts:60-64 | once a tag is ensured, a second resolution returns the same id, and answered normally reuses it with 200 after one listing |
| ConvertKit.EnsureTagByName | src/features/subscribers/lib/convertkit.ts:39-96 | the calls on the provider, the reply and the new provider state are exactly `TagResolution`'s |
| ConvertKit.ListedField | src/features/subscribers/lib/convertkit.ts:128-136 | a field is reused only from an ok listing whose first match has a truthy id |
| ConvertKit.FieldInfoOf | src/features/subscribers/lib/convertkit.ts:134 | the reported name is `label ?? name ?? requested`, and the id and key are the field's |
| ConvertKit.CreatedFieldResult | src/features/subscribers/lib/convertkit.ts:148-159 | a created field succeeds exactly for an ok reply with a truthy id; the failure cases with their statuses and messages |
| ConvertKit.FieldCreation | src/features/subscribers/lib/convertkit.ts:138-159 | one logged request for a text field named and labelled by the name and keyed by its slug; a success names a matching provider field; a fault-free provider always creates it |
| ConvertKit.FieldListThenCreate | src/features/subscribers/lib/convertkit.ts:116-163 | the exact call log: the listing, then a create only when the listing did not throw and settled on no field; a success names a matching provider field; fault-free always succeeds |
| ConvertKit.FieldResolution | src/features/subscribers/lib/convertkit.ts:111-164 | a blank name is a 400 with no call; only the field table changes, by growing; a success names a provider field matching the trimmed name; fault-free always succeeds |
| ConvertKit.FieldReuse | src/features/subscribers/lib/convertkit.ts:128-136 | answered normally, an existing match with a truthy id is reused after the one listing call, reported by label, name and key |
| ConvertKit.FieldResolvedIsFirstMatch | src/features/subscribers/lib/convertkit.ts:128-159 | a successful resolution reports the first field matching the name in the provider's table afterwards |
| ConvertKit.EnsureFieldTwice | src/features/subscribers/lib/convertkit.ts:128-136 | after one successful resolution a second one, answered normally, reports the same field after one listing |
| ConvertKit.EnsureCustomFieldByName | src/features/subscribers/lib/convertkit.ts:111-164 | the calls on the provider, the reply and the new provider state are exactly `FieldResolution`'s |
| ConvertKit.CreateFieldKey | src/features/subscribers/lib/convertkit.ts:186-196 | the create request files the phone under the field's name, else key, else "Phone"; no key when resolution failed |
| ConvertKit.UpdateFieldKey | src/features/subscribers/lib/convertkit.ts:284 | the update writes under the field's key, else name, else "Phone"; "Phone" when resolution failed |
| ConvertKit.PhoneKeysDisagree | src/features/subscribers/lib/convertkit.ts:194 | with a name and a different key, create and update file the phone under different keys |
| ConvertKit.PhoneValues | src/features/subscribers/lib/convertkit.ts:206 | the create request carries the phone under its key only when both are truthy |
| ConvertKit.SameMembersKeepSubscriber | src/features/subscribers/lib/convertkit.ts:219-223 | a field write keeps every id's address |
| ConvertKit.LookupId | src/features/subscribers/lib/convertkit.ts:252-257 | a lookup yields an id exactly when it is ok and its first entry has a truthy id |
| ConvertKit.CompensationId | src/features/subscribers/lib/convertkit.ts:216-218 | the compensating lookup yields an id exactly when its reply's first entry has a truthy id, whatever its status |
| ConvertKit.SubscriberResolution | src/features/subscribers/lib/convertkit.ts:231-274 | an id is found exactly for an ok create with an id, or a 400/409/422 followed by a successful lookup; a thrown create or thrown lookup is a 500 with its message; the create's status and message otherwise |
| ConvertKit.OnlyConflictsConsultLookup | src/features/subscribers/lib/convertkit.ts:240 | outside 400, 409 and 422 the lookup cannot change the outcome |
| ConvertKit.SubscriberResolutionAsWritten | src/features/subscribers/lib/convertkit.ts:210-225 | as written, a throw from the compensating lookup ends resolution with a 500 |
| ConvertKit.CompensationThrowFailsResolution | src/features/subscribers/lib/convertkit.ts:210-237 | an accepted address (200, id 7) is reported as a failure by the code as written, but as id 7 by the corrected resolution |
| ConvertKit.CreateRequest | src/features/subscribers/lib/convertkit.ts:185-208 | the phone field is resolved only for a non-blank phone; the key is `CreateFieldKey` of that resolution; the last call is the create carrying `PhoneValues`; an id in the reply belongs to the address; fault-free always answers ok with an id |
| ConvertKit.Compensation | src/features/subscribers/lib/convertkit.ts:210-225 | its reply is the lookup's; the log is the lookup plus a PUT of the value exactly when an id came back; nobody's id, address or tags change, nor the tag and field tables |
| ConvertKit.Compensated | src/features/subscribers/lib/convertkit.ts:210-225 | whether or not the compensation runs, no id, address or tag changes and every call carries the key |
| ConvertKit.LookupFallback | src/features/subscribers/lib/convertkit.ts:239-259 | the lookup is made exactly after 400, 409 or 422, and otherwise nothing is called; an id it settles on belongs to the address |
| ConvertKit.SubscriberCreation | src/features/subscribers/lib/convertkit.ts:180-275 | outside 400/409/422 the outcome is `SubscriberResolution` of the create reply; tags never change; a found id belongs to the address; fault-free always finds an id |
| ConvertKit.SubscriberCreationAsWritten | src/features/subscribers/lib/convertkit.ts:180-275 | as written; whenever the compensation does not run it is exactly the corrected `SubscriberCreation` |
| ConvertKit.AsWrittenDiffersOnlyOnCompensationThrow | src/features/subscribers/lib/convertkit.ts:210-273 | both versions make the same calls and leave the same provider; their outcomes differ only when the compensating lookup threw, and then the code as written reports a 500 |
| ConvertKit.PhoneUpdate | src/features/subscribers/lib/convertkit.ts:277-310 | no truthy phone: 200 with no call; otherwise the last call writes the phone under `UpdateFieldKey` of a fresh resolution and a success means the subscriber holds it there; nobody else changes; fault-free: success exactly for a known id, else 404 "Not Found" |
| ConvertKit.Tagging | src/features/subscribers/lib/convertkit.ts:312-336 | one logged call; a success means the subscriber carries the tag; only that subscriber's tags change; answered normally it succeeds exactly when tag and subscriber exist, else 404 "Not Found" |
| ConvertKit.Outcome | src/features/subscribers/lib/convertkit.ts:342-351 | success exactly when both steps succeed; a tagging failure wins; a phone failure after tagging keeps the phone's status and error |
| ConvertKit.DesiredTagName | src/features/subscribers/lib/convertkit.ts:173 | the tag name is never blank and already trimmed: the trimmed argument when non-blank, else "source-howdy" |
| ConvertKit.Enrollment | src/features/subscribers/lib/convertkit.ts:338-351 | an id failure is returned as it is with nothing more called; a success means the address is held under the tag, with the phone; fault-free with an existing tag always succeeds |
| ConvertKit.Subscription | src/features/subscribers/lib/convertkit.ts:166-352 | implausible email: 400 with no call; a tag failure is returned after tag calls only, subscribers untouched; every call carries the key; tags only grow; a success means the tag name resolves to a tag the address holds, with the phone |
| ConvertKit.SubscriptionSucceedsWithoutFaults | src/features/subscribers/lib/convertkit.ts:166-351 | against a fault-free provider a plausible address is always subscribed, unless the tag's first match has a falsy id |
| ConvertKit.ConflictFallsBackToLookup | src/features/subscribers/lib/convertkit.ts:239-258 | a create refused with 409 for a known address returns the lookup's first id after exactly those two calls |
| ConvertKit.CreateRefusalIsReported | src/features/subscribers/lib/convertkit.ts:261-270 | any other refusal is reported with its status (500 for 0) and message after the one call |
| ConvertKit.CreateRequestForExisting | src/features/subscribers/lib/convertkit.ts:198-208 | fault-free, the create for a known address is answered 200 with its first id and adds nobody |
| ConvertKit.CompensationWrites | src/features/subscribers/lib/convertkit.ts:210-225 | fault-free, the compensation writes the value to the address's first subscriber |
| ConvertKit.ExistingSubscriberCompensated | src/features/subscribers/lib/convertkit.ts:209-225 | fault-free, for a known address the create is answered 200, the compensation runs, and the subscriber then holds the phone |
| ConvertKit.ExistingSubscriberGetsPhone | src/features/subscribers/lib/convertkit.ts:209-237 | fault-free, a known address is resolved to its first id and ends up holding the phone under the create step's key, though the upsert dropped it |
| ConvertKit.FindingCreateRequest | src/features/subscribers/lib/convertkit.ts:185-208 | in the finding's provider the create reuses the Phone field, sends the phone under "Phone" and is answered 200 with id 7 |
| ConvertKit.FindingCompensationThrows | src/features/subscribers/lib/convertkit.ts:210-215 | in the finding's provider the compensation runs and its lookup throws |
| ConvertKit.CompensationThrowLosesSubscriber | src/features/subscribers/lib/convertkit.ts:210-273 | on that provider the code as written reports a 500, the corrected resolution returns id 7 |
| ConvertKit.PostSubscriberWithPhone | src/features/subscribers/lib/convertkit.ts:185-208 | the key it returns, the reply and the new provider state are exactly `CreateRequest`'s |
| ConvertKit.CompensateDroppedFields | src/features/subscribers/lib/convertkit.ts:210-225 | the reply and the new provider state are exactly `Compensation`'s |
| ConvertKit.LookUpAfterRefusal | src/features/subscribers/lib/convertkit.ts:239-251 | the fallback reply and the new provider state are exactly `LookupFallback`'s |
| ConvertKit.CreateSubscriberAndGetId | src/features/subscribers/lib/convertkit.ts:180-275 | the outcome and the new provider state are exactly `SubscriberCreation`'s |
| ConvertKit.CreateSubscriberAndGetIdAsWritten | src/features/subscribers/lib/convertkit.ts:180-275 | the outcome and the new provider state are exactly `SubscriberCreationAsWritten`'s |
| ConvertKit.MaybeUpdatePhone | src/features/subscribers/lib/convertkit.ts:277-310 | the outcome and the new provider state are exactly `PhoneUpdate`'s |
| ConvertKit.TagSubscriberId | src/features/subscribers/lib/convertkit.ts:312-336 | the outcome and the new provider state are exactly `Tagging`'s |
| ConvertKit.SubscribeEmailToTag | src/features/subscribers/lib/convertkit.ts:166-352 | the outcome and the new provider state are exactly `Subscription`'s |
| SubscribeWithAccount.ThrownOutcome | src/features/subscribers/lib/subscribeWithAccount.ts:67-71 | an exception becomes a 500 with its message, else "Server error" |
| SubscribeWithAccount.ResolvedUser | src/features/subscribers/lib/subscribeWithAccount.ts:34 | a truthy provided user id wins; else the signed-in user; none when neither is truthy |
| SubscribeWithAccount.PhoneArgument | src/features/subscribers/lib/subscribeWithAccount.ts:60 | `phone \|\| undefined`: only a truthy phone is handed on |
| SubscribeWithAccount.Plan | src/features/subscribers/lib/subscribeWithAccount.ts:17-60 | every early stop is a failure; the adapter is reached only with a non-empty key and tag name, the caller's email and the truthy phone |
| SubscribeWithAccount.Finish | src/features/subscribers/lib/subscribeWithAccount.ts:61-71 | the adapter's outcome is passed through; a throw becomes a 500 |
| SubscribeWithAccount.SubscribeWithAccount | src/features/subscribers/lib/subscribeWithAccount.ts:16-72 | a success is exactly the adapter's success for the arguments the guard chain chose |
| SubscribeWithAccount.MisconfigurationStopsFirst | src/features/subscribers/lib/subscribeWithAccount.ts:18-30 | without `db` and JWT: 500 "Server misconfiguration.", whatever the database or adapter |
| SubscribeWithAccount.NoUserIsNotAuthenticated | src/features/subscribers/lib/subscribeWithAccount.ts:33-38 | no provided or signed-in user: 401 "Not authenticated." |
| SubscribeWithAccount.AccountLookupIsScoped | src/features/subscribers/lib/subscribeWithAccount.ts:40-45 | only the resolved user's account row can influence the outcome |
| SubscribeWithAccount.AccountErrorIs500 | src/features/subscribers/lib/subscribeWithAccount.ts:47-50 | an account error is a 500 with its message or "Failed to load account." |
| SubscribeWithAccount.MissingKeyNeverCallsAdapter | src/features/subscribers/lib/subscribeWithAccount.ts:52-57 | a missing or empty key is a 400 and the outcome does not depend on the adapter |
| SubscribeWithAccount.AccountSettingsReachAdapter | src/features/subscribers/lib/subscribeWithAccount.ts:52-66 | the adapter receives the account's key and its label, defaulting to "source-howdy", and its outcome is the answer |
| SubscribeWithAccount.SubscribeWithAccountAt | src/features/subscribers/lib/subscribeWithAccount.ts:16-72 | end to end over the provider: the answer is `SubscribeWithAccount`'s for the modelled adapter; an early stop makes no call; otherwise the calls and new state are `Subscription`'s, every call carries the account's key, and a success leaves the address, with its phone, under the tag the account's label resolves to |
| SubscribeWithAccount.SubscribeWithAccountOnKit | src/features/subscribers/lib/subscribeWithAccount.ts:16-72 | the answer and the new provider state are exactly `SubscribeWithAccountAt`'s |
| Accounts.DefaultAccount | src/lib/ensureAccountForUser.ts:41-45 | a new row belongs to the user, is named "New Account", has the tag label "source-howdy" and no API key |
| Accounts.FirstIndexFor | src/lib/ensureAccountForUser.ts:23-27 | the position of the user's first row: no earlier row is theirs, and the row there is |
| Accounts.FirstRowFor | src/lib/ensureAccountForUser.ts:34-36 | a row is found exactly when the user has one, and it is the user's |
| Accounts.FirstRowAfterAppend | src/lib/ensureAccountForUser.ts:39-47 | an insert changes only the first row of a user who had none |
| Accounts.AccountsTable.EnsureAccountForUser | src/lib/ensureAccountForUser.ts:17-58 | select error → thrown, nothing inserted; existing first row returned, nothing inserted; else exactly one default row inserted and returned; insert error or empty result → thrown, nothing stored; a success is the user's first row afterwards; other users' first rows never change; grows by at most one row |
| Accounts.AccountsTable.EnsureAccountTwice | src/lib/ensureAccountForUser.ts:23-47 | after a successful call, a second call returns the same account; at most one row is added in all |
| AppUrl.VercelCandidate | src/lib/appUrl.ts:11 | a set Vercel host becomes `https://` + host; an unset one stays unset |
| AppUrl.FirstSet | src/lib/appUrl.ts:8-17 | the reference precedence: the first set candidate, else the fallback |
| AppUrl.GetAppUrl | src/lib/appUrl.ts:1-18 | on the server the URL is never empty; in a browser it is non-empty when the origin is |
| AppUrl.GetAppUrlIsFirstSet | src/lib/appUrl.ts:1-18 | `getAppUrl` is the first set source in the documented order: server public URL, Vercel, `APP_URL`, localhost; browser public URL, origin |
| AppUrl.PublicUrlWins | src/lib/appUrl.ts:3-9 | a set public URL is the answer in both runtimes |
| AppUrl.BrowserIgnoresServerSources | src/lib/appUrl.ts:3-5 | in a browser only the public URL and the origin matter, and the origin is used when the public URL is unset |
| AppUrl.VercelBeatsAppUrl | src/lib/appUrl.ts:11-15 | without a public URL, a set Vercel host wins over `APP_URL` |
| AppUrl.NothingSetIsLocalhost | src/lib/appUrl.ts:17 | with no source set, the server answers `http://localhost:3000` |
| SubscriberForm.FriendlyMessage | src/features/subscribers/components/AddSubscriberForm.tsx:66-71 | never empty; the server error for 400/422/5xx when non-empty, else each status's fixed text; 401/403 and 404 fixed; everything else "Failed to subscribe." |
| SubscriberForm.ServerErrorIgnoredElsewhere | src/features/subscribers/components/AddSubscriberForm.tsx:68-69 | outside 400, 422 and 5xx the server's error never reaches the user |
| SubscriberForm.SubmitOutcome | src/features/subscribers/components/AddSubscriberForm.tsx:62-86 | success exactly for a 2xx reply without `ok: false`; failures show the table's message; a thrown fetch shows the network message |
| SubscriberForm.OkFalseIsGenericFailure | src/features/subscribers/components/AddSubscriberForm.tsx:62-66 | a 2xx reply whose body says `ok: false` shows "Failed to subscribe." |
| SubscriberForm.Form.constructor | src/features/subscribers/components/AddSubscriberForm.tsx:12-13 | the form starts idle with an empty email and nothing sent |
| SubscriberForm.Form.Type | src/features/subscribers/components/AddSubscriberForm.tsx:115 | typing replaces the email |
| SubscriberForm.Form.HandleSubmit | src/features/subscribers/components/AddSubscriberForm.tsx:46-87 | a blank email fails with "Please enter your email." without loading or a request; otherwise the untrimmed email is sent once, the state goes through loading to `SubmitOutcome`, and only a success clears the email |

## Left out

- Transport: HTTP, URLs and `encodeURIComponent`, headers, and JSON parsing. They are not modelled as such. Every provider call is one `Request` value and one `Response` value; a body that the `.catch(() => ({}))` parsers swallow is a reply without payload or error fields.
- The create reply's body at `convertkit.ts:229` is parsed with `await res.json()` and no `catch`. A malformed JSON body there throws to the outer `catch`, a 500 at lines 271-273, after the compensation (210-225) may already have written the phone. Replies are values here, so this path is not modelled.
- The content-type sniffing at `convertkit.ts:227-229`. A reply body that is a plain string is not modelled, so a text body's use as the error message (line 264) is not covered.
- All `console.*` logging and the debug reads through `res.clone()`. They have no effect on results.
- Provider semantics. `KitProvider.Kit` is a model of Kit's v4 API as the adapter relies on it, not of Kit itself. Authentication is not modelled: the API key is only recorded in the call log.
- Ids. Provider ids are natural numbers, with 0 standing for a falsy id, rather than strings. Account ids are handed out by the table, rather than being database-generated uuids.
- Case folding. `toLowerCase` is modelled for ASCII letters only. Non-ASCII case mappings are not modelled.
- Client selection. The choice between `db` and a JWT client (`subscribeWithAccount.ts:18-30`) and `client || supabase` (`ensureAccountForUser.ts:21`) is one abstract database answer. Environment variables for the client are not modelled.
- Concurrency. Interleaving of concurrent requests and races between the select and the insert of `ensureAccountForUser` are not modelled; each call runs alone.
- Accounts.AccountsTable.EnsureAccountForUser: `.limit(1)` without an order is read as the first row in table order. An insert answered with neither a row nor an error is taken to have stored nothing.
- The form's tag-loading effect (`AddSubscriberForm.tsx:18-44`) and the rendering are not modelled. The request body is modelled as the sent email string.
- SubscribeWithAccount.SubscribeWithAccount: the adapter is a function parameter there. `SubscribeWithAccount.SubscribeWithAccountAt` and `SubscribeWithAccount.SubscribeWithAccountOnKit` run the modelled adapter instead.
- ConvertKit.SubscribeEmailToTag: it runs the corrected subscriber resolution of the Findings table below, where a throwing compensating lookup does not discard the id the create returned. The code as written is `ConvertKit.CreateSubscriberAndGetIdAsWritten`, and `ConvertKit.AsWrittenDiffersOnlyOnCompensationThrow` proves that this is the only point of difference.

## Findings

| source | as written | input that shows it | evidently intended | confidence | as-written member | corrected member |
|---|---|---|---|---|---|---|
| src/features/subscribers/lib/convertkit.ts:210-225 | The compensating lookup after a 200 create (line 212) is awaited without a `catch`, unlike the PUT at line 223. If it throws, the outer `catch` (271-273) returns a 500, and the subscriber id the create already returned is lost. | A phone is given and the Phone field resolves. The create answers 200 with subscriber id 7. The compensating `GET /v4/subscribers?email_address=…` throws ("socket hang up"). | The compensation is best-effort: its failure must not change the outcome, so the id 7 from the create reply is returned. | not executed | ConvertKit.SubscriberResolutionAsWritten, ConvertKit.SubscriberCreationAsWritten, ConvertKit.CreateSubscriberAndGetIdAsWritten, ConvertKit.CompensationThrowFailsResolution, ConvertKit.CompensationThrowLosesSubscriber | ConvertKit.SubscriberResolution, ConvertKit.SubscriberCreation, ConvertKit.CreateSubscriberAndGetId |
