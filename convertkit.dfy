/** The Kit (ConvertKit v4) subscription adapter of convertkit.ts: tag and custom-field
    resolution by list-then-create, subscriber creation with a lookup fallback, the
    optional phone write, tagging, and the single outcome the steps combine into.
    Each operation is a function from the provider's state to its result and the
    state after it (the specification), and a method that makes the calls on a
    `KitProvider.Kit` in the adapter's order and is proved to agree with it. The
    subscribe chain resolves subscriber ids with the corrected `SubscriberCreation`;
    the code as written is `SubscriberCreationAsWritten`, which differs only when the
    compensating lookup throws. */
module ConvertKit {
  import opened Base
  import opened KitProvider
  import opened FieldKey

  /** `TagInfoResult`. */
  datatype TagInfoResult =
    | TagInfo(status: int, id: nat, name: string)
    | TagError(status: int, error: string)

  /** The result of `ensureCustomFieldByName`; an empty `key` stands for `undefined`. */
  datatype FieldResult =
    | FieldInfo(id: nat, name: string, key: string)
    | FieldError(status: int, error: string)

  /** The result of `createSubscriberAndGetId`. */
  datatype IdResult =
    | IdFound(id: nat)
    | IdError(status: int, error: string)

  /** `SubscribeResult` (the `data` member is always undefined and is left out). */
  datatype SubscribeResult =
    | Subscribed(status: int)
    | NotSubscribed(status: int, error: string)

  /** The tag used when none is configured, "source-howdy". It is written as a
      concatenation so that the verifier does not evaluate string functions on it
      wherever it appears. */
  const DefaultTagName: string := "source-" + "howdy"
  /** The name the phone custom field is resolved by, "Phone" (a concatenation for the
      same reason). */
  const PhoneFieldName: string := "Ph" + "one"

  // ---------------------------------------------------------------------------
  // Reading provider replies

  /** The message of a failed reply: the first entry of `errors` when it is a non-empty
      string, else `message` when non-empty, else the operation's own fallback. */
  function ErrorMessage(body: ErrorBody, fallback: string): (m: string)
    ensures |body.errors| > 0 && body.errors[0] != "" ==> m == body.errors[0]
    ensures !(|body.errors| > 0 && body.errors[0] != "") ==> m == Or(body.message, fallback)
    ensures fallback != "" ==> m != ""
  {
    if |body.errors| > 0 && body.errors[0] != "" then body.errors[0] else Or(body.message, fallback)
  }

  /** `res.status || 500`: a failure never reports status 0. */
  function StatusOr500(status: int): (s: int)
    ensures s != 0
    ensures status != 0 ==> s == status
  {
    if status == 0 then 500 else status
  }

  /** The message a caught exception becomes: an `Error`'s message, else "Network error". */
  function ThrownMessage(e: Option<string>): (m: string)
    ensures e.Some? ==> m == e.value
    ensures e.None? ==> m == "Network error"
  {
    GetOr(e, "Network error")
  }

  /** The outcome of a call whose reply is only checked for `ok` (the phone write and the
      tagging call): success carries the reply's own status, failure its status and message. */
  function StepOutcome<T>(res: Response<T>, fallback: string): (r: SubscribeResult)
    requires fallback != ""
    ensures r.Subscribed? <==> res.Ok()
    ensures r.Subscribed? ==> r.status == res.status
    ensures res.Reply? && !res.Ok() ==> r == NotSubscribed(res.status, ErrorMessage(res.body, fallback)) && r.error != ""
    ensures res.Thrown? ==> r == NotSubscribed(500, ThrownMessage(res.error))
  {
    match res
    case Thrown(e) => NotSubscribed(500, ThrownMessage(e))
    case Reply(status, _, body) =>
      if res.Ok() then Subscribed(status) else NotSubscribed(status, ErrorMessage(body, fallback))
  }

  // ---------------------------------------------------------------------------
  // Tags

  /** The tag id a name resolves to in a tag table: the first case-insensitive match,
      provided its id is truthy. */
  predicate TagResolvesTo(tags: seq<Tag>, name: string, id: nat) {
    id != 0 && FindTag(tags, name).Some? && FindTag(tags, name).value.id == id
  }

  /** What the listing step settles on: a successful listing whose first matching tag
      has a truthy id. */
  function ListedTag(list: Response<seq<Tag>>, name: string): (t: Option<Tag>)
    ensures t.Some? <==> list.Ok() && list.payload.Some? && FindTag(list.payload.value, name).Some?
                         && FindTag(list.payload.value, name).value.id != 0
    ensures t.Some? ==> t == FindTag(list.payload.value, name)
  {
    if list.Ok() && list.payload.Some? then
      var found := FindTag(list.payload.value, name);
      if found.Some? && found.value.id != 0 then found else None
    else None
  }

  /** How the adapter reads the reply to its create-tag request. */
  function CreatedTagResult(name: string, res: Response<Tag>): (r: TagInfoResult)
    ensures r.TagInfo? <==> res.Ok() && res.payload.Some? && res.payload.value.id != 0
    ensures r.TagInfo? ==> r == TagInfo(201, res.payload.value.id, GetOr(res.payload.value.name, name))
    ensures r.TagError? ==> r.status != 0 && (res.Reply? ==> r.error != "")
    ensures res.Reply? && !res.Ok() ==>
      r == TagError(StatusOr500(res.status), ErrorMessage(res.body, "Failed to create tag"))
    ensures res.Ok() && r.TagError? ==> r == TagError(500, "Unexpected create tag response")
    ensures res.Thrown? ==> r == TagError(500, ThrownMessage(res.error))
  {
    match res
    case Thrown(e) => TagError(500, ThrownMessage(e))
    case Reply(status, payload, body) =>
      if !res.Ok() then TagError(StatusOr500(status), ErrorMessage(body, "Failed to create tag"))
      else if payload.Some? && payload.value.id != 0 then TagInfo(201, payload.value.id, GetOr(payload.value.name, name))
      else TagError(500, "Unexpected create tag response")
  }

  /** Whether every call appended after `before` carries this API key. */
  predicate CallsWith(before: seq<Call>, after: seq<Call>, apiKey: string) {
    before <= after && forall i :: |before| <= i < |after| ==> after[i].apiKey == apiKey
  }

  /** No calls at all trivially carry the key. */
  lemma CallsWithNothing(log: seq<Call>, apiKey: string)
    ensures CallsWith(log, log, apiKey)
  {
  }

  /** A call with the same key extends a run of calls made with it. */
  lemma CallsWithStep(before: seq<Call>, after: seq<Call>, call: Call, apiKey: string)
    requires CallsWith(before, after, apiKey) && call.apiKey == apiKey
    ensures CallsWith(before, after + [call], apiKey)
  {
    assert (after + [call])[..|after|] == after;
  }

  /** Runs of calls made with one key compose. */
  lemma CallsWithTrans(a: seq<Call>, b: seq<Call>, c: seq<Call>, apiKey: string)
    requires CallsWith(a, b, apiKey) && CallsWith(b, c, apiKey)
    ensures CallsWith(a, c, apiKey)
  {
  }

  /** Every call in `calls` lists or creates tags. */
  predicate OnlyTagRequests(calls: seq<Call>) {
    forall i :: 0 <= i < |calls| ==> calls[i].request.ListTags? || calls[i].request.CreateTag?
  }

  /** Extending a tag table never changes a first match it already had. */
  lemma {:induction false} FindTagInPrefix(a: seq<Tag>, b: seq<Tag>, name: string)
    requires a <= b && FindTag(a, name).Some?
    ensures FindTag(b, name) == FindTag(a, name)
  {
    if !NameMatches(GetOr(a[0].name, ""), name) {
      assert a[1..] <= b[1..];
      FindTagInPrefix(a[1..], b[1..], name);
    }
  }

  /** The create step of `ensureTagByName` (lines 67-91): one create request; a success
      names the tag the provider now resolves the name to, and only the tag table may
      change, by growing. */
  function TagCreation(s: KitState, name: string, apiKey: string): (c: Called<TagInfoResult>)
    ensures c.after.customFields == s.customFields && c.after.subscribers == s.subscribers
    ensures s.tags <= c.after.tags
    ensures c.after.log == s.log + [Call(apiKey, CreateTag(name))]
    ensures c.value.TagInfo? ==> TagResolvesTo(c.after.tags, name, c.value.id)
    ensures FaultFree(s) ==> FaultFree(c.after)
  {
    FindTagAfterAppend(s.tags, Tag(s.lastId + 1, Some(name)), name);
    var create := CreateTagCall(s, apiKey, name);
    Called(CreatedTagResult(name, create.value), create.after)
  }

  /** The list-then-create part of `ensureTagByName` (lines 45-95) for a non-blank name:
      the tags are listed and a case-insensitive match with a truthy id is reused (200)
      without a create request; only a listing that did not throw and settled on no tag
      leads to `TagCreation`. A success always names the tag the provider now resolves
      the name to; only the tag table may change. */
  function TagListThenCreate(s: KitState, name: string, apiKey: string): (c: Called<TagInfoResult>)
    ensures c.after.customFields == s.customFields && c.after.subscribers == s.subscribers
    ensures s.tags <= c.after.tags
    ensures var list := ListTagsCall(s, apiKey).value;
      c.after.log == s.log + [Call(apiKey, ListTags)]
                     + (if list.Reply? && ListedTag(list, name).None? then [Call(apiKey, CreateTag(name))] else [])
    ensures CallsWith(s.log, c.after.log, apiKey)
    ensures OnlyTagRequests(c.after.log[|s.log|..])
    ensures c.value.TagInfo? ==> TagResolvesTo(c.after.tags, name, c.value.id)
    ensures FaultFree(s) ==> FaultFree(c.after)
  {
    var list := ListTagsCall(s, apiKey);
    if list.value.Thrown? then Called(TagError(500, ThrownMessage(list.value.error)), list.after)
    else match ListedTag(list.value, name)
      case Some(t) => Called(TagInfo(200, t.id, GetOr(t.name, name)), list.after)
      case None => TagCreation(list.after, name, apiKey)
  }

  /** `ensureTagByName`: a blank name is refused with 400 before any call; otherwise the
      trimmed name is resolved by `TagListThenCreate`. Only tag calls are made, all with
      the given key, and only the tag table may change. */
  function TagResolution(s: KitState, tagName: string, apiKey: string): (c: Called<TagInfoResult>)
    ensures Trim(tagName) == "" ==> c == Called(TagError(400, "Tag name is required"), s)
    ensures c.after.customFields == s.customFields && c.after.subscribers == s.subscribers
    ensures s.tags <= c.after.tags
    ensures CallsWith(s.log, c.after.log, apiKey)
    ensures OnlyTagRequests(c.after.log[|s.log|..])
    ensures c.value.TagInfo? ==> TagResolvesTo(c.after.tags, Trim(tagName), c.value.id)
    ensures FaultFree(s) ==> FaultFree(c.after)
  {
    var name := Trim(tagName);
    if name == "" then Called(TagError(400, "Tag name is required"), s)
    else TagListThenCreate(s, name, apiKey)
  }

  /** When the listing is answered normally, an existing match with a truthy id is
      reused with 200 after that one call, and nothing is created. */
  lemma TagReuse(s: KitState, tagName: string, apiKey: string)
    requires Trim(tagName) != "" && s.Pending().None?
    requires FindTag(s.tags, Trim(tagName)).Some? && FindTag(s.tags, Trim(tagName)).value.id != 0
    ensures var t := FindTag(s.tags, Trim(tagName)).value;
      TagResolution(s, tagName, apiKey)
        == Called(TagInfo(200, t.id, GetOr(t.name, Trim(tagName))), s.Receive(Call(apiKey, ListTags)))
  {
  }

  /** Against a fault-free provider a non-blank name always resolves, unless its first
      match has a falsy id (the adapter then creates, the provider returns that same tag,
      and the adapter refuses its id). */
  lemma TagResolutionSucceeds(s: KitState, tagName: string, apiKey: string)
    requires FaultFree(s) && Trim(tagName) != ""
    requires FindTag(s.tags, Trim(tagName)).None? || FindTag(s.tags, Trim(tagName)).value.id != 0
    ensures TagResolution(s, tagName, apiKey).value.TagInfo?
  {
    FaultFreeReceive(s, Call(apiKey, ListTags));
  }

  /** Two resolutions of the same name in a row: once the first succeeds, any success of
      the second has the same id, and a second whose listing is answered normally
      succeeds with 200 after one call. */
  lemma EnsureTagTwice(s: KitState, tagName: string, apiKey: string)
    ensures var first := TagResolution(s, tagName, apiKey);
      var second := TagResolution(first.after, tagName, apiKey);
      first.value.TagInfo? ==>
        && (second.value.TagInfo? ==> second.value.id == first.value.id)
        && (first.after.Pending().None? ==>
              second.value.TagInfo? && second.value.status == 200
              && second.after.log == first.after.log + [Call(apiKey, ListTags)])
  {
    var first := TagResolution(s, tagName, apiKey);
    var second := TagResolution(first.after, tagName, apiKey);
    if first.value.TagInfo? && second.value.TagInfo? {
      FindTagInPrefix(first.after.tags, second.after.tags, Trim(tagName));
    }
  }

  // ---------------------------------------------------------------------------
  // Custom fields

  /** A field with this id whose lookup name matches `name` is in the table. */
  predicate FieldKnown(fields: seq<CustomField>, name: string, id: nat) {
    exists i :: 0 <= i < |fields| && fields[i].id == id && NameMatches(FieldLookupName(fields[i]), name)
  }

  /** What the listing step settles on: a successful listing whose first matching field
      has a truthy id. */
  function ListedField(list: Response<seq<CustomField>>, name: string): (f: Option<CustomField>)
    ensures f.Some? ==> list.Ok() && list.payload.Some? && f == FindField(list.payload.value, name) && f.value.id != 0
    ensures f.None? && list.Ok() && list.payload.Some? ==>
      FindField(list.payload.value, name).None? || FindField(list.payload.value, name).value.id == 0
  {
    if list.Ok() && list.payload.Some? then
      var found := FindField(list.payload.value, name);
      if found.Some? && found.value.id != 0 then found else None
    else None
  }

  /** What the adapter reports for a field: its label before its name (`label ?? name`),
      and its key only when truthy. */
  function FieldInfoOf(f: CustomField, name: string): (r: FieldResult)
    ensures r.FieldInfo? && r.id == f.id && r.key == f.key
    ensures r.name == GetOr(f.fieldLabel, GetOr(f.name, name))
  {
    FieldInfo(f.id, GetOr(f.fieldLabel, GetOr(f.name, name)), f.key)
  }

  /** How the adapter reads the reply to its create-field request. */
  function CreatedFieldResult(name: string, res: Response<CustomField>): (r: FieldResult)
    ensures r.FieldInfo? <==> res.Ok() && res.payload.Some? && res.payload.value.id != 0
    ensures r.FieldInfo? ==> r == FieldInfoOf(res.payload.value, name)
    ensures r.FieldError? ==> r.status != 0 && (res.Reply? ==> r.error != "")
    ensures res.Reply? && !res.Ok() ==>
      r == FieldError(StatusOr500(res.status), ErrorMessage(res.body, "Failed to create custom field"))
    ensures res.Ok() && r.FieldError? ==> r == FieldError(500, "Unexpected create custom field response")
    ensures res.Thrown? ==> r == FieldError(500, ThrownMessage(res.error))
  {
    match res
    case Thrown(e) => FieldError(500, ThrownMessage(e))
    case Reply(status, payload, body) =>
      if !res.Ok() then FieldError(StatusOr500(status), ErrorMessage(body, "Failed to create custom field"))
      else if payload.Some? && payload.value.id != 0 then FieldInfoOf(payload.value, name)
      else FieldError(500, "Unexpected create custom field response")
  }

  /** The create step of `ensureCustomFieldByName` (lines 138-159): one request to
      create a text field named and labelled `name` and keyed by its slug; a success
      names a field of the provider that matches the name, and only the field table may
      change, by growing. Against a fault-free provider it always succeeds. */
  function FieldCreation(s: KitState, name: string, apiKey: string): (c: Called<FieldResult>)
    ensures c.after.tags == s.tags && c.after.subscribers == s.subscribers
    ensures s.customFields <= c.after.customFields
    ensures c.after.log == s.log + [Call(apiKey, CreateCustomField(name, name, SlugifyFieldKey(name), "text"))]
    ensures c.value.FieldInfo? ==> c.value.id != 0 && FieldKnown(c.after.customFields, name, c.value.id)
    ensures FaultFree(s) ==> FaultFree(c.after) && c.value.FieldInfo?
  {
    var create := CreateFieldCall(s, apiKey, name, name, SlugifyFieldKey(name), "text");
    assert create.value.Ok() && create.value.payload.Some? ==> create.after.customFields[|s.customFields|] == create.value.payload.value;
    Called(CreatedFieldResult(name, create.value), create.after)
  }

  /** The list-then-create part of `ensureCustomFieldByName` (lines 116-163) for a
      non-blank name: the fields are listed and a match by `name` (by `label` only when
      `name` is absent) with a truthy id is reused; only a listing that did not throw and
      settled on no field leads to `FieldCreation`. A success always names a field of the
      provider that matches the name; only the field table may change. Against a
      fault-free provider it always succeeds. */
  function FieldListThenCreate(s: KitState, name: string, apiKey: string): (c: Called<FieldResult>)
    ensures c.after.tags == s.tags && c.after.subscribers == s.subscribers
    ensures s.customFields <= c.after.customFields
    ensures var list := ListFieldsCall(s, apiKey).value;
      c.after.log == s.log + [Call(apiKey, ListCustomFields)]
        + (if list.Reply? && ListedField(list, name).None?
           then [Call(apiKey, CreateCustomField(name, name, SlugifyFieldKey(name), "text"))] else [])
    ensures CallsWith(s.log, c.after.log, apiKey)
    ensures c.value.FieldInfo? ==> c.value.id != 0 && FieldKnown(c.after.customFields, name, c.value.id)
    ensures FaultFree(s) ==> FaultFree(c.after) && c.value.FieldInfo?
  {
    var list := ListFieldsCall(s, apiKey);
    if list.value.Thrown? then Called(FieldError(500, ThrownMessage(list.value.error)), list.after)
    else match ListedField(list.value, name)
      case Some(f) => Called(FieldInfoOf(f, name), list.after)
      case None => FieldCreation(list.after, name, apiKey)
  }

  /** `ensureCustomFieldByName`: a blank name is refused with 400 before any call;
      otherwise the trimmed name is resolved by `FieldListThenCreate`. */
  function FieldResolution(s: KitState, fieldName: string, apiKey: string): (c: Called<FieldResult>)
    ensures Trim(fieldName) == "" ==> c == Called(FieldError(400, "Field name is required"), s)
    ensures c.after.tags == s.tags && c.after.subscribers == s.subscribers
    ensures s.customFields <= c.after.customFields
    ensures CallsWith(s.log, c.after.log, apiKey)
    ensures c.value.FieldInfo? ==> c.value.id != 0 && FieldKnown(c.after.customFields, Trim(fieldName), c.value.id)
    ensures FaultFree(s) ==> FaultFree(c.after) && (Trim(fieldName) != "" ==> c.value.FieldInfo?)
  {
    var name := Trim(fieldName);
    if name == "" then Called(FieldError(400, "Field name is required"), s)
    else FieldListThenCreate(s, name, apiKey)
  }

  /** When the listing is answered normally, an existing match with a truthy id is
      reused after that one call, reported by its label, name and key, and nothing is
      created. */
  lemma FieldReuse(s: KitState, fieldName: string, apiKey: string)
    requires Trim(fieldName) != "" && s.Pending().None?
    requires FindField(s.customFields, Trim(fieldName)).Some? && FindField(s.customFields, Trim(fieldName)).value.id != 0
    ensures var f := FindField(s.customFields, Trim(fieldName)).value;
      FieldResolution(s, fieldName, apiKey)
        == Called(FieldInfoOf(f, Trim(fieldName)), s.Receive(Call(apiKey, ListCustomFields)))
  {
  }

  /** After a resolution that succeeds, with its listing answered normally and no match
      with a falsy id in the way, the field it reports is the first match for the name
      in the provider's table. */
  lemma FieldResolvedIsFirstMatch(s: KitState, fieldName: string, apiKey: string)
    requires Trim(fieldName) != "" && s.Pending().None?
    requires FindField(s.customFields, Trim(fieldName)).None? || FindField(s.customFields, Trim(fieldName)).value.id != 0
    ensures var first := FieldResolution(s, fieldName, apiKey);
      var g := FindField(first.after.customFields, Trim(fieldName));
      first.value.FieldInfo? ==> g.Some? && g.value.id != 0 && FieldInfoOf(g.value, Trim(fieldName)) == first.value
  {
    var name := Trim(fieldName);
    var listed := ListFieldsCall(s, apiKey);
    if FindField(s.customFields, name).None? {
      var f := CustomField(listed.after.lastId + 1, Some(name), Some(name), SlugifyFieldKey(name));
      FindFieldAfterAppend(s.customFields, f, name);
    }
  }

  /** Two resolutions of the same name in a row, the first listing answered normally
      and no match with a falsy id in the way: once the first succeeds, a second whose
      listing is answered normally reports the same field after one call. */
  lemma EnsureFieldTwice(s: KitState, fieldName: string, apiKey: string)
    requires Trim(fieldName) != "" && s.Pending().None?
    requires FindField(s.customFields, Trim(fieldName)).None? || FindField(s.customFields, Trim(fieldName)).value.id != 0
    ensures var first := FieldResolution(s, fieldName, apiKey);
      var second := FieldResolution(first.after, fieldName, apiKey);
      first.value.FieldInfo? && first.after.Pending().None? ==>
        second == Called(first.value, first.after.Receive(Call(apiKey, ListCustomFields)))
  {
    var first := FieldResolution(s, fieldName, apiKey);
    FieldResolvedIsFirstMatch(s, fieldName, apiKey);
    if first.value.FieldInfo? && first.after.Pending().None? {
      FieldReuse(first.after, fieldName, apiKey);
    }
  }

  // ---------------------------------------------------------------------------
  // The phone field key

  /** The key the create request files the phone under (lines 192-194): the resolved
      field's reported name, else its key, else "Phone"; nothing when resolution failed. */
  function CreateFieldKey(f: FieldResult): (k: Option<string>)
    ensures k.Some? <==> f.FieldInfo?
    ensures k.Some? ==> k.value != ""
    ensures f.FieldInfo? && f.name != "" ==> k == Some(f.name)
    ensures f.FieldInfo? && f.name == "" && f.key != "" ==> k == Some(f.key)
    ensures f.FieldInfo? && f.name == "" && f.key == "" ==> k == Some(PhoneFieldName)
  {
    if f.FieldInfo? then Some(Or(f.name, Or(f.key, PhoneFieldName))) else None
  }

  /** The key the phone update writes under (line 284): the resolved field's key, else
      its name, else "Phone"; "Phone" when resolution failed. */
  function UpdateFieldKey(f: FieldResult): (k: string)
    ensures k != ""
    ensures f.FieldError? ==> k == PhoneFieldName
    ensures f.FieldInfo? && f.key != "" ==> k == f.key
    ensures f.FieldInfo? && f.key == "" && f.name != "" ==> k == f.name
    ensures f.FieldInfo? && f.key == "" && f.name == "" ==> k == PhoneFieldName
  {
    if f.FieldInfo? then Or(f.key, Or(f.name, PhoneFieldName)) else PhoneFieldName
  }

  /** The two steps prefer opposite members: whenever the resolved field reports both a
      name and a different key, create and update file the phone under different keys. */
  lemma PhoneKeysDisagree(f: FieldResult)
    requires f.FieldInfo? && f.name != "" && f.key != "" && f.name != f.key
    ensures CreateFieldKey(f) == Some(f.name) && UpdateFieldKey(f) == f.key
    ensures CreateFieldKey(f).value != UpdateFieldKey(f)
  {
  }

  /** The custom-field values a create request carries: the phone under its key when
      both are truthy (`phone && phoneFieldKey`), nothing otherwise. */
  function PhoneValues(phone: Option<string>, key: Option<string>): (m: map<string, string>)
    ensures Truthy(phone) && key.Some? ==> m == map[key.value := phone.value]
    ensures !(Truthy(phone) && key.Some?) ==> m == map[]
  {
    if Truthy(phone) && key.Some? then map[key.value := phone.value] else map[]
  }

  // ---------------------------------------------------------------------------
  // Subscribers

  /** Two subscriber tables that hold the same people with the same tags, in the same
      order; only custom-field values may differ. */
  predicate SameMembers(a: seq<Subscriber>, b: seq<Subscriber>) {
    |a| == |b| && forall i :: 0 <= i < |a| ==> a[i].id == b[i].id && a[i].email == b[i].email && a[i].tags == b[i].tags
  }

  /** Keeping the same members keeps every id's email address. */
  lemma SameMembersKeepSubscriber(a: seq<Subscriber>, b: seq<Subscriber>, id: nat, email: string)
    requires SameMembers(a, b) && IsSubscriberFor(a, id, email)
    ensures IsSubscriberFor(b, id, email)
  {
    var i :| 0 <= i < |a| && a[i].id == id && a[i].email == email;
    assert b[i].id == id && b[i].email == email;
  }

  /** The statuses after which the adapter looks the address up instead of failing. */
  predicate IsConflictStatus(status: int) {
    status == 409 || status == 422 || status == 400
  }

  /** The id an email lookup settles on: a successful reply whose first entry has a
      truthy id. */
  function LookupId(res: Response<seq<nat>>): (id: Option<nat>)
    ensures id.Some? <==> res.Ok() && res.payload.Some? && |res.payload.value| > 0 && res.payload.value[0] != 0
    ensures id.Some? ==> id.value == res.payload.value[0]
  {
    if res.Ok() && res.payload.Some? && |res.payload.value| > 0 && res.payload.value[0] != 0
    then Some(res.payload.value[0]) else None
  }

  /** The id the compensating lookup (line 217) settles on: its first entry with a truthy
      id, whatever its status. */
  function CompensationId(res: Response<seq<nat>>): (id: Option<nat>)
    ensures id.Some? <==> res.Reply? && res.payload.Some? && |res.payload.value| > 0 && res.payload.value[0] != 0
    ensures id.Some? ==> id.value == res.payload.value[0]
  {
    if res.Reply? && res.payload.Some? && |res.payload.value| > 0 && res.payload.value[0] != 0
    then Some(res.payload.value[0]) else None
  }

  /** The subscriber id resolution (lines 231-270) decided from the create reply and, when
      one was made, the reply to the fallback lookup by email. */
  function SubscriberResolution(create: Response<nat>, fallback: Option<Response<seq<nat>>>): (r: IdResult)
    ensures r.IdFound? <==>
      (create.Ok() && create.payload.Some?)
      || (create.Reply? && IsConflictStatus(create.status) && fallback.Some? && LookupId(fallback.value).Some?)
    ensures create.Ok() && create.payload.Some? ==> r == IdFound(create.payload.value)
    ensures r.IdFound? && !create.Ok() ==> r.id == LookupId(fallback.value).value && r.id != 0
    ensures create.Thrown? ==> r == IdError(500, ThrownMessage(create.error))
    ensures !(create.Ok() && create.payload.Some?) && create.Reply? && IsConflictStatus(create.status)
            && fallback.Some? && fallback.value.Thrown? ==>
      r == IdError(500, ThrownMessage(fallback.value.error))
    ensures r.IdError? && create.Reply? && !(IsConflictStatus(create.status) && fallback.Some? && fallback.value.Thrown?) ==>
      r == IdError(StatusOr500(create.status), ErrorMessage(create.body, "Failed to create subscriber"))
    ensures r.IdError? ==> r.status != 0
  {
    match create
    case Thrown(e) => IdError(500, ThrownMessage(e))
    case Reply(status, payload, body) =>
      if create.Ok() && payload.Some? then IdFound(payload.value)
      else if IsConflictStatus(status) && fallback.Some? && fallback.value.Thrown? then
        IdError(500, ThrownMessage(fallback.value.error))
      else if IsConflictStatus(status) && fallback.Some? && LookupId(fallback.value).Some? then
        IdFound(LookupId(fallback.value).value)
      else IdError(StatusOr500(status), ErrorMessage(body, "Failed to create subscriber"))
  }

  /** Only 400, 409 and 422 consult the lookup: for any other create reply, the outcome
      is the same whatever the lookup would have answered. */
  lemma OnlyConflictsConsultLookup(create: Response<nat>, a: Option<Response<seq<nat>>>, b: Option<Response<seq<nat>>>)
    requires !(create.Reply? && IsConflictStatus(create.status))
    ensures SubscriberResolution(create, a) == SubscriberResolution(create, b)
  {
  }

  /** The resolution as line 212 leaves it: an exception thrown by the compensating
      lookup is not caught there, so it ends resolution with a 500 whatever the create
      reply was. */
  function SubscriberResolutionAsWritten(create: Response<nat>, compensation: Option<Response<seq<nat>>>,
                                         fallback: Option<Response<seq<nat>>>): (r: IdResult)
    ensures compensation.Some? && compensation.value.Thrown? ==> r == IdError(500, ThrownMessage(compensation.value.error))
    ensures !(compensation.Some? && compensation.value.Thrown?) ==> r == SubscriberResolution(create, fallback)
  {
    if compensation.Some? && compensation.value.Thrown? then IdError(500, ThrownMessage(compensation.value.error))
    else SubscriberResolution(create, fallback)
  }

  /** The discrepancy: the provider accepted the address (200 with id 7), the phone
      compensation's lookup threw, and the code as written reports a failure where the
      resolution the compensation must not disturb reports id 7. */
  lemma CompensationThrowFailsResolution()
    ensures var create := Reply(200, Some(7), NoErrors);
      var compensation := Some(Thrown(Some("socket hang up")));
      && SubscriberResolutionAsWritten(create, compensation, None) == IdError(500, "socket hang up")
      && SubscriberResolution(create, None) == IdFound(7)
  {
  }

  // ---------------------------------------------------------------------------
  // The subscriber steps, as functions of the provider's state

  /** "Phone" is already trimmed, so resolving it never meets the blank-name guard. */
  lemma PhoneFieldNameTrimmed()
    ensures PhoneFieldName != "" && Trim(PhoneFieldName) == PhoneFieldName
  {
    assert !IsTrimmable(PhoneFieldName[0]) && !IsTrimmable(PhoneFieldName[|PhoneFieldName| - 1]);
  }

  /** Whether the create step resolves the phone field first: `phone && phone.trim()`. */
  predicate ResolvesPhoneField(phone: Option<string>) {
    phone.Some? && Trim(phone.value) != ""
  }

  /** What the create step sent and got back: the key it filed the phone under, if
      any, and the provider's reply. */
  datatype CreateSent = CreateSent(phoneFieldKey: Option<string>, reply: Response<nat>)

  /** The create request of `createSubscriberAndGetId` (lines 185-208): the phone field
      is resolved only for a non-blank phone, and a failed resolution is not fatal; the
      request carries the phone under `CreateFieldKey` of that resolution when both are
      truthy. The tags never change; the other tables only grow. */
  function CreateRequest(s: KitState, apiKey: string, email: string, phone: Option<string>): (c: Called<CreateSent>)
    ensures c.after.tags == s.tags
    ensures s.customFields <= c.after.customFields && s.subscribers <= c.after.subscribers
    ensures c.value.phoneFieldKey
      == if ResolvesPhoneField(phone) then CreateFieldKey(FieldResolution(s, PhoneFieldName, apiKey).value) else None
    ensures c.value.phoneFieldKey.Some? ==> c.value.phoneFieldKey.value != ""
    ensures |c.after.log| > |s.log|
    ensures c.after.log[|c.after.log| - 1] == Call(apiKey, CreateSubscriber(email, PhoneValues(phone, c.value.phoneFieldKey)))
    ensures CallsWith(s.log, c.after.log, apiKey)
    ensures c.value.reply.Reply? && c.value.reply.payload.Some? ==>
      IsSubscriberFor(c.after.subscribers, c.value.reply.payload.value, email)
    ensures FaultFree(s) ==> FaultFree(c.after) && c.value.reply.Ok() && c.value.reply.payload.Some?
  {
    PhoneFieldNameTrimmed();
    if ResolvesPhoneField(phone) then
      var resolved := FieldResolution(s, PhoneFieldName, apiKey);
      var key := CreateFieldKey(resolved.value);
      var create := CreateSubscriberCall(resolved.after, apiKey, email, PhoneValues(phone, key));
      CreateSubscriberCallFacts(resolved.after, apiKey, email, PhoneValues(phone, key));
      CallsWithStep(s.log, resolved.after.log, Call(apiKey, CreateSubscriber(email, PhoneValues(phone, key))), apiKey);
      Called(CreateSent(key, create.value), create.after)
    else
      var create := CreateSubscriberCall(s, apiKey, email, PhoneValues(phone, None));
      CreateSubscriberCallFacts(s, apiKey, email, PhoneValues(phone, None));
      CallsWithStep(s.log, s.log, Call(apiKey, CreateSubscriber(email, PhoneValues(phone, None))), apiKey);
      Called(CreateSent(None, create.value), create.after)
  }

  /** The compensating write of lines 212-224: look the address up and, when the
      reply's first entry has a truthy id, write the phone to it directly (its outcome is
      ignored). Nobody's id, address or tags change, nor the tag and field tables. */
  function Compensation(s: KitState, apiKey: string, email: string, key: string, value: string)
    : (c: Called<Response<seq<nat>>>)
    ensures c.value == FindSubscribersCall(s, apiKey, email).value
    ensures c.after.log == s.log + [Call(apiKey, FindSubscribers(email))]
      + (if CompensationId(c.value).Some?
         then [Call(apiKey, UpdateSubscriberFields(CompensationId(c.value).value, map[key := value]))] else [])
    ensures c.after.tags == s.tags && c.after.customFields == s.customFields
    ensures SameMembers(s.subscribers, c.after.subscribers)
    ensures CallsWith(s.log, c.after.log, apiKey)
    ensures FaultFree(s) ==> FaultFree(c.after)
  {
    var look := FindSubscribersCall(s, apiKey, email);
    FindSubscribersCallFacts(s, apiKey, email);
    match CompensationId(look.value)
    case None => look
    case Some(sid) =>
      var put := UpdateFieldsCall(look.after, apiKey, sid, map[key := value]);
      UpdateFieldsCallFacts(look.after, apiKey, sid, map[key := value]);
      Called(look.value, put.after)
  }

  /** Whether the compensation runs (line 212): a 200 reply to a request that carried
      the phone. */
  predicate CompensationRuns(sent: CreateSent, phone: Option<string>) {
    sent.reply.Ok() && sent.reply.status == 200 && Truthy(phone) && sent.phoneFieldKey.Some?
  }

  /** The provider once the compensation has run, when it runs: nobody's id, address
      or tags change, nor the tag and field tables. */
  function Compensated(sent: Called<CreateSent>, apiKey: string, email: string, phone: Option<string>): (t: KitState)
    ensures SameMembers(sent.after.subscribers, t.subscribers)
    ensures t.tags == sent.after.tags && t.customFields == sent.after.customFields
    ensures CallsWith(sent.after.log, t.log, apiKey)
    ensures FaultFree(sent.after) ==> FaultFree(t)
  {
    if CompensationRuns(sent.value, phone)
    then Compensation(sent.after, apiKey, email, sent.value.phoneFieldKey.value, phone.value).after
    else
      CallsWithNothing(sent.after.log, apiKey);
      sent.after
  }

  /** The lookup fallback of lines 236-257: made exactly when the create reply is 400,
      409 or 422; it changes no table, and an id it settles on names a subscriber with
      this address. */
  function LookupFallback(s: KitState, apiKey: string, email: string, create: Response<nat>)
    : (c: Called<Option<Response<seq<nat>>>>)
    ensures c.value.Some? <==> create.Reply? && IsConflictStatus(create.status)
    ensures c.value.None? ==> c.after == s
    ensures c.value.Some? ==> c.after == s.Receive(Call(apiKey, FindSubscribers(email)))
    ensures c.value.Some? && s.Pending().None? ==>
      c.value.value == Reply(200, Some(IdsWithEmail(s.subscribers, email)), NoErrors)
    ensures c.value.Some? && LookupId(c.value.value).Some? ==>
      IsSubscriberFor(c.after.subscribers, LookupId(c.value.value).value, email)
    ensures FaultFree(s) ==> FaultFree(c.after)
  {
    if create.Reply? && IsConflictStatus(create.status) then
      var look := FindSubscribersCall(s, apiKey, email);
      FindSubscribersCallFacts(s, apiKey, email);
      Called(Some(look.value), look.after)
    else Called(None, s)
  }

  /** `createSubscriberAndGetId` (lines 180-275), with the compensation's exception
      contained: the create request, the compensation when it runs, the fallback lookup
      when the reply calls for it, and `SubscriberResolution` of the create reply and the
      fallback. The outcome never depends on the compensation; a found id always
      belongs to the address; tags never change; a fault-free provider always gives an
      id. */
  function SubscriberCreation(s: KitState, apiKey: string, email: string, phone: Option<string>): (c: Called<IdResult>)
    ensures var create := CreateRequest(s, apiKey, email, phone).value.reply;
      !(create.Reply? && IsConflictStatus(create.status)) ==> c.value == SubscriberResolution(create, None)
    ensures c.after.tags == s.tags && s.customFields <= c.after.customFields
    ensures CallsWith(s.log, c.after.log, apiKey)
    ensures c.value.IdFound? ==> IsSubscriberFor(c.after.subscribers, c.value.id, email)
    ensures FaultFree(s) ==> FaultFree(c.after) && c.value.IdFound?
  {
    var sent := CreateRequest(s, apiKey, email, phone);
    var compensated := Compensated(sent, apiKey, email, phone);
    var fallback := LookupFallback(compensated, apiKey, email, sent.value.reply);
    SubscriberCreationFacts(sent, compensated, fallback, apiKey, email, phone);
    Called(SubscriberResolution(sent.value.reply, fallback.value), fallback.after)
  }

  /** The steps of `SubscriberCreation` put together. */
  lemma SubscriberCreationFacts(sent: Called<CreateSent>, compensated: KitState,
                                fallback: Called<Option<Response<seq<nat>>>>,
                                apiKey: string, email: string, phone: Option<string>)
    requires SameMembers(sent.after.subscribers, compensated.subscribers)
    requires compensated.tags == sent.after.tags && compensated.customFields == sent.after.customFields
    requires CallsWith(sent.after.log, compensated.log, apiKey)
    requires FaultFree(sent.after) ==> FaultFree(compensated)
    requires fallback == LookupFallback(compensated, apiKey, email, sent.value.reply)
    requires sent.value.reply.Reply? && sent.value.reply.payload.Some? ==>
      IsSubscriberFor(sent.after.subscribers, sent.value.reply.payload.value, email)
    ensures var r := SubscriberResolution(sent.value.reply, fallback.value);
      && fallback.after.tags == sent.after.tags && fallback.after.customFields == sent.after.customFields
      && CallsWith(sent.after.log, fallback.after.log, apiKey)
      && (r.IdFound? ==> IsSubscriberFor(fallback.after.subscribers, r.id, email))
      && (FaultFree(sent.after) ==> FaultFree(fallback.after))
  {
    var r := SubscriberResolution(sent.value.reply, fallback.value);
    if fallback.value.Some? {
      CallsWithStep(sent.after.log, compensated.log, Call(apiKey, FindSubscribers(email)), apiKey);
    }
    if r.IdFound? && sent.value.reply.Ok() && sent.value.reply.payload.Some? {
      SameMembersKeepSubscriber(sent.after.subscribers, compensated.subscribers, r.id, email);
    }
  }

  /** `createSubscriberAndGetId` exactly as written: an exception thrown by the
      compensating lookup (line 214) is not caught where it is raised, reaches the outer
      handler and ends resolution with a 500, whatever the create reply was. */
  function SubscriberCreationAsWritten(s: KitState, apiKey: string, email: string, phone: Option<string>)
    : (c: Called<IdResult>)
    ensures var sent := CreateRequest(s, apiKey, email, phone);
      !CompensationRuns(sent.value, phone) ==> c == SubscriberCreation(s, apiKey, email, phone)
  {
    var sent := CreateRequest(s, apiKey, email, phone);
    if CompensationRuns(sent.value, phone) then
      var comp := Compensation(sent.after, apiKey, email, sent.value.phoneFieldKey.value, phone.value);
      if comp.value.Thrown? then Called(IdError(500, ThrownMessage(comp.value.error)), comp.after)
      else
        var fallback := LookupFallback(comp.after, apiKey, email, sent.value.reply);
        Called(SubscriberResolution(sent.value.reply, fallback.value), fallback.after)
    else
      var fallback := LookupFallback(sent.after, apiKey, email, sent.value.reply);
      Called(SubscriberResolution(sent.value.reply, fallback.value), fallback.after)
  }

  /** The code as written and the corrected resolution make the same calls and leave the
      provider in the same state; their outcomes differ only when the compensating
      lookup throws, and then the code as written reports a 500. */
  lemma AsWrittenDiffersOnlyOnCompensationThrow(s: KitState, apiKey: string, email: string, phone: Option<string>)
    ensures var written := SubscriberCreationAsWritten(s, apiKey, email, phone);
      var corrected := SubscriberCreation(s, apiKey, email, phone);
      var sent := CreateRequest(s, apiKey, email, phone);
      && written.after == corrected.after
      && (written.value != corrected.value ==>
            && CompensationRuns(sent.value, phone)
            && Compensation(sent.after, apiKey, email, sent.value.phoneFieldKey.value, phone.value).value.Thrown?
            && written.value.IdError? && written.value.status == 500)
  {
  }

  /** `maybeUpdatePhone` (lines 277-310): without a truthy phone nothing is called and
      the step succeeds with 200; otherwise the phone field is resolved again and the
      phone is written under `UpdateFieldKey` of that resolution. A success means every
      subscriber with the id now holds the phone there; nobody else changes, and nobody's
      id, address or tags. */
  function PhoneUpdate(s: KitState, apiKey: string, id: nat, phone: Option<string>): (c: Called<SubscribeResult>)
    ensures !Truthy(phone) ==> c == Called(Subscribed(200), s)
    ensures Truthy(phone) ==>
      var key := UpdateFieldKey(FieldResolution(s, PhoneFieldName, apiKey).value);
      && |c.after.log| > |s.log|
      && c.after.log[|c.after.log| - 1] == Call(apiKey, UpdateSubscriberFields(id, map[key := phone.value]))
      && (c.value.Subscribed? ==> HoldsField(c.after.subscribers, id, key, phone.value))
    ensures c.after.tags == s.tags && s.customFields <= c.after.customFields
    ensures SameMembers(s.subscribers, c.after.subscribers)
    ensures forall i :: 0 <= i < |s.subscribers| && s.subscribers[i].id != id ==> c.after.subscribers[i] == s.subscribers[i]
    ensures CallsWith(s.log, c.after.log, apiKey)
    ensures FaultFree(s) ==> FaultFree(c.after)
    ensures FaultFree(s) && HasSubscriber(s.subscribers, id) ==> c.value.Subscribed?
    ensures FaultFree(s) && Truthy(phone) && !HasSubscriber(s.subscribers, id) ==> c.value == NotSubscribed(404, "Not Found")
  {
    if !Truthy(phone) then Called(Subscribed(200), s)
    else
      var resolved := FieldResolution(s, PhoneFieldName, apiKey);
      var values := map[UpdateFieldKey(resolved.value) := phone.value];
      var put := UpdateFieldsCall(resolved.after, apiKey, id, values);
      UpdateFieldsCallFacts(resolved.after, apiKey, id, values);
      CallsWithStep(s.log, resolved.after.log, Call(apiKey, UpdateSubscriberFields(id, values)), apiKey);
      FaultFreeReceive(resolved.after, Call(apiKey, UpdateSubscriberFields(id, values)));
      Called(StepOutcome(put.value, "Failed to update phone"), put.after)
  }

  /** `tagSubscriberId` (lines 312-336): one call; a success means every subscriber with
      the id now carries the tag. Nothing else changes but their tags, and when the call
      is answered normally it succeeds exactly when both the tag and the subscriber
      exist, and fails with 404 otherwise. */
  function Tagging(s: KitState, apiKey: string, tagId: nat, id: nat): (c: Called<SubscribeResult>)
    ensures c.after.log == s.log + [Call(apiKey, TagSubscriber(tagId, id))]
    ensures c.after.tags == s.tags && c.after.customFields == s.customFields
    ensures |c.after.subscribers| == |s.subscribers|
    ensures forall i :: 0 <= i < |s.subscribers| ==>
      && c.after.subscribers[i].id == s.subscribers[i].id
      && c.after.subscribers[i].email == s.subscribers[i].email
      && c.after.subscribers[i].fields == s.subscribers[i].fields
    ensures forall i :: 0 <= i < |s.subscribers| && s.subscribers[i].id != id ==> c.after.subscribers[i] == s.subscribers[i]
    ensures c.value.Subscribed? ==> IsTagged(c.after.subscribers, id, tagId)
    ensures s.Pending().None? ==> (c.value.Subscribed? <==> HasTag(s.tags, tagId) && HasSubscriber(s.subscribers, id))
    ensures s.Pending().None? && !(HasTag(s.tags, tagId) && HasSubscriber(s.subscribers, id)) ==>
      c.value == NotSubscribed(404, "Not Found")
    ensures FaultFree(s) ==> FaultFree(c.after)
  {
    var t := TagSubscriberCall(s, apiKey, tagId, id);
    TagSubscriberCallFacts(s, apiKey, tagId, id);
    Called(StepOutcome(t.value, "Failed to tag subscriber"), t.after)
  }

  /** How the phone step and the tagging step combine (lines 342-351): a tagging failure
      wins; a phone failure after a tagging success still fails, with the phone's status
      and error; only two successes succeed, with the tagging status. */
  function Outcome(update: SubscribeResult, tagging: SubscribeResult): (r: SubscribeResult)
    ensures r.Subscribed? <==> update.Subscribed? && tagging.Subscribed?
    ensures tagging.NotSubscribed? ==> r == tagging
    ensures update.NotSubscribed? && tagging.Subscribed? ==> r == NotSubscribed(update.status, update.error)
    ensures r.Subscribed? ==> r == tagging
  {
    if update.NotSubscribed? then
      if tagging.NotSubscribed? then tagging else NotSubscribed(update.status, update.error)
    else tagging
  }

  /** The tag name used: `(tagName && tagName.trim()) || "source-howdy"`. It is never
      blank and already trimmed, so the tag step's blank-name guard cannot fire. */
  function DesiredTagName(tagName: Option<string>): (name: string)
    ensures name != "" && Trim(name) == name
    ensures Truthy(tagName) && Trim(tagName.value) != "" ==> name == Trim(tagName.value)
    ensures !(Truthy(tagName) && Trim(tagName.value) != "") ==> name == DefaultTagName
  {
    if Truthy(tagName) && Trim(tagName.value) != "" then
      TrimIdempotent(tagName.value);
      Trim(tagName.value)
    else
      assert !IsTrimmable(DefaultTagName[0]) && !IsTrimmable(DefaultTagName[|DefaultTagName| - 1]);
      DefaultTagName
  }

  /** The address is at the provider under this tag, holding the phone when one was given. */
  predicate Enrolled(subs: seq<Subscriber>, email: string, tagId: nat, phone: Option<string>) {
    exists i :: 0 <= i < |subs| && subs[i].email == email && tagId in subs[i].tags
      && (Truthy(phone) ==> phone.value in subs[i].fields.Values)
  }

  /** Whether an email passes the adapter's guard: non-empty once trimmed and holding "@". */
  predicate IsPlausibleEmail(trimmed: string) {
    trimmed != "" && '@' in trimmed
  }


  /** The subscriber half of `subscribeEmailToTag` (lines 338-351), once the tag is
      resolved: a subscriber failure is returned as it is and stops there; otherwise the
      phone step and the tagging step both run and combine by `Outcome`. A success means
      the provider holds the address under the tag, with the phone when one was given;
      against a fault-free provider and an existing tag it always succeeds. */
  function Enrollment(s: KitState, apiKey: string, email: string, tagId: nat, phone: Option<string>)
    : (c: Called<SubscribeResult>)
    ensures var created := SubscriberCreation(s, apiKey, email, phone);
      created.value.IdError? ==> c == Called(NotSubscribed(created.value.status, created.value.error), created.after)
    ensures c.after.tags == s.tags
    ensures CallsWith(s.log, c.after.log, apiKey)
    ensures c.value.Subscribed? ==> Enrolled(c.after.subscribers, email, tagId, phone)
    ensures FaultFree(s) && HasTag(s.tags, tagId) ==> c.value.Subscribed?
  {
    var created := SubscriberCreation(s, apiKey, email, phone);
    match created.value
    case IdError(status, error) => Called(NotSubscribed(status, error), created.after)
    case IdFound(id) =>
      var update := PhoneUpdate(created.after, apiKey, id, phone);
      var tagging := Tagging(update.after, apiKey, tagId, id);
      EnrollmentFacts(created.after, update, tagging, apiKey, email, id, tagId, phone);
      Called(Outcome(update.value, tagging.value), tagging.after)
  }

  /** The phone step and the tagging step put together for a found id. */
  lemma EnrollmentFacts(s: KitState, update: Called<SubscribeResult>, tagging: Called<SubscribeResult>,
                        apiKey: string, email: string, id: nat, tagId: nat, phone: Option<string>)
    requires IsSubscriberFor(s.subscribers, id, email)
    requires update == PhoneUpdate(s, apiKey, id, phone)
    requires tagging == Tagging(update.after, apiKey, tagId, id)
    ensures tagging.after.tags == s.tags
    ensures CallsWith(s.log, tagging.after.log, apiKey)
    ensures Outcome(update.value, tagging.value).Subscribed? ==> Enrolled(tagging.after.subscribers, email, tagId, phone)
    ensures FaultFree(s) && HasTag(s.tags, tagId) ==> Outcome(update.value, tagging.value).Subscribed?
  {
    CallsWithStep(s.log, update.after.log, Call(apiKey, TagSubscriber(tagId, id)), apiKey);
    var i :| 0 <= i < |s.subscribers| && s.subscribers[i].id == id && s.subscribers[i].email == email;
    var u, t := update.after.subscribers, tagging.after.subscribers;
    assert u[i].id == id && u[i].email == email;
    assert t[i].id == id && t[i].email == email && t[i].fields == u[i].fields;
    if Outcome(update.value, tagging.value).Subscribed? && Truthy(phone) {
      var key := UpdateFieldKey(FieldResolution(s, PhoneFieldName, apiKey).value);
      assert key in t[i].fields && t[i].fields[key] == phone.value;
    }
    if FaultFree(s) && HasTag(s.tags, tagId) {
      assert HasSubscriber(u, id);
    }
  }

  /** `subscribeEmailToTag` (lines 166-351) with the corrected subscriber resolution: an
      implausible email is refused with 400 before any call; a tag failure is returned as
      it is, after tag calls only and with the subscribers untouched; after that the
      subscriber steps decide. Every call carries the given API key, the tags only grow,
      and a success means the provider now resolves the tag name to the tag the address
      holds (with the phone, if any). */
  function Subscription(s: KitState, email: string, tagName: Option<string>, apiKey: string, phone: Option<string>)
    : (c: Called<SubscribeResult>)
    ensures !IsPlausibleEmail(Trim(email)) ==> c == Called(NotSubscribed(400, "A valid email is required."), s)
    ensures CallsWith(s.log, c.after.log, apiKey)
    ensures s.tags <= c.after.tags
    ensures var tag := TagResolution(s, DesiredTagName(tagName), apiKey).value;
      IsPlausibleEmail(Trim(email)) && tag.TagError? ==>
        && c.value == NotSubscribed(tag.status, tag.error)
        && c.after.subscribers == s.subscribers
        && OnlyTagRequests(c.after.log[|s.log|..])
    ensures c.value.Subscribed? ==>
      var tag := TagResolution(s, DesiredTagName(tagName), apiKey).value;
      && tag.TagInfo?
      && TagResolvesTo(c.after.tags, DesiredTagName(tagName), tag.id)
      && Enrolled(c.after.subscribers, Trim(email), tag.id, phone)
  {
    var trimmedEmail := Trim(email);
    if !IsPlausibleEmail(trimmedEmail) then
      CallsWithNothing(s.log, apiKey);
      Called(NotSubscribed(400, "A valid email is required."), s)
    else
      var ensured := TagResolution(s, DesiredTagName(tagName), apiKey);
      match ensured.value
      case TagError(status, error) => Called(NotSubscribed(status, error), ensured.after)
      case TagInfo(_, id, _) =>
        var enrolled := Enrollment(ensured.after, apiKey, trimmedEmail, id, phone);
        CallsWithTrans(s.log, ensured.after.log, enrolled.after.log, apiKey);
        Called(enrolled.value, enrolled.after)
  }

  // ---------------------------------------------------------------------------
  // What the whole subscription promises

  /** A tag the provider resolves a name to is one of its tags. */
  lemma ResolvedTagExists(tags: seq<Tag>, name: string, id: nat)
    requires TagResolvesTo(tags, name, id)
    ensures HasTag(tags, id)
  {
    var t := FindTag(tags, name).value;
    var i :| 0 <= i < |tags| && tags[i] == t;
  }

  /** Against a fault-free provider a plausible address is always subscribed, unless
      the tag name's first match has a falsy id. */
  lemma SubscriptionSucceedsWithoutFaults(s: KitState, email: string, tagName: Option<string>, apiKey: string,
                                          phone: Option<string>)
    requires FaultFree(s) && IsPlausibleEmail(Trim(email))
    requires FindTag(s.tags, DesiredTagName(tagName)).None? || FindTag(s.tags, DesiredTagName(tagName)).value.id != 0
    ensures Subscription(s, email, tagName, apiKey, phone).value.Subscribed?
  {
    var name := DesiredTagName(tagName);
    TagResolutionSucceeds(s, name, apiKey);
    var ensured := TagResolution(s, name, apiKey);
    ResolvedTagExists(ensured.after.tags, name, ensured.value.id);
  }

  /** A create refused with 409 for an address the provider holds falls back to the
      lookup by email and returns the first id it lists, after exactly those two calls. */
  lemma ConflictFallsBackToLookup(s: KitState, apiKey: string, email: string, body: ErrorBody)
    requires s.script == [Some(Fail(409, body)), None]
    requires IdsWithEmail(s.subscribers, email) != [] && IdsWithEmail(s.subscribers, email)[0] != 0
    ensures var c := SubscriberCreation(s, apiKey, email, None);
      && c.value == IdFound(IdsWithEmail(s.subscribers, email)[0])
      && c.after.log == s.log + [Call(apiKey, CreateSubscriber(email, map[])), Call(apiKey, FindSubscribers(email))]
      && c.after.script == []
  {
    var sent := CreateRequest(s, apiKey, email, None);
    CreateSubscriberCallFacts(s, apiKey, email, map[]);
    FindSubscribersCallFacts(sent.after, apiKey, email);
  }

  /** Any other refusal of the create is reported with its own status (500 for a status
      of 0) and message, after that one call. */
  lemma CreateRefusalIsReported(s: KitState, apiKey: string, email: string, status: FailureStatus, body: ErrorBody)
    requires s.Pending() == Some(Fail(status, body)) && !IsConflictStatus(status)
    ensures var c := SubscriberCreation(s, apiKey, email, None);
      && c.value == IdError(StatusOr500(status), ErrorMessage(body, "Failed to create subscriber"))
      && c.after.log == s.log + [Call(apiKey, CreateSubscriber(email, map[]))]
  {
    CreateSubscriberCallFacts(s, apiKey, email, map[]);
  }

  /** Against a fault-free provider, the create request for an address it already
      holds is answered 200 with the first id for the address, and adds nobody. */
  lemma CreateRequestForExisting(s: KitState, apiKey: string, email: string, phone: Option<string>)
    requires FaultFree(s) && IdsWithEmail(s.subscribers, email) != []
    ensures var sent := CreateRequest(s, apiKey, email, phone);
      && sent.value.reply == Reply(200, Some(IdsWithEmail(s.subscribers, email)[0]), NoErrors)
      && sent.after.subscribers == s.subscribers
  {
    PhoneFieldNameTrimmed();
  }

  /** Against a fault-free provider, the compensation writes the value to the first
      subscriber with the address, when its id is truthy. */
  lemma CompensationWrites(s: KitState, apiKey: string, email: string, key: string, value: string)
    requires FaultFree(s)
    requires IdsWithEmail(s.subscribers, email) != [] && IdsWithEmail(s.subscribers, email)[0] != 0
    ensures HoldsField(Compensation(s, apiKey, email, key, value).after.subscribers,
                       IdsWithEmail(s.subscribers, email)[0], key, value)
  {
    FindSubscribersCallFacts(s, apiKey, email);
    var look := FindSubscribersCall(s, apiKey, email);
    var id := IdsWithEmail(s.subscribers, email)[0];
    assert IsSubscriberFor(look.after.subscribers, id, email);
    UpdateFieldsCallFacts(look.after, apiKey, id, map[key := value]);
  }

  /** Against a fault-free provider and an address it already holds, the create step
      is answered 200 with the first id, the compensation runs, and afterwards that
      subscriber holds the phone under the create step's key. */
  lemma ExistingSubscriberCompensated(s: KitState, apiKey: string, email: string, phone: Option<string>)
    requires FaultFree(s) && ResolvesPhoneField(phone)
    requires IdsWithEmail(s.subscribers, email) != [] && IdsWithEmail(s.subscribers, email)[0] != 0
    ensures var sent := CreateRequest(s, apiKey, email, phone);
      && sent.value.reply == Reply(200, Some(IdsWithEmail(s.subscribers, email)[0]), NoErrors)
      && CompensationRuns(sent.value, phone)
      && HoldsField(Compensated(sent, apiKey, email, phone).subscribers,
                    IdsWithEmail(s.subscribers, email)[0], sent.value.phoneFieldKey.value, phone.value)
  {
    PhoneFieldNameTrimmed();
    CreateRequestForExisting(s, apiKey, email, phone);
    var sent := CreateRequest(s, apiKey, email, phone);
    assert Truthy(phone) && sent.value.phoneFieldKey.Some?;
    CompensationWrites(sent.after, apiKey, email, sent.value.phoneFieldKey.value, phone.value);
  }

  /** The compensation does its job: against a fault-free provider, an address it
      already holds (so the upsert answers 200 and drops the sent fields) ends up holding
      the phone under the create step's key. */
  lemma ExistingSubscriberGetsPhone(s: KitState, apiKey: string, email: string, phone: Option<string>)
    requires FaultFree(s) && ResolvesPhoneField(phone)
    requires IdsWithEmail(s.subscribers, email) != [] && IdsWithEmail(s.subscribers, email)[0] != 0
    ensures var c := SubscriberCreation(s, apiKey, email, phone);
      var key := CreateFieldKey(FieldResolution(s, PhoneFieldName, apiKey).value);
      && c.value == IdFound(IdsWithEmail(s.subscribers, email)[0])
      && key.Some?
      && HoldsField(c.after.subscribers, c.value.id, key.value, phone.value)
  {
    ExistingSubscriberCompensated(s, apiKey, email, phone);
    var sent := CreateRequest(s, apiKey, email, phone);
    var compensated := Compensated(sent, apiKey, email, phone);
    assert LookupFallback(compensated, apiKey, email, sent.value.reply) == Called(None, compensated);
  }

  /** A compensation whose lookup throws writes nothing and hands back the throw. */
  lemma CompensationThrowsWhenLookupThrows(s: KitState, apiKey: string, email: string, key: string, value: string,
                                           e: Option<string>)
    requires s.Pending() == Some(Throw(e))
    ensures Compensation(s, apiKey, email, key, value) == Called(Thrown(e), s.Receive(Call(apiKey, FindSubscribers(email))))
  {
  }

  /** The provider of the finding below: the address is already subscribed as id 7,
      the phone field exists as id 3, and the third call will throw. */
  function FindingProvider(email: string, e: Option<string>): KitState {
    KitState([], [CustomField(3, Some(PhoneFieldName), Some(PhoneFieldName), "phone")],
             [Subscriber(7, email, map[], {})], 7, [None, None, Some(Throw(e))], [])
  }

  /** In that provider the phone field is found by the listing and reported under its
      name "Phone", which the create step then files the phone under. */
  lemma FindingFieldResolved(apiKey: string, email: string, e: Option<string>)
    ensures var s := FindingProvider(email, e);
      var resolved := FieldResolution(s, PhoneFieldName, apiKey);
      && resolved == Called(FieldInfo(3, PhoneFieldName, "phone"), s.Receive(Call(apiKey, ListCustomFields)))
      && CreateFieldKey(resolved.value) == Some(PhoneFieldName)
  {
    PhoneFieldNameTrimmed();
    var s := FindingProvider(email, e);
    assert FindField(s.customFields, PhoneFieldName) == Some(s.customFields[0]);
    FieldReuse(s, PhoneFieldName, apiKey);
  }

  /** In that provider the create step reuses the phone field, sends the phone under
      "Phone", is answered 200 with id 7, and leaves the throw pending. */
  lemma FindingCreateRequest(apiKey: string, email: string, phoneNumber: string, e: Option<string>)
    requires Trim(phoneNumber) != ""
    ensures var sent := CreateRequest(FindingProvider(email, e), apiKey, email, Some(phoneNumber));
      && sent.value == CreateSent(Some(PhoneFieldName), Reply(200, Some(7), NoErrors))
      && sent.after.Pending() == Some(Throw(e))
  {
    FindingFieldResolved(apiKey, email, e);
    var s := FindingProvider(email, e);
    var listed := s.Receive(Call(apiKey, ListCustomFields));
    assert ResolvesPhoneField(Some(phoneNumber));
    var values := PhoneValues(Some(phoneNumber), Some(PhoneFieldName));
    CreateSubscriberCallFacts(listed, apiKey, email, values);
    assert IdsWithEmail(listed.subscribers, email) == [7];
    assert listed.Pending().None?;
  }

  /** In that provider the compensation runs after the create step, and its lookup
      throws. */
  lemma FindingCompensationThrows(apiKey: string, email: string, phoneNumber: string, e: Option<string>)
    requires Trim(phoneNumber) != ""
    ensures var sent := CreateRequest(FindingProvider(email, e), apiKey, email, Some(phoneNumber));
      && CompensationRuns(sent.value, Some(phoneNumber))
      && Compensation(sent.after, apiKey, email, PhoneFieldName, phoneNumber).value == Thrown(e)
  {
    FindingCreateRequest(apiKey, email, phoneNumber, e);
    var sent := CreateRequest(FindingProvider(email, e), apiKey, email, Some(phoneNumber));
    assert phoneNumber != "";
    CompensationThrowsWhenLookupThrows(sent.after, apiKey, email, PhoneFieldName, phoneNumber, e);
  }

  /** The finding, on a whole provider: the field listing and the create are answered
      normally and the compensating lookup throws. The code as written reports a 500,
      the corrected resolution returns id 7. */
  lemma CompensationThrowLosesSubscriber(apiKey: string, email: string, phoneNumber: string, e: Option<string>)
    requires Trim(phoneNumber) != ""
    ensures var s := FindingProvider(email, e);
      && SubscriberCreationAsWritten(s, apiKey, email, Some(phoneNumber)).value == IdError(500, ThrownMessage(e))
      && SubscriberCreation(s, apiKey, email, Some(phoneNumber)).value == IdFound(7)
  {
    FindingCreateRequest(apiKey, email, phoneNumber, e);
    FindingCompensationThrows(apiKey, email, phoneNumber, e);
    var sent := CreateRequest(FindingProvider(email, e), apiKey, email, Some(phoneNumber));
    var comp := Compensation(sent.after, apiKey, email, PhoneFieldName, phoneNumber);
    assert Compensated(sent, apiKey, email, Some(phoneNumber)) == comp.after;
  }

  // ---------------------------------------------------------------------------
  // The adapter's operations, making their calls on a provider object. Each leaves
  // the provider exactly as the function that specifies it says and returns its value.

  /** `ensureTagByName` (lines 39-96). */
  method EnsureTagByName(kit: Kit, tagName: string, apiKey: string) returns (r: TagInfoResult)
    modifies kit
    ensures Called(r, kit.State()) == TagResolution(old(kit.State()), tagName, apiKey)
  {
    var name := Trim(tagName);
    if name == "" {
      return TagError(400, "Tag name is required");
    }
    var list := kit.GetTags(apiKey);
    if list.Thrown? {
      return TagError(500, ThrownMessage(list.error));
    }
    var found := ListedTag(list, name);
    if found.Some? {
      return TagInfo(200, found.value.id, GetOr(found.value.name, name));
    }
    var create := kit.PostTag(apiKey, name);
    r := CreatedTagResult(name, create);
  }

  /** `ensureCustomFieldByName` (lines 111-164). */
  method EnsureCustomFieldByName(kit: Kit, fieldName: string, apiKey: string) returns (r: FieldResult)
    modifies kit
    ensures Called(r, kit.State()) == FieldResolution(old(kit.State()), fieldName, apiKey)
  {
    var name := Trim(fieldName);
    if name == "" {
      return FieldError(400, "Field name is required");
    }
    var list := kit.GetCustomFields(apiKey);
    if list.Thrown? {
      return FieldError(500, ThrownMessage(list.error));
    }
    var found := ListedField(list, name);
    if found.Some? {
      return FieldInfoOf(found.value, name);
    }
    var create := kit.PostCustomField(apiKey, name, name, SlugifyFieldKey(name), "text");
    r := CreatedFieldResult(name, create);
  }

  /** The create request of `createSubscriberAndGetId` (lines 185-208). */
  method PostSubscriberWithPhone(kit: Kit, apiKey: string, email: string, phone: Option<string>)
    returns (phoneFieldKey: Option<string>, res: Response<nat>)
    modifies kit
    ensures Called(CreateSent(phoneFieldKey, res), kit.State()) == CreateRequest(old(kit.State()), apiKey, email, phone)
  {
    phoneFieldKey := None;
    if ResolvesPhoneField(phone) {
      var ensuredField := EnsureCustomFieldByName(kit, PhoneFieldName, apiKey);
      phoneFieldKey := CreateFieldKey(ensuredField);
    }
    res := kit.PostSubscriber(apiKey, email, PhoneValues(phone, phoneFieldKey));
  }

  /** The compensating write of lines 212-224; returns the lookup's reply. */
  method CompensateDroppedFields(kit: Kit, apiKey: string, email: string, key: string, value: string)
    returns (look: Response<seq<nat>>)
    modifies kit
    ensures Called(look, kit.State()) == Compensation(old(kit.State()), apiKey, email, key, value)
  {
    look := kit.GetSubscribersByEmail(apiKey, email);
    var sid := CompensationId(look);
    if sid.Some? {
      var _ := kit.PutSubscriberFields(apiKey, sid.value, map[key := value]);
    }
  }

  /** The lookup fallback of lines 236-257, made only after a 400, 409 or 422. */
  method LookUpAfterRefusal(kit: Kit, apiKey: string, email: string, create: Response<nat>)
    returns (fallback: Option<Response<seq<nat>>>)
    modifies kit
    ensures Called(fallback, kit.State()) == LookupFallback(old(kit.State()), apiKey, email, create)
  {
    fallback := None;
    if create.Reply? && IsConflictStatus(create.status) {
      var lookup := kit.GetSubscribersByEmail(apiKey, email);
      fallback := Some(lookup);
    }
  }

  /** `createSubscriberAndGetId` (lines 180-275), with the compensation's exception
      contained. */
  method CreateSubscriberAndGetId(kit: Kit, apiKey: string, email: string, phone: Option<string>)
    returns (r: IdResult)
    modifies kit
    ensures Called(r, kit.State()) == SubscriberCreation(old(kit.State()), apiKey, email, phone)
  {
    var phoneFieldKey, res := PostSubscriberWithPhone(kit, apiKey, email, phone);
    if CompensationRuns(CreateSent(phoneFieldKey, res), phone) {
      var _ := CompensateDroppedFields(kit, apiKey, email, phoneFieldKey.value, phone.value);
    }
    var fallback := LookUpAfterRefusal(kit, apiKey, email, res);
    r := SubscriberResolution(res, fallback);
  }

  /** `createSubscriberAndGetId` exactly as written: a throw from the compensating
      lookup ends it with a 500. */
  method CreateSubscriberAndGetIdAsWritten(kit: Kit, apiKey: string, email: string, phone: Option<string>)
    returns (r: IdResult)
    modifies kit
    ensures Called(r, kit.State()) == SubscriberCreationAsWritten(old(kit.State()), apiKey, email, phone)
  {
    var phoneFieldKey, res := PostSubscriberWithPhone(kit, apiKey, email, phone);
    if CompensationRuns(CreateSent(phoneFieldKey, res), phone) {
      var look := CompensateDroppedFields(kit, apiKey, email, phoneFieldKey.value, phone.value);
      if look.Thrown? {
        return IdError(500, ThrownMessage(look.error));
      }
    }
    var fallback := LookUpAfterRefusal(kit, apiKey, email, res);
    r := SubscriberResolution(res, fallback);
  }

  /** `maybeUpdatePhone` (lines 277-310). */
  method MaybeUpdatePhone(kit: Kit, apiKey: string, id: nat, phone: Option<string>) returns (r: SubscribeResult)
    modifies kit
    ensures Called(r, kit.State()) == PhoneUpdate(old(kit.State()), apiKey, id, phone)
  {
    if !Truthy(phone) {
      return Subscribed(200);
    }
    var ensuredField := EnsureCustomFieldByName(kit, PhoneFieldName, apiKey);
    var fieldKey := UpdateFieldKey(ensuredField);
    var res := kit.PutSubscriberFields(apiKey, id, map[fieldKey := phone.value]);
    r := StepOutcome(res, "Failed to update phone");
  }

  /** `tagSubscriberId` (lines 312-336). */
  method TagSubscriberId(kit: Kit, apiKey: string, tagId: nat, id: nat) returns (r: SubscribeResult)
    modifies kit
    ensures Called(r, kit.State()) == Tagging(old(kit.State()), apiKey, tagId, id)
  {
    var res := kit.PostTagSubscriber(apiKey, tagId, id);
    r := StepOutcome(res, "Failed to tag subscriber");
  }

  /** `subscribeEmailToTag` (lines 166-351) with the corrected subscriber resolution. */
  method SubscribeEmailToTag(kit: Kit, email: string, tagName: Option<string>, apiKey: string, phone: Option<string>)
    returns (r: SubscribeResult)
    modifies kit
    ensures Called(r, kit.State()) == Subscription(old(kit.State()), email, tagName, apiKey, phone)
  {
    var trimmedEmail := Trim(email);
    if !IsPlausibleEmail(trimmedEmail) {
      return NotSubscribed(400, "A valid email is required.");
    }
    var ensured := EnsureTagByName(kit, DesiredTagName(tagName), apiKey);
    if ensured.TagError? {
      return NotSubscribed(ensured.status, ensured.error);
    }
    var created := CreateSubscriberAndGetId(kit, apiKey, trimmedEmail, phone);
    if created.IdError? {
      return NotSubscribed(created.status, created.error);
    }
    var upd := MaybeUpdatePhone(kit, apiKey, created.id, phone);
    if upd.NotSubscribed? {
      // the tag is still applied; a tagging failure is reported before the phone's
      var tagRes := TagSubscriberId(kit, apiKey, ensured.id, created.id);
      if tagRes.NotSubscribed? {
        return tagRes;
      }
      return NotSubscribed(upd.status, upd.error);
    }
    r := TagSubscriberId(kit, apiKey, ensured.id, created.id);
  }
}
