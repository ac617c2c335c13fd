/** The mailing-list provider (Kit, API v4) as the adapter sees it: three tables (tags,
    custom fields, subscribers), the log of every call the adapter issues, and a script
    that says how each upcoming call is answered. A call whose script entry is `None`
    (or that comes after the script runs out) is answered normally from the tables; a
    scripted fault either replaces the reply with a failure or an exception, or lets the
    request take effect but loses the reply's payload. The HTTP transport, headers and
    JSON parsing are not part of this model: every call is one request value and one
    response value. */
module KitProvider {
  import opened Base

  /** The error part of a provider reply: `errors` (absent = empty) and `message`
      (absent = empty, since the adapter only ever tests it for truthiness). */
  datatype ErrorBody = ErrorBody(errors: seq<string>, message: string)

  const NoErrors: ErrorBody := ErrorBody([], "")
  const NotFound: ErrorBody := ErrorBody(["Not Found"], "")

  /** `Response.ok`: a status in 200..299. */
  predicate IsOkStatus(status: int) {
    200 <= status <= 299
  }

  /** What one call gives back: a reply (status, the payload the adapter reads if the
      body had one, the error fields), or an exception thrown by `fetch`, carrying the
      message of an `Error` or `None` for anything else. */
  datatype Response<T> =
    | Reply(status: int, payload: Option<T>, body: ErrorBody)
    | Thrown(error: Option<string>)
  {
    predicate Ok() {
      Reply? && IsOkStatus(status)
    }
  }

  /** Statuses a scripted failure may carry: anything that is not `ok`, including the
      0 that `res.status || 500` guards against. */
  type FailureStatus = s: int | !IsOkStatus(s)

  /** A scripted answer that differs from the normal one. */
  datatype Fault =
    | Fail(status: FailureStatus, body: ErrorBody)  // refused, nothing changes
    | Throw(error: Option<string>)                  // the request throws, nothing changes
    | Bodiless                                      // takes effect, the reply has no payload

  /** Whether a call answered under script entry `f` changes the tables as normal. */
  predicate TakesEffect(f: Option<Fault>) {
    f.None? || f.value.Bodiless?
  }

  /** The reply to a call under script entry `f`, given the normal reply. A success
      is only ever reported for a request that took effect, and a payload only ever
      comes with the normal reply. */
  function Answer<T>(f: Option<Fault>, normal: Response<T>): (r: Response<T>)
    requires normal.Reply?
    ensures r.Ok() ==> TakesEffect(f) && normal.Ok() && r.status == normal.status
    ensures r.Reply? && r.payload.Some? ==> r == normal && f.None?
    ensures f.None? ==> r == normal
  {
    match f
    case None => normal
    case Some(Fail(s, b)) => Reply(s, None, b)
    case Some(Throw(e)) => Thrown(e)
    case Some(Bodiless) => Reply(normal.status, None, normal.body)
  }

  /** A tag; id 0 stands for an id JavaScript finds falsy. */
  datatype Tag = Tag(id: nat, name: Option<string>)

  /** A custom field; an empty `key` stands for an absent or empty key. */
  datatype CustomField = CustomField(id: nat, name: Option<string>, fieldLabel: Option<string>, key: string)

  /** A subscriber record with its custom-field values and the ids of its tags. */
  datatype Subscriber = Subscriber(id: nat, email: string, fields: map<string, string>, tags: set<nat>)

  /** The requests the adapter sends, with the parts of their bodies it fills in. */
  datatype Request =
    | ListTags
    | CreateTag(name: string)
    | ListCustomFields
    | CreateCustomField(name: string, fieldLabel: string, key: string, fieldType: string)
    | CreateSubscriber(email: string, fields: map<string, string>)
    | FindSubscribers(email: string)
    | UpdateSubscriberFields(subscriberId: nat, fields: map<string, string>)
    | TagSubscriber(tagId: nat, subscriberId: nat)

  /** One call: the API key sent in its header and the request. */
  datatype Call = Call(apiKey: string, request: Request)

  /** Case-insensitive (ASCII) name equality, as the adapter compares names. */
  predicate NameMatches(candidate: string, name: string) {
    Lower(candidate) == Lower(name)
  }

  /** `tags.find(t => String(t?.name ?? "").toLowerCase() === name.toLowerCase())`. */
  function FindTag(tags: seq<Tag>, name: string): (r: Option<Tag>)
    ensures r.Some? ==> r.value in tags && NameMatches(GetOr(r.value.name, ""), name)
    ensures r.None? ==> forall t :: t in tags ==> !NameMatches(GetOr(t.name, ""), name)
  {
    if tags == [] then None
    else if NameMatches(GetOr(tags[0].name, ""), name) then Some(tags[0])
    else FindTag(tags[1..], name)
  }

  /** Appending a tag never changes an existing first match, and an appended tag is
      the first match for its own name when nothing matched before: list-then-create
      makes a later listing find what was created. */
  lemma {:induction false} FindTagAfterAppend(tags: seq<Tag>, t: Tag, name: string)
    ensures FindTag(tags, name).Some? ==> FindTag(tags + [t], name) == FindTag(tags, name)
    ensures FindTag(tags, name).None? && NameMatches(GetOr(t.name, ""), name)
      ==> FindTag(tags + [t], name) == Some(t)
  {
    if tags != [] {
      assert (tags + [t])[1..] == tags[1..] + [t];
      FindTagAfterAppend(tags[1..], t, name);
    }
  }

  /** The name a custom field is looked up by: `String(f?.name ?? f?.label ?? "")`. */
  function FieldLookupName(f: CustomField): (n: string)
    ensures f.name.Some? ==> n == f.name.value
    ensures f.name.None? ==> n == GetOr(f.fieldLabel, "")
  {
    match f.name
    case Some(n) => n
    case None => GetOr(f.fieldLabel, "")
  }

  /** The first custom field whose lookup name matches case-insensitively. */
  function FindField(fields: seq<CustomField>, name: string): (r: Option<CustomField>)
    ensures r.Some? ==> r.value in fields && NameMatches(FieldLookupName(r.value), name)
    ensures r.None? ==> forall f :: f in fields ==> !NameMatches(FieldLookupName(f), name)
  {
    if fields == [] then None
    else if NameMatches(FieldLookupName(fields[0]), name) then Some(fields[0])
    else FindField(fields[1..], name)
  }

  /** Appending a field never changes an existing first match, and an appended field
      is the first match for its own name when nothing matched before. */
  lemma {:induction false} FindFieldAfterAppend(fields: seq<CustomField>, f: CustomField, name: string)
    ensures FindField(fields, name).Some? ==> FindField(fields + [f], name) == FindField(fields, name)
    ensures FindField(fields, name).None? && NameMatches(FieldLookupName(f), name)
      ==> FindField(fields + [f], name) == Some(f)
  {
    if fields != [] {
      assert (fields + [f])[1..] == fields[1..] + [f];
      FindFieldAfterAppend(fields[1..], f, name);
    }
  }

  /** Whether some tag has this id. */
  predicate HasTag(tags: seq<Tag>, tagId: nat) {
    exists i :: 0 <= i < |tags| && tags[i].id == tagId
  }

  /** Whether some subscriber has this id. */
  predicate HasSubscriber(subs: seq<Subscriber>, id: nat) {
    exists i :: 0 <= i < |subs| && subs[i].id == id
  }

  /** Whether a subscriber with this id has this email address. */
  predicate IsSubscriberFor(subs: seq<Subscriber>, id: nat, email: string) {
    exists i :: 0 <= i < |subs| && subs[i].id == id && subs[i].email == email
  }

  /** The ids of the subscribers with this email address, in table order. */
  function IdsWithEmail(subs: seq<Subscriber>, email: string): (ids: seq<nat>)
    ensures forall k :: 0 <= k < |ids| ==> IsSubscriberFor(subs, ids[k], email)
    ensures ids == [] <==> forall i :: 0 <= i < |subs| ==> subs[i].email != email
  {
    if subs == [] then []
    else
      var rest := IdsWithEmail(subs[1..], email);
      assert forall k :: 0 <= k < |rest| ==> IsSubscriberFor(subs, rest[k], email) by {
        forall k | 0 <= k < |rest| ensures IsSubscriberFor(subs, rest[k], email) {
          var i :| 0 <= i < |subs[1..]| && subs[1..][i].id == rest[k] && subs[1..][i].email == email;
          assert subs[i + 1] == subs[1..][i];
        }
      }
      if subs[0].email == email then [subs[0].id] + rest else rest
  }

  /** Whether the subscribers with this id are all in the tag and one exists. */
  predicate IsTagged(subs: seq<Subscriber>, id: nat, tagId: nat) {
    HasSubscriber(subs, id) && forall i :: 0 <= i < |subs| && subs[i].id == id ==> tagId in subs[i].tags
  }

  /** Whether the subscribers with this id all hold `value` in field `key` and one exists. */
  predicate HoldsField(subs: seq<Subscriber>, id: nat, key: string, value: string) {
    HasSubscriber(subs, id)
    && forall i :: 0 <= i < |subs| && subs[i].id == id ==> key in subs[i].fields && subs[i].fields[key] == value
  }

  /** A field update of every subscriber with this id; nobody's id or email changes. */
  function SetFields(subs: seq<Subscriber>, id: nat, values: map<string, string>): (r: seq<Subscriber>)
    ensures |r| == |subs|
    ensures forall i :: 0 <= i < |subs| ==> r[i].id == subs[i].id && r[i].email == subs[i].email && r[i].tags == subs[i].tags
    ensures forall i :: 0 <= i < |subs| ==> r[i].fields == if subs[i].id == id then subs[i].fields + values else subs[i].fields
  {
    seq(|subs|, i requires 0 <= i < |subs| =>
      if subs[i].id == id then subs[i].(fields := subs[i].fields + values) else subs[i])
  }

  /** Adds a tag to every subscriber with this id; nobody's id, email or fields change. */
  function AddTag(subs: seq<Subscriber>, id: nat, tagId: nat): (r: seq<Subscriber>)
    ensures |r| == |subs|
    ensures forall i :: 0 <= i < |subs| ==> r[i].id == subs[i].id && r[i].email == subs[i].email && r[i].fields == subs[i].fields
    ensures forall i :: 0 <= i < |subs| ==> r[i].tags == if subs[i].id == id then subs[i].tags + {tagId} else subs[i].tags
  {
    seq(|subs|, i requires 0 <= i < |subs| =>
      if subs[i].id == id then subs[i].(tags := subs[i].tags + {tagId}) else subs[i])
  }

  /** The script after one call has used its first entry. */
  function Advance(script: seq<Option<Fault>>): (r: seq<Option<Fault>>)
    ensures script != [] ==> r == script[1..]
    ensures script == [] ==> r == []
  {
    if script == [] then [] else script[1..]
  }

  /** The provider at one moment: its three tables, the counter its ids are drawn
      from, the script of upcoming answers and the log of every call received. */
  datatype KitState = KitState(
    tags: seq<Tag>,
    customFields: seq<CustomField>,
    subscribers: seq<Subscriber>,
    lastId: nat,
    script: seq<Option<Fault>>,
    log: seq<Call>)
  {
    /** How the next call will be answered. */
    function Pending(): Option<Fault> {
      if script == [] then None else script[0]
    }

    /** The state once `call` is logged and has used up its script entry. */
    function Receive(call: Call): KitState {
      this.(script := Advance(script), log := log + [call])
    }
  }

  /** What a call gives back, and the provider's state once it has returned. */
  datatype Called<T> = Called(value: T, after: KitState)

  /** No scripted fault is left: every upcoming call is answered normally. */
  predicate FaultFree(s: KitState) {
    forall i :: 0 <= i < |s.script| ==> s.script[i].None?
  }

  /** A call to a fault-free provider is answered normally and leaves it fault-free. */
  lemma FaultFreeReceive(s: KitState, call: Call)
    ensures FaultFree(s) ==> s.Pending().None? && FaultFree(s.Receive(call))
  {
  }

  // The endpoints. Each logs its call, uses one script entry, and answers with
  // `Answer(s.Pending(), <the normal reply>)`; its tables change only when the
  // request takes effect.

  /** GET /v4/tags: the tag table. */
  function ListTagsCall(s: KitState, apiKey: string): Called<Response<seq<Tag>>> {
    Called(Answer(s.Pending(), Reply(200, Some(s.tags), NoErrors)), s.Receive(Call(apiKey, ListTags)))
  }

  /** POST /v4/tags: a tag whose name already exists (ignoring case) is returned with
      200 and nothing is stored; otherwise a new tag with a fresh id is stored and
      returned with 201. */
  function CreateTagCall(s: KitState, apiKey: string, name: string): Called<Response<Tag>> {
    var received := s.Receive(Call(apiKey, CreateTag(name)));
    match FindTag(s.tags, name)
    case Some(existing) => Called(Answer(s.Pending(), Reply(200, Some(existing), NoErrors)), received)
    case None =>
      var t := Tag(s.lastId + 1, Some(name));
      Called(Answer(s.Pending(), Reply(201, Some(t), NoErrors)),
             if TakesEffect(s.Pending()) then received.(tags := s.tags + [t], lastId := t.id) else received)
  }

  /** GET /v4/custom_fields: the custom-field table. */
  function ListFieldsCall(s: KitState, apiKey: string): Called<Response<seq<CustomField>>> {
    Called(Answer(s.Pending(), Reply(200, Some(s.customFields), NoErrors)), s.Receive(Call(apiKey, ListCustomFields)))
  }

  /** POST /v4/custom_fields: stores the field as sent, with a fresh id, and returns
      it with 201. */
  function CreateFieldCall(s: KitState, apiKey: string, name: string, fieldLabel: string, key: string, fieldType: string)
    : Called<Response<CustomField>>
  {
    var received := s.Receive(Call(apiKey, CreateCustomField(name, fieldLabel, key, fieldType)));
    var f := CustomField(s.lastId + 1, Some(name), Some(fieldLabel), key);
    Called(Answer(s.Pending(), Reply(201, Some(f), NoErrors)),
           if TakesEffect(s.Pending()) then received.(customFields := s.customFields + [f], lastId := f.id) else received)
  }

  /** POST /v4/subscribers, an upsert: an address already present answers 200 with
      the existing id and the sent fields are dropped; a new address is stored with
      its fields and a fresh id and answers 201. */
  function CreateSubscriberCall(s: KitState, apiKey: string, email: string, values: map<string, string>)
    : Called<Response<nat>>
  {
    var received := s.Receive(Call(apiKey, CreateSubscriber(email, values)));
    var ids := IdsWithEmail(s.subscribers, email);
    if ids != [] then Called(Answer(s.Pending(), Reply(200, Some(ids[0]), NoErrors)), received)
    else
      var n := Subscriber(s.lastId + 1, email, values, {});
      Called(Answer(s.Pending(), Reply(201, Some(n.id), NoErrors)),
             if TakesEffect(s.Pending()) then received.(subscribers := s.subscribers + [n], lastId := n.id) else received)
  }

  /** GET /v4/subscribers?email_address=…: the ids with that address. */
  function FindSubscribersCall(s: KitState, apiKey: string, email: string): Called<Response<seq<nat>>> {
    Called(Answer(s.Pending(), Reply(200, Some(IdsWithEmail(s.subscribers, email)), NoErrors)),
           s.Receive(Call(apiKey, FindSubscribers(email))))
  }

  /** PUT /v4/subscribers/{id} with custom-field values: 200 and the values are merged
      in when the subscriber exists, 404 otherwise. */
  function UpdateFieldsCall(s: KitState, apiKey: string, id: nat, values: map<string, string>): Called<Response<()>> {
    var received := s.Receive(Call(apiKey, UpdateSubscriberFields(id, values)));
    if HasSubscriber(s.subscribers, id) then
      Called(Answer(s.Pending(), Reply(200, None, NoErrors)),
             if TakesEffect(s.Pending()) then received.(subscribers := SetFields(s.subscribers, id, values)) else received)
    else Called(Answer(s.Pending(), Reply(404, None, NotFound)), received)
  }

  /** POST /v4/tags/{tagId}/subscribers/{id}: when both exist the subscriber gets the
      tag (201, or 200 when it already had it); 404 otherwise. */
  function TagSubscriberCall(s: KitState, apiKey: string, tagId: nat, id: nat): Called<Response<()>> {
    var received := s.Receive(Call(apiKey, TagSubscriber(tagId, id)));
    if HasTag(s.tags, tagId) && HasSubscriber(s.subscribers, id) then
      Called(Answer(s.Pending(), Reply(if IsTagged(s.subscribers, id, tagId) then 200 else 201, None, NoErrors)),
             if TakesEffect(s.Pending()) then received.(subscribers := AddTag(s.subscribers, id, tagId)) else received)
    else Called(Answer(s.Pending(), Reply(404, None, NotFound)), received)
  }

  // What each subscriber endpoint guarantees, for the adapter's proofs to call on.

  /** A create-subscriber call logs itself, leaves tags and fields alone and only ever
      appends to the subscribers; a reply with an id names a subscriber with this
      address, and a fault-free provider always gives one. */
  lemma CreateSubscriberCallFacts(s: KitState, apiKey: string, email: string, values: map<string, string>)
    ensures var c := CreateSubscriberCall(s, apiKey, email, values);
      && c.after.tags == s.tags && c.after.customFields == s.customFields
      && s.subscribers <= c.after.subscribers
      && c.after.log == s.log + [Call(apiKey, CreateSubscriber(email, values))]
      && (c.value.Reply? && c.value.payload.Some? ==> IsSubscriberFor(c.after.subscribers, c.value.payload.value, email))
      && (FaultFree(s) ==> FaultFree(c.after) && c.value.Ok() && c.value.payload.Some?)
  {
    var c := CreateSubscriberCall(s, apiKey, email, values);
    if FaultFree(s) {
      FaultFreeReceive(s, Call(apiKey, CreateSubscriber(email, values)));
    }
    if c.value.Reply? && c.value.payload.Some? && IdsWithEmail(s.subscribers, email) == [] {
      assert c.after.subscribers[|s.subscribers|].id == c.value.payload.value;
    }
  }

  /** A lookup by email logs itself and changes no table; its normal reply lists the
      ids with that address. */
  lemma FindSubscribersCallFacts(s: KitState, apiKey: string, email: string)
    ensures var c := FindSubscribersCall(s, apiKey, email);
      && c.after == s.Receive(Call(apiKey, FindSubscribers(email)))
      && (s.Pending().None? ==> c.value == Reply(200, Some(IdsWithEmail(s.subscribers, email)), NoErrors))
      && (c.value.Reply? && c.value.payload.Some? ==> c.value.payload.value == IdsWithEmail(s.subscribers, email))
      && (FaultFree(s) ==> FaultFree(c.after))
  {
    if FaultFree(s) {
      FaultFreeReceive(s, Call(apiKey, FindSubscribers(email)));
    }
  }

  /** A field update logs itself, changes only the fields of the subscribers with this
      id, and on success they hold the values. */
  lemma UpdateFieldsCallFacts(s: KitState, apiKey: string, id: nat, values: map<string, string>)
    ensures var c := UpdateFieldsCall(s, apiKey, id, values);
      && c.after.tags == s.tags && c.after.customFields == s.customFields
      && c.after.log == s.log + [Call(apiKey, UpdateSubscriberFields(id, values))]
      && c.after.script == Advance(s.script)
      && |c.after.subscribers| == |s.subscribers|
      && (forall i :: 0 <= i < |s.subscribers| ==>
            c.after.subscribers[i].id == s.subscribers[i].id && c.after.subscribers[i].email == s.subscribers[i].email
            && c.after.subscribers[i].tags == s.subscribers[i].tags)
      && (forall i :: 0 <= i < |s.subscribers| && s.subscribers[i].id != id ==> c.after.subscribers[i] == s.subscribers[i])
      && (c.value.Ok() ==> forall k :: k in values ==> HoldsField(c.after.subscribers, id, k, values[k]))
      && (s.Pending().None? ==> (c.value.Ok() <==> HasSubscriber(s.subscribers, id)))
      && (s.Pending().None? && !HasSubscriber(s.subscribers, id) ==> c.value == Reply(404, None, NotFound))
      && (FaultFree(s) ==> FaultFree(c.after))
  {
    if FaultFree(s) {
      FaultFreeReceive(s, Call(apiKey, UpdateSubscriberFields(id, values)));
    }
  }

  /** A tagging call logs itself, changes only the tags of the subscribers with this id,
      and on success they carry the tag. */
  lemma TagSubscriberCallFacts(s: KitState, apiKey: string, tagId: nat, id: nat)
    ensures var c := TagSubscriberCall(s, apiKey, tagId, id);
      && c.after.tags == s.tags && c.after.customFields == s.customFields
      && c.after.log == s.log + [Call(apiKey, TagSubscriber(tagId, id))]
      && c.after.script == Advance(s.script)
      && |c.after.subscribers| == |s.subscribers|
      && (forall i :: 0 <= i < |s.subscribers| ==>
            c.after.subscribers[i].id == s.subscribers[i].id && c.after.subscribers[i].email == s.subscribers[i].email
            && c.after.subscribers[i].fields == s.subscribers[i].fields)
      && (forall i :: 0 <= i < |s.subscribers| && s.subscribers[i].id != id ==> c.after.subscribers[i] == s.subscribers[i])
      && (c.value.Ok() ==> IsTagged(c.after.subscribers, id, tagId))
      && (s.Pending().None? ==> (c.value.Ok() <==> HasTag(s.tags, tagId) && HasSubscriber(s.subscribers, id)))
      && (s.Pending().None? && !(HasTag(s.tags, tagId) && HasSubscriber(s.subscribers, id)) ==> c.value == Reply(404, None, NotFound))
      && (FaultFree(s) ==> FaultFree(c.after))
  {
    if FaultFree(s) {
      FaultFreeReceive(s, Call(apiKey, TagSubscriber(tagId, id)));
    }
  }

  /** The provider as an object the adapter calls: each method answers and updates the
      fields exactly as the endpoint function of the same request does. */
  class Kit {
    var tags: seq<Tag>
    var customFields: seq<CustomField>
    var subscribers: seq<Subscriber>
    var lastId: nat                   // provider-assigned ids count up from here
    var script: seq<Option<Fault>>    // how the next calls are answered
    var log: seq<Call>                // every call received, in order

    constructor (tags: seq<Tag>, customFields: seq<CustomField>, subscribers: seq<Subscriber>,
                 lastId: nat, script: seq<Option<Fault>>)
      ensures State() == KitState(tags, customFields, subscribers, lastId, script, [])
    {
      this.tags := tags;
      this.customFields := customFields;
      this.subscribers := subscribers;
      this.lastId := lastId;
      this.script := script;
      log := [];
    }

    /** The fields as one value. */
    function State(): KitState
      reads this
    {
      KitState(tags, customFields, subscribers, lastId, script, log)
    }

    /** Takes on the state a call produced. */
    method Become(s: KitState)
      modifies this
      ensures State() == s
    {
      tags, customFields, subscribers, lastId, script, log :=
        s.tags, s.customFields, s.subscribers, s.lastId, s.script, s.log;
    }

    method GetTags(apiKey: string) returns (res: Response<seq<Tag>>)
      modifies this
      ensures Called(res, State()) == ListTagsCall(old(State()), apiKey)
    {
      var c := ListTagsCall(State(), apiKey);
      res := c.value;
      Become(c.after);
    }

    method PostTag(apiKey: string, name: string) returns (res: Response<Tag>)
      modifies this
      ensures Called(res, State()) == CreateTagCall(old(State()), apiKey, name)
    {
      var c := CreateTagCall(State(), apiKey, name);
      res := c.value;
      Become(c.after);
    }

    method GetCustomFields(apiKey: string) returns (res: Response<seq<CustomField>>)
      modifies this
      ensures Called(res, State()) == ListFieldsCall(old(State()), apiKey)
    {
      var c := ListFieldsCall(State(), apiKey);
      res := c.value;
      Become(c.after);
    }

    method PostCustomField(apiKey: string, name: string, fieldLabel: string, key: string, fieldType: string)
      returns (res: Response<CustomField>)
      modifies this
      ensures Called(res, State()) == CreateFieldCall(old(State()), apiKey, name, fieldLabel, key, fieldType)
    {
      var c := CreateFieldCall(State(), apiKey, name, fieldLabel, key, fieldType);
      res := c.value;
      Become(c.after);
    }

    method PostSubscriber(apiKey: string, email: string, values: map<string, string>) returns (res: Response<nat>)
      modifies this
      ensures Called(res, State()) == CreateSubscriberCall(old(State()), apiKey, email, values)
    {
      var c := CreateSubscriberCall(State(), apiKey, email, values);
      res := c.value;
      Become(c.after);
    }

    method GetSubscribersByEmail(apiKey: string, email: string) returns (res: Response<seq<nat>>)
      modifies this
      ensures Called(res, State()) == FindSubscribersCall(old(State()), apiKey, email)
    {
      var c := FindSubscribersCall(State(), apiKey, email);
      res := c.value;
      Become(c.after);
    }

    method PutSubscriberFields(apiKey: string, id: nat, values: map<string, string>) returns (res: Response<()>)
      modifies this
      ensures Called(res, State()) == UpdateFieldsCall(old(State()), apiKey, id, values)
    {
      var c := UpdateFieldsCall(State(), apiKey, id, values);
      res := c.value;
      Become(c.after);
    }

    method PostTagSubscriber(apiKey: string, tagId: nat, id: nat) returns (res: Response<()>)
      modifies this
      ensures Called(res, State()) == TagSubscriberCall(old(State()), apiKey, tagId, id)
    {
      var c := TagSubscriberCall(State(), apiKey, tagId, id);
      res := c.value;
      Become(c.after);
    }
  }
}
