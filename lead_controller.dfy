/** The lead handlers over the stored leads: create splits the body into the
    fixed fields and the extra fields, the listing filters by owner and sorts
    newest first, update picks the allowed fields and merges the extra
    fields, and delete removes the record the request carries. */
module LeadController {
  import opened Js
  import opened LeadModel

  const InvalidLeadId: string := "Invalid lead ID format"
  const LeadNotFound: string := "Lead not found or unauthorized"
  const NoValidFields: string := "No valid fields provided for update"
  const ValidationFailed: string := "Validation error"

  /** The keys `createLead` destructures; every other key is an extra field. */
  const CreateExcluded: set<string> := {"name", "email", "phone", "source", "message"}

  /** `allowedFields` of `updateLead`, in order. */
  const AllowedFields: seq<string> := ["name", "email", "phone", "source", "message", "status"]

  /** What a handler answers. */
  datatype LeadReply =
    | Created(lead: Lead)
    | Listed(count: nat, data: seq<Lead>)
    | Updated(lead: Lead)
    | Deleted
    | Failed(status: int, message: string)

  /** The stored leads after a handler, with its reply. */
  datatype Outcome = Outcome(leads: seq<Lead>, reply: LeadReply)

  ghost predicate IdsUnique(leads: seq<Lead>) {
    forall i, j :: 0 <= i < j < |leads| ==> leads[i].id != leads[j].id
  }

  predicate IdUnused(leads: seq<Lead>, id: string) {
    forall i :: 0 <= i < |leads| ==> leads[i].id != id
  }

  // ---------------------------------------------------------------- createLead

  /** The rest pattern `...extraFields` of `createLead`: the body's entries
      whose keys it does not destructure. */
  function CreateExtras(body: Body): (m: map<string, JsValue>)
    ensures m.Keys == KeySet(body) - CreateExcluded
    ensures forall i :: 0 <= i < |body| && body[i].0 !in CreateExcluded ==> body[i].0 in m && m[body[i].0] == body[i].1
  {
    if body == [] then map[]
    else
      var tail: Body := body[1..];
      assert KeySet(body) == {body[0].0} + KeySet(tail);
      var rest := CreateExtras(tail);
      assert forall i :: 1 <= i < |body| ==> body[i] == tail[i - 1];
      if body[0].0 in CreateExcluded then rest else rest[body[0].0 := body[0].1]
  }

  /** The fields `createLead` passes on; an absent key reads as undefined. */
  function CreateInput(body: Body): LeadInput {
    LeadInput(Lookup(body, "name").GetOr(Undefined), Lookup(body, "email").GetOr(Undefined),
              Lookup(body, "phone").GetOr(Undefined), Lookup(body, "source").GetOr(Undefined),
              Lookup(body, "message").GetOr(Undefined), CreateExtras(body))
  }

  /** `createLead` for the authenticated user `userId`; `freshId` is the id the
      store assigns. A document the store refuses (including an owner id it
      cannot cast) is a 400 that stores nothing. */
  function CreateOutcome(leads: seq<Lead>, freshId: string, userId: string, input: LeadInput, now: int, lib: Library): (r: Outcome)
    ensures r.reply.Created? || r.reply == Failed(400, ValidationFailed)
    ensures r.reply.Created? ==> r.leads == leads + [r.reply.lead]
    ensures r.reply.Failed? ==> r.leads == leads
    ensures r.reply.Created? <==> lib.isObjectId(userId) && InputAccepted(lib, input)
  {
    if !lib.isObjectId(userId) then Outcome(leads, Failed(400, ValidationFailed))
    else match CreateDocument(freshId, userId, input, now, lib)
      case None => Outcome(leads, Failed(400, ValidationFailed))
      case Some(l) => Outcome(leads + [l], Created(l))
  }

  /** The extra fields are read off the body. */
  lemma CreateExtrasFromBody(body: Body)
    ensures forall k :: k in CreateExtras(body) ==> Lookup(body, k) == Some(CreateExtras(body)[k])
  {
    var m := CreateExtras(body);
    forall k | k in m
      ensures Lookup(body, k) == Some(m[k])
    {
      var i :| 0 <= i < |body| && body[i].0 == k;
      LookupEntry(body, i);
    }
  }

  /** A created lead is the document built from the input. */
  lemma CreatedFromInput(leads: seq<Lead>, freshId: string, userId: string, input: LeadInput, now: int, lib: Library)
    requires CreateOutcome(leads, freshId, userId, input, now, lib).reply.Created?
    ensures var r := CreateOutcome(leads, freshId, userId, input, now, lib);
            var l := r.reply.lead;
            && r.leads == leads + [l]
            && l.id == freshId && l.ownerId == userId && l.status == DefaultStatus && Conforms(l)
            && l.createdAt == now && l.updatedAt == now
            && l.email == EmailValue(lib, input.email).value
            && l.extraFields == input.extraFields
  {
  }

  /** A created lead belongs to the caller, has the default status and keeps
      as extra fields exactly the body entries outside the destructured keys. */
  lemma CreatedLead(leads: seq<Lead>, freshId: string, userId: string, body: Body, now: int, lib: Library)
    requires CreateOutcome(leads, freshId, userId, CreateInput(body), now, lib).reply.Created?
    ensures var l := CreateOutcome(leads, freshId, userId, CreateInput(body), now, lib).reply.lead;
            && l.id == freshId && l.ownerId == userId && l.status == DefaultStatus && Conforms(l)
            && l.createdAt == now && l.updatedAt == now
            && l.extraFields.Keys == KeySet(body) - CreateExcluded
            && forall k :: k in l.extraFields ==> Lookup(body, k) == Some(l.extraFields[k])
  {
    CreatedFromInput(leads, freshId, userId, CreateInput(body), now, lib);
    CreateExtrasFromBody(body);
  }

  /** `status` is not destructured: a body's `status` is kept as an extra
      field and the lead takes the default status. */
  lemma BodyStatusBecomesExtraField(leads: seq<Lead>, freshId: string, userId: string, body: Body, now: int, lib: Library)
    requires CreateOutcome(leads, freshId, userId, CreateInput(body), now, lib).reply.Created?
    requires Lookup(body, "status").Some?
    ensures var l := CreateOutcome(leads, freshId, userId, CreateInput(body), now, lib).reply.lead;
            "status" in l.extraFields && l.extraFields["status"] == Lookup(body, "status").value
            && l.status == New
  {
    CreatedLead(leads, freshId, userId, body, now, lib);
    StatusIsExtra(body);
  }

  lemma StatusIsExtra(body: Body)
    requires Lookup(body, "status").Some?
    ensures "status" in CreateExtras(body) && CreateExtras(body)["status"] == Lookup(body, "status").value
  {
    var v := Lookup(body, "status").value;
    assert "status" !in CreateExcluded;
    var i :| 0 <= i < |body| && body[i] == ("status", v);
    assert body[i].0 !in CreateExcluded;
  }

  // ---------------------------------------------------------------- getClientLeads

  /** `Lead.find({ ownerId })`. */
  function OwnedBy(leads: seq<Lead>, ownerId: string): (r: seq<Lead>)
    ensures forall l :: l in r <==> l in leads && l.ownerId == ownerId
    ensures forall l :: multiset(r)[l] == if l.ownerId == ownerId then multiset(leads)[l] else 0
  {
    if leads == [] then []
    else
      assert leads == [leads[0]] + leads[1..];
      (if leads[0].ownerId == ownerId then [leads[0]] else []) + OwnedBy(leads[1..], ownerId)
  }

  predicate NewestFirst(s: seq<Lead>) {
    forall i, j :: 0 <= i < j < |s| ==> s[i].createdAt >= s[j].createdAt
  }

  lemma ConsNewestFirst(x: Lead, t: seq<Lead>)
    requires NewestFirst(t)
    requires forall y :: y in t ==> y.createdAt <= x.createdAt
    ensures NewestFirst([x] + t)
  {
    var r := [x] + t;
    forall i, j | 0 <= i < j < |r|
      ensures r[i].createdAt >= r[j].createdAt
    {
      assert r[j] == t[j - 1];
      if i > 0 {
        assert r[i] == t[i - 1];
      }
    }
  }

  lemma TailNewestFirst(s: seq<Lead>)
    requires NewestFirst(s) && s != []
    ensures NewestFirst(s[1..])
    ensures forall y :: y in s[1..] ==> y.createdAt <= s[0].createdAt
  {
    var t := s[1..];
    forall i, j | 0 <= i < j < |t|
      ensures t[i].createdAt >= t[j].createdAt
    {
      assert t[i] == s[i + 1] && t[j] == s[j + 1];
    }
    forall y | y in t
      ensures y.createdAt <= s[0].createdAt
    {
      var j :| 0 <= j < |t| && t[j] == y;
      assert s[j + 1] == y;
    }
  }

  function InsertNewestFirst(l: Lead, s: seq<Lead>): (r: seq<Lead>)
    requires NewestFirst(s)
    ensures NewestFirst(r)
    ensures multiset(r) == multiset(s) + multiset{l}
  {
    if s == [] then [l]
    else if l.createdAt >= s[0].createdAt then
      ConsNewestFirst(l, s);
      [l] + s
    else
      TailNewestFirst(s);
      var rest := InsertNewestFirst(l, s[1..]);
      InsertBelowHead(l, s, rest);
      [s[0]] + rest
  }

  /** A lead older than the head goes into the tail, below the head. */
  lemma InsertBelowHead(l: Lead, s: seq<Lead>, rest: seq<Lead>)
    requires NewestFirst(s) && s != [] && l.createdAt < s[0].createdAt
    requires NewestFirst(rest) && multiset(rest) == multiset(s[1..]) + multiset{l}
    ensures NewestFirst([s[0]] + rest)
    ensures multiset([s[0]] + rest) == multiset(s) + multiset{l}
  {
    TailNewestFirst(s);
    forall y | y in rest
      ensures y.createdAt <= s[0].createdAt
    {
      assert y in multiset(rest);
      assert y in multiset(s[1..]) || y == l;
    }
    ConsNewestFirst(s[0], rest);
    assert s == [s[0]] + s[1..];
    assert multiset([s[0]] + rest) == multiset{s[0]} + multiset(rest);
  }

  /** `.sort({ createdAt: -1 })`. */
  function SortNewestFirst(s: seq<Lead>): (r: seq<Lead>)
    ensures NewestFirst(r)
    ensures multiset(r) == multiset(s)
  {
    if s == [] then []
    else
      assert s == [s[0]] + s[1..];
      InsertNewestFirst(s[0], SortNewestFirst(s[1..]))
  }

  function ClientLeads(leads: seq<Lead>, userId: string): seq<Lead> {
    SortNewestFirst(OwnedBy(leads, userId))
  }

  /** The listing holds each of the caller's leads as often as the store does,
      no other lead, newest first. */
  lemma ClientLeadsAreOwnedAndSorted(leads: seq<Lead>, userId: string)
    ensures var r := ClientLeads(leads, userId);
            && NewestFirst(r)
            && (forall l :: l in r <==> l in leads && l.ownerId == userId)
            && (forall l :: multiset(r)[l] == if l.ownerId == userId then multiset(leads)[l] else 0)
  {
    var r := ClientLeads(leads, userId);
    forall l
      ensures l in r <==> l in leads && l.ownerId == userId
    {
      assert l in r <==> l in multiset(r);
    }
  }

  // ---------------------------------------------------------------- updateLead

  /** Visiting `keys` in order and copying `body[key]` for each key the body
      has: both the `forEach` over the allowed fields and the `reduce` over
      the remaining body keys. */
  function Copied(body: Body, keys: seq<string>): (m: map<string, JsValue>)
    ensures m.Keys == (set k | k in keys) * KeySet(body)
    ensures forall k :: k in m ==> Lookup(body, k) == Some(m[k])
    decreases |keys|
  {
    if keys == [] then map[]
    else
      var front := keys[..|keys| - 1];
      var k := keys[|keys| - 1];
      assert (set x | x in keys) == (set x | x in front) + {k} by {
        assert keys == front + [k];
      }
      var m := Copied(body, front);
      if k in KeySet(body) then m[k := Lookup(body, k).value] else m
  }

  /** `updateData` after the `forEach`: the allowed fields the body has, with
      the body's values. */
  function UpdateFields(body: Body): map<string, JsValue> {
    Copied(body, AllowedFields)
  }

  /** `newExtraFields`: the body keys outside the allowed fields, with the
      body's values. */
  function NewExtras(body: Body): map<string, JsValue> {
    Copied(body, KeysNotIn(body, AllowedFields))
  }

  /** `{ ...existing, ...incoming }`. */
  function MergeExtras(existing: map<string, JsValue>, incoming: map<string, JsValue>): (m: map<string, JsValue>)
    ensures m.Keys == existing.Keys + incoming.Keys
    ensures forall k :: k in incoming ==> m[k] == incoming[k]
    ensures forall k :: k in existing && k !in incoming ==> m[k] == existing[k]
  {
    existing + incoming
  }

  /** `Lead.findOne({ _id: id, ownerId })` as the position of that lead. */
  function FindOwned(leads: seq<Lead>, id: string, userId: string): (r: Option<nat>)
    ensures r.Some? ==> r.value < |leads| && leads[r.value].id == id && leads[r.value].ownerId == userId
    ensures r.None? <==> forall j :: 0 <= j < |leads| ==> !(leads[j].id == id && leads[j].ownerId == userId)
  {
    if leads == [] then None
    else if leads[0].id == id && leads[0].ownerId == userId then Some(0)
    else match FindOwned(leads[1..], id, userId)
      case None => None
      case Some(j) => Some(j + 1)
  }

  /** The part of `updateLead` after the owned lead at position `i` is found. */
  function UpdateAt(leads: seq<Lead>, i: nat, body: Body, now: int, lib: Library): (r: Outcome)
    requires i < |leads|
    ensures r.reply.Updated? || r.reply.Failed?
    ensures r.reply.Failed? ==> r.leads == leads
    ensures r.reply.Updated? ==>
              && r.leads == leads[i := r.reply.lead]
              && r.reply.lead.id == leads[i].id && r.reply.lead.ownerId == leads[i].ownerId
              && r.reply.lead.createdAt == leads[i].createdAt
              && (Conforms(leads[i]) ==> Conforms(r.reply.lead))
  {
    var data := UpdateFields(body);
    var merged := MergeExtras(leads[i].extraFields, NewExtras(body));
    if |data| == 0 && |merged| == 0 then Outcome(leads, Failed(400, NoValidFields))
    else if !UpdateCasts(data) then Outcome(leads, Failed(400, InvalidLeadId))
    else if !UpdateAccepted(lib, data) then Outcome(leads, Failed(400, ValidationFailed))
    else
      var updated := ApplyUpdate(leads[i], data, if |merged| > 0 then Some(merged) else None, now, lib);
      Outcome(leads[i := updated], Updated(updated))
  }

  /** `updateLead` for the authenticated user `userId`. Every cast error the
      store raises, for the lead id, the caller's id in the ownership query or
      a value of the update, reaches the same `catch` branch and is answered
      "Invalid lead ID format". */
  function UpdateOutcome(leads: seq<Lead>, id: string, userId: string, body: Body, now: int, lib: Library): (r: Outcome)
    ensures |r.leads| == |leads|
    ensures r.reply.Failed? ==> r.leads == leads
    ensures r.reply.Updated? || r.reply.Failed?
    ensures forall j :: 0 <= j < |leads| && leads[j].id != id ==> r.leads[j] == leads[j]
    ensures forall j :: 0 <= j < |leads| ==>
              r.leads[j].id == leads[j].id && r.leads[j].ownerId == leads[j].ownerId && r.leads[j].createdAt == leads[j].createdAt
    ensures forall j :: 0 <= j < |leads| && Conforms(leads[j]) ==> Conforms(r.leads[j])
  {
    if !lib.isObjectId(id) || !lib.isObjectId(userId) then Outcome(leads, Failed(400, InvalidLeadId))
    else match FindOwned(leads, id, userId)
      case None => Outcome(leads, Failed(404, LeadNotFound))
      case Some(i) =>
        var r := UpdateAt(leads, i, body, now, lib);
        if r.reply.Updated? then ReplaceKeepsIdentity(leads, i, r.reply.lead); r else r
  }

  /** Replacing one lead by a version with the same id, owner and creation
      time keeps every other lead and keeps those three fields everywhere. */
  lemma ReplaceKeepsIdentity(leads: seq<Lead>, i: nat, l: Lead)
    requires i < |leads|
    requires l.id == leads[i].id && l.ownerId == leads[i].ownerId && l.createdAt == leads[i].createdAt
    requires Conforms(leads[i]) ==> Conforms(l)
    ensures var r := leads[i := l];
            && (forall j :: 0 <= j < |leads| && leads[j].id != leads[i].id ==> r[j] == leads[j])
            && (forall j :: 0 <= j < |leads| ==>
                  r[j].id == leads[j].id && r[j].ownerId == leads[j].ownerId && r[j].createdAt == leads[j].createdAt)
            && (forall j :: 0 <= j < |leads| && Conforms(leads[j]) ==> Conforms(r[j]))
  {
  }

  /** A lead that is missing or belongs to someone else is a 404 and changes
      nothing, whatever the body holds, so an empty body gets the 404 and not
      the "no valid fields" reply. */
  lemma UpdateOfOthersLeadIsNotFound(leads: seq<Lead>, id: string, userId: string, body: Body, now: int, lib: Library)
    requires lib.isObjectId(id) && lib.isObjectId(userId)
    requires forall j :: 0 <= j < |leads| && leads[j].id == id ==> leads[j].ownerId != userId
    ensures UpdateOutcome(leads, id, userId, body, now, lib) == Outcome(leads, Failed(404, LeadNotFound))
  {
  }

  /** A caller id that is not an ObjectId fails the cast of the ownership
      query: "Invalid lead ID format", before the lead is looked up. */
  lemma UpdateByMalformedCallerIsInvalidId(leads: seq<Lead>, id: string, userId: string, body: Body, now: int, lib: Library)
    requires !lib.isObjectId(userId)
    ensures UpdateOutcome(leads, id, userId, body, now, lib) == Outcome(leads, Failed(400, InvalidLeadId))
  {
  }

  /** On an owned lead, a fixed field whose value is an array or an object
      fails its `String` cast, and the store answers "Invalid lead ID format"
      and changes nothing, whatever the rest of the body holds. */
  lemma UncastableFieldIsInvalidId(leads: seq<Lead>, id: string, userId: string, body: Body, now: int, lib: Library, k: string)
    requires lib.isObjectId(id) && lib.isObjectId(userId) && FindOwned(leads, id, userId).Some?
    requires k in AllowedFields && Lookup(body, k).Some? && !Castable(Lookup(body, k).value)
    ensures UpdateOutcome(leads, id, userId, body, now, lib) == Outcome(leads, Failed(400, InvalidLeadId))
  {
    var data := UpdateFields(body);
    assert k in data && data[k] == Lookup(body, k).value;
    assert !UpdateCasts(data);
  }

  /** The "Validation error" reply of an update comes only once every fixed
      value has cast, from a refused e-mail or a status outside the list. */
  lemma UpdateValidationFailure(leads: seq<Lead>, id: string, userId: string, body: Body, now: int, lib: Library)
    requires UpdateOutcome(leads, id, userId, body, now, lib).reply == Failed(400, ValidationFailed)
    ensures var data := UpdateFields(body);
            && UpdateCasts(data)
            && (("email" in data && EmailValue(lib, data["email"]).None?) || ("status" in data && StatusValue(data["status"]).None?))
  {
    assert lib.isObjectId(id) && lib.isObjectId(userId) && FindOwned(leads, id, userId).Some?;
    var i := FindOwned(leads, id, userId).value;
    assert UpdateAt(leads, i, body, now, lib).reply == Failed(400, ValidationFailed);
    var data := UpdateFields(body);
    assert UpdateCasts(data) && !UpdateAccepted(lib, data);
  }

  /** An update with something to write, on an owned lead with well-formed
      ids, whose fixed values all cast and pass the validators, is applied. */
  lemma ValidUpdateApplies(leads: seq<Lead>, id: string, userId: string, body: Body, now: int, lib: Library)
    requires lib.isObjectId(id) && lib.isObjectId(userId) && FindOwned(leads, id, userId).Some?
    requires body != [] || leads[FindOwned(leads, id, userId).value].extraFields != map[]
    requires UpdateCasts(UpdateFields(body)) && UpdateAccepted(lib, UpdateFields(body))
    ensures UpdateOutcome(leads, id, userId, body, now, lib).reply.Updated?
  {
    var i := FindOwned(leads, id, userId).value;
    if UpdateAt(leads, i, body, now, lib).reply == Failed(400, NoValidFields) {
      NoValidFieldsOnlyIfEmpty(leads, i, body, now, lib);
    }
  }

  /** `{ name: { _id: "abc" } }` on an owned lead stores the name "abc": the
      store casts an object with a string `_id` to that id. */
  lemma DocumentNameIsApplied(leads: seq<Lead>, id: string, userId: string, now: int, lib: Library)
    requires lib.isObjectId(id) && lib.isObjectId(userId) && FindOwned(leads, id, userId).Some?
    ensures var o := UpdateOutcome(leads, id, userId, [("name", Obj([("_id", Str("abc"))]))], now, lib);
            o.reply.Updated? && o.reply.lead.name == Some("abc")
  {
    var body: Body := [("name", Obj([("_id", Str("abc"))]))];
    var data := UpdateFields(body);
    assert Lookup(body, "name") == Some(Obj([("_id", Str("abc"))]));
    assert data.Keys == {"name"};
    assert Castable(data["name"]);
    ValidUpdateApplies(leads, id, userId, body, now, lib);
    UpdatedLeadFields(leads, id, userId, body, now, lib);
  }

  lemma CopiedEmpty(body: Body, keys: seq<string>)
    requires forall k :: k in keys ==> k in KeySet(body)
    ensures |Copied(body, keys)| == 0 <==> keys == []
  {
    if keys != [] {
      assert keys[0] in Copied(body, keys);
    }
  }

  /** The two copies together take every key of the body. */
  lemma CopiesCoverBody(body: Body)
    ensures UpdateFields(body).Keys + NewExtras(body).Keys == KeySet(body)
  {
  }

  /** The "no valid fields" reply comes exactly for an empty body on an owned
      lead without extra fields; any key at all, even one whose value is
      already current, lets the update go ahead. */
  lemma NoValidFieldsIff(leads: seq<Lead>, id: string, userId: string, body: Body, now: int, lib: Library)
    ensures UpdateOutcome(leads, id, userId, body, now, lib).reply == Failed(400, NoValidFields) <==>
            && lib.isObjectId(id) && lib.isObjectId(userId) && FindOwned(leads, id, userId).Some?
            && body == [] && leads[FindOwned(leads, id, userId).value].extraFields == map[]
  {
    if lib.isObjectId(id) && lib.isObjectId(userId) && FindOwned(leads, id, userId).Some? {
      var i := FindOwned(leads, id, userId).value;
      if UpdateAt(leads, i, body, now, lib).reply == Failed(400, NoValidFields) {
        NoValidFieldsOnlyIfEmpty(leads, i, body, now, lib);
      }
      if body == [] && leads[i].extraFields == map[] {
        NoValidFieldsIfEmpty(leads, i, body, now, lib);
      }
    }
  }

  lemma NoValidFieldsOnlyIfEmpty(leads: seq<Lead>, i: nat, body: Body, now: int, lib: Library)
    requires i < |leads|
    requires UpdateAt(leads, i, body, now, lib).reply == Failed(400, NoValidFields)
    ensures body == [] && leads[i].extraFields == map[]
  {
    var data := UpdateFields(body);
    var incoming := NewExtras(body);
    assert |data| == 0 && |MergeExtras(leads[i].extraFields, incoming)| == 0;
    CopiesCoverBody(body);
    assert KeySet(body) == {};
    NoKeysNoEntries(body);
  }

  lemma NoKeysNoEntries(b: seq<Entry>)
    requires KeySet(b) == {}
    ensures b == []
  {
    if b != [] {
      FirstKeyIn(b);
    }
  }

  lemma FirstKeyIn(b: seq<Entry>)
    requires b != []
    ensures b[0].0 in KeySet(b)
  {
    assert b[0] in b;
  }

  lemma NoValidFieldsIfEmpty(leads: seq<Lead>, i: nat, body: Body, now: int, lib: Library)
    requires i < |leads| && body == [] && leads[i].extraFields == map[]
    ensures UpdateAt(leads, i, body, now, lib).reply == Failed(400, NoValidFields)
  {
  }

  /** An accepted update leaves the fields the body does not name as they were,
      sets the named ones, and stores the merged extra fields: the union of
      the old and new keys, new values winning. */
  lemma UpdatedLeadFields(leads: seq<Lead>, id: string, userId: string, body: Body, now: int, lib: Library)
    requires UpdateOutcome(leads, id, userId, body, now, lib).reply.Updated?
    ensures FindOwned(leads, id, userId).Some?
    ensures var i := FindOwned(leads, id, userId).value;
            var o := UpdateOutcome(leads, id, userId, body, now, lib);
            && o.leads == leads[i := o.reply.lead] && o.reply.lead.updatedAt == now
            && FieldsFromBody(leads[i], o.reply.lead, body, lib)
            && ExtrasFromBody(leads[i], o.reply.lead, body)
  {
    var i := FindOwned(leads, id, userId).value;
    UpdateAtFields(leads, i, body, now, lib);
    UpdateAtExtras(leads, i, body, now, lib);
  }

  /** The fixed fields of `l` are those of `before`, except the ones `body`
      names, which hold the body's values as the store casts them. */
  ghost predicate FieldsFromBody(before: Lead, l: Lead, body: Body, lib: Library) {
    && (Lookup(body, "name").None? ==> l.name == before.name)
    && (Lookup(body, "email").None? ==> l.email == before.email)
    && (Lookup(body, "phone").None? ==> l.phone == before.phone)
    && (Lookup(body, "source").None? ==> l.source == before.source)
    && (Lookup(body, "status").None? ==> l.status == before.status)
    && (Lookup(body, "message").None? ==> l.message == before.message)
    && (Lookup(body, "name").Some? ==> Castable(Lookup(body, "name").value) && l.name == OptionalText(Lookup(body, "name").value))
    && (Lookup(body, "email").Some? ==> EmailValue(lib, Lookup(body, "email").value) == Some(l.email))
    && (Lookup(body, "phone").Some? ==> Castable(Lookup(body, "phone").value) && l.phone == OptionalText(Lookup(body, "phone").value))
    && (Lookup(body, "source").Some? ==> Castable(Lookup(body, "source").value) && l.source == OptionalText(Lookup(body, "source").value))
    && (Lookup(body, "status").Some? ==> StatusValue(Lookup(body, "status").value) == Some(l.status))
    && (Lookup(body, "message").Some? ==> Castable(Lookup(body, "message").value) && l.message == OptionalText(Lookup(body, "message").value))
  }

  /** The extra fields of `l` are the union of the old ones and the ones
      `body` brings, the body's values winning. */
  ghost predicate ExtrasFromBody(before: Lead, l: Lead, body: Body) {
    var incoming := NewExtras(body);
    && l.extraFields.Keys == before.extraFields.Keys + incoming.Keys
    && (forall k :: k in incoming ==> l.extraFields[k] == incoming[k] && Lookup(body, k) == Some(incoming[k]))
    && (forall k :: k in before.extraFields && k !in incoming ==> l.extraFields[k] == before.extraFields[k])
  }

  lemma UpdateAtFields(leads: seq<Lead>, i: nat, body: Body, now: int, lib: Library)
    requires i < |leads| && UpdateAt(leads, i, body, now, lib).reply.Updated?
    ensures UpdateAt(leads, i, body, now, lib).reply.lead.updatedAt == now
    ensures FieldsFromBody(leads[i], UpdateAt(leads, i, body, now, lib).reply.lead, body, lib)
  {
    var data := UpdateFields(body);
    assert UpdateCasts(data) && UpdateAccepted(lib, data);
    forall f | f in AllowedFields
      ensures (f in data <==> Lookup(body, f).Some?) && (f in data ==> data[f] == Lookup(body, f).value)
    {
    }
  }

  lemma UpdateAtExtras(leads: seq<Lead>, i: nat, body: Body, now: int, lib: Library)
    requires i < |leads| && UpdateAt(leads, i, body, now, lib).reply.Updated?
    ensures ExtrasFromBody(leads[i], UpdateAt(leads, i, body, now, lib).reply.lead, body)
  {
  }

  // ---------------------------------------------------------------- deleteLead

  function Without(leads: seq<Lead>, id: string): (r: seq<Lead>)
    ensures |r| <= |leads|
    ensures forall i :: 0 <= i < |r| ==> r[i].id != id && r[i] in leads
    ensures forall i :: 0 <= i < |leads| && leads[i].id != id ==> leads[i] in r
  {
    if leads == [] then []
    else
      assert forall i :: 1 <= i < |leads| ==> leads[i] == leads[1..][i - 1];
      (if leads[0].id == id then [] else [leads[0]]) + Without(leads[1..], id)
  }

  lemma {:induction false} WithoutConcat(a: seq<Lead>, b: seq<Lead>, id: string)
    ensures Without(a + b, id) == Without(a, id) + Without(b, id)
  {
    if a == [] {
      assert a + b == b;
    } else {
      assert a + b == [a[0]] + (a[1..] + b);
      assert (a + b)[0] == a[0];
      assert (a + b)[1..] == a[1..] + b;
      WithoutConcat(a[1..], b, id);
    }
  }

  lemma {:induction false} WithoutAbsent(leads: seq<Lead>, id: string)
    requires IdUnused(leads, id)
    ensures Without(leads, id) == leads
  {
    if leads != [] {
      WithoutAbsent(leads[1..], id);
    }
  }

  lemma SliceIdUnused(leads: seq<Lead>, lo: nat, hi: nat, id: string)
    requires lo <= hi <= |leads|
    requires forall j :: lo <= j < hi ==> leads[j].id != id
    ensures IdUnused(leads[lo..hi], id)
  {
    forall j | 0 <= j < hi - lo
      ensures leads[lo..hi][j].id != id
    {
      assert leads[lo..hi][j] == leads[lo + j];
    }
  }

  /** Deleting a stored lead removes exactly that one record. */
  lemma {:induction false} DeleteRemovesOne(leads: seq<Lead>, k: nat)
    requires IdsUnique(leads) && k < |leads|
    ensures Without(leads, leads[k].id) == leads[..k] + leads[k + 1..]
  {
    var id := leads[k].id;
    var tail := leads[1..];
    if k == 0 {
      SliceIdUnused(leads, 1, |leads|, id);
      assert leads[1..|leads|] == tail;
      WithoutAbsent(tail, id);
    } else {
      assert tail[k - 1] == leads[k];
      TailUnique(leads);
      DeleteRemovesOne(tail, k - 1);
      assert leads[0].id != id;
      SplitAround(leads, k);
    }
  }

  lemma TailUnique(leads: seq<Lead>)
    requires IdsUnique(leads) && leads != []
    ensures IdsUnique(leads[1..])
  {
    assert forall i :: 0 <= i < |leads[1..]| ==> leads[1..][i] == leads[i + 1];
  }

  lemma SplitAround(leads: seq<Lead>, k: nat)
    requires 0 < k < |leads|
    ensures leads[..k] + leads[k + 1..] == [leads[0]] + (leads[1..][..k - 1] + leads[1..][k..])
  {
    assert leads[..k] == [leads[0]] + leads[1..][..k - 1];
    assert leads[k + 1..] == leads[1..][k..];
  }

  // ---------------------------------------------------------------- the store

  /** The stored leads the handlers read and write. */
  class LeadStore {
    var leads: seq<Lead>

    ghost predicate Valid()
      reads this
    {
      IdsUnique(leads) && forall i :: 0 <= i < |leads| ==> Conforms(leads[i])
    }

    constructor ()
      ensures leads == [] && Valid()
    {
      leads := [];
    }

    /** `createLead`. */
    method CreateLead(freshId: string, userId: string, body: Body, now: int, lib: Library) returns (reply: LeadReply)
      requires Valid() && IdUnused(leads, freshId)
      modifies this
      ensures Valid()
      ensures var o := CreateOutcome(old(leads), freshId, userId, CreateInput(body), now, lib);
              leads == o.leads && reply == o.reply
    {
      var o := CreateOutcome(leads, freshId, userId, CreateInput(body), now, lib);
      if o.reply.Created? {
        CreatedLead(leads, freshId, userId, body, now, lib);
      }
      leads, reply := o.leads, o.reply;
    }

    /** `getClientLeads`. */
    method GetClientLeads(userId: string) returns (reply: LeadReply)
      ensures reply.Listed? && reply.count == |reply.data|
      ensures NewestFirst(reply.data)
      ensures forall l :: l in reply.data <==> l in leads && l.ownerId == userId
      ensures forall l :: multiset(reply.data)[l] == if l.ownerId == userId then multiset(leads)[l] else 0
    {
      var data := ClientLeads(leads, userId);
      ClientLeadsAreOwnedAndSorted(leads, userId);
      reply := Listed(|data|, data);
    }

    /** `updateLead`. */
    method UpdateLead(id: string, userId: string, body: Body, now: int, lib: Library) returns (reply: LeadReply)
      requires Valid()
      modifies this
      ensures Valid()
      ensures var o := UpdateOutcome(old(leads), id, userId, body, now, lib);
              leads == o.leads && reply == o.reply
    {
      ghost var o := UpdateOutcome(leads, id, userId, body, now, lib);
      UpdateKeepsValid(leads, id, userId, body, now, lib);
      var data := CopyPresent(body, AllowedFields);
      if !lib.isObjectId(id) || !lib.isObjectId(userId) {
        return Failed(400, InvalidLeadId);
      }
      var found := FindOwned(leads, id, userId);
      if found.None? {
        return Failed(404, LeadNotFound);
      }
      var i := found.value;
      assert o == UpdateAt(leads, i, body, now, lib);
      var incoming := CopyPresent(body, KeysNotIn(body, AllowedFields));
      var merged := MergeExtras(leads[i].extraFields, incoming);
      var extras: Option<map<string, JsValue>> := None;
      if |merged| > 0 {
        extras := Some(merged);
      }
      if |data| == 0 && extras.None? {
        return Failed(400, NoValidFields);
      }
      if !UpdateCasts(data) {
        return Failed(400, InvalidLeadId);
      }
      if !UpdateAccepted(lib, data) {
        return Failed(400, ValidationFailed);
      }
      var updated := ApplyUpdate(leads[i], data, extras, now, lib);
      leads := leads[i := updated];
      reply := Updated(updated);
    }

    /** `deleteLead` on the lead the request carries. */
    method DeleteLead(target: Lead) returns (reply: LeadReply)
      requires Valid()
      modifies this
      ensures Valid()
      ensures leads == Without(old(leads), target.id) && reply == Deleted
    {
      WithoutKeepsValid(leads, target.id);
      leads := Without(leads, target.id);
      reply := Deleted;
    }
  }

  lemma UpdateKeepsValid(leads: seq<Lead>, id: string, userId: string, body: Body, now: int, lib: Library)
    requires IdsUnique(leads) && forall i :: 0 <= i < |leads| ==> Conforms(leads[i])
    ensures var r := UpdateOutcome(leads, id, userId, body, now, lib).leads;
            IdsUnique(r) && forall i :: 0 <= i < |r| ==> Conforms(r[i])
  {
    var r := UpdateOutcome(leads, id, userId, body, now, lib).leads;
    assert forall i :: 0 <= i < |r| ==> r[i].id == leads[i].id;
  }

  lemma WithoutKeepsValid(leads: seq<Lead>, id: string)
    requires IdsUnique(leads) && forall i :: 0 <= i < |leads| ==> Conforms(leads[i])
    ensures IdsUnique(Without(leads, id)) && forall i :: 0 <= i < |Without(leads, id)| ==> Conforms(Without(leads, id)[i])
  {
    if leads != [] {
      var tail := leads[1..];
      assert forall j :: 0 <= j < |tail| ==> tail[j] == leads[j + 1];
      WithoutKeepsValid(tail, id);
      var r := Without(tail, id);
      if leads[0].id != id {
        assert forall l :: l in r ==> l in tail;
        assert forall l :: l in tail ==> l.id != leads[0].id;
      }
    }
  }

  /** The copy loop of `updateLead`: each key of `keys` the body has is copied
      with the body's value. */
  method CopyPresent(body: Body, keys: seq<string>) returns (m: map<string, JsValue>)
    ensures m == Copied(body, keys)
    ensures m.Keys == (set k | k in keys) * KeySet(body)
    ensures forall k :: k in m ==> Lookup(body, k) == Some(m[k])
  {
    m := map[];
    for i := 0 to |keys|
      invariant m == Copied(body, keys[..i])
    {
      assert keys[..i + 1][..i] == keys[..i];
      var v := Lookup(body, keys[i]);
      if v.Some? {
        m := m[keys[i] := v.value];
      }
    }
    assert keys[..|keys|] == keys;
  }
}
