/** `POST /api/leads`: the role guard for clients, the lead validators, the
    validation gate and then `createLead`, each stage stopping the request or
    passing it on. */
module LeadRoutes {
  import opened Text
  import opened Js
  import opened ValidationGate
  import opened RoleGuard
  import opened LeadModel
  import opened LeadValidation
  import opened LeadController

  /** The roles the lead routes admit. */
  const LeadRoles: seq<string> := ["client"]

  /** Which stage answered. */
  datatype PostReply =
    | Guarded(guard: GuardReply)
    | Gated(gate: Gate)
    | Handled(reply: LeadReply)

  datatype PostOutcome = PostOutcome(leads: seq<Lead>, reply: PostReply)

  /** The fields `createLead` reads from the sanitized body. The sanitizers
      rewrite only destructured keys, so the extra fields are the body's own. */
  function SanitizedInput(lib: Library, body: Body): LeadInput {
    LeadInput(SanitizedValue(lib, body, "name"), SanitizedValue(lib, body, "email"),
              SanitizedValue(lib, body, "phone"), SanitizedValue(lib, body, "source"),
              SanitizedValue(lib, body, "message"), CreateExtras(body))
  }

  /** The route for the authenticated `user`; `freshId` is the id the store
      assigns. */
  function PostLead(leads: seq<Lead>, freshId: string, user: AuthUser, body: Body, now: int, lib: Library): (r: PostOutcome)
    ensures !r.reply.Handled? ==> r.leads == leads
  {
    match VerifyRole(LeadRoles, user)
    case Deny(_, _, _) => PostOutcome(leads, Guarded(VerifyRole(LeadRoles, user)))
    case Pass(u) =>
      match Validate(CreateLeadValidation(lib, body))
      case Respond(_, _, _) => PostOutcome(leads, Gated(Validate(CreateLeadValidation(lib, body))))
      case Next =>
        var o := CreateOutcome(leads, freshId, u.userId, SanitizedInput(lib, body), now, lib);
        PostOutcome(o.leads, Handled(o.reply))
  }

  /** A user of any other role is turned away with 401 before the body is
      looked at, and nothing is stored. */
  lemma NonClientIsDenied(leads: seq<Lead>, freshId: string, user: AuthUser, body: Body, now: int, lib: Library)
    requires user.role != "client"
    ensures PostLead(leads, freshId, user, body, now, lib) == PostOutcome(leads, Guarded(Deny(401, false, DenyMessage)))
  {
  }

  /** A client's body that breaks a rule is answered 400 with the errors, and
      nothing is stored. */
  lemma InvalidBodyIsRejected(leads: seq<Lead>, freshId: string, user: AuthUser, body: Body, now: int, lib: Library)
    requires user.role == "client" && !LeadBodyValid(lib, body)
    ensures var r := PostLead(leads, freshId, user, body, now, lib);
            && r.leads == leads && r.reply.Gated? && r.reply.gate.Respond? && r.reply.gate.status == 400
            && |r.reply.gate.errors| == |CreateLeadValidation(lib, body)|
  {
    CreateLeadValidationPasses(lib, body);
  }

  /** A request reaches `createLead` only from a client, with a body that
      passed every rule, and the handler then sees the sanitized fields. */
  lemma HandledOnlyIfAdmitted(leads: seq<Lead>, freshId: string, user: AuthUser, body: Body, now: int, lib: Library)
    requires PostLead(leads, freshId, user, body, now, lib).reply.Handled?
    ensures user.role == "client" && LeadBodyValid(lib, body)
    ensures var o := CreateOutcome(leads, freshId, user.userId, SanitizedInput(lib, body), now, lib);
            PostLead(leads, freshId, user, body, now, lib) == PostOutcome(o.leads, Handled(o.reply))
  {
    CreateLeadValidationPasses(lib, body);
  }

  /** Conversely, a client whose body passes every rule reaches `createLead`
      with the sanitized fields. */
  lemma AdmittedIsHandled(leads: seq<Lead>, freshId: string, user: AuthUser, body: Body, now: int, lib: Library)
    requires user.role == "client" && LeadBodyValid(lib, body)
    ensures PostLead(leads, freshId, user, body, now, lib).reply.Handled?
    ensures var o := CreateOutcome(leads, freshId, user.userId, SanitizedInput(lib, body), now, lib);
            PostLead(leads, freshId, user, body, now, lib) == PostOutcome(o.leads, Handled(o.reply))
  {
    CreateLeadValidationPasses(lib, body);
  }

  /** The e-mail the store keeps for a body that passed the rules. */
  lemma SanitizedEmailStored(lib: Library, body: Body)
    requires LeadBodyValid(lib, body)
    requires EmailValue(lib, SanitizedInput(lib, body).email).Some?
    ensures EmailValue(lib, SanitizedInput(lib, body).email).value ==
            lib.toLowerCase(Trim(lib.normalizeEmail(ChainText(Lookup(body, "email")))))
  {
  }

  /** The extra fields of a body that passed the rules: each is a body entry
      outside the destructured keys that passed the extra-field rules,
      except `status`, which those rules never check. */
  lemma CheckedExtras(lib: Library, body: Body)
    requires LeadBodyValid(lib, body)
    ensures CreateExtras(body).Keys == KeySet(body) - CreateExcluded
    ensures forall k :: k in CreateExtras(body) ==>
              && Lookup(body, k) == Some(CreateExtras(body)[k])
              && (k == "status" || ExtraFieldOk(k, CreateExtras(body)[k]))
  {
    var m := CreateExtras(body);
    CreateExtrasFromBody(body);
    forall k | k in m
      ensures k == "status" || ExtraFieldOk(k, m[k])
    {
      var i :| 0 <= i < |body| && body[i].0 == k;
      LookupEntry(body, i);
      if k != "status" {
        assert body[i].0 !in CheckedFixedFields;
      }
    }
  }

  /** A created lead came from a client, from a body that passed every rule;
      it belongs to that client, is appended to the store, holds the
      normalized and lowercased e-mail, and its extra fields are body entries
      outside the destructured keys that each passed the extra-field rules,
      except `status`. */
  lemma CreatedThroughRoute(leads: seq<Lead>, freshId: string, user: AuthUser, body: Body, now: int, lib: Library)
    requires PostLead(leads, freshId, user, body, now, lib).reply.Handled?
    requires PostLead(leads, freshId, user, body, now, lib).reply.reply.Created?
    ensures var r := PostLead(leads, freshId, user, body, now, lib);
            var l := r.reply.reply.lead;
            && user.role == "client" && LeadBodyValid(lib, body)
            && r.leads == leads + [l]
            && l.id == freshId && l.ownerId == user.userId && l.status == DefaultStatus
            && l.email == lib.toLowerCase(Trim(lib.normalizeEmail(ChainText(Lookup(body, "email")))))
            && l.extraFields.Keys == KeySet(body) - CreateExcluded
            && forall k :: k in l.extraFields ==>
                 && Lookup(body, k) == Some(l.extraFields[k])
                 && (k == "status" || ExtraFieldOk(k, l.extraFields[k]))
  {
    HandledOnlyIfAdmitted(leads, freshId, user, body, now, lib);
    var input := SanitizedInput(lib, body);
    CreatedFromInput(leads, freshId, user.userId, input, now, lib);
    SanitizedEmailStored(lib, body);
    CheckedExtras(lib, body);
  }

  const ExampleEmail: string := "a@b.com"

  /** The library behaviour the examples rely on: the address is valid, and
      normalizing and lowercasing leave it alone. */
  predicate ExampleLibrary(lib: Library) {
    lib.isEmail(ExampleEmail) && lib.normalizeEmail(ExampleEmail) == ExampleEmail
    && lib.toLowerCase(ExampleEmail) == ExampleEmail
  }

  /** `{ email: "a@b.com", campaign: "fall24" }` */
  const CampaignBody: Body := [("email", Str(ExampleEmail)), ("campaign", Str("fall24"))]

  /** `{ email: "a@b.com", status: {} }` */
  const ObjectStatusBody: Body := [("email", Str(ExampleEmail)), ("status", Obj([]))]

  lemma ExampleEmailIsTrimmed()
    ensures Trim(ExampleEmail) == ExampleEmail
  {
    TrimmedIsFixed(ExampleEmail);
  }

  /** The entries of `{ email: "a@b.com", campaign: "fall24" }` as the validators read them. */
  lemma CampaignReads()
    ensures Lookup(CampaignBody, "email") == Some(Str(ExampleEmail))
    ensures Lookup(CampaignBody, "campaign") == Some(Str("fall24"))
    ensures forall f :: f in TrimmedFields ==> Lookup(CampaignBody, f) == None
    ensures ExtraKeys(CampaignBody) == ["campaign"]
  {
    var tail: seq<Entry> := [("campaign", Str("fall24"))];
    assert CampaignBody[1..] == tail;
    assert tail[1..] == [];
    assert KeySet(CampaignBody) == {"email", "campaign"};
    assert KeysNotIn(tail, CheckedFixedFields) == ["campaign"];
  }

  /** The entries of `{ email: "a@b.com", status: {} }` as the validators read them. */
  lemma ObjectStatusReads()
    ensures Lookup(ObjectStatusBody, "email") == Some(Str(ExampleEmail))
    ensures Lookup(ObjectStatusBody, "status") == Some(Obj([]))
    ensures forall f :: f in TrimmedFields ==> Lookup(ObjectStatusBody, f) == None
    ensures ExtraKeys(ObjectStatusBody) == []
  {
    var tail: seq<Entry> := [("status", Obj([]))];
    assert ObjectStatusBody[1..] == tail;
    assert tail[1..] == [];
    assert KeySet(ObjectStatusBody) == {"email", "status"};
    assert KeysNotIn(tail, CheckedFixedFields) == [];
  }

  /** The extra field of the campaign example passes its checks. */
  lemma CampaignFieldOk()
    ensures FirstViolation(CampaignBody, ["campaign"]) == None
  {
    var k := "campaign";
    assert ExtraKeyOk(k) by {
      forall i | 0 <= i < |k| ensures KeyChar(k[i]) {
        assert IsLower(k[i]);
      }
    }
    assert Utf16Length("fall24") <= 500;
    CampaignReads();
    assert ["campaign"][1..] == [];
  }

  /** The chains every example body runs: a valid e-mail and no optional field. */
  lemma ExampleChains(lib: Library, body: Body)
    requires ExampleLibrary(lib)
    requires Lookup(body, "email") == Some(Str(ExampleEmail))
    requires forall f :: f in TrimmedFields ==> Lookup(body, f) == None
    ensures CreateLeadValidation(lib, body) ==
            match FirstViolation(body, ExtraKeys(body))
            case Some(m) => [ValidationError("", m)]
            case None => []
  {
    ExampleEmailChain(lib);
    AbsentChains(body);
  }

  lemma ExampleEmailChain(lib: Library)
    requires ExampleLibrary(lib)
    ensures Tag("email", EmailErrors(lib, ChainText(Some(Str(ExampleEmail))))) == []
  {
    ExampleEmailIsTrimmed();
    assert ChainText(Some(Str(ExampleEmail))) == ExampleEmail;
    assert EmailErrors(lib, ExampleEmail) == [];
  }

  lemma AbsentChains(body: Body)
    requires forall f :: f in TrimmedFields ==> Lookup(body, f) == None
    ensures OptionalChain("name", Lookup(body, "name"), NameErrors) == []
    ensures OptionalChain("phone", Lookup(body, "phone"), PhoneErrors) == []
    ensures OptionalChain("source", Lookup(body, "source"), SourceErrors) == []
    ensures OptionalChain("message", Lookup(body, "message"), MessageErrors) == []
  {
    assert "name" in TrimmedFields && "phone" in TrimmedFields;
    assert "source" in TrimmedFields && "message" in TrimmedFields;
  }

  lemma CampaignBodyPasses(lib: Library)
    requires ExampleLibrary(lib)
    ensures CreateLeadValidation(lib, CampaignBody) == []
  {
    CampaignReads();
    CampaignFieldOk();
    ExampleChains(lib, CampaignBody);
  }

  lemma ObjectStatusBodyPasses(lib: Library)
    requires ExampleLibrary(lib)
    ensures CreateLeadValidation(lib, ObjectStatusBody) == []
  {
    ObjectStatusReads();
    ExampleChains(lib, ObjectStatusBody);
  }

  lemma ExampleInputAccepted(lib: Library, body: Body)
    requires ExampleLibrary(lib)
    requires Lookup(body, "email") == Some(Str(ExampleEmail))
    requires forall f :: f in TrimmedFields ==> Lookup(body, f) == None
    ensures var input := SanitizedInput(lib, body);
            EmailValue(lib, input.email) == Some(ExampleEmail) && InputAccepted(lib, input)
  {
    ExampleEmailIsTrimmed();
    var input := SanitizedInput(lib, body);
    assert "name" in TrimmedFields && "phone" in TrimmedFields;
    assert "source" in TrimmedFields && "message" in TrimmedFields;
    assert input.name == Undefined && input.phone == Undefined;
    assert input.source == Undefined && input.message == Undefined;
    assert input.email == Str(ExampleEmail);
  }

  /** A client's example body that passed the rules is stored with the
      example address, the default status and the body's extra fields. */
  lemma ExampleCreated(leads: seq<Lead>, freshId: string, user: AuthUser, body: Body, now: int, lib: Library)
    requires user.role == "client" && lib.isObjectId(user.userId) && ExampleLibrary(lib)
    requires Lookup(body, "email") == Some(Str(ExampleEmail))
    requires forall f :: f in TrimmedFields ==> Lookup(body, f) == None
    requires CreateLeadValidation(lib, body) == []
    ensures var r := PostLead(leads, freshId, user, body, now, lib);
            && r.reply.Handled? && r.reply.reply.Created?
            && r.reply.reply.lead.email == ExampleEmail
            && r.reply.reply.lead.status == New
            && r.reply.reply.lead.extraFields == CreateExtras(body)
  {
    ExampleInputAccepted(lib, body);
    var input := SanitizedInput(lib, body);
    var o := CreateOutcome(leads, freshId, user.userId, input, now, lib);
    CreatedFromInput(leads, freshId, user.userId, input, now, lib);
    assert PostLead(leads, freshId, user, body, now, lib) == PostOutcome(o.leads, Handled(o.reply));
  }

  /** A client that sends `{ email: "a@b.com", campaign: "fall24" }` gets a
      lead with status new and the one extra field `campaign`. */
  lemma CampaignExample(leads: seq<Lead>, freshId: string, user: AuthUser, now: int, lib: Library)
    requires user.role == "client" && lib.isObjectId(user.userId) && ExampleLibrary(lib)
    ensures var r := PostLead(leads, freshId, user, CampaignBody, now, lib);
            && r.reply.Handled? && r.reply.reply.Created?
            && r.reply.reply.lead.email == ExampleEmail
            && r.reply.reply.lead.status == New
            && r.reply.reply.lead.extraFields == map["campaign" := Str("fall24")]
  {
    CampaignReads();
    CampaignBodyPasses(lib);
    CampaignExtras();
    ExampleCreated(leads, freshId, user, CampaignBody, now, lib);
  }

  lemma CampaignExtras()
    ensures CreateExtras(CampaignBody) == map["campaign" := Str("fall24")]
  {
    var m := CreateExtras(CampaignBody);
    assert KeySet(CampaignBody) == {"email", "campaign"} by { CampaignReads(); }
    assert CampaignBody[1].0 == "campaign";
  }

  /** A body `status` is neither checked nor applied: even an object passes
      and is stored as an extra field while the lead's status stays new. */
  lemma ObjectStatusIsStored(leads: seq<Lead>, freshId: string, user: AuthUser, now: int, lib: Library)
    requires user.role == "client" && lib.isObjectId(user.userId) && ExampleLibrary(lib)
    ensures var r := PostLead(leads, freshId, user, ObjectStatusBody, now, lib);
            && r.reply.Handled? && r.reply.reply.Created?
            && r.reply.reply.lead.status == New
            && r.reply.reply.lead.extraFields == map["status" := Obj([])]
  {
    ObjectStatusReads();
    ObjectStatusBodyPasses(lib);
    ObjectStatusExtras();
    ExampleCreated(leads, freshId, user, ObjectStatusBody, now, lib);
  }

  lemma ObjectStatusExtras()
    ensures CreateExtras(ObjectStatusBody) == map["status" := Obj([])]
  {
    var m := CreateExtras(ObjectStatusBody);
    assert KeySet(ObjectStatusBody) == {"email", "status"} by { ObjectStatusReads(); }
    assert ObjectStatusBody[1].0 == "status";
  }
}
