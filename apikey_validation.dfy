/** The validator chains of the API-key routes: who may be issued a key, the
    window an expiry date must fall in, and the lookup of an existing key. A
    passing id check attaches what it found to the request. */
module ApiKeyValidation {
  import opened Text
  import opened Js
  import opened ValidationGate
  import opened UserModel
  import opened ApiKeyModel

  const ClientIdRequired: string := "Client ID is required"
  const ClientNotFound: string := "Client not found or not verified"
  const ClientHasActiveKey: string := "Client already has an active API key"
  const InvalidClientId: string := "Invalid client ID format"
  const ApiKeyIdRequired: string := "API Key ID is required"
  const ApiKeyNotFound: string := "API key not found"
  const InvalidApiKeyId: string := "Invalid API key ID format"
  const ExpiryRequired: string := "Expiration date is required"
  const ExpiryFormat: string := "Invalid date format. Please use ISO 8601 format (YYYY-MM-DD)"
  const ExpiryNotFuture: string := "Expiration date must be in the future"
  const ExpiryTooFar: string := "Expiration date cannot be more than 1 year from now"

  /** The stored users and API keys the checks query. */
  datatype Store = Store(users: seq<User>, apiKeys: seq<ApiKey>)

  /** What the body of a `try` can throw: the store's cast error for a
      malformed id, or an error with a message. */
  datatype Thrown = CastError | Raised(message: string)

  /** The `catch`: a cast error becomes the given message, every other error
      goes on unchanged. */
  function Rethrow(e: Thrown, castMessage: string): (m: string)
    ensures e.CastError? ==> m == castMessage
    ensures e.Raised? ==> m == e.message
  {
    match e
    case CastError => castMessage
    case Raised(msg) => msg
  }

  /** `User.findOne({ _id, role: 'client', isEmailVerified: true })`. */
  function FindVerifiedClient(users: seq<User>, id: string): (r: Option<User>)
    ensures r.Some? ==> r.value in users && r.value.id == id && r.value.role == "client" && r.value.isEmailVerified
    ensures r.None? <==> forall i :: 0 <= i < |users| ==>
              !(users[i].id == id && users[i].role == "client" && users[i].isEmailVerified)
  {
    if users == [] then None
    else if users[0].id == id && users[0].role == "client" && users[0].isEmailVerified then Some(users[0])
    else FindVerifiedClient(users[1..], id)
  }

  /** `ApiKey.findOne({ clientId, expiresAt: { $gt: now } })` finds a record;
      the query does not look at `revoked`. */
  predicate HasUnexpiredKey(keys: seq<ApiKey>, clientId: string, now: int) {
    exists i :: 0 <= i < |keys| && keys[i].clientId == clientId && Unexpired(keys[i], now)
  }

  /** The body of the client-id check's `try`. `fault` is an error the store
      raises instead of answering. */
  function ClientLookup(lib: Library, store: Store, clientId: string, now: int, fault: Option<string>): Result<User, Thrown> {
    if !lib.isObjectId(clientId) then Failure(CastError)
    else if fault.Some? then Failure(Raised(fault.value))
    else match FindVerifiedClient(store.users, clientId)
      case None => Failure(Raised(ClientNotFound))
      case Some(client) =>
        if HasUnexpiredKey(store.apiKeys, client.id, now) then Failure(Raised(ClientHasActiveKey))
        else Success(client)
  }

  /** The client-id custom check: the client to attach, or the error message. */
  function ClientCheck(lib: Library, store: Store, clientId: string, now: int, fault: Option<string>): Result<User, string> {
    match ClientLookup(lib, store, clientId, now, fault)
    case Success(client) => Success(client)
    case Failure(e) => Failure(Rethrow(e, InvalidClientId))
  }

  /** A key may be issued only to a stored, e-mail-verified user of role
      client that holds no unexpired key; that user is the one attached. */
  lemma ClientCheckPassesIff(lib: Library, store: Store, clientId: string, now: int, fault: Option<string>)
    ensures ClientCheck(lib, store, clientId, now, fault).Success? <==>
            && lib.isObjectId(clientId) && fault.None?
            && (exists i :: 0 <= i < |store.users| && store.users[i].id == clientId
                            && store.users[i].role == "client" && store.users[i].isEmailVerified)
            && !HasUnexpiredKey(store.apiKeys, clientId, now)
    ensures ClientCheck(lib, store, clientId, now, fault).Success? ==>
            var c := ClientCheck(lib, store, clientId, now, fault).value;
            c in store.users && c.id == clientId && c.role == "client" && c.isEmailVerified
  {
    if lib.isObjectId(clientId) && fault.None? {
      var found := FindVerifiedClient(store.users, clientId);
      if found.None? {
        assert !exists i :: 0 <= i < |store.users| && store.users[i].id == clientId
                            && store.users[i].role == "client" && store.users[i].isEmailVerified;
      }
    }
  }

  /** The error messages of the client-id check. */
  lemma ClientCheckMessages(lib: Library, store: Store, clientId: string, now: int, fault: Option<string>)
    ensures !lib.isObjectId(clientId) ==> ClientCheck(lib, store, clientId, now, fault) == Failure(InvalidClientId)
    ensures lib.isObjectId(clientId) && fault.Some? ==> ClientCheck(lib, store, clientId, now, fault) == Failure(fault.value)
    ensures lib.isObjectId(clientId) && fault.None? && FindVerifiedClient(store.users, clientId).None? ==>
              ClientCheck(lib, store, clientId, now, fault) == Failure(ClientNotFound)
  {
  }

  /** A revoked key that has not expired still blocks a new one. */
  lemma RevokedUnexpiredKeyBlocks(lib: Library, store: Store, clientId: string, now: int, k: nat)
    requires lib.isObjectId(clientId)
    requires FindVerifiedClient(store.users, clientId).Some?
    requires k < |store.apiKeys| && store.apiKeys[k].clientId == clientId
    requires store.apiKeys[k].revoked && store.apiKeys[k].expiresAt > now
    ensures ClientCheck(lib, store, clientId, now, None) == Failure(ClientHasActiveKey)
  {
    assert Unexpired(store.apiKeys[k], now);
  }

  /** The expiry date check on `new Date(value)`; `date` is None for an
      invalid date, which no comparison rejects. Gives the error message. */
  function ExpiryWindow(date: Option<int>, now: int, oneYearFromNow: int): (r: Option<string>)
    ensures date.None? ==> r.None?
    ensures date.Some? ==> (r.None? <==> now < date.value <= oneYearFromNow)
    ensures date.Some? && date.value <= now ==> r == Some(ExpiryNotFuture)
    ensures date.Some? && now < date.value && oneYearFromNow < date.value ==> r == Some(ExpiryTooFar)
  {
    match date
    case None => None
    case Some(d) =>
      if d <= now then Some(ExpiryNotFuture)
      else if d > oneYearFromNow then Some(ExpiryTooFar)
      else None
  }

  /** The bounds: "now" itself is refused, the one-year bound itself is accepted. */
  lemma ExpiryWindowBounds(now: int, oneYearFromNow: int)
    requires now < oneYearFromNow
    ensures ExpiryWindow(Some(now), now, oneYearFromNow) == Some(ExpiryNotFuture)
    ensures ExpiryWindow(Some(oneYearFromNow), now, oneYearFromNow) == None
    ensures ExpiryWindow(Some(oneYearFromNow + 1), now, oneYearFromNow) == Some(ExpiryTooFar)
  {
  }

  /** The `expiresAt` chain: required, ISO 8601, then the date window; every
      failing check reports. `now` and `oneYearFromNow` are read by the check. */
  function ExpiresAtErrors(lib: Library, expiresAt: Option<JsValue>, now: int, oneYearFromNow: int): (errs: seq<ValidationError>)
    ensures errs == [] <==>
            var t := ChainText(expiresAt);
            t != "" && lib.isISO8601(t) && ExpiryWindow(lib.parseDate(t), now, oneYearFromNow).None?
    ensures forall i :: 0 <= i < |errs| ==> errs[i].param == "expiresAt"
  {
    var t := ChainText(expiresAt);
    Tag("expiresAt",
        (if t == "" then [ExpiryRequired] else [])
        + (if lib.isISO8601(t) then [] else [ExpiryFormat])
        + (match ExpiryWindow(lib.parseDate(t), now, oneYearFromNow) case Some(m) => [m] case None => []))
  }

  /** How a check of a route parameter reports: `trim()`, a required check,
      then the custom check's message if it failed. */
  function ParamErrors<T>(param: string, value: string, required: string, custom: Result<T, string>): (errs: seq<ValidationError>)
    ensures errs == [] <==> value != "" && custom.Success?
    ensures forall i :: 0 <= i < |errs| ==> errs[i].param == param
  {
    Tag(param, (if value == "" then [required] else []) + (if custom.Failure? then [custom.error] else []))
  }

  /** `generateApiKeyValidation`. `keyNow` is the time the active-key query
      compares with. */
  function GenerateErrors(lib: Library, store: Store, clientId: string, expiresAt: Option<JsValue>,
                          keyNow: int, now: int, oneYearFromNow: int, fault: Option<string>): (errs: seq<ValidationError>)
    ensures errs == [] <==>
            && Trim(clientId) != "" && ClientCheck(lib, store, Trim(clientId), keyNow, fault).Success?
            && ExpiresAtErrors(lib, expiresAt, now, oneYearFromNow) == []
  {
    var id := Trim(clientId);
    ParamErrors("clientId", id, ClientIdRequired, ClientCheck(lib, store, id, keyNow, fault))
    + ExpiresAtErrors(lib, expiresAt, now, oneYearFromNow)
  }

  /** The API-key id custom check shared by toggle and regenerate: the key to
      attach, or the error message. */
  function ApiKeyCheck(lib: Library, store: Store, apiKeyId: string, fault: Option<string>): (r: Result<ApiKey, string>)
    ensures !lib.isObjectId(apiKeyId) ==> r == Failure(InvalidApiKeyId)
    ensures lib.isObjectId(apiKeyId) && fault.Some? ==> r == Failure(fault.value)
    ensures lib.isObjectId(apiKeyId) && fault.None? ==>
              ((r == Failure(ApiKeyNotFound)) <==> forall i :: 0 <= i < |store.apiKeys| ==> store.apiKeys[i].id != apiKeyId)
    ensures r.Success? ==> r.value in store.apiKeys && r.value.id == apiKeyId
  {
    var thrown: Result<ApiKey, Thrown> :=
      if !lib.isObjectId(apiKeyId) then Failure(CastError)
      else if fault.Some? then Failure(Raised(fault.value))
      else match FindById(store.apiKeys, apiKeyId)
        case None => Failure(Raised(ApiKeyNotFound))
        case Some(k) => Success(k);
    match thrown
    case Success(k) => Success(k)
    case Failure(e) => Failure(Rethrow(e, InvalidApiKeyId))
  }

  /** `toggleApiKeyStatusValidation`. */
  function ToggleErrors(lib: Library, store: Store, apiKeyId: string, fault: Option<string>): (errs: seq<ValidationError>)
    ensures errs == [] <==> Trim(apiKeyId) != "" && ApiKeyCheck(lib, store, Trim(apiKeyId), fault).Success?
    ensures forall i :: 0 <= i < |errs| ==> errs[i].param == "apiKeyId"
  {
    var id := Trim(apiKeyId);
    ParamErrors("apiKeyId", id, ApiKeyIdRequired, ApiKeyCheck(lib, store, id, fault))
  }

  /** `regenerateApiKeyValidation`: the toggle check followed by the same
      `expiresAt` chain as generation. */
  function RegenerateErrors(lib: Library, store: Store, apiKeyId: string, expiresAt: Option<JsValue>,
                            now: int, oneYearFromNow: int, fault: Option<string>): (errs: seq<ValidationError>)
    ensures errs == [] <==>
            && Trim(apiKeyId) != "" && ApiKeyCheck(lib, store, Trim(apiKeyId), fault).Success?
            && ExpiresAtErrors(lib, expiresAt, now, oneYearFromNow) == []
  {
    ToggleErrors(lib, store, apiKeyId, fault) + ExpiresAtErrors(lib, expiresAt, now, oneYearFromNow)
  }

  /** Toggle and regenerate pass their id check iff a key with that id exists
      (on a well-formed id and an answering store). */
  lemma ApiKeyFoundIff(lib: Library, store: Store, apiKeyId: string)
    requires lib.isObjectId(Trim(apiKeyId)) && Trim(apiKeyId) != ""
    ensures ToggleErrors(lib, store, apiKeyId, None) == [] <==>
            exists i :: 0 <= i < |store.apiKeys| && store.apiKeys[i].id == Trim(apiKeyId)
  {
  }

  /** Once their id checks pass, generation and regeneration accept exactly
      the same `expiresAt` values. */
  lemma RegenerateDateRuleIsGenerateRule(lib: Library, store: Store, clientId: string, apiKeyId: string,
                                         expiresAt: Option<JsValue>, keyNow: int, now: int, oneYearFromNow: int)
    requires Trim(clientId) != "" && ClientCheck(lib, store, Trim(clientId), keyNow, None).Success?
    requires Trim(apiKeyId) != "" && ApiKeyCheck(lib, store, Trim(apiKeyId), None).Success?
    ensures GenerateErrors(lib, store, clientId, expiresAt, keyNow, now, oneYearFromNow, None) == [] <==>
            RegenerateErrors(lib, store, apiKeyId, expiresAt, now, oneYearFromNow, None) == []
  {
  }

  /** The request the chains run on: the errors they collect and what the id
      checks attach (`req.client`, `req.apiKey`). */
  class ApiKeyRequest {
    var errors: seq<ValidationError>
    var client: Option<User>
    var apiKey: Option<ApiKey>

    constructor ()
      ensures errors == [] && client == None && apiKey == None
    {
      errors, client, apiKey := [], None, None;
    }

    /** Runs `generateApiKeyValidation`; a passing client check attaches the client. */
    method RunGenerateValidation(lib: Library, store: Store, clientId: string, expiresAt: Option<JsValue>,
                                 keyNow: int, now: int, oneYearFromNow: int, fault: Option<string>)
      modifies this
      ensures errors == old(errors) + GenerateErrors(lib, store, clientId, expiresAt, keyNow, now, oneYearFromNow, fault)
      ensures var c := ClientCheck(lib, store, Trim(clientId), keyNow, fault);
              client == if c.Success? then Some(c.value) else old(client)
      ensures apiKey == old(apiKey)
    {
      var c := ClientCheck(lib, store, Trim(clientId), keyNow, fault);
      if c.Success? {
        client := Some(c.value);
      }
      errors := errors + GenerateErrors(lib, store, clientId, expiresAt, keyNow, now, oneYearFromNow, fault);
    }

    /** Runs `toggleApiKeyStatusValidation`; a passing check attaches the key. */
    method RunToggleValidation(lib: Library, store: Store, apiKeyId: string, fault: Option<string>)
      modifies this
      ensures errors == old(errors) + ToggleErrors(lib, store, apiKeyId, fault)
      ensures var k := ApiKeyCheck(lib, store, Trim(apiKeyId), fault);
              apiKey == if k.Success? then Some(k.value) else old(apiKey)
      ensures client == old(client)
    {
      var k := ApiKeyCheck(lib, store, Trim(apiKeyId), fault);
      if k.Success? {
        apiKey := Some(k.value);
      }
      errors := errors + ToggleErrors(lib, store, apiKeyId, fault);
    }

    /** Runs `regenerateApiKeyValidation`; a passing check attaches the key. */
    method RunRegenerateValidation(lib: Library, store: Store, apiKeyId: string, expiresAt: Option<JsValue>,
                                   now: int, oneYearFromNow: int, fault: Option<string>)
      modifies this
      ensures errors == old(errors) + RegenerateErrors(lib, store, apiKeyId, expiresAt, now, oneYearFromNow, fault)
      ensures var k := ApiKeyCheck(lib, store, Trim(apiKeyId), fault);
              apiKey == if k.Success? then Some(k.value) else old(apiKey)
      ensures client == old(client)
    {
      var k := ApiKeyCheck(lib, store, Trim(apiKeyId), fault);
      if k.Success? {
        apiKey := Some(k.value);
      }
      errors := errors + RegenerateErrors(lib, store, apiKeyId, expiresAt, now, oneYearFromNow, fault);
    }
  }
}
