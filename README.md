# Leadro backend core in Dafny

Leadro is an Express/Mongoose backend for collecting sales leads for clients. This project models its request-handling core:

- the lead handlers: create, list, update and delete;
- the validator chains for leads, API keys and client registration;
- the role guard and the validation gate that turns collected errors into a 400 response;
- the Lead and ApiKey records.

The store is a sequence of records. Times are integers (milliseconds).

Library functions are values of the datatype `Js.Library`. They are given as parameters, not defined:

- `isEmail`, `normalizeEmail` and `isISO8601` from the validator library;
- `new Date(text)`;
- the store's object-id cast;
- `toLowerCase`.

## Modules

| module | what it models |
|---|---|
| `Text` | JavaScript's `\s` set and `trim()`, line terminators, ASCII classes, and the validator library's length measure next to UTF-16 `.length`. |
| `Js` | Request bodies, as ordered entries with distinct keys. `Js` also provides `body[k]`, `Object.keys`, the validator library's string conversion, and the `Library` parameters. |
| `ValidationGate` | The error list of the validator library, `optional()`, and `validate`. |
| `RoleGuard` | `verifyRole`. |
| `LeadModel` | The Lead record, the status enumeration with its default, and how Mongoose casts a value to a `String` path. Also the e-mail setters, `Lead.create` and `findByIdAndUpdate`. |
| `ApiKeyModel` | The ApiKey record, the `revoked` default and the unique index on `key`. |
| `UserModel` | The user fields the validators query. |
| `LeadValidation` | `CreateLeadValidation`: the fixed-field chains, the extra-field loop (a `method` with its loop invariant), and the values the sanitizers write back. |
| `ApiKeyValidation` | The generate, toggle and regenerate chains. A class `ApiKeyRequest` models the request that the id checks write `client` and `apiKey` onto. |
| `UserValidation` | `ClientRegisterValidation`. |
| `LeadController` | `createLead`, `getClientLeads`, `updateLead` and `deleteLead` as functions over the stored leads. A class `LeadStore` holds the leads as a field, and its methods run the handlers. `updateLead`'s copy loops are a `method` proved equal to the function. |
| `LeadRoutes` | `POST /api/leads`: the guard, the validators, the gate, then `createLead`. |

Where the code and the system's documented intent differ, the model follows the code:

- **Role guard status.** A role outside the allowed list gets 401, not 403.
- **`status` on create.** `createLead` does not destructure `status`. So a body `status` is stored in `extraFields`, and the lead keeps status `new`. The validators' extra-field loop also skips `status`, so even an object value is stored. The rule "extraFields never holds a fixed field name" therefore does not hold (`LeadController.BodyStatusBecomesExtraField`, `LeadRoutes.ObjectStatusIsStored`).
- **"No valid fields".** This reply comes only for an empty body on a lead without extra fields. A body holding only values that are already current still counts as an update (`LeadController.NoValidFieldsIff`).
- **Cast errors on update.** Every cast error `updateLead` meets gets 400 "Invalid lead ID format", not only a malformed lead id. That includes a caller id that is not an ObjectId, and an array, or an object without a non-empty string `_id`, given for a fixed field (`LeadController.UpdateByMalformedCallerIsInvalidId`, `LeadController.UncastableFieldIsInvalidId`).
- **Revoked keys.** A revoked key that has not expired still blocks generating a new key (`ApiKeyValidation.RevokedUnexpiredKeyBlocks`).

## Model

| member | source | states |
|---|---|---|
| Text.Trim | server/src/middlewares/validation/LeadValidation.js:6 | The trimmed text is a contiguous part of the input with only white space cut off before and after it. It has no white space at either end. It is empty iff the input is all white space. |
| Text.TrimIdempotent | server/src/middlewares/validation/LeadValidation.js:6 | Trimming an already trimmed text changes nothing. |
| Js.Lookup | server/src/controllers/lead.controller.js:70-71 | `body[k]` is present iff `k` is a key of the body, and then it is that key's entry. |
| Js.KeysNotIn | server/src/middlewares/validation/LeadValidation.js:38 | The filtered keys are exactly the body keys outside the excluded list, in body order. |
| ValidationGate.Validate | server/src/middlewares/validate.js:4-16 | The request goes on iff no error was collected. Otherwise the reply is 400 with `success: false` and one `{field, message}` per error, in order, with `field = param` and `message = msg`. |
| ValidationGate.ValidateReportsEverything | server/src/middlewares/validate.js:9-11 | The collected errors can be read back from the 400 response unchanged. |
| RoleGuard.VerifyRole | server/src/middlewares/verifyRole.js:1-14 | Passes iff the role is in the list, with the user unchanged. Otherwise 401, `success: false` and the fixed message. |
| RoleGuard.EmptyPermissionsRejectAll | server/src/middlewares/verifyRole.js:1-5 | An empty list rejects every user with 401. |
| RoleGuard.ClientOnlyGuard | server/src/middlewares/verifyRole.js:5-11 | The `["client"]` guard admits exactly role `client`. An admin gets 401. |
| LeadModel.ParseStatus | server/src/models/Lead.js:29-34 | A text is accepted as a status iff it is exactly the name of one of new, contacted, converted and lost. |
| LeadModel.StatusRoundTrip | server/src/models/Lead.js:29-34 | Every status parses back from its name. |
| LeadModel.DocumentId | server/src/models/Lead.js:11-14 | An object stands for a document exactly when its `_id` entry is a non-empty string, and that string is its id. |
| LeadModel.CastString | server/src/models/Lead.js:11-14 | A `String` path cast fails exactly for arrays and for objects without a document id. An object with one casts to that id. Null and undefined leave the path unset, and a string is kept as is. |
| LeadModel.OptionalText | server/src/models/Lead.js:21-28 | An optional path is stored absent exactly when the value is null or undefined. A string is stored as given. |
| LeadModel.EmailValue | server/src/models/Lead.js:15-20 | A value is accepted iff it casts to text whose trimmed, lowercased form is not empty, and that form is what is stored. Null, undefined, arrays and objects without a document id are refused. |
| LeadModel.StatusValue | server/src/models/Lead.js:29-34 | A status value is accepted iff its cast text names a status. |
| LeadModel.CreateDocument | server/src/models/Lead.js:5-46 | A document is created iff the e-mail is accepted and the optional paths can be cast. The new lead has the given id and owner, status `new`, the given extra fields, both timestamps at creation time, and the stored e-mail and optional texts. |
| LeadModel.ApplyUpdate | server/src/controllers/lead.controller.js:110-114 | Sets exactly the fixed paths in the update and replaces `extraFields` only when given. `updatedAt` moves to now. Id, owner and `createdAt` are kept, and a conforming lead stays conforming. |
| ApiKeyModel.NewApiKey | server/src/models/ApiKey.js:16-19 | A new key record is not revoked, carries the given fields, and both timestamps equal the creation time. |
| ApiKeyModel.Insert | server/src/models/ApiKey.js:11-15 | An insert succeeds iff `key` is non-empty and held by no stored record, and then appends the record. An empty key gives the required-field error. |
| ApiKeyModel.InsertKeepsKeysUnique | server/src/models/ApiKey.js:11-15 | An accepted insert keeps every key unique across the store. |
| ApiKeyModel.FindById | server/src/middlewares/validation/ApiKeyValidation.js:77 | `findById` finds nothing iff no record has the id. Otherwise it finds a stored record with that id. |
| UserValidation.NameErrors | server/src/middlewares/validation/UserValidation.js:6-10 | No error iff the name is one or more ASCII letters with 3 to 50 characters. "Name is required" iff it is empty. |
| UserValidation.EmailErrors | server/src/middlewares/validation/UserValidation.js:11-22 | No error iff the address is non-empty, valid and its normalized form is not held by a stored user. "Email already exists" iff it is held. |
| UserValidation.FirstLineHasFinds | server/src/middlewares/validation/UserValidation.js:29 | The scan for a character class equals the meaning of the lookahead `(?=.*[k])`. |
| UserValidation.PasswordErrors | server/src/middlewares/validation/UserValidation.js:23-30 | No error iff the trimmed password has at least 8 characters and matches the pattern. So one lowercase, one uppercase and one digit must each come before any line terminator, and the first character must be from `[A-Za-z0-9@$!%*?&]`. "Password is required" iff it is empty. |
| UserValidation.RoleErrors | server/src/middlewares/validation/UserValidation.js:31-39 | No error iff the trimmed role is empty, which defaults to client, or is `client`. An absent role passes. |
| UserValidation.RegistrationAccepted | server/src/middlewares/validation/UserValidation.js:5-40 | Registration reports no error iff all four rules hold. |
| UserValidation.DuplicateEmailRejected | server/src/middlewares/validation/UserValidation.js:16-21 | An address whose normalized form a stored user holds is reported as "Email already exists", whatever else the body holds. |
| LeadValidation.EmailErrors | server/src/middlewares/validation/LeadValidation.js:5-9 | No error iff the trimmed address is non-empty and valid. "Email is required" iff it is empty. |
| LeadValidation.NameErrors | server/src/middlewares/validation/LeadValidation.js:12-16 | No error iff the name has 3 to 50 characters, all letters, digits, white space or `-'.`. |
| LeadValidation.SourceErrors | server/src/middlewares/validation/LeadValidation.js:24-27 | No error iff the source has 2 to 50 characters. |
| LeadValidation.MessageErrors | server/src/middlewares/validation/LeadValidation.js:29-32 | No error iff the message has at most 1000 characters. |
| LeadValidation.PhoneMatchIsLayout | server/src/middlewares/validation/LeadValidation.js:21 | A text the matcher accepts has one of the layouts of the pattern. |
| LeadValidation.PhoneLayoutIsMatched | server/src/middlewares/validation/LeadValidation.js:21 | Every layout of the pattern is accepted by the matcher. |
| LeadValidation.PhoneMatchesPattern | server/src/middlewares/validation/LeadValidation.js:21 | The matcher accepts exactly the texts of the pattern: an optional `+`, an optional `(`, 3 digits, an optional `)`, an optional separator, 3 digits, an optional separator, then 4 to 6 digits. |
| LeadValidation.PhoneErrors | server/src/middlewares/validation/LeadValidation.js:18-22 | No error iff the phone matches the pattern. |
| LeadValidation.ExtraFieldViolation | server/src/middlewares/validation/LeadValidation.js:44-62 | An extra field passes iff its value is a scalar, its key is one or more of `[A-Za-z0-9_]` and a string value has at most 500 UTF-16 units. The checks come in order: null or undefined, then object or array, then the key's form, then the length. A well-formed key with an over-long string gets the length message. |
| LeadValidation.CheckExtraFields | server/src/middlewares/validation/LeadValidation.js:36-66 | The loop returns the violation of the first failing extra key, or none. |
| LeadValidation.NoViolationIff | server/src/middlewares/validation/LeadValidation.js:41-65 | No violation is reported iff every visited key passes every check. |
| LeadValidation.ViolationIsFirst | server/src/middlewares/validation/LeadValidation.js:41-63 | A reported violation is that of some visited key, and every key before it passed. |
| LeadValidation.ExtraKeysCoverEntries | server/src/middlewares/validation/LeadValidation.js:37-38 | Every body entry outside the six checked fixed fields is visited, with its own value. |
| LeadValidation.ExtraKeyHasEntry | server/src/middlewares/validation/LeadValidation.js:37-38 | Every visited key is a body entry outside the six checked fixed fields. |
| LeadValidation.ExtraFieldsAccepted | server/src/middlewares/validation/LeadValidation.js:35-66 | The body-wide check passes iff every entry outside the six checked fixed fields passes every check. |
| LeadValidation.CreateLeadValidationPasses | server/src/middlewares/validation/LeadValidation.js:3-67 | The chains report nothing iff the e-mail rule holds, each supplied optional field meets its rule, and every extra field passes. |
| LeadValidation.SanitizedValue | server/src/middlewares/validation/LeadValidation.js:5-32 | After the sanitizers, a present e-mail reads as its normalized trimmed text, and a supplied optional field as its trimmed text. Every other key keeps its value. |
| ApiKeyValidation.Rethrow | server/src/middlewares/validation/ApiKeyValidation.js:36-41 | A cast error becomes the format message. Every other error keeps its message. |
| ApiKeyValidation.FindVerifiedClient | server/src/middlewares/validation/ApiKeyValidation.js:13-17 | Finds a stored user with that id, role `client` and a verified e-mail, or nothing iff there is none. |
| ApiKeyValidation.ClientCheckPassesIff | server/src/middlewares/validation/ApiKeyValidation.js:10-42 | The client check passes iff all of these hold: the id is well formed, the store answers, a verified client with that id exists, and that client holds no unexpired key. The client it yields is that user. |
| ApiKeyValidation.ClientCheckMessages | server/src/middlewares/validation/ApiKeyValidation.js:19-41 | A malformed id gives "Invalid client ID format". A store error passes through unchanged. A missing client gives "Client not found or not verified". |
| ApiKeyValidation.RevokedUnexpiredKeyBlocks | server/src/middlewares/validation/ApiKeyValidation.js:24-31 | A revoked key of the client with `expiresAt > now` gives "Client already has an active API key". |
| ApiKeyValidation.ExpiryWindow | server/src/middlewares/validation/ApiKeyValidation.js:49-67 | A valid date passes iff `now < date <= oneYearFromNow`. A date not after now gives the "in the future" message. A date past the one-year bound gives the one-year message. An invalid date passes this check. |
| ApiKeyValidation.ExpiryWindowBounds | server/src/middlewares/validation/ApiKeyValidation.js:54-64 | `now` itself is refused and the one-year bound itself is accepted. One millisecond past the bound gives the one-year message. |
| ApiKeyValidation.ExpiresAtErrors | server/src/middlewares/validation/ApiKeyValidation.js:43-67 | No error iff the trimmed text is non-empty, ISO 8601 and inside the window. Every error is reported under `expiresAt`. |
| ApiKeyValidation.ParamErrors | server/src/middlewares/validation/ApiKeyValidation.js:6-10 | A route-parameter chain reports nothing iff the trimmed value is non-empty and the custom check passed. |
| ApiKeyValidation.GenerateErrors | server/src/middlewares/validation/ApiKeyValidation.js:5-68 | Generation reports nothing iff the trimmed client id is non-empty, its client check passes, and the expiry chain passes. |
| ApiKeyValidation.ApiKeyCheck | server/src/middlewares/validation/ApiKeyValidation.js:75-89 | A malformed id gives "Invalid API key ID format", and a store error passes through. Otherwise "API key not found" comes iff no record has the id. A found key is a stored record with that id. |
| ApiKeyValidation.ToggleErrors | server/src/middlewares/validation/ApiKeyValidation.js:70-90 | Toggle reports nothing iff the trimmed id is non-empty and its key check passes. |
| ApiKeyValidation.RegenerateErrors | server/src/middlewares/validation/ApiKeyValidation.js:92-137 | Regenerate reports nothing iff the key check passes and the expiry chain passes. |
| ApiKeyValidation.ApiKeyFoundIff | server/src/middlewares/validation/ApiKeyValidation.js:77-82 | On a well-formed id and an answering store, toggle passes iff a key with that id exists. |
| ApiKeyValidation.RegenerateDateRuleIsGenerateRule | server/src/middlewares/validation/ApiKeyValidation.js:112-136 | Once both id checks pass, generation and regeneration accept exactly the same `expiresAt` values. |
| ApiKeyValidation.ApiKeyRequest.RunGenerateValidation | server/src/middlewares/validation/ApiKeyValidation.js:5-68 | Appends the generation errors. Attaches the client exactly when its check passes, and leaves `apiKey` alone. |
| ApiKeyValidation.ApiKeyRequest.RunToggleValidation | server/src/middlewares/validation/ApiKeyValidation.js:70-90 | Appends the toggle errors. Attaches the key exactly when its check passes, and leaves `client` alone. |
| ApiKeyValidation.ApiKeyRequest.RunRegenerateValidation | server/src/middlewares/validation/ApiKeyValidation.js:92-137 | Appends the regenerate errors. Attaches the key exactly when its check passes, and leaves `client` alone. |
| LeadController.CreateExtras | server/src/controllers/lead.controller.js:7-16 | The extra fields are exactly the body entries whose keys are not name, email, phone, source or message, with the body's values. |
| LeadController.CreateOutcome | server/src/controllers/lead.controller.js:5-37 | A lead is created iff the owner id casts and the document is accepted, and it is then appended to the store. Otherwise the reply is 400 "Validation error" and nothing is stored. |
| LeadController.CreateExtrasFromBody | server/src/controllers/lead.controller.js:7-16 | Every extra field carries the body's own value for its key. |
| LeadController.CreatedFromInput | server/src/controllers/lead.controller.js:9-17 | A created lead has the store-assigned id, the caller as owner, status `new`, the stored e-mail, the input's extra fields, and creation time on both timestamps. |
| LeadController.CreatedLead | server/src/controllers/lead.controller.js:7-17 | A lead created from a body belongs to the caller. It has the default status and keeps as extra fields exactly the entries outside the destructured keys. |
| LeadController.BodyStatusBecomesExtraField | server/src/controllers/lead.controller.js:7 | A body `status` is stored among the extra fields, and the lead's status stays `new`. |
| LeadController.StatusIsExtra | server/src/controllers/lead.controller.js:7 | `status` is not destructured, so it is an extra field with the body's value. |
| LeadController.OwnedBy | server/src/controllers/lead.controller.js:44 | The query keeps the owner's leads, each as often as stored, and no other lead. |
| LeadController.InsertNewestFirst | server/src/controllers/lead.controller.js:45 | Inserting into a newest-first list keeps it newest first and adds exactly that lead. |
| LeadController.SortNewestFirst | server/src/controllers/lead.controller.js:45 | The result is ordered by `createdAt` non-increasing and is a permutation of the input. |
| LeadController.ClientLeadsAreOwnedAndSorted | server/src/controllers/lead.controller.js:44-50 | The listing is newest first. It holds each of the caller's leads as often as the store does, and no other lead. |
| LeadController.Copied | server/src/controllers/lead.controller.js:69-73 | Copying the given keys the body has yields exactly those keys, with the body's values. |
| LeadController.MergeExtras | server/src/controllers/lead.controller.js:86-95 | The merged map has the union of the keys. New values win, and old values remain elsewhere. |
| LeadController.FindOwned | server/src/controllers/lead.controller.js:76 | Finds a lead with that id and the caller as owner, or nothing iff there is none. |
| LeadController.UpdateAt | server/src/controllers/lead.controller.js:85-135 | An update of the found lead replaces only that position. It keeps id, owner and `createdAt`. A failure stores nothing. |
| LeadController.UpdateOutcome | server/src/controllers/lead.controller.js:62-141 | A lead id or caller id that is not an ObjectId is a 400 "Invalid lead ID format". The store keeps its length. Every lead with another id is unchanged. Ids, owners and creation times are kept everywhere, and so are conforming records. A failure stores nothing. |
| LeadController.ReplaceKeepsIdentity | server/src/controllers/lead.controller.js:110-114 | Replacing a lead by a version with the same identity changes no other lead. |
| LeadController.UpdateOfOthersLeadIsNotFound | server/src/controllers/lead.controller.js:76-83 | With well-formed ids, a missing or foreign lead gives 404 with the store unchanged, whatever the body holds, so even an empty body gets 404. |
| LeadController.UpdateByMalformedCallerIsInvalidId | server/src/controllers/lead.controller.js:76-135 | A caller id that is not an ObjectId fails the ownership query's cast: 400 "Invalid lead ID format", store unchanged. |
| LeadController.UncastableFieldIsInvalidId | server/src/controllers/lead.controller.js:110-135 | On an owned lead, a fixed-field value that fails its cast (an array, or an object without a document id) gives 400 "Invalid lead ID format", store unchanged, whatever else the body holds. |
| LeadController.ValidUpdateApplies | server/src/controllers/lead.controller.js:62-120 | With well-formed ids, an owned lead and something to write (a body key or stored extra fields), an update whose fixed values all cast and pass the validators is applied. |
| LeadController.DocumentNameIsApplied | server/src/controllers/lead.controller.js:62-120 | `{name: {_id: "abc"}}` on an owned lead is applied and stores the name "abc". |
| LeadController.UpdateValidationFailure | server/src/controllers/lead.controller.js:110-129 | The update's "Validation error" comes only after every fixed value has cast, and only from a refused e-mail or a status outside the list. |
| LeadController.CopiedEmpty | server/src/controllers/lead.controller.js:97-102 | Copying keys the body has is empty iff there are no keys. |
| LeadController.CopiesCoverBody | server/src/controllers/lead.controller.js:68-92 | The fixed-field copy and the extra-field copy together take every body key. |
| LeadController.NoValidFieldsIff | server/src/controllers/lead.controller.js:97-107 | "No valid fields provided for update" comes iff both ids are well formed, the caller owns the lead, the body is empty, and the lead has no extra fields. |
| LeadController.NoValidFieldsOnlyIfEmpty | server/src/controllers/lead.controller.js:97-107 | The "no valid fields" reply implies an empty body and no stored extra fields. |
| LeadController.NoValidFieldsIfEmpty | server/src/controllers/lead.controller.js:97-107 | An empty body on a lead without extra fields gives the "no valid fields" reply. |
| LeadController.UpdatedLeadFields | server/src/controllers/lead.controller.js:68-114 | After an accepted update, the fields the body does not name are unchanged. Each fixed field the body names holds the body's value as the store casts it; name, phone, source and message cast, e-mail trimmed and lowercased, status from the list. The extra fields are the old ones overlaid by the body's non-allowed keys. |
| LeadController.UpdateAtFields | server/src/controllers/lead.controller.js:68-114 | An accepted update of the found lead sets `updatedAt` and the named fixed fields from the body, and keeps the others. |
| LeadController.UpdateAtExtras | server/src/controllers/lead.controller.js:85-99 | An accepted update of the found lead stores the old extra fields overlaid by the body's non-allowed keys. |
| LeadController.Without | server/src/controllers/lead.controller.js:147 | Removing by id keeps only records with other ids, each a stored record, and keeps every one of them. |
| LeadController.WithoutConcat | server/src/controllers/lead.controller.js:147 | Removing by id distributes over concatenation. |
| LeadController.WithoutAbsent | server/src/controllers/lead.controller.js:147 | Removing an id no record has changes nothing. |
| LeadController.DeleteRemovesOne | server/src/controllers/lead.controller.js:144-160 | With unique ids, deleting a stored lead removes exactly that record and keeps the others in order. |
| LeadController.UpdateKeepsValid | server/src/controllers/lead.controller.js:110-114 | An update keeps ids unique and every record conforming. |
| LeadController.WithoutKeepsValid | server/src/controllers/lead.controller.js:147 | A delete keeps ids unique and every record conforming. |
| LeadController.CopyPresent | server/src/controllers/lead.controller.js:69-73 | The copy loop yields the keys of the list the body has, with the body's values, equal to the copy function. |
| LeadController.LeadStore.CreateLead | server/src/controllers/lead.controller.js:5-38 | The new store and the reply are those of `createLead` on the body, and the store stays valid. |
| LeadController.LeadStore.GetClientLeads | server/src/controllers/lead.controller.js:41-59 | Lists the caller's leads newest first, each as often as stored, with `count` equal to the number returned. |
| LeadController.LeadStore.UpdateLead | server/src/controllers/lead.controller.js:62-141 | The new store and the reply are those of `updateLead`, and the store stays valid. |
| LeadController.LeadStore.DeleteLead | server/src/controllers/lead.controller.js:144-160 | Removes the carried lead's record, replies deleted, and keeps the store valid. |
| LeadRoutes.PostLead | server/src/routes/lead.routes.js:10 | A request the guard or the gate stops leaves the store unchanged. |
| LeadRoutes.NonClientIsDenied | server/src/routes/lead.routes.js:10 | A non-client gets 401 before the body is looked at, and nothing is stored. |
| LeadRoutes.InvalidBodyIsRejected | server/src/routes/lead.routes.js:10 | A client's body that breaks a rule gets 400 with one entry per error, and nothing is stored. |
| LeadRoutes.HandledOnlyIfAdmitted | server/src/routes/lead.routes.js:10 | `createLead` runs only for a client with a valid body, on the sanitized fields. |
| LeadRoutes.AdmittedIsHandled | server/src/routes/lead.routes.js:10 | Conversely, a client whose body passes every rule reaches `createLead` with the sanitized fields. |
| LeadRoutes.SanitizedEmailStored | server/src/routes/lead.routes.js:10 | The stored e-mail is the lowercased, trimmed, normalized form of the trimmed body e-mail. |
| LeadRoutes.CheckedExtras | server/src/routes/lead.routes.js:10 | The extra fields of a valid body are body entries outside the destructured keys. Each passed the extra-field rules, except `status`. |
| LeadRoutes.CreatedThroughRoute | server/src/routes/lead.routes.js:10 | A lead created through the route came from a client with a valid body. It is appended, belongs to the caller and has status `new`. It holds the sanitized e-mail, and only checked extra fields apart from `status`. |
| LeadRoutes.CampaignExample | server/src/controllers/lead.controller.js:7-16 | `{email: "a@b.com", campaign: "fall24"}` from a client creates a lead with that e-mail, status `new` and the one extra field `campaign`. |
| LeadRoutes.ObjectStatusIsStored | server/src/controllers/lead.controller.js:7 | `{email: "a@b.com", status: {}}` passes the validators and is stored with `status: {}` as an extra field, while the lead's status stays `new`. |

## Left out

- HTTP wiring, server start-up, token verification (`verifyToken`), password flows, e-mail delivery and key generation are not modelled. These are router registration, JWT, bcrypt, SMTP and `crypto.randomBytes`. The key-generation controller sends the new key once in its response; that is not modelled either.
- The user record file is not part of this model. Only the fields the validators query are modelled.
- The source has no toggle or regenerate handlers. `apikey.controller.js` only names them in a comment, so only their validator chains are modelled. The lead `PUT` and `DELETE` routes are not registered in the router, so `updateLead` and `deleteLead` are modelled as handlers on their own.
- `deleteLead` acts on the lead the request carries. The middleware that attaches it is not part of this model.
- Library predicates and functions are parameters: `isEmail`, `normalizeEmail`, `isISO8601`, `new Date`, whether a text casts to an ObjectId, and `toLowerCase`. `normalizeEmail` returning `false` for an address it cannot parse is not modelled.
- The one-year bound (`setFullYear`) and the current time are integer parameters. There is no calendar arithmetic.
- The validator chains read an array value as its elements joined with commas. The library actually validates arrays element by element; that is not modelled.
- Numbers are integers. Floating-point values and their decimal rendering are not modelled.
- Store errors other than a cast error are a `fault` parameter on the id checks. The 500 replies of the handlers and the store faults behind them are not modelled.
- `ApiKeyValidation.ClientLookup`: its `fault` stands for an error of the `User.findOne` query only. An error raised by the second query, `ApiKey.findOne`, which the check rethrows unchanged, is not modelled.
- `LeadController.FindOwned`: the lead id and the caller id are compared as text. The store casts a query id to an ObjectId first, so two texts naming the same ObjectId find the same record there, for example the same hex digits in upper and in lower case. The model treats such an id as naming no stored record.
- `LeadController.OwnedBy`: the owner id is compared as text, not as the ObjectId it casts to, for the same reason.
- `ApiKeyModel.FindById`: the key id is compared as text, not as the ObjectId it casts to, for the same reason.
- `ApiKeyValidation.FindVerifiedClient`: the client id is compared as text, not as the ObjectId it casts to, for the same reason.
- `LeadController.UpdateOutcome`: does not model `findByIdAndUpdate` finding no record because the lead was deleted between the lookup and the update.
- `LeadController.CreateOutcome`: the 400 reply does not carry the store's list of validation messages (`errors`). It is reduced to "Validation error".
- `LeadController.UpdateAt`: the update's 400 "Validation error" reply does not carry the store's list of messages (`errors`). Which paths failed is stated by `LeadController.UpdateValidationFailure` instead.
- `LeadModel.CastString`: an object value with its own `toString` key and no document id is a cast failure in the model. The store would call that key as a function; a string there throws a `TypeError`, which the handlers answer with 500.
- `LeadValidation.SanitizedValue`: does not model what the e-mail chain writes back for an absent e-mail, because that chain then fails and the handler never runs.
- `LeadController.SortNewestFirst`: the order among leads with equal `createdAt` is the store's and is not specified. The model fixes one such order.
- The key order of `extraFields` maps is not modelled. Maps are unordered here.
- Body keys such as `__proto__` are not modelled. Neither are Mongoose map keys containing `.` or `$`, which the store refuses.
- The `extraFields` default of an empty map is not reachable through `createLead`, which always sets the field. The model's `Lead` therefore always has an `extraFields` map.
- `clientId` and `expiresAt` are required by the ApiKey schema. In the model they are fields every record has, not checked values.
