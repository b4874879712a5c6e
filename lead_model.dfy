/** The lead record: fixed fields, the status enumeration with its default,
    the e-mail setters, and how the store casts and checks values on create
    and on update. */
module LeadModel {
  import opened Text
  import opened Js

  datatype Status = New | Contacted | Converted | Lost

  const DefaultStatus: Status := New

  function StatusName(s: Status): string {
    match s
    case New => "new"
    case Contacted => "contacted"
    case Converted => "converted"
    case Lost => "lost"
  }

  /** The enum validator: a text is a status iff it names one exactly. */
  function ParseStatus(t: string): (r: Option<Status>)
    ensures r.Some? ==> StatusName(r.value) == t
    ensures r.None? ==> forall s :: StatusName(s) != t
  {
    if t == "new" then Some(New)
    else if t == "contacted" then Some(Contacted)
    else if t == "converted" then Some(Converted)
    else if t == "lost" then Some(Lost)
    else None
  }

  lemma StatusRoundTrip(s: Status)
    ensures ParseStatus(StatusName(s)) == Some(s)
  {
  }

  datatype Lead = Lead(
    id: string,
    ownerId: string,
    name: Option<string>,
    email: string,
    phone: Option<string>,
    source: Option<string>,
    status: Status,
    message: Option<string>,
    extraFields: map<string, JsValue>,
    createdAt: int,
    updatedAt: int)

  /** What the schema guarantees of every stored lead beyond its field types:
      the required e-mail is not empty. */
  predicate Conforms(l: Lead) {
    l.email != ""
  }

  /** The outcome of casting a value to a `String` path. */
  datatype Cast = Unset | Text(s: string) | CastFailed

  /** The `_id` an object carries as a document, when it is a non-empty
      string. */
  function DocumentId(entries: seq<Entry>): (r: Option<string>)
    ensures r.Some? <==> exists s :: Lookup(entries, "_id") == Some(Str(s)) && s != ""
    ensures r.Some? ==> Lookup(entries, "_id") == Some(Str(r.value))
  {
    match Lookup(entries, "_id")
    case Some(Str(s)) => if s != "" then Some(s) else None
    case _ => None
  }

  /** The store's cast to `String`: strings are kept, numbers and booleans
      become their text, null and undefined leave the path unset, an object
      standing for a document gives its string `_id`, and arrays and other
      plain objects cannot be cast. */
  function CastString(v: JsValue): (c: Cast)
    ensures c.CastFailed? <==> v.Arr? || (v.Obj? && DocumentId(v.entries).None?)
    ensures c.Unset? <==> v.Null? || v.Undefined?
    ensures v.Str? ==> c == Text(v.s)
    ensures v.Obj? && DocumentId(v.entries).Some? ==> c == Text(DocumentId(v.entries).value)
  {
    match v
    case Undefined => Unset
    case Null => Unset
    case Bool(b) => Text(if b then "true" else "false")
    case Num(n) => Text(Decimal(n))
    case Str(s) => Text(s)
    case Arr(_) => CastFailed
    case Obj(es) => if DocumentId(es).Some? then Text(DocumentId(es).value) else CastFailed
  }

  /** An optional `String` path accepts every value it can cast. */
  predicate Castable(v: JsValue) {
    !CastString(v).CastFailed?
  }

  /** The stored value of an optional `String` path. */
  function OptionalText(v: JsValue): (r: Option<string>)
    requires Castable(v)
    ensures r.None? <==> v.Null? || v.Undefined?
    ensures v.Str? ==> r == Some(v.s)
  {
    match CastString(v)
    case Text(s) => Some(s)
    case Unset => None
  }

  /** The `email` path: cast, then the trim and lowercase setters, then the
      required check, which refuses an empty result. None means refused. */
  function EmailValue(lib: Library, v: JsValue): (r: Option<string>)
    ensures r.Some? ==> r.value != ""
    ensures r.Some? ==> CastString(v).Text? && r.value == lib.toLowerCase(Trim(CastString(v).s))
    ensures (v.Null? || v.Undefined? || v.Arr? || (v.Obj? && DocumentId(v.entries).None?)) ==> r.None?
    ensures r.Some? <==> CastString(v).Text? && lib.toLowerCase(Trim(CastString(v).s)) != ""
  {
    match CastString(v)
    case Text(s) => var e := lib.toLowerCase(Trim(s)); if e == "" then None else Some(e)
    case _ => None
  }

  /** The `status` path: cast, then the enum (and required) check. */
  function StatusValue(v: JsValue): (r: Option<Status>)
    ensures r.Some? <==> CastString(v).Text? && ParseStatus(CastString(v).s).Some?
    ensures v.Str? ==> r == ParseStatus(v.s)
  {
    match CastString(v)
    case Text(s) => ParseStatus(s)
    case _ => None
  }

  /** The fields `createLead` hands to `Lead.create`. */
  datatype LeadInput = LeadInput(
    name: JsValue,
    email: JsValue,
    phone: JsValue,
    source: JsValue,
    message: JsValue,
    extraFields: map<string, JsValue>)

  predicate InputAccepted(lib: Library, input: LeadInput) {
    && EmailValue(lib, input.email).Some?
    && Castable(input.name) && Castable(input.phone)
    && Castable(input.source) && Castable(input.message)
  }

  /** `Lead.create`: the new record, or None when the document fails
      validation. `status` is not among the inputs, so it takes its default. */
  function CreateDocument(id: string, ownerId: string, input: LeadInput, now: int, lib: Library): (r: Option<Lead>)
    ensures r.Some? <==> InputAccepted(lib, input)
    ensures r.Some? ==> Conforms(r.value)
    ensures r.Some? ==> r.value.id == id && r.value.ownerId == ownerId
    ensures r.Some? ==> r.value.status == DefaultStatus
    ensures r.Some? ==> r.value.extraFields == input.extraFields
    ensures r.Some? ==> r.value.createdAt == now && r.value.updatedAt == now
    ensures r.Some? ==> r.value.email == EmailValue(lib, input.email).value
    ensures r.Some? ==> r.value.name == OptionalText(input.name) && r.value.phone == OptionalText(input.phone)
    ensures r.Some? ==> r.value.source == OptionalText(input.source) && r.value.message == OptionalText(input.message)
  {
    if !InputAccepted(lib, input) then None
    else Some(Lead(id, ownerId, OptionalText(input.name), EmailValue(lib, input.email).value,
                   OptionalText(input.phone), OptionalText(input.source), DefaultStatus,
                   OptionalText(input.message), input.extraFields, now, now))
  }

  /** The cast of an update's fixed paths, which comes before its validators:
      every path is a `String` path, so an array or object value fails. */
  predicate UpdateCasts(data: map<string, JsValue>) {
    forall k :: k in data ==> Castable(data[k])
  }

  /** The cast and the update validators (`runValidators`) on the fixed paths
      an update sets. */
  predicate UpdateAccepted(lib: Library, data: map<string, JsValue>) {
    && ("name" in data ==> Castable(data["name"]))
    && ("email" in data ==> EmailValue(lib, data["email"]).Some?)
    && ("phone" in data ==> Castable(data["phone"]))
    && ("source" in data ==> Castable(data["source"]))
    && ("status" in data ==> StatusValue(data["status"]).Some?)
    && ("message" in data ==> Castable(data["message"]))
  }

  function UpdateOptional(current: Option<string>, data: map<string, JsValue>, path: string): Option<string>
    requires path in data ==> Castable(data[path])
  {
    if path in data then OptionalText(data[path]) else current
  }

  /** `findByIdAndUpdate(id, data)` on an accepted update: the fixed paths in
      `data` are set, `extraFields` is replaced when given, `updatedAt` moves
      to `now`, and nothing else changes. */
  function ApplyUpdate(l: Lead, data: map<string, JsValue>, extras: Option<map<string, JsValue>>, now: int, lib: Library): (r: Lead)
    requires UpdateAccepted(lib, data)
    ensures r.id == l.id && r.ownerId == l.ownerId && r.createdAt == l.createdAt && r.updatedAt == now
    ensures r.name == (if "name" in data then OptionalText(data["name"]) else l.name)
    ensures r.email == (if "email" in data then EmailValue(lib, data["email"]).value else l.email)
    ensures r.phone == (if "phone" in data then OptionalText(data["phone"]) else l.phone)
    ensures r.source == (if "source" in data then OptionalText(data["source"]) else l.source)
    ensures r.status == (if "status" in data then StatusValue(data["status"]).value else l.status)
    ensures r.message == (if "message" in data then OptionalText(data["message"]) else l.message)
    ensures r.extraFields == (if extras.Some? then extras.value else l.extraFields)
    ensures Conforms(l) ==> Conforms(r)
  {
    l.(name := UpdateOptional(l.name, data, "name"),
       email := if "email" in data then EmailValue(lib, data["email"]).value else l.email,
       phone := UpdateOptional(l.phone, data, "phone"),
       source := UpdateOptional(l.source, data, "source"),
       status := if "status" in data then StatusValue(data["status"]).value else l.status,
       message := UpdateOptional(l.message, data, "message"),
       extraFields := extras.GetOr(l.extraFields),
       updatedAt := now)
  }
}
