/** JSON request bodies as the handlers see them, and the library functions
    the validators and the store call but whose insides this model does not
    describe. */
module Js {
  import opened Text

  datatype Option<T> = None | Some(value: T) {
    function GetOr(default: T): T {
      match this
      case Some(v) => v
      case None => default
    }
  }

  datatype Result<T, E> = Success(value: T) | Failure(error: E)

  /** A value of a parsed request body. `Undefined` is what reading an absent
      key yields. Numbers are integers here. */
  datatype JsValue =
    | Undefined
    | Null
    | Bool(b: bool)
    | Num(n: int)
    | Str(s: string)
    | Arr(items: seq<JsValue>)
    | Obj(entries: seq<(string, JsValue)>)

  type Entry = (string, JsValue)

  ghost predicate DistinctKeys(b: seq<Entry>) {
    forall i, j :: 0 <= i < j < |b| ==> b[i].0 != b[j].0
  }

  /** A request body: an object's own entries in `Object.keys` order. */
  type Body = b: seq<Entry> | DistinctKeys(b) witness []

  function KeySet(b: seq<Entry>): set<string> {
    set e | e in b :: e.0
  }

  /** `Object.keys(body)`. */
  function Keys(b: seq<Entry>): (ks: seq<string>)
    ensures |ks| == |b| && forall i :: 0 <= i < |b| ==> ks[i] == b[i].0
  {
    if b == [] then [] else [b[0].0] + Keys(b[1..])
  }

  /** `body[k]`, or `None` where `k in body` is false. */
  function Lookup(b: seq<Entry>, k: string): (r: Option<JsValue>)
    ensures r.Some? <==> k in KeySet(b)
    ensures r.Some? ==> (k, r.value) in b
  {
    if b == [] then None
    else if b[0].0 == k then Some(b[0].1)
    else (assert KeySet(b) == {b[0].0} + KeySet(b[1..]); Lookup(b[1..], k))
  }

  lemma {:induction false} LookupEntry(b: Body, i: nat)
    requires i < |b|
    ensures Lookup(b, b[i].0) == Some(b[i].1)
  {
    if i > 0 {
      var t: Body := b[1..];
      assert t[i - 1] == b[i];
      LookupEntry(t, i - 1);
    }
  }

  /** `a` is `b` with some elements left out, the rest in the same order. */
  predicate Subsequence(a: seq<string>, b: seq<string>)
    decreases |b|
  {
    a == [] || (b != [] && ((a[0] == b[0] && Subsequence(a[1..], b[1..])) || Subsequence(a, b[1..])))
  }

  /** The keys of `b`, in order, that are not members of `excluded`
      (`Object.keys(body).filter(key => !excluded.includes(key))`). */
  function KeysNotIn(b: seq<Entry>, excluded: seq<string>): (ks: seq<string>)
    ensures forall k :: k in ks <==> k in KeySet(b) && k !in excluded
    ensures |ks| <= |b|
    ensures Subsequence(ks, Keys(b))
  {
    if b == [] then []
    else
      assert KeySet(b) == {b[0].0} + KeySet(b[1..]);
      var rest := KeysNotIn(b[1..], excluded);
      assert Keys(b)[1..] == Keys(b[1..]);
      if b[0].0 in excluded then rest
      else
        assert ([b[0].0] + rest)[1..] == rest;
        [b[0].0] + rest
  }

  function JoinComma(parts: seq<string>): string {
    if parts == [] then ""
    else if |parts| == 1 then parts[0]
    else parts[0] + "," + JoinComma(parts[1..])
  }

  /** The text the validator library checks for a value: null and undefined
      become "", an array its elements joined with commas, an object
      "[object Object]". */
  function Stringify(v: JsValue): string {
    match v
    case Undefined => ""
    case Null => ""
    case Bool(b) => if b then "true" else "false"
    case Num(n) => Decimal(n)
    case Str(s) => s
    case Arr(items) => JoinComma(seq(|items|, i requires 0 <= i < |items| => Stringify(items[i])))
    case Obj(_) => "[object Object]"
  }

  /** Library functions the model takes as given:
      isEmail, normalizeEmail and isISO8601 from the validator library,
      parseDate for `new Date(text)` in milliseconds (None for an invalid date),
      isObjectId for whether the store can cast a text to an object id,
      toLowerCase for `String.prototype.toLowerCase`. */
  datatype Library = Library(
    isEmail: string -> bool,
    normalizeEmail: string -> string,
    isISO8601: string -> bool,
    parseDate: string -> Option<int>,
    isObjectId: string -> bool,
    toLowerCase: string -> string)
}
