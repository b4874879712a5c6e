/** The API-key record and the store-wide rule that no two records share a key. */
module ApiKeyModel {
  import opened Js

  datatype ApiKey = ApiKey(
    id: string,
    clientId: string,
    key: string,
    revoked: bool,
    expiresAt: int,
    createdAt: int,
    updatedAt: int)

  /** A new record as the store builds it: `revoked` takes its default,
      false, and both timestamps are the creation time. */
  function NewApiKey(id: string, clientId: string, key: string, expiresAt: int, now: int): (k: ApiKey)
    ensures !k.revoked
    ensures k.id == id && k.clientId == clientId && k.key == key && k.expiresAt == expiresAt
    ensures k.createdAt == now && k.updatedAt == now
  {
    ApiKey(id, clientId, key, false, expiresAt, now, now)
  }

  /** The unique index on `key`. */
  ghost predicate KeysUnique(keys: seq<ApiKey>) {
    forall i, j :: 0 <= i < j < |keys| ==> keys[i].key != keys[j].key
  }

  datatype InsertError = KeyRequired | DuplicateKey

  /** Inserting a record: `key` is required and must not be in use. */
  function Insert(keys: seq<ApiKey>, k: ApiKey): (r: Result<seq<ApiKey>, InsertError>)
    ensures r.Success? <==> k.key != "" && forall i :: 0 <= i < |keys| ==> keys[i].key != k.key
    ensures r.Success? ==> r.value == keys + [k]
    ensures r.Failure? ==> (r.error == KeyRequired <==> k.key == "")
  {
    if k.key == "" then Failure(KeyRequired)
    else if exists i :: 0 <= i < |keys| && keys[i].key == k.key then Failure(DuplicateKey)
    else Success(keys + [k])
  }

  /** An accepted insert keeps the keys unique. */
  lemma InsertKeepsKeysUnique(keys: seq<ApiKey>, k: ApiKey)
    requires KeysUnique(keys)
    requires Insert(keys, k).Success?
    ensures KeysUnique(Insert(keys, k).value)
  {
    var r := Insert(keys, k).value;
    forall i, j | 0 <= i < j < |r| ensures r[i].key != r[j].key {
      if j == |keys| {
        assert r[j] == k && r[i] == keys[i];
      }
    }
  }

  /** `ApiKey.findById(id)` on a store whose ids are well formed. */
  function FindById(keys: seq<ApiKey>, id: string): (r: Option<ApiKey>)
    ensures r.None? <==> forall i :: 0 <= i < |keys| ==> keys[i].id != id
    ensures r.Some? ==> r.value in keys && r.value.id == id
  {
    if keys == [] then None
    else if keys[0].id == id then Some(keys[0])
    else FindById(keys[1..], id)
  }

  /** What the generation check asks of an existing key: `expiresAt > now`. */
  predicate Unexpired(k: ApiKey, now: int) {
    k.expiresAt > now
  }
}
