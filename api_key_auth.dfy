/**
  The API-key strategy that guards the HTTP API: a request's key is accepted
  when it is one of the configured keys.
*/
module ApiKeyAuth {

  /** `APIKeyAuthentication`: the configured keys, none by default. */
  datatype APIKeyAuthentication = APIKeyAuthentication(keys: seq<string>)

  const DEFAULT := APIKeyAuthentication([])

  /** `keys.includes(key)`, scanning from the first key. */
  function Includes(keys: seq<string>, key: string): (found: bool)
    ensures found <==> exists i :: 0 <= i < |keys| && keys[i] == key
  {
    if keys == [] then false
    else if keys[0] == key then true
    else
      assert forall i :: 1 <= i < |keys| ==> keys[i] == keys[1..][i - 1];
      Includes(keys[1..], key)
  }

  /** `verify(key)`: exact string equality with one of the keys. */
  function Verify(auth: APIKeyAuthentication, key: string): (ok: bool)
    ensures ok <==> key in auth.keys
  {
    Includes(auth.keys, key)
  }

  /** With no keys configured, every key is rejected. */
  lemma DefaultRejectsAll(key: string)
    ensures !Verify(DEFAULT, key)
  {
  }

  /** Only the set of keys matters: their order and repetitions do not change any answer. */
  lemma VerifyDependsOnKeySet(a: APIKeyAuthentication, b: APIKeyAuthentication, key: string)
    requires forall k :: k in a.keys <==> k in b.keys
    ensures Verify(a, key) == Verify(b, key)
  {
  }
}
