/**
 * The volatile credentials store: secrets kept in process memory by key,
 * with shortcuts for the one secret the Gestão da Base automation needs,
 * its terminal password. The store is a value here; the module-level
 * helpers of the system act on one shared store and are the shortcuts
 * below applied to it.
 */
module RuntimeCredentials {
  import opened Wrappers

  /** The stored secrets by key; a key is absent when nothing is stored for it. */
  type Store = map<string, string>

  /** The key under which the Gestão da Base password is kept. */
  const GestaoBasePasswordKey := "gestao_base_password"

  /** A value that clears the key instead of storing: `None` or the empty text. */
  predicate Clears(value: Option<string>) {
    value.None? || value.value == ""
  }

  /** `set_secret`: a clearing value removes the key, any other value is stored under it. */
  function SetSecret(s: Store, key: string, value: Option<string>): (r: Store)
    ensures Clears(value) ==> key !in r
    ensures !Clears(value) ==> key in r && r[key] == value.value
    ensures forall k :: k != key ==> (k in r <==> k in s)
    ensures forall k :: k != key && k in s ==> r[k] == s[k]
  {
    if Clears(value) then s - {key} else s[key := value.value]
  }

  /** `get_secret`: the stored value, or `None` when the key holds nothing. */
  function GetSecret(s: Store, key: string): (r: Option<string>)
    ensures r.Some? <==> key in s
    ensures r.Some? ==> r.value == s[key]
  {
    if key in s then Some(s[key]) else None
  }

  /** `clear_all`: no key holds anything afterwards. */
  function ClearAll(s: Store): (r: Store)
    ensures forall k :: k !in r
  {
    map[]
  }

  function SetGestaoBasePassword(s: Store, password: Option<string>): (r: Store)
    ensures Clears(password) ==> GestaoBasePasswordKey !in r
    ensures forall k :: k != GestaoBasePasswordKey ==> GetSecret(r, k) == GetSecret(s, k)
  {
    SetSecret(s, GestaoBasePasswordKey, password)
  }

  function GetGestaoBasePassword(s: Store): (r: Option<string>)
    ensures r.Some? <==> GestaoBasePasswordKey in s
  {
    GetSecret(s, GestaoBasePasswordKey)
  }

  function ClearGestaoBasePassword(s: Store): (r: Store)
    ensures GestaoBasePasswordKey !in r
    ensures forall k :: k != GestaoBasePasswordKey ==> GetSecret(r, k) == GetSecret(s, k)
  {
    SetSecret(s, GestaoBasePasswordKey, None)
  }

  // ---------------------------------------------------------------- properties

  /** Reading a key right after setting it gives the value, or nothing for a clearing value. */
  lemma SetThenGet(s: Store, key: string, value: Option<string>)
    ensures GetSecret(SetSecret(s, key, value), key) == if Clears(value) then None else value
  {
  }

  /** Setting one key leaves every other key as it was. */
  lemma SetKeepsOthers(s: Store, key: string, other: string, value: Option<string>)
    requires other != key
    ensures GetSecret(SetSecret(s, key, value), other) == GetSecret(s, other)
  {
  }

  /** The last write to a key wins: an earlier value for it leaves no trace. */
  lemma SetTwice(s: Store, key: string, v1: Option<string>, v2: Option<string>)
    ensures SetSecret(SetSecret(s, key, v1), key, v2) == SetSecret(s, key, v2)
  {
    var a, b := SetSecret(SetSecret(s, key, v1), key, v2), SetSecret(s, key, v2);
    assert forall k :: k in a <==> k in b;
  }

  /** Storing `None` and storing the empty text both amount to removing the key. */
  lemma ClearingValuesAgree(s: Store, key: string)
    ensures SetSecret(s, key, None) == SetSecret(s, key, Some("")) == s - {key}
  {
  }

  /** Clearing the password is setting it to `None`, and also setting it to the empty text. */
  lemma ClearIsSetNone(s: Store)
    ensures ClearGestaoBasePassword(s) == SetGestaoBasePassword(s, None)
    ensures ClearGestaoBasePassword(s) == SetGestaoBasePassword(s, Some(""))
  {
    ClearingValuesAgree(s, GestaoBasePasswordKey);
  }

  /** A non-empty password reads back as set; a cleared one reads back as nothing. */
  lemma PasswordRoundTrip(s: Store, password: Option<string>)
    ensures GetGestaoBasePassword(SetGestaoBasePassword(s, password)) == if Clears(password) then None else password
    ensures GetGestaoBasePassword(ClearGestaoBasePassword(s)) == None
  {
    SetThenGet(s, GestaoBasePasswordKey, password);
  }

  /** After clearing everything, the password and every other key read as nothing. */
  lemma ClearAllForgets(s: Store, key: string)
    ensures GetSecret(ClearAll(s), key) == None
    ensures GetGestaoBasePassword(ClearAll(s)) == None
  {
  }
}
