/**
 * The placeholder authentication gate: a boolean "authenticated" flag
 * persisted under `matrix_authenticated` in local storage (modelled as a map).
 */
module Auth {

  const StorageKey: string := "matrix_authenticated"

  datatype AuthState = AuthState(authenticated: bool, storage: map<string, string>)

  /** The constructor: authenticated exactly when the stored value is the string "true". */
  function Restore(storage: map<string, string>): (r: AuthState)
    ensures r.authenticated <==> StorageKey in storage && storage[StorageKey] == "true"
    ensures r.storage == storage
  {
    AuthState(StorageKey in storage && storage[StorageKey] == "true", storage)
  }

  /** `login`: every username and password is accepted (after a delay the model leaves out). */
  function Login(username: string, password: string): (accepted: bool)
    ensures accepted
  {
    true
  }

  /** `completeAuthentication`: sets the flag and stores "true"; no other key changes. */
  function CompleteAuthentication(st: AuthState): (r: AuthState)
    ensures r.authenticated
    ensures StorageKey in r.storage && r.storage[StorageKey] == "true"
    ensures forall k :: k != StorageKey ==> (k in r.storage <==> k in st.storage)
    ensures forall k :: k != StorageKey && k in st.storage ==> r.storage[k] == st.storage[k]
  {
    AuthState(true, st.storage[StorageKey := "true"])
  }

  /** `logout`: clears the flag and removes the key; no other key changes. */
  function Logout(st: AuthState): (r: AuthState)
    ensures !r.authenticated
    ensures StorageKey !in r.storage
    ensures forall k :: k != StorageKey ==> (k in r.storage <==> k in st.storage)
    ensures forall k :: k != StorageKey && k in st.storage ==> r.storage[k] == st.storage[k]
  {
    AuthState(false, st.storage - {StorageKey})
  }

  /** A completed login survives a reload: a new instance over the same storage starts authenticated. */
  lemma LoginPersists(st: AuthState)
    ensures Restore(CompleteAuthentication(st).storage).authenticated
  {
  }

  /** Logging out after logging in leaves storage from which a new instance starts unauthenticated. */
  lemma LogoutPersists(st: AuthState)
    ensures !Restore(Logout(CompleteAuthentication(st)).storage).authenticated
  {
  }
}
