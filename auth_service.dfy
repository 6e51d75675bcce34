/** Credential check and session restore (services/authService.ts).

    `Login` and `RestoreSession` give the outcome of each operation as a function of a
    store snapshot. The only storage change either makes is the cleanup done by the
    service reads it calls; `LoginOn` and `SubscribeToAuthChanges` run the operations
    against the store and make that change too. The 800 ms latency of `login` is dropped:
    a resolved promise is `Success`, a rejected one `Failure`. */
module AuthService {
  import opened Wrappers
  import opened Types
  import opened SystemService
  import Seqs

  /** The fixed account every demo-mode login returns. */
  const MockUser: User := User("user_123", Some("admin@staysync.com"), Some("Demo Admin"), None, Some(Superuser))

  datatype AuthError = InvalidCredentials

  function ErrorMessage(e: AuthError): string
  {
    match e
    case InvalidCredentials => "Invalid credentials"
  }

  /** Exact, case-sensitive equality of both email and password. */
  predicate CredentialsMatch(su: StoredUser, email: string, password: string)
  {
    su.user.email == Some(email) && su.password == Some(password)
  }

  function Matching(email: string, password: string): StoredUser -> bool
  {
    (su: StoredUser) => CredentialsMatch(su, email, password)
  }

  /** `login(email, password)`: any credentials are accepted in demo mode; in live mode
      the first stored account whose email and password both match is returned without
      its password, and otherwise the call fails with "Invalid credentials". */
  function Login(m: map<Key, Value>, email: string, password: string): (r: Result<User, AuthError>)
    ensures DemoModeOf(m) ==> r == Success(MockUser)
    ensures !DemoModeOf(m) ==>
      (r.Success? <==> exists i :: 0 <= i < |UsersOf(m)| && CredentialsMatch(UsersOf(m)[i], email, password))
    ensures !DemoModeOf(m) && r.Success? ==>
      exists i :: 0 <= i < |UsersOf(m)| && CredentialsMatch(UsersOf(m)[i], email, password)
                  && r.value == UsersOf(m)[i].user
                  && forall j :: 0 <= j < i ==> !CredentialsMatch(UsersOf(m)[j], email, password)
    ensures r.Failure? ==> r.error == InvalidCredentials && ErrorMessage(r.error) == "Invalid credentials"
  {
    if DemoModeOf(m) then Success(MockUser)
    else match Seqs.Find(Matching(email, password), UsersOf(m))
      case Some(found) => Success(found.user)
      case None => Failure(InvalidCredentials)
  }

  /** `logout()`: always resolves; it touches no state. */
  function Logout(): (r: Result<(), AuthError>)
    ensures r.Success?
  {
    Success(())
  }

  /** Some stored account carries this email. */
  predicate HasAccount(m: map<Key, Value>, email: Option<string>)
  {
    exists i :: 0 <= i < |UsersOf(m)| && UsersOf(m)[i].user.email == email
  }

  function SameEmail(email: Option<string>): StoredUser -> bool
  {
    (su: StoredUser) => su.user.email == email
  }

  /** The one value `subscribeToAuthChanges` passes to its callback: no user when no
      session is stored or it does not parse; in live mode, no user when the session's
      email is no longer among the stored accounts; otherwise the stored session. */
  function RestoreSession(m: map<Key, Value>): (r: Option<User>)
    ensures SessionKey !in m || m[SessionKey].Corrupt? ==> r == None
    ensures r.Some? ==> SessionKey in m && m[SessionKey] == SessionRecord(r.value)
    ensures SessionKey in m && m[SessionKey].SessionRecord? && DemoModeOf(m) ==>
      r == Some(m[SessionKey].session)
    ensures SessionKey in m && m[SessionKey].SessionRecord? && !DemoModeOf(m) ==>
      (r.Some? <==> HasAccount(m, m[SessionKey].session.email))
  {
    if SessionKey !in m then None
    else match m[SessionKey]
      case SessionRecord(parsed) =>
        if !DemoModeOf(m) && Seqs.Find(SameEmail(parsed.email), UsersOf(m)).None? then None
        else Some(parsed)
      case _ => None
  }

  /** A session restored in live mode belongs to a stored account. */
  lemma RestoredSessionIsLive(m: map<Key, Value>)
    requires !DemoModeOf(m) && RestoreSession(m).Some?
    ensures HasAccount(m, RestoreSession(m).value.email)
  {
  }

  /** Once the accounts are reset, no stored session survives in live mode. */
  lemma ResetInvalidatesSession(m: map<Key, Value>)
    requires !DemoModeOf(m)
    ensures RestoreSession(AfterResetRealUsers(m)) == None
  {
    var m' := AfterResetRealUsers(m);
    assert !DemoModeOf(m') && UsersOf(m') == [];
  }

  /** The slot removals that `login`'s and the restore's own reads can make do not change
      their outcome. */
  lemma LoginIgnoresCleanup(m: map<Key, Value>, k: Key, email: string, password: string)
    requires k == DemoKey || k == UsersKey
    ensures Login(Cleaned(m, k), email, password) == Login(m, email, password)
    ensures RestoreSession(Cleaned(m, k)) == RestoreSession(m)
  {
    var m' := Cleaned(m, k);
    assert DemoModeOf(m') == DemoModeOf(m);
    assert UsersOf(m') == UsersOf(m);
    assert SameSlot(m, m', SessionKey);
  }

  /** The store after the service reads of `login`: `isDemoMode` cleans the mode slot and,
      in live mode, `getRealUsers` cleans the account slot. */
  function AfterLoginReads(m: map<Key, Value>): (m': map<Key, Value>)
    ensures WellTyped(m) ==> WellTyped(m')
    ensures DemoModeOf(m') == DemoModeOf(m) && UsersOf(m') == UsersOf(m)
    ensures SameSlot(m, m', SetupKey) && SameSlot(m, m', SessionKey)
    ensures DemoModeOf(m) ==> SameSlot(m, m', UsersKey)
    ensures DemoKey in m' ==> !m'[DemoKey].Corrupt?
    ensures !DemoModeOf(m) ==> (UsersKey in m' ==> !m'[UsersKey].Corrupt?)
    ensures forall k :: k in m' ==> k in m && m'[k] == m[k]
    ensures forall k :: k in m && k !in m' ==> m[k].Corrupt?
  {
    var m1 := Cleaned(m, DemoKey);
    if DemoModeOf(m) then m1 else Cleaned(m1, UsersKey)
  }

  /** `login(email, password)` run against the store. */
  method LoginOn(store: LocalStore, email: string, password: string) returns (r: Result<User, AuthError>)
    requires store.Valid()
    modifies store
    ensures store.Valid()
    ensures r == Login(old(store.slots), email, password)
    ensures store.slots == AfterLoginReads(old(store.slots)) && store.rooms == old(store.rooms)
  {
    var isDemo := store.IsDemoMode();
    if isDemo {
      return Success(MockUser);
    }
    var realUsers := store.GetRealUsers();
    match Seqs.Find(Matching(email, password), realUsers) {
      case Some(validUser) =>
        r := Success(validUser.user);
      case None =>
        r := Failure(InvalidCredentials);
    }
  }

  /** The store after `subscribeToAuthChanges`: the mode and account reads happen only when
      a readable session is stored. */
  function AfterRestoreReads(m: map<Key, Value>): (m': map<Key, Value>)
    ensures WellTyped(m) ==> WellTyped(m')
    ensures SessionKey !in m || !m[SessionKey].SessionRecord? ==> m' == m
    ensures SessionKey in m && m[SessionKey].SessionRecord? ==> m' == AfterLoginReads(m)
  {
    if SessionKey in m && m[SessionKey].SessionRecord? then AfterLoginReads(m) else m
  }

  /** `subscribeToAuthChanges(callback)` run against the store: the result is the one value
      handed to the callback. */
  method SubscribeToAuthChanges(store: LocalStore) returns (restored: Option<User>)
    requires store.Valid()
    modifies store
    ensures store.Valid()
    ensures restored == RestoreSession(old(store.slots))
    ensures store.slots == AfterRestoreReads(old(store.slots)) && store.rooms == old(store.rooms)
  {
    if SessionKey !in store.slots || !store.slots[SessionKey].SessionRecord? {
      return None;
    }
    var parsed := store.slots[SessionKey].session;
    var isDemo := store.IsDemoMode();
    if !isDemo {
      var realUsers := store.GetRealUsers();
      if Seqs.Find(SameEmail(parsed.email), realUsers).None? {
        return None;
      }
    }
    restored := Some(parsed);
  }

  /** With the credentials of the last account and no earlier account on its email, a
      live login returns that account. */
  lemma {:induction false} LoginFindsLast(m: map<Key, Value>, email: string, password: string)
    requires !DemoModeOf(m) && |UsersOf(m)| > 0
    requires CredentialsMatch(UsersOf(m)[|UsersOf(m)| - 1], email, password)
    requires forall j :: 0 <= j < |UsersOf(m)| - 1 ==> UsersOf(m)[j].user.email != Some(email)
    ensures Login(m, email, password) == Success(UsersOf(m)[|UsersOf(m)| - 1].user)
  {
    var us := UsersOf(m);
    var r := Login(m, email, password);
    assert r.Success?;
    var i :| 0 <= i < |us| && CredentialsMatch(us[i], email, password) && r.value == us[i].user
             && forall j :: 0 <= j < i ==> !CredentialsMatch(us[j], email, password);
    assert i == |us| - 1;
  }
}
