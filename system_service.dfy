/** The persistent store and the mode controller (services/systemService.ts).

    Browser storage is a map from the service's fixed keys to slot values. JSON text is
    not modelled: a slot holds the typed value that `JSON.parse` would give back, or
    `Corrupt` for text that `JSON.parse` rejects. The spec functions below give, for a
    snapshot of the store, what each read returns and what each write leaves behind; the
    class `LocalStore` performs the operations in place and is proved against them. */
module SystemService {
  import opened Wrappers
  import opened Types
  import Seqs

  datatype Key = DemoKey | SetupKey | UsersKey | SessionKey

  /** The storage keys' names. The session key is read by the auth service. */
  function KeyName(k: Key): (name: string)
  {
    match k
    case DemoKey => "staysync_is_demo"
    case SetupKey => "staysync_setup_complete"
    case UsersKey => "staysync_real_users"
    case SessionKey => "staysync_user"
  }

  lemma KeyNamesDistinct(a: Key, b: Key)
    ensures a != b ==> KeyName(a) != KeyName(b)
  {
  }

  /** A live-mode account as stored: the user record with its plaintext password. */
  datatype StoredUser = StoredUser(user: User, password: Option<string>)

  datatype Value =
    | Text(text: string)               // raw text, read without parsing
    | Flag(flag: bool)                 // a JSON boolean
    | UserList(users: seq<StoredUser>) // a JSON array of accounts
    | SessionRecord(session: User)     // a JSON user object
    | Corrupt                          // text that JSON.parse rejects

  /** The shapes each slot can hold: what the code writes there, or corrupt text. */
  predicate Fits(k: Key, v: Value)
  {
    match k
    case DemoKey => v.Flag? || v.Corrupt?
    case SetupKey => v.Text?
    case UsersKey => v.UserList? || v.Corrupt?
    case SessionKey => v.SessionRecord? || v.Corrupt?
  }

  predicate WellTyped(m: map<Key, Value>)
  {
    forall k :: k in m ==> Fits(k, m[k])
  }

  /** Slot `k` is the same in both snapshots (present in both with one value, or absent). */
  predicate SameSlot(m: map<Key, Value>, m': map<Key, Value>, k: Key)
  {
    (k in m <==> k in m') && (k in m ==> m[k] == m'[k])
  }

  // ---------------------------------------------------------------------------------
  // Reads

  /** What `safeParse(key, fallback)` returns: the fallback when the slot is missing or
      does not parse, the parsed value otherwise. It never hands out an error. */
  function Parsed(m: map<Key, Value>, key: Key, fallback: Value): (v: Value)
    ensures key !in m || m[key].Corrupt? ==> v == fallback
    ensures key in m && !m[key].Corrupt? ==> v == m[key]
    ensures !fallback.Corrupt? ==> !v.Corrupt?
  {
    if key !in m then fallback
    else if m[key].Corrupt? then fallback
    else m[key]
  }

  /** The store after `safeParse(key, _)`: a slot that fails to parse is removed. */
  function Cleaned(m: map<Key, Value>, key: Key): (m': map<Key, Value>)
    ensures key in m' ==> !m'[key].Corrupt?
    ensures key in m && !m[key].Corrupt? ==> key in m'
    ensures forall k :: k != key ==> SameSlot(m, m', k)
    ensures forall k :: k in m' ==> k in m && m'[k] == m[k]
    ensures WellTyped(m) ==> WellTyped(m')
  {
    if key in m && m[key].Corrupt? then m - {key} else m
  }

  /** The removal does not change what the slot reads as. */
  lemma CleanedReadsAlike(m: map<Key, Value>, key: Key, fallback: Value)
    ensures Parsed(Cleaned(m, key), key, fallback) == Parsed(m, key, fallback)
    ensures Cleaned(Cleaned(m, key), key) == Cleaned(m, key)
  {
  }

  /** Writing a slot after its cleanup is the same as writing it straight away. */
  lemma CleanedThenWritten(m: map<Key, Value>, key: Key, v: Value)
    ensures Cleaned(m, key)[key := v] == m[key := v]
  {
  }

  /** `isDemoMode()`: the stored flag, defaulting to true when absent or unreadable. */
  function DemoModeOf(m: map<Key, Value>): (d: bool)
    ensures DemoKey !in m || m[DemoKey].Corrupt? ==> d
    ensures DemoKey in m && m[DemoKey].Flag? ==> d == m[DemoKey].flag
  {
    match Parsed(m, DemoKey, Flag(true))
    case Flag(b) => b
    case _ => true
  }

  /** `getRealUsers()`: the stored accounts, or none when absent or unreadable. */
  function UsersOf(m: map<Key, Value>): (users: seq<StoredUser>)
    ensures UsersKey !in m || m[UsersKey].Corrupt? ==> users == []
    ensures UsersKey in m && m[UsersKey].UserList? ==> users == m[UsersKey].users
  {
    match Parsed(m, UsersKey, UserList([]))
    case UserList(us) => us
    case _ => []
  }

  /** `localStorage.getItem(SETUP_COMPLETE)`: the raw text of the setup flag. */
  function SetupFlagText(m: map<Key, Value>): (text: Option<string>)
  {
    if SetupKey in m && m[SetupKey].Text? then Some(m[SetupKey].text) else None
  }

  /** `isSetupComplete()`: always in demo mode; in live mode exactly when the stored
      text is `'true'`. */
  function SetupCompleteOf(m: map<Key, Value>): (c: bool)
    ensures DemoModeOf(m) ==> c
    ensures !DemoModeOf(m) ==> (c <==> SetupFlagText(m) == Some("true"))
  {
    DemoModeOf(m) || SetupFlagText(m) == Some("true")
  }

  // ---------------------------------------------------------------------------------
  // Writes

  /** The store after `setDemoMode(isDemo)`. */
  function AfterSetDemoMode(m: map<Key, Value>, isDemo: bool): (m': map<Key, Value>)
    ensures WellTyped(m) ==> WellTyped(m')
    ensures DemoModeOf(m') == isDemo
    ensures isDemo ==> SetupFlagText(m') == Some("true")
    ensures !isDemo && UsersOf(m) == [] ==> !SetupCompleteOf(m')
    ensures !isDemo && UsersOf(m) != [] ==> SetupFlagText(m') == SetupFlagText(m)
    ensures UsersOf(m') == UsersOf(m)
    ensures SameSlot(m, m', SessionKey)
  {
    var m1 := m[DemoKey := Flag(isDemo)];
    if isDemo then m1[SetupKey := Text("true")]
    else
      var m2 := Cleaned(m1, UsersKey);
      if |UsersOf(m2)| == 0 then m2[SetupKey := Text("false")] else m2
  }

  /** Demo mode leaves setup marked complete, so switching back to live mode with
      accounts in place does not send the user to the wizard again. */
  lemma DemoThenLiveStaysComplete(m: map<Key, Value>)
    requires UsersOf(m) != []
    ensures SetupCompleteOf(AfterSetDemoMode(AfterSetDemoMode(m, true), false))
  {
    var m1 := AfterSetDemoMode(m, true);
    assert SetupFlagText(m1) == Some("true") && UsersOf(m1) != [];
  }

  /** The store after `completeSetup()`. */
  function AfterCompleteSetup(m: map<Key, Value>): (m': map<Key, Value>)
    ensures WellTyped(m) ==> WellTyped(m')
    ensures SetupFlagText(m') == Some("true") && SetupCompleteOf(m')
    ensures SameSlot(m, m', DemoKey) && SameSlot(m, m', UsersKey) && SameSlot(m, m', SessionKey)
  {
    m[SetupKey := Text("true")]
  }

  /** Completing setup once or several times leaves the same store. */
  lemma CompleteSetupIdempotent(m: map<Key, Value>)
    ensures AfterCompleteSetup(AfterCompleteSetup(m)) == AfterCompleteSetup(m)
  {
  }

  /** The filter `saveRealUser` applies to the old accounts: keep those that differ from
      the new user in both email and role. */
  function Unrelated(u: User): StoredUser -> bool
  {
    (x: StoredUser) => x.user.email != u.email && x.user.role != u.role
  }

  function KeepUnrelated(users: seq<StoredUser>, u: User): (kept: seq<StoredUser>)
    ensures |kept| <= |users|
    ensures forall x :: x in kept <==> x in users && x.user.email != u.email && x.user.role != u.role
  {
    Seqs.Filter(Unrelated(u), users)
  }

  /** Every copy of an unrelated account is kept, and no copy of a related one. */
  lemma KeepUnrelatedCounts(users: seq<StoredUser>, u: User)
    ensures forall x :: multiset(KeepUnrelated(users, u))[x]
                        == if Unrelated(u)(x) then multiset(users)[x] else 0
  {
    Seqs.FilterCounts(Unrelated(u), users);
  }

  /** The account list `saveRealUser(u, p)` writes back. */
  function SavedUsers(users: seq<StoredUser>, u: User, p: Option<string>): (r: seq<StoredUser>)
    ensures 1 <= |r| <= |users| + 1
    ensures r[|r| - 1] == StoredUser(u, p)
    ensures forall x :: x in r[..|r| - 1] <==> x in users && x.user.email != u.email && x.user.role != u.role
  {
    var kept := KeepUnrelated(users, u);
    assert (kept + [StoredUser(u, p)])[..|kept|] == kept;
    kept + [StoredUser(u, p)]
  }

  /** The store after `saveRealUser(u, p)`. */
  function AfterSaveRealUser(m: map<Key, Value>, u: User, p: Option<string>): (m': map<Key, Value>)
    ensures WellTyped(m) ==> WellTyped(m')
    ensures UsersOf(m') == SavedUsers(UsersOf(m), u, p)
    ensures SameSlot(m, m', DemoKey) && SameSlot(m, m', SetupKey) && SameSlot(m, m', SessionKey)
  {
    m[UsersKey := UserList(SavedUsers(UsersOf(m), u, p))]
  }

  /** The store after `resetRealUsers()`. */
  function AfterResetRealUsers(m: map<Key, Value>): (m': map<Key, Value>)
    ensures WellTyped(m) ==> WellTyped(m')
    ensures UsersOf(m') == []
    ensures SameSlot(m, m', DemoKey) && SameSlot(m, m', SetupKey) && SameSlot(m, m', SessionKey)
  {
    m - {UsersKey}
  }

  // ---------------------------------------------------------------------------------
  // Properties of the account list

  predicate RolesDistinct(users: seq<StoredUser>)
  {
    forall i, j :: 0 <= i < j < |users| ==> users[i].user.role != users[j].user.role
  }

  predicate EmailsDistinct(users: seq<StoredUser>)
  {
    forall i, j :: 0 <= i < j < |users| ==> users[i].user.email != users[j].user.email
  }

  function RolesDiffer(): (StoredUser, StoredUser) -> bool
  {
    (a: StoredUser, b: StoredUser) => a.user.role != b.user.role
  }

  function EmailsDiffer(): (StoredUser, StoredUser) -> bool
  {
    (a: StoredUser, b: StoredUser) => a.user.email != b.user.email
  }

  /** Accounts unrelated to the new user, at the end of the list, stay where they are. */
  lemma SavedUsersKeepUnrelatedTail(k: seq<StoredUser>, tail: seq<StoredUser>, u: User, p: Option<string>)
    requires forall x :: x in tail ==> x.user.email != u.email && x.user.role != u.role
    ensures SavedUsers(k + tail, u, p) == KeepUnrelated(k, u) + tail + [StoredUser(u, p)]
  {
    Seqs.FilterAppend(Unrelated(u), k, tail);
    Seqs.FilterKeepsAll(Unrelated(u), tail);
    assert forall i :: 0 <= i < |tail| ==> Unrelated(u)(tail[i]) by {
      forall i | 0 <= i < |tail| ensures Unrelated(u)(tail[i]) {
        assert tail[i] in tail;
      }
    }
  }

  /** The kept accounts are the old ones, in their old order. */
  lemma SavedUsersKeepOrder(users: seq<StoredUser>, u: User, p: Option<string>)
    ensures var r := SavedUsers(users, u, p); Seqs.IsSubsequence(r[..|r| - 1], users)
  {
    var r := SavedUsers(users, u, p);
    assert r[..|r| - 1] == KeepUnrelated(users, u);
    Seqs.FilterIsSubsequence(Unrelated(u), users);
  }

  /** Saving keeps roles pairwise distinct; the new user's role is held by it alone. */
  lemma {:induction false} SavedUsersKeepRolesDistinct(users: seq<StoredUser>, u: User, p: Option<string>)
    requires RolesDistinct(users)
    ensures RolesDistinct(SavedUsers(users, u, p))
  {
    var kept := KeepUnrelated(users, u);
    assert Seqs.Pairwise(RolesDiffer(), users);
    Seqs.FilterPairwise(Unrelated(u), RolesDiffer(), users);
    assert Seqs.Pairwise(RolesDiffer(), kept);
    var r := SavedUsers(users, u, p);
    assert r == kept + [StoredUser(u, p)];
    forall i, j | 0 <= i < j < |r| ensures r[i].user.role != r[j].user.role {
      if j < |kept| {
        assert RolesDiffer()(kept[i], kept[j]);
      } else {
        assert kept[i] in kept;
      }
    }
  }

  /** Saving keeps emails pairwise distinct. */
  lemma {:induction false} SavedUsersKeepEmailsDistinct(users: seq<StoredUser>, u: User, p: Option<string>)
    requires EmailsDistinct(users)
    ensures EmailsDistinct(SavedUsers(users, u, p))
  {
    var kept := KeepUnrelated(users, u);
    assert Seqs.Pairwise(EmailsDiffer(), users);
    Seqs.FilterPairwise(Unrelated(u), EmailsDiffer(), users);
    assert Seqs.Pairwise(EmailsDiffer(), kept);
    var r := SavedUsers(users, u, p);
    assert r == kept + [StoredUser(u, p)];
    forall i, j | 0 <= i < j < |r| ensures r[i].user.email != r[j].user.email {
      if j < |kept| {
        assert EmailsDiffer()(kept[i], kept[j]);
      } else {
        assert kept[i] in kept;
      }
    }
  }

  // ---------------------------------------------------------------------------------
  // The store, updated in place

  class LocalStore {
    /** The keyed slots of browser storage. */
    var slots: map<Key, Value>
    /** The live room list. The code reads and writes it through `getRealRooms` and
        `saveRealRooms`, which systemService.ts does not define; it is kept as a slot of
        its own whose read returns the last write. */
    var rooms: seq<Room>

    ghost predicate Valid()
      reads this
    {
      WellTyped(slots)
    }

    /** A store holding what browser storage already holds. */
    constructor (initial: map<Key, Value>, savedRooms: seq<Room>)
      requires WellTyped(initial)
      ensures Valid() && slots == initial && rooms == savedRooms
    {
      slots := initial;
      rooms := savedRooms;
    }

    /** `safeParse`. The setup flag is raw text and is never read through it. */
    method SafeParse(key: Key, fallback: Value) returns (v: Value)
      requires Valid() && key != SetupKey
      modifies this
      ensures Valid()
      ensures v == Parsed(old(slots), key, fallback)
      ensures slots == Cleaned(old(slots), key) && rooms == old(rooms)
    {
      if key !in slots {
        v := fallback;
      } else if slots[key].Corrupt? {
        slots := slots - {key};
        v := fallback;
      } else {
        v := slots[key];
      }
    }

    method IsDemoMode() returns (isDemo: bool)
      requires Valid()
      modifies this
      ensures Valid()
      ensures isDemo == DemoModeOf(old(slots))
      ensures slots == Cleaned(old(slots), DemoKey) && rooms == old(rooms)
    {
      var v := SafeParse(DemoKey, Flag(true));
      isDemo := v.flag;
    }

    method SetDemoMode(isDemo: bool)
      requires Valid()
      modifies this
      ensures Valid()
      ensures slots == AfterSetDemoMode(old(slots), isDemo) && rooms == old(rooms)
    {
      slots := slots[DemoKey := Flag(isDemo)];
      if isDemo {
        slots := slots[SetupKey := Text("true")];
      } else {
        var users := GetRealUsers();
        if |users| == 0 {
          slots := slots[SetupKey := Text("false")];
        }
      }
    }

    method IsSetupComplete() returns (complete: bool)
      requires Valid()
      modifies this
      ensures Valid()
      ensures complete == SetupCompleteOf(old(slots))
      ensures slots == Cleaned(old(slots), DemoKey) && rooms == old(rooms)
    {
      var isDemo := IsDemoMode();
      if isDemo {
        return true;
      }
      complete := SetupFlagText(slots) == Some("true");
    }

    method CompleteSetup()
      requires Valid()
      modifies this
      ensures Valid()
      ensures slots == AfterCompleteSetup(old(slots)) && rooms == old(rooms)
    {
      slots := slots[SetupKey := Text("true")];
    }

    method GetRealUsers() returns (users: seq<StoredUser>)
      requires Valid()
      modifies this
      ensures Valid()
      ensures users == UsersOf(old(slots))
      ensures slots == Cleaned(old(slots), UsersKey) && rooms == old(rooms)
    {
      var v := SafeParse(UsersKey, UserList([]));
      users := v.users;
    }

    method SaveRealUser(user: User, password: Option<string>)
      requires Valid()
      modifies this
      ensures Valid()
      ensures slots == AfterSaveRealUser(old(slots), user, password) && rooms == old(rooms)
    {
      var users := GetRealUsers();
      var filtered := KeepUnrelated(users, user);
      filtered := filtered + [StoredUser(user, password)];
      assert filtered == SavedUsers(UsersOf(old(slots)), user, password);
      CleanedThenWritten(old(slots), UsersKey, UserList(filtered));
      slots := slots[UsersKey := UserList(filtered)];
    }

    method ResetRealUsers()
      requires Valid()
      modifies this
      ensures Valid()
      ensures slots == AfterResetRealUsers(old(slots)) && rooms == old(rooms)
    {
      slots := slots - {UsersKey};
    }

    method GetRealRooms() returns (saved: seq<Room>)
      ensures saved == rooms
    {
      saved := rooms;
    }

    method SaveRealRooms(updated: seq<Room>)
      modifies this
      ensures rooms == updated && slots == old(slots)
    {
      rooms := updated;
    }
  }
}
