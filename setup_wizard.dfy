/** The first-run setup wizard (components/SetupWizard.tsx).

    Three forms create the OWNER, MANAGER and SUPERUSER accounts, one per step. The save
    at step 3 finalises: it marks setup complete, signs in with the superuser form's
    credentials and reports completion once, whether or not the sign-in succeeded.
    `Date.now()` is the parameter `now`. */
module Wizard {
  import opened Wrappers
  import opened Types
  import opened SystemService
  import opened AuthService
  import Strings
  import Seqs

  /** The values typed into one account form. */
  datatype Form = Form(name: string, email: string, password: string)

  const EmptyForm := Form("", "", "")

  /** The browser submits a form only when all three `required` inputs are filled. */
  predicate Filled(f: Form)
  {
    f.name != "" && f.email != "" && f.password != ""
  }

  /** The account each step's form creates. */
  function StepRole(step: int): (r: Role)
    requires 1 <= step <= 3
    ensures r == Owner <==> step == 1
    ensures r == Manager <==> step == 2
    ensures r == Superuser <==> step == 3
  {
    if step == 1 then Owner else if step == 2 then Manager else Superuser
  }

  /** The new account's id: the lower-cased role, `_`, then the timestamp. */
  function NewUserId(role: Role, now: nat): (id: string)
    ensures |RoleName(role)| < |id|
    ensures id[..|RoleName(role)|] == Strings.Lower(RoleName(role))
    ensures id[|RoleName(role)|] == '_'
    ensures forall k :: |RoleName(role)| < k < |id| ==> '0' <= id[k] <= '9'
  {
    Strings.Lower(RoleName(role)) + "_" + Strings.Decimal(now)
  }

  /** Ids made for different roles, or at different times, differ. */
  lemma NewUserIdInjective(r1: Role, t1: nat, r2: Role, t2: nat)
    ensures NewUserId(r1, t1) == NewUserId(r2, t2) ==> r1 == r2 && t1 == t2
  {
    var id1, id2 := NewUserId(r1, t1), NewUserId(r2, t2);
    if id1 == id2 {
      var p1, p2 := Strings.Lower(RoleName(r1)), Strings.Lower(RoleName(r2));
      assert id1[0] == Strings.LowerChar(RoleName(r1)[0]);
      assert id2[0] == Strings.LowerChar(RoleName(r2)[0]);
      if r1 == r2 {
        assert id1[|p1| + 1..] == Strings.Decimal(t1);
        assert id2[|p2| + 1..] == Strings.Decimal(t2);
        Strings.DecimalInjective(t1, t2);
      }
    }
  }

  /** The record `handleSaveStep(role, data)` saves. */
  function NewUser(role: Role, data: Form, now: nat): (u: User)
    ensures u.email == Some(data.email) && u.displayName == Some(data.name)
    ensures u.photoURL == None && u.role == Some(role)
    ensures u.uid == NewUserId(role, now)
  {
    User(NewUserId(role, now), Some(data.email), Some(data.name), None, Some(role))
  }

  /** The store after the save at step 3 and the `completeSetup` that follows it. */
  function FinalStore(m: map<Key, Value>, data: Form, now: nat): map<Key, Value>
  {
    AfterCompleteSetup(AfterSaveRealUser(m, NewUser(Superuser, data, now), Some(data.password)))
  }

  /** The auto-login after the superuser step never fails: the account just saved is the
      only one with its email, so the sign-in finds it (or, in demo mode, the demo user). */
  lemma AutoLoginSucceeds(m: map<Key, Value>, data: Form, now: nat)
    ensures Login(FinalStore(m, data, now), data.email, data.password)
         == Success(if DemoModeOf(m) then MockUser else NewUser(Superuser, data, now))
  {
    var u := NewUser(Superuser, data, now);
    var m1 := AfterSaveRealUser(m, u, Some(data.password));
    var m2 := FinalStore(m, data, now);
    assert SameSlot(m, m2, DemoKey) && SameSlot(m1, m2, UsersKey);
    assert DemoModeOf(m2) == DemoModeOf(m);
    if !DemoModeOf(m) {
      var us := UsersOf(m2);
      assert us == SavedUsers(UsersOf(m), u, Some(data.password));
      forall j | 0 <= j < |us| - 1 ensures us[j].user.email != Some(data.email) {
        assert us[j] in us[..|us| - 1];
      }
      LoginFindsLast(m2, data.email, data.password);
    }
  }

  /** An account kept by the saves of the three wizard accounts has no role. */
  lemma OlderAccountsLeft(users: seq<StoredUser>, o: User, mg: User, su: User)
    requires o.role == Some(Owner) && mg.role == Some(Manager) && su.role == Some(Superuser)
    ensures forall x :: x in KeepUnrelated(KeepUnrelated(KeepUnrelated(users, o), mg), su) ==>
      x in users && x.user.role == None &&
      x.user.email != o.email && x.user.email != mg.email && x.user.email != su.email
  {
    forall x | x in KeepUnrelated(KeepUnrelated(KeepUnrelated(users, o), mg), su)
      ensures x in users && x.user.role == None
      ensures x.user.email != o.email && x.user.email != mg.email && x.user.email != su.email
    {
      RoleCases(x.user.role);
    }
  }

  /** A save onto a list made of older accounts `k` followed by accounts unrelated to the
      new one keeps that tail in place and appends the new account after it. */
  lemma SaveAfter(l: seq<StoredUser>, k: seq<StoredUser>, tail: seq<StoredUser>, c: StoredUser)
    requires l == k + tail
    requires forall x :: x in tail ==> x.user.email != c.user.email && x.user.role != c.user.role
    ensures SavedUsers(l, c.user, c.password) == KeepUnrelated(k, c.user) + (tail + [c])
  {
    SavedUsersKeepUnrelatedTail(k, tail, c.user, c.password);
    assert StoredUser(c.user, c.password) == c;
  }

  /** Two saves of accounts with different emails and roles leave both, in order, after
      the older accounts that neither save removed. */
  lemma TwoSaves(users: seq<StoredUser>, a: StoredUser, b: StoredUser)
    requires a.user.email != b.user.email && a.user.role != b.user.role
    ensures SavedUsers(SavedUsers(users, a.user, a.password), b.user, b.password)
         == KeepUnrelated(KeepUnrelated(users, a.user), b.user) + [a, b]
  {
    var k1 := KeepUnrelated(users, a.user);
    assert SavedUsers(users, a.user, a.password) == k1 + [a];
    SavedUsersKeepUnrelatedTail(k1, [a], b.user, b.password);
  }

  /** Three steps with three different emails leave the three accounts, in step order,
      at the end of the list, after the older accounts none of the saves removed (which
      `OlderAccountsLeft` describes). */
  lemma WizardLeavesThreeAccounts(users: seq<StoredUser>, ao: StoredUser, am: StoredUser, asu: StoredUser)
    requires ao.user.role == Some(Owner) && am.user.role == Some(Manager) && asu.user.role == Some(Superuser)
    requires ao.user.email != am.user.email && ao.user.email != asu.user.email && am.user.email != asu.user.email
    ensures SavedUsers(SavedUsers(SavedUsers(users, ao.user, ao.password), am.user, am.password), asu.user, asu.password)
         == KeepUnrelated(KeepUnrelated(KeepUnrelated(users, ao.user), am.user), asu.user) + [ao, am, asu]
  {
    var l2 := SavedUsers(SavedUsers(users, ao.user, ao.password), am.user, am.password);
    TwoSaves(users, ao, am);
    SaveAfter(l2, KeepUnrelated(KeepUnrelated(users, ao.user), am.user), [ao, am], asu);
  }

  /** The save filter drops any older account that shares the new one's email: when the
      owner and manager forms use one email, the owner's account is lost. */
  lemma SharedEmailDropsOwner(users: seq<StoredUser>, o: Form, mg: Form, t1: nat, t2: nat)
    requires o.email == mg.email
    ensures
      var ao := StoredUser(NewUser(Owner, o, t1), Some(o.password));
      var am := StoredUser(NewUser(Manager, mg, t2), Some(mg.password));
      ao !in SavedUsers(SavedUsers(users, ao.user, ao.password), am.user, am.password)
  {
    var ao := StoredUser(NewUser(Owner, o, t1), Some(o.password));
    var am := StoredUser(NewUser(Manager, mg, t2), Some(mg.password));
    var l2 := SavedUsers(SavedUsers(users, ao.user, ao.password), am.user, am.password);
    assert l2 == l2[..|l2| - 1] + [am];
  }

  class SetupWizard {
    const store: LocalStore
    var step: int
    var owner: Form
    var manager: Form
    var superuser: Form
    /** The user the sign-in hands to the auth context, if it succeeded. */
    var signedIn: Option<User>
    /** Whether the "Setup complete, please login." notice was shown. */
    var noticeShown: bool
    /** How many times `onComplete` has been called. */
    var completions: nat

    ghost predicate Valid()
      reads this, store
    {
      store.Valid() && 1 <= step <= 3
    }

    constructor (store: LocalStore)
      requires store.Valid()
      ensures Valid() && this.store == store
      ensures step == 1 && owner == EmptyForm && manager == EmptyForm && superuser == EmptyForm
      ensures signedIn == None && !noticeShown && completions == 0
    {
      this.store := store;
      step := 1;
      owner, manager, superuser := EmptyForm, EmptyForm, EmptyForm;
      signedIn := None;
      noticeShown := false;
      completions := 0;
    }

    /** The form shown at the current step. */
    function CurrentForm(): Form
      reads this
      requires 1 <= step <= 3
    {
      if step == 1 then owner else if step == 2 then manager else superuser
    }

    /** The input handlers: typing replaces the form shown at the current step. */
    method EditForm(data: Form)
      requires Valid()
      modifies this
      ensures Valid() && step == old(step) && CurrentForm() == data
      ensures step != 1 ==> owner == old(owner)
      ensures step != 2 ==> manager == old(manager)
      ensures step != 3 ==> superuser == old(superuser)
      ensures signedIn == old(signedIn) && noticeShown == old(noticeShown) && completions == old(completions)
    {
      if step == 1 {
        owner := data;
      } else if step == 2 {
        manager := data;
      } else {
        superuser := data;
      }
    }

    /** The form's submit: the step's own role and form are saved. */
    method Submit(now: nat)
      requires Valid()
      modifies this, store
      ensures Valid() && store.rooms == old(store.rooms)
      ensures owner == old(owner) && manager == old(manager) && superuser == old(superuser)
      ensures !Filled(old(CurrentForm())) ==> unchanged(this) && unchanged(store)
      ensures Filled(old(CurrentForm())) && old(step) < 3 ==>
        var role, data := StepRole(old(step)), old(CurrentForm());
        store.slots == AfterSaveRealUser(old(store.slots), NewUser(role, data, now), Some(data.password))
        && step == old(step) + 1
        && signedIn == old(signedIn) && noticeShown == old(noticeShown) && completions == old(completions)
      ensures Filled(old(CurrentForm())) && old(step) == 3 ==>
        store.slots == AfterLoginReads(FinalStore(old(store.slots), superuser, now))
        && step == 3 && completions == old(completions) + 1
        && signedIn == Some(if DemoModeOf(old(store.slots)) then MockUser else NewUser(Superuser, superuser, now))
        && noticeShown == old(noticeShown)
    {
      var data := CurrentForm();
      if !Filled(data) {
        return;
      }
      HandleSaveStep(StepRole(step), data, now);
    }

    /** `handleSaveStep(role, data)`: save the account, then advance or finalise. */
    method HandleSaveStep(role: Role, data: Form, now: nat)
      requires Valid()
      modifies this, store
      ensures Valid() && store.rooms == old(store.rooms)
      ensures owner == old(owner) && manager == old(manager) && superuser == old(superuser)
      ensures old(step) < 3 ==>
        store.slots == AfterSaveRealUser(old(store.slots), NewUser(role, data, now), Some(data.password))
        && step == old(step) + 1
        && signedIn == old(signedIn) && noticeShown == old(noticeShown) && completions == old(completions)
      ensures old(step) == 3 ==>
        var saved := AfterCompleteSetup(AfterSaveRealUser(old(store.slots), NewUser(role, data, now), Some(data.password)));
        store.slots == AfterLoginReads(saved)
        && step == 3 && completions == old(completions) + 1
        && var r := Login(saved, superuser.email, superuser.password);
           (r.Success? ==> signedIn == Some(r.value) && noticeShown == old(noticeShown))
           && (r.Failure? ==> noticeShown && signedIn == old(signedIn))
      ensures old(step) == 3 && role == Superuser && data == superuser ==>
        signedIn == Some(if DemoModeOf(old(store.slots)) then MockUser else NewUser(Superuser, data, now))
        && noticeShown == old(noticeShown)
    {
      var newUser := NewUser(role, data, now);
      store.SaveRealUser(newUser, Some(data.password));
      if step < 3 {
        step := step + 1;
      } else {
        HandleFinalize();
        if role == Superuser && data == superuser {
          AutoLoginSucceeds(old(store.slots), data, now);
        }
      }
    }

    /** `handleFinalize()`: mark setup complete, then sign in with the superuser form's
        credentials; report completion once either way. */
    method HandleFinalize()
      requires Valid()
      modifies this, store
      ensures Valid() && store.rooms == old(store.rooms)
      ensures store.slots == AfterLoginReads(AfterCompleteSetup(old(store.slots)))
      ensures step == old(step) && owner == old(owner) && manager == old(manager) && superuser == old(superuser)
      ensures completions == old(completions) + 1
      ensures var r := Login(AfterCompleteSetup(old(store.slots)), superuser.email, superuser.password);
        (r.Success? ==> signedIn == Some(r.value) && noticeShown == old(noticeShown))
        && (r.Failure? ==> noticeShown && signedIn == old(signedIn))
    {
      store.CompleteSetup();
      var r := LoginOn(store, superuser.email, superuser.password);
      match r {
        case Success(u) =>
          signedIn := Some(u);
          completions := completions + 1;
        case Failure(_) =>
          noticeShown := true;
          completions := completions + 1;
      }
    }
  }
}
