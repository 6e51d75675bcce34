# StaySync front end: store, sign-in, first-run setup and booking search

StaySync is a hotel front-desk application. It runs in a browser and keeps its state in
browser storage. This project models the application's core:

- **The system service.** Browser storage holds named slots: the demo-mode flag, the
  setup-complete flag, the live user accounts and the persisted session. The demo flag and
  the account list are read fail-soft: a slot that does not parse is removed and the read
  falls back to a default. The setup flag is read as raw text. A stored session that does
  not parse is reported as no user and left in storage. The service also switches between demo and live mode, and it saves, lists and
  resets the live accounts.
- **The auth service.** In demo mode any credentials sign in as the demo administrator. In
  live mode the credentials are checked against the stored accounts. A persisted session is
  restored, except that in live mode a session whose email no longer has an account is
  refused.
- **The setup wizard.** On first live start it walks through three forms, OWNER, MANAGER
  and SUPERUSER. It saves each account, marks setup complete after the third form and
  signs in as the superuser.
- **The composition root.** It decides whether the wizard is needed and which screen is
  shown. It chooses demo or live data and handles room addition and removal.
- **The booking table's search.** It filters bookings by guest name or booking id, ignoring
  letter case, and gives each booking status its badge colours.

Storage is a `map<Key, Value>`. A parsed slot holds the typed value `JSON.parse` would
return, or `Corrupt` for text that does not parse. The setup-complete slot is never parsed:
the code reads it as raw text, so it holds `Text`.

Functions over a snapshot (`DemoModeOf`, `UsersOf`, `SetupCompleteOf`, `AfterSetDemoMode`,
`AfterSaveRealUser`, ...) state what each read returns and what each write leaves behind.
The class `SystemService.LocalStore` performs the operations in place, and each method is
proved against those functions. `Login` and `RestoreSession` are functions of a snapshot
that give the outcome of a sign-in and of a session restore. The only change these
operations make to storage is the fail-soft cleanup done by their own reads. The methods
`AuthService.LoginOn` and `AuthService.SubscribeToAuthChanges` perform that cleanup on a
store, as `AfterLoginReads` and `AfterRestoreReads` describe. The wizard and the two App
components are classes, because the React state they update lives in their fields.

`Date.now()` becomes the parameter `now` (a `nat`). The auth context's `user` and `loading`
are parameters of `AppContent.View`. Lower-casing is ASCII only. The mock guests, rooms and
bookings are transcribed from constants.ts.

Three behaviours of the code worth knowing:

- The code never writes or clears the session slot `staysync_user`. `logout` touches no
  state, and a stale live session is only reported as "no user"; it is not removed.
- `saveRealUser` keeps an old account only when both its email and its role differ from
  the new user's. So the save does prevent duplicate roles:
  `SystemService.SavedUsersKeepRolesDistinct` proves that roles stay pairwise distinct.
  As a side effect, a later step that reuses an earlier email drops the earlier account
  (`Wizard.SharedEmailDropsOwner`).
- The wizard has no rooms step. It records three accounts and then finalises.

## Model

| member | source | states |
|---|---|---|
| SystemService.KeyNamesDistinct | services/systemService.ts:3-7 | the three storage keys and the session key `staysync_user`, which services/authService.ts:56 reads, are four different names |
| SystemService.Parsed | services/systemService.ts:18-27 | `safeParse` returns the fallback when the slot is missing or does not parse, else the parsed value; never an error |
| SystemService.Cleaned | services/systemService.ts:22-25 | a slot that fails to parse is removed; every other slot, and a readable slot, is left as it was; well-typedness is kept |
| SystemService.CleanedReadsAlike | services/systemService.ts:18-27 | the removal does not change what the slot reads as, and a second cleanup changes nothing |
| SystemService.DemoModeOf | services/systemService.ts:30-33 | demo mode is the stored flag, and true when the flag is absent or unreadable |
| SystemService.UsersOf | services/systemService.ts:60-62 | the live accounts are the stored list, and empty when it is absent or unreadable |
| SystemService.SetupCompleteOf | services/systemService.ts:49-53 | setup is complete in demo mode; in live mode exactly when the stored text is `'true'` |
| SystemService.SetupFlagText | services/systemService.ts:51 | the setup slot read raw: its text, or nothing when it is absent or holds no text |
| SystemService.AfterSetDemoMode | services/systemService.ts:35-47 | afterwards the mode is the one requested; demo mode writes `'true'` to the setup flag; live mode with no accounts makes it incomplete; live mode with accounts leaves the setup flag as it was; accounts and session untouched |
| SystemService.AfterCompleteSetup | services/systemService.ts:55-57 | the setup flag reads `'true'` and setup is complete; the mode, the accounts and the session are untouched |
| SystemService.DemoThenLiveStaysComplete | services/systemService.ts:35-47 | switching to demo mode and back to live mode with accounts stored leaves setup complete |
| SystemService.CompleteSetupIdempotent | services/systemService.ts:55-57 | completing setup twice leaves the same store as once |
| SystemService.KeepUnrelated | services/systemService.ts:67 | an old account is kept exactly when its email and its role both differ from the new user's |
| SystemService.KeepUnrelatedCounts | services/systemService.ts:67 | each unrelated account is kept as many times as it occurred, and each related one never |
| SystemService.SavedUsers | services/systemService.ts:64-70 | the saved list ends with the new account and its password, grows by at most one, and before it holds exactly the old accounts unrelated to the user |
| SystemService.AfterSaveRealUser | services/systemService.ts:64-70 | the stored accounts become the saved list; the mode, the setup flag and the session are untouched |
| SystemService.AfterResetRealUsers | services/systemService.ts:72-74 | after the reset the account list reads as empty; the other slots are untouched |
| SystemService.SavedUsersKeepUnrelatedTail | services/systemService.ts:67-68 | accounts at the end of the list that are unrelated to the new user stay there, in order, just before it |
| SystemService.SavedUsersKeepOrder | services/systemService.ts:67-68 | the kept accounts appear in their old order |
| SystemService.SavedUsersKeepRolesDistinct | services/systemService.ts:64-70 | if roles were pairwise distinct before a save, they are after it |
| SystemService.SavedUsersKeepEmailsDistinct | services/systemService.ts:64-70 | if emails were pairwise distinct before a save, they are after it |
| SystemService.LocalStore.constructor | services/systemService.ts:29 | a store starts from what browser storage already holds |
| SystemService.LocalStore.SafeParse | services/systemService.ts:18-27 | returns the parsed-or-fallback value and removes the slot if it is corrupt; nothing else changes |
| SystemService.LocalStore.IsDemoMode | services/systemService.ts:30-33 | returns the demo mode of the old store; only the cleanup of the flag slot happens |
| SystemService.LocalStore.SetDemoMode | services/systemService.ts:35-47 | the new store is the one `AfterSetDemoMode` describes |
| SystemService.LocalStore.IsSetupComplete | services/systemService.ts:49-53 | returns whether setup was complete; only the cleanup of the flag slot happens |
| SystemService.LocalStore.CompleteSetup | services/systemService.ts:55-57 | the new store is the one `AfterCompleteSetup` describes |
| SystemService.LocalStore.GetRealUsers | services/systemService.ts:60-62 | returns the stored accounts; only the cleanup of the account slot happens |
| SystemService.LocalStore.SaveRealUser | services/systemService.ts:64-70 | the new store is the one `AfterSaveRealUser` describes |
| SystemService.LocalStore.ResetRealUsers | services/systemService.ts:72-74 | the new store is the one `AfterResetRealUsers` describes |
| SystemService.LocalStore.GetRealRooms | App.tsx:47 | returns the room list last saved |
| SystemService.LocalStore.SaveRealRooms | App.tsx:58-60 | the saved room list becomes the given one; the keyed slots are untouched |
| AuthService.Login | services/authService.ts:6-41 | in demo mode it succeeds with the demo administrator; in live mode it succeeds exactly when some account matches both email and password, returns the first match without its password, and otherwise fails with "Invalid credentials" |
| AuthService.Logout | services/authService.ts:43-49 | sign-out always succeeds |
| AuthService.RestoreSession | services/authService.ts:51-77 | no user without a readable session; the stored session in demo mode; in live mode the session exactly when some account has its email |
| AuthService.RestoredSessionIsLive | services/authService.ts:60-68 | a session restored in live mode belongs to a stored account |
| AuthService.ResetInvalidatesSession | services/authService.ts:60-68 | after the accounts are reset, no session is restored in live mode |
| AuthService.LoginIgnoresCleanup | services/authService.ts:19-30 | the slot removals made by the sign-in's own reads do not change its outcome or the restore's |
| AuthService.AfterLoginReads | services/authService.ts:19-30 | the sign-in's reads remove the demo flag slot if corrupt and, in live mode, the account slot if corrupt; they add and change no slot and remove only corrupt ones; mode, accounts, setup flag and session read as before |
| AuthService.LoginOn | services/authService.ts:14-41 | returns the outcome `Login` gives for the old store and leaves the store `AfterLoginReads` describes; the rooms are untouched |
| AuthService.AfterRestoreReads | services/authService.ts:56-68 | with a readable session, the restore's reads clean up as the sign-in's do; without one nothing is read and nothing changes |
| AuthService.SubscribeToAuthChanges | services/authService.ts:51-77 | the callback receives the user `RestoreSession` gives for the old store, and the store becomes the one `AfterRestoreReads` describes |
| AuthService.LoginFindsLast | services/authService.ts:29-35 | the credentials of the last account, whose email no earlier account has, sign in as that account |
| Wizard.StepRole | components/SetupWizard.tsx:87-127 | step 1 saves an OWNER, step 2 a MANAGER, step 3 a SUPERUSER, and each role belongs to one step |
| Wizard.Filled | components/SetupWizard.tsx:24-32 | a form can be submitted only when its name, email and password are non-empty |
| Wizard.NewUserId | components/SetupWizard.tsx:53 | the id begins with the lower-cased role, then `_`, then only decimal digits |
| Wizard.NewUserIdInjective | components/SetupWizard.tsx:53 | ids made for different roles or at different times differ |
| Wizard.NewUser | components/SetupWizard.tsx:52-58 | the record carries the form's email and name, no photo, the step's role, and the id made of the lower-cased role, `_` and the timestamp |
| Wizard.AutoLoginSucceeds | components/SetupWizard.tsx:59-72 | after the superuser account is saved and setup completed, the sign-in with its credentials succeeds, as that account in live mode and as the demo administrator in demo mode |
| Wizard.OlderAccountsLeft | components/SetupWizard.tsx:59 | an older account that survives the three saves has no role and none of the three emails |
| Wizard.SaveAfter | services/systemService.ts:67-68 | saving an account unrelated to the accounts at the end of the list appends it after them, behind the older accounts the save keeps |
| Wizard.TwoSaves | services/systemService.ts:67-68 | two saves of accounts differing in email and role leave both, in order, after the older accounts neither removed |
| Wizard.WizardLeavesThreeAccounts | components/SetupWizard.tsx:59 | three saves with different emails leave the surviving older accounts followed by the owner, manager and superuser accounts, in that order |
| Wizard.SharedEmailDropsOwner | services/systemService.ts:67 | a manager form reusing the owner's email removes the owner's account |
| Wizard.SetupWizard.constructor | components/SetupWizard.tsx:43-49 | the wizard starts at step 1 with three empty forms |
| Wizard.SetupWizard.EditForm | components/SetupWizard.tsx:24-32 | typing changes only the form of the current step |
| Wizard.SetupWizard.Submit | components/SetupWizard.tsx:21 | an incomplete form is not submitted and nothing changes; a complete one saves the step's account, then advances by one at steps 1 and 2 (leaving the sign-in and the notice alone) or, at step 3, completes setup, signs the superuser in and reports completion once; the forms and the rooms never change |
| Wizard.SetupWizard.HandleSaveStep | components/SetupWizard.tsx:51-66 | saves the account before anything else, then advances the step by one below 3 (never past 3) or finalises at 3, the sign-in's read cleanup included |
| Wizard.SetupWizard.HandleFinalize | components/SetupWizard.tsx:68-78 | completes setup, then signs in with the superuser form and leaves the sign-in's read cleanup; on failure shows the notice; reports completion exactly once either way |
| App.NeedsSetup | App.tsx:197-204 | the wizard is needed exactly in live mode when the setup flag does not read `'true'` |
| App.DemoNeverNeedsSetup | App.tsx:199 | after switching to demo mode the wizard is not needed |
| App.LiveWithoutAccountsNeedsSetup | App.tsx:199 | after switching to live mode with no accounts the wizard is needed |
| App.CompletedSetupNeedsNoSetup | App.tsx:199 | after `completeSetup` the wizard is not needed |
| App.AppContent.View | App.tsx:206-219 | the screen shown for the auth context's loading flag and user and the stored wizard flag, as `Route` decides |
| App.Route | App.tsx:206-219 | exactly one screen: the loader while loading, else the wizard when needed, else the shell with a user, else the login form |
| App.AppContent.constructor | App.tsx:195 | the wizard flag starts false |
| App.AppContent.CheckSetup | App.tsx:197-204 | the flag becomes `NeedsSetup` of the old store; the mode slot's cleanup is the only change to the store |
| App.AppContent.OnSetupComplete | App.tsx:216 | the wizard's completion clears the flag |
| App.WithoutRoom | App.tsx:68 | no room with the id remains, every other room is kept as many times as it occurred, nothing new appears, and an absent id leaves the list as it was |
| App.WithoutRoomKeepsOrder | App.tsx:68 | the kept rooms stay in their order |
| App.WithoutRoomUnique | App.tsx:68 | an ordered selection of the rooms with exactly those counts is the filtered list |
| App.AuthorizedApp.constructor | App.tsx:21-50 | the mode is read once; the data are the mock collections in demo mode, and no bookings, no guests and the saved rooms in live mode |
| App.AuthorizedApp.LoadData | App.tsx:34-50 | the data are loaded for the current mode |
| App.AuthorizedApp.HandleAddRoom | App.tsx:53-61 | in demo mode nothing changes; in live mode the room is appended and the new list saved |
| App.AuthorizedApp.HandleRemoveRoom | App.tsx:63-71 | in demo mode nothing changes; in live mode the rooms with the id are removed and the new list saved |
| Bookings.StatusColor | components/Bookings.tsx:14-22 | the badge classes of each status: blue, emerald, slate and red |
| Bookings.StatusColorsDistinct | components/Bookings.tsx:14-22 | the four statuses get four different badges |
| Bookings.GuestOf | components/Bookings.tsx:25 | no guest exactly when none has the id; otherwise the first guest with the id |
| Bookings.Matches | components/Bookings.tsx:25-27 | the search predicate of one booking, stated by `MatchesSpec` |
| Bookings.MatchesSpec | components/Bookings.tsx:25-27 | a booking matches exactly when its lower-cased id, or the lower-cased name of the first guest with its guest id, contains the lower-cased term |
| Bookings.GuestlessMatchesById | components/Bookings.tsx:25-27 | a booking whose guest is missing matches only through its id |
| Bookings.FilteredBookings | components/Bookings.tsx:24-28 | a booking is shown exactly when it is in the table and matches, as many times as it occurs there; never more bookings than the table |
| Bookings.FilteredKeepsOrder | components/Bookings.tsx:24-28 | the shown bookings keep the table's order |
| Bookings.FilteredUnique | components/Bookings.tsx:24-28 | an ordered selection of the table with the shown counts is the shown list |
| Bookings.EmptyTermShowsAll | components/Bookings.tsx:24-28 | an empty search shows the whole table |
| Bookings.CaseInsensitive | components/Bookings.tsx:26-27 | terms that agree once lower-cased show the same bookings |
| Bookings.LowerCasedTermAlike | components/Bookings.tsx:26-27 | searching for a term or its lower-cased form shows the same bookings |
| Constants.MockIdsDistinct | constants.ts:3-26 | the mock guests, rooms and bookings each have pairwise distinct ids |
| Constants.MockBookingsResolve | constants.ts:3-26 | every mock booking names a mock guest and a mock room |
| Seqs.Filter | services/systemService.ts:67 | `Array.prototype.filter`: an element is kept exactly when it is in the list and passes the test; never longer than the list |
| Seqs.Find | services/authService.ts:30 | `Array.prototype.find`: nothing exactly when no element passes the test, otherwise the first element that does |
| Strings.Lower | components/Bookings.tsx:26-27 | `toLowerCase` keeps the length and lower-cases each ASCII letter in place |
| Strings.Includes | components/Bookings.tsx:26-27 | `includes`: the empty term is always contained, and a contained term is no longer than the text (`IncludesAt` states it exactly) |
| Strings.IncludesAt | components/Bookings.tsx:26-27 | `includes` holds exactly when the term occurs at some position |
| Strings.Decimal | components/SetupWizard.tsx:53 | the template rendering of a timestamp: one or more decimal digits, two or more exactly from 10 on |
| Strings.DecimalInjective | components/SetupWizard.tsx:53 | different timestamps render as different numerals |

## Left out

- JSON text: slots hold parsed values. A slot holding well-formed JSON of an unexpected
  shape (say a number under the account key) is excluded by `WellTyped`. So is the empty
  string, which `safeParse` treats as absent.
- SystemService.LocalStore.SafeParse: requires a key other than the setup flag; the code
  reads that flag raw and never through `safeParse`.
- Asynchrony and timers: the 800 ms delay of `login` is dropped, and the promise's outcome
  is a `Result`. `handleFinalize` runs to completion inside `handleSaveStep`.
- React rendering, the sidebar and the non-booking views are left out. Alerts become the
  `noticeShown` field, or a no-op for the demo-mode room handlers. `onComplete` is counted
  in `completions`.
- context/AuthContext.tsx is not part of this model: it imports a `getCurrentUser` that
  authService.ts does not define. The wizard's `signIn` is modelled by `AuthService.Login`.
  `subscribeToAuthChanges` is modelled by `AuthService.SubscribeToAuthChanges`; the
  callback is invoked once on every path, so its argument becomes the method's result and
  the unsubscribe function is dropped.
- Wizard.AutoLoginSucceeds: its store is the snapshot the sign-in reads, before the sign-in's
  own slot removals. `Wizard.SetupWizard.Submit` applies those removals afterwards, and
  `AuthService.LoginIgnoresCleanup` shows that they do not change the outcome.
- AuthService.Login: a function of a snapshot, so it does not state the removal of a corrupt
  demo flag or account slot by its reads; `AuthService.LoginOn` does, and
  `AuthService.LoginIgnoresCleanup` shows the removal does not change the outcome.
- AuthService.RestoreSession: likewise states only the user the callback receives; the
  cleanup is stated by `AuthService.SubscribeToAuthChanges`.
- The room slot: `getRealRooms` and `saveRealRooms` are not defined in systemService.ts. The
  room list is a separate field of `LocalStore` whose read returns the last write; no
  storage key is given to it.
- Settings' mode toggle (a confirmation dialog before `setDemoMode`, then sign-out and a
  page reload), the dashboard, the AI assistant, e-mail sending and the Firebase
  configuration are outside the core. No code shown calls `resetRealUsers`; it is modelled
  as the service defines it.
- Number and time formats: `Date.now()` is a natural-number parameter. Prices, floors and
  capacities are unbounded integers.
- Unicode case mapping: `toLowerCase` is modelled on ASCII letters only.
- Strings.Includes: its own contract states only the two bounds; the exact statement, that
  the term occurs at some position, is the lemma `Strings.IncludesAt`.
- The browser's `type="email"` format check is not modelled; only the `required` checks
  (non-empty fields) guard submission.
