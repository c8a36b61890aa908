# Profile synchronisation of the user app, modelled in Dafny

This project models the core of an Android app that keeps one profile record per signed-in
user in two keyed stores: a local Room table (`profile_table`) and a remote Firestore
collection (`users`). It also models the small state machines around that core: the profile
screen's UI state, login and registration, and the user list table.

The profile repository exists as two divergent copies that declare the same class in the
same package: `repository/ProfileRepository.kt` and `data/prefs/ProfileRepository.kt`. Both
are modelled, side by side, as `ProfileSync` and `PrefsProfileSync`. Their differences are
proved in `VariantDifferences`:

- with nobody signed in, the first reads nothing; the second reads the local row keyed "";
- on save with nobody signed in, the first throws "User not logged in"; the second returns
  normally, so a screen built over it would show the profile as saved;
- the first turns a blank remote `dateOfBirth` into no date; the second tries to parse it
  and throws. So the "" that its own save writes for a missing date breaks its next sync.

The profile screen (`ProfileViewModel`) calls `refreshFromRemote`, which only the first copy
declares, so the screen is built over the first copy. Nothing calls the second copy's
`syncFromRemote`.

Modules: one per modelled source file, plus `Wrappers`, `Text`, `IsoDate` and
`UsersCollection` for what those files share, and `VariantDifferences` for the comparison:

- `Wrappers` holds `Option`, for Kotlin's nullable types and the elvis operator.
- `Text` holds Kotlin's `isWhitespace`/`isBlank` on the JVM.
- `IsoDate` models `LocalDate.toString`/`LocalDate.parse`. These use the ISO 8601 extended
  complete calendar date `YYYY-MM-DD` (section 4.1.2.2 of ISO 8601:2004), with strict day and
  month checks. It is modelled concretely over (year, month, day), with both round trips proved.
- `ProfileDao` holds `UserProfileEntity` and the keyed `getProfile`/`upsertProfile` contract.
  These are functions over the table value.
- `UsersCollection` holds what both repositories share. That is the Firestore document that
  `saveProfile` writes, the `getString` reads with their defaults, and the exceptions the
  repository calls can end with.
- `ProfileSync` and `PrefsProfileSync` each model one repository copy as a class. Its fields
  are `uid` and `accountEmail` (the signed-in identity that `currentUid()` and
  `auth.currentUser?.email` read), `local` (the table) and `remote` (the collection). A
  ghost `writes` log records committed store writes in order. Whether the network call
  succeeds is an input (`Network`), so "remote before local" and "a failed remote write
  leaves local unchanged" are stated in the methods' postconditions.
- `ProfileUi` models `ProfileViewModel`. Each launched coroutine is split at its suspension
  point: `Begin*` runs before the repository call and `End*` runs after it, given the call's
  outcome.
- `Login` models `LoginViewModel`. The Firebase completion callbacks are separate methods.
- `UserTable` models `UserDao`. Rows are kept in ascending primary-key order, as SQLite
  stores a table with an integer primary key. `getAllUsers` reads them backwards.
- `Users` models `UserViewModel`, with the pass-through `UserRepository` folded into the table.

## Model

| member | source | states |
|---|---|---|
| `IsoDate.Format` | app/src/main/java/com/example/userapp/repository/ProfileRepository.kt:78 | `LocalDate.toString` gives ten characters: four year digits, dash, two month digits, dash, two day digits, and those digits denote exactly the date's year, month and day |
| `IsoDate.Parse` | app/src/main/java/com/example/userapp/repository/ProfileRepository.kt:39 | `LocalDate.parse` fails exactly on text that is not `DDDD-DD-DD` or names no real date (month 1-12, day within the month, leap years); a success formats back to the very input |
| `IsoDate.ParseFormat` | app/src/main/java/com/example/userapp/repository/ProfileRepository.kt:78 | every date survives `toString` followed by `parse` |
| `IsoDate.FormatNotBlank` | app/src/main/java/com/example/userapp/repository/ProfileRepository.kt:39 | a formatted date is never blank, so the blank guard never discards a real date |
| `IsoDate.BlankDoesNotParse` | app/src/main/java/com/example/userapp/data/prefs/ProfileRepository.kt:35 | empty or whitespace-only text is rejected by `parse` |
| `ProfileDao.GetProfile` | app/src/main/java/com/example/userapp/data/local/UserProfileDao.kt:12-13 | the lookup finds a row exactly when the key is present, and returns that row, whose uid is the key |
| `ProfileDao.UpsertProfile` | app/src/main/java/com/example/userapp/data/local/UserProfileDao.kt:15-16 | after the upsert, `getProfile(e.uid)` is exactly `e`; the key set grows by `e.uid` only; rows under other keys are unchanged; a present key is replaced, not duplicated |
| `ProfileDao.UpsertIdempotent` | app/src/main/java/com/example/userapp/data/local/UserProfileDao.kt:15-16 | upserting the same entity twice equals upserting it once |
| `ProfileDao.UpsertReplaces` | app/src/main/java/com/example/userapp/data/local/UserProfileDao.kt:15 | a second upsert on the same key wipes out the first |
| `ProfileDao.UpsertIsolated` | app/src/main/java/com/example/userapp/data/local/UserProfileDao.kt:15-16 | lookups under every other key see the table as before |
| `UsersCollection.Message` | app/src/main/java/com/example/userapp/repository/ProfileRepository.kt:61 | the "not logged in" exception carries "User not logged in"; a remote failure passes its message through; a parse failure has a message |
| `UsersCollection.DateText` | app/src/main/java/com/example/userapp/repository/ProfileRepository.kt:78 | no date is sent as "" and only then; a date is sent as text that parses back to it |
| `UsersCollection.SaveData` | app/src/main/java/com/example/userapp/repository/ProfileRepository.kt:72-79 | the saved document has exactly the six fields uid, firstName, lastName, email, phone and dateOfBirth, holding the entity's values |
| `UsersCollection.GetString` | app/src/main/java/com/example/userapp/repository/ProfileRepository.kt:34 | `getString` is non-null exactly when the field exists, and is then its value |
| `UsersCollection.StringOrEmpty` | app/src/main/java/com/example/userapp/repository/ProfileRepository.kt:34-37 | a missing firstName, lastName or phone reads as "" and a present one as stored |
| `UsersCollection.EmailOrFallback` | app/src/main/java/com/example/userapp/repository/ProfileRepository.kt:36 | the document's email if present, otherwise the account email, otherwise "" |
| `UsersCollection.ProfileOf` | app/src/main/java/com/example/userapp/repository/ProfileRepository.kt:41-48 | the built entity is keyed by the current uid and carries the decided date and the defaulted string fields |
| `UsersCollection.ProfileOfSaveData` | app/src/main/java/com/example/userapp/repository/ProfileRepository.kt:34-37 | reading the string fields of a saved document gives back the saved values, whatever the account email |
| `ProfileSync.BirthDate` | app/src/main/java/com/example/userapp/repository/ProfileRepository.kt:38-39 | a missing or blank dateOfBirth gives no date; other text gives the date it denotes, or throws exactly when it does not parse |
| `ProfileSync.ProfileFromSnapshot` | app/src/main/java/com/example/userapp/repository/ProfileRepository.kt:34-48 | refresh throws exactly when the date throws; otherwise it builds the entity from the defaulted fields and the date, which is absent exactly when the field is missing or blank |
| `ProfileSync.ProfileFromSaveData` | app/src/main/java/com/example/userapp/repository/ProfileRepository.kt:72-79 | any saved document, with or without a date, reads back as exactly the entity that was saved |
| `ProfileSync.ProfileRepository.constructor` | app/src/main/java/com/example/userapp/repository/ProfileRepository.kt:12-16 | the repository starts over the given identity and stores, with no writes |
| `ProfileSync.ProfileRepository.GetLocalProfile` | app/src/main/java/com/example/userapp/repository/ProfileRepository.kt:23-26 | with no user, always absent; otherwise the row keyed by the current uid, which belongs to that uid |
| `ProfileSync.ProfileRepository.RefreshFromRemote` | app/src/main/java/com/example/userapp/repository/ProfileRepository.kt:29-51 | no user, a failed fetch, a missing document or a bad date leaves the local store unchanged, and the remote store is never written; otherwise exactly one local upsert, keyed by the uid |
| `ProfileSync.ProfileRepository.SaveProfile` | app/src/main/java/com/example/userapp/repository/ProfileRepository.kt:54-86 | with no user, it throws "not logged in" before touching either store; a failed remote write leaves both stores unchanged; a success sets the remote document and then upserts the same entity locally, logged in that order |
| `ProfileSync.SaveThenRefresh` | app/src/main/java/com/example/userapp/repository/ProfileRepository.kt:29-86 | after a successful save, a refresh completes and reproduces the same local entity; a missing date goes out as "" and comes back as none |
| `PrefsProfileSync.BirthDate` | app/src/main/java/com/example/userapp/data/prefs/ProfileRepository.kt:34-35 | a missing dateOfBirth gives no date; any present text, blank included, must parse or the sync throws |
| `PrefsProfileSync.ProfileFromDocument` | app/src/main/java/com/example/userapp/data/prefs/ProfileRepository.kt:30-44 | sync throws exactly when the date throws; otherwise it builds the entity from the defaulted fields and the date, which is absent exactly when the field is missing |
| `PrefsProfileSync.ProfileFromSaveDataWithDate` | app/src/main/java/com/example/userapp/data/prefs/ProfileRepository.kt:68-75 | a saved document with a date reads back as the saved entity |
| `PrefsProfileSync.ProfileFromSaveDataWithoutDate` | app/src/main/java/com/example/userapp/data/prefs/ProfileRepository.kt:35 | a saved document without a date cannot be read back: parsing the stored "" throws |
| `PrefsProfileSync.ProfileRepository.constructor` | app/src/main/java/com/example/userapp/data/prefs/ProfileRepository.kt:11-15 | the repository starts over the given identity and stores, with no writes |
| `PrefsProfileSync.ProfileRepository.GetLocalProfile` | app/src/main/java/com/example/userapp/data/prefs/ProfileRepository.kt:21-24 | with no user, it reads the slot keyed "" and finds a row exactly when that slot is filled; otherwise it reads the current uid's row |
| `PrefsProfileSync.ProfileRepository.SyncFromRemote` | app/src/main/java/com/example/userapp/data/prefs/ProfileRepository.kt:26-47 | no user, a failed fetch, a missing document or an unparsable (even blank) date leaves the local store unchanged; otherwise exactly one local upsert, keyed by the uid |
| `PrefsProfileSync.ProfileRepository.SaveProfile` | app/src/main/java/com/example/userapp/data/prefs/ProfileRepository.kt:49-81 | with no user, it returns normally and writes neither store; a failed remote write leaves both unchanged; a success writes remote first, then local |
| `PrefsProfileSync.SaveThenSync` | app/src/main/java/com/example/userapp/data/prefs/ProfileRepository.kt:26-81 | after a successful save, the next sync completes exactly when a date was saved and otherwise throws on ""; the local entity stays as saved either way |
| `VariantDifferences.ReadersAgreeUnlessBlankDate` | app/src/main/java/com/example/userapp/data/prefs/ProfileRepository.kt:35 | the two copies read every remote document identically, except one whose date is present but blank: there the first gives no date and the second throws |
| `VariantDifferences.NoUser` | app/src/main/java/com/example/userapp/data/prefs/ProfileRepository.kt:21-56 | with nobody signed in, the first copy reads nothing and its save throws; the second reads the "" slot and its save returns; neither writes |
| `VariantDifferences.SaveFromScreenWithoutUser` | app/src/main/java/com/example/userapp/viewmodel/ProfileViewModel.kt:89-113 | with nobody signed in, a save from the profile screen ends showing "User not logged in" through the first copy, but shows "saved" with no error through the second |
| `ProfileUi.ProfileViewModel.constructor` | app/src/main/java/com/example/userapp/viewmodel/ProfileViewModel.kt:14-29 | the initial state has every string "", no date, not loading, no error, not saved |
| `ProfileUi.ProfileViewModel.OnLocalProfile` | app/src/main/java/com/example/userapp/viewmodel/ProfileViewModel.kt:37-52 | a row overwrites the five profile fields and clears loading, keeping error and saved; a null emission changes nothing |
| `ProfileUi.ProfileViewModel.BeginRefresh` | app/src/main/java/com/example/userapp/viewmodel/ProfileViewModel.kt:54-57 | a refresh first sets loading and changes nothing else |
| `ProfileUi.ProfileViewModel.EndRefresh` | app/src/main/java/com/example/userapp/viewmodel/ProfileViewModel.kt:58-65 | a refresh ends not loading; on failure it also records the exception's message as the error |
| `ProfileUi.ProfileViewModel.OnFirstNameChange` | app/src/main/java/com/example/userapp/viewmodel/ProfileViewModel.kt:69-71 | only firstName changes, and saved becomes false |
| `ProfileUi.ProfileViewModel.OnLastNameChange` | app/src/main/java/com/example/userapp/viewmodel/ProfileViewModel.kt:73-75 | only lastName changes, and saved becomes false |
| `ProfileUi.ProfileViewModel.OnEmailChange` | app/src/main/java/com/example/userapp/viewmodel/ProfileViewModel.kt:77-79 | only email changes, and saved becomes false |
| `ProfileUi.ProfileViewModel.OnPhoneChange` | app/src/main/java/com/example/userapp/viewmodel/ProfileViewModel.kt:81-83 | only phone changes, and saved becomes false |
| `ProfileUi.ProfileViewModel.OnDateOfBirthChange` | app/src/main/java/com/example/userapp/viewmodel/ProfileViewModel.kt:85-87 | only dateOfBirth changes, and saved becomes false |
| `ProfileUi.ProfileViewModel.BeginSave` | app/src/main/java/com/example/userapp/viewmodel/ProfileViewModel.kt:89-100 | the repository receives the five fields as they were at call time; the state becomes loading, with no error and not saved |
| `ProfileUi.ProfileViewModel.EndSave` | app/src/main/java/com/example/userapp/viewmodel/ProfileViewModel.kt:101-111 | success ends not loading and saved; failure ends not loading, not saved, with the exception's message as the error |
| `ProfileUi.EditThenSave` | app/src/main/java/com/example/userapp/viewmodel/ProfileViewModel.kt:69-111 | an edit then a save sends the edited value; at the end the screen is not loading and shows saved exactly when the repository completed, and otherwise its error |
| `Login.Completion` | app/src/main/java/com/example/userapp/utils/AuthUtils.kt:14-19 | an auth task gives Success exactly when it succeeded; a failure gives Error with its message, or the caller's default when the message is null |
| `Login.IsLoggedIn` | app/src/main/java/com/example/userapp/viewmodel/LoginViewModel.kt:54-56 | true exactly when a current user exists |
| `Login.LoginViewModel.constructor` | app/src/main/java/com/example/userapp/viewmodel/LoginViewModel.kt:12 | the initial login state is Idle |
| `Login.LoginViewModel.Login` | app/src/main/java/com/example/userapp/viewmodel/LoginViewModel.kt:15-21 | an auth call is issued exactly when neither email nor password is blank; blank input gives Error("Email and password cannot be empty"), valid input gives Loading |
| `Login.LoginViewModel.OnLoginComplete` | app/src/main/java/com/example/userapp/viewmodel/LoginViewModel.kt:26-31 | success gives Success; failure gives Error with the message, or "Login failed" when it is null |
| `Login.LoginViewModel.Register` | app/src/main/java/com/example/userapp/viewmodel/LoginViewModel.kt:35-41 | the same blank-input rule and the same Loading step as login |
| `Login.LoginViewModel.OnRegisterComplete` | app/src/main/java/com/example/userapp/viewmodel/LoginViewModel.kt:44-50 | success gives Success; failure gives Error with the message, or "Registration failed" when it is null |
| `Login.LoginFlow` | app/src/main/java/com/example/userapp/viewmodel/LoginViewModel.kt:15-33 | a whole login ends in Success exactly when the input passes the guard and Firebase accepts it; every other ending is an Error |
| `UserTable.InsertById` | app/src/main/java/com/example/userapp/data/local/UserDao.kt:15-16 | inserting a row with an unused id keeps key order and adds exactly that row |
| `UserTable.RemoveById` | app/src/main/java/com/example/userapp/data/local/UserDao.kt:18-19 | removing by id keeps key order and drops exactly the rows with that id (one if present, none otherwise); a missing id leaves the rows as they were |
| `UserTable.UserDao.GetAllUsers` | app/src/main/java/com/example/userapp/data/local/UserDao.kt:12-13 | every row appears exactly once, ordered by id descending |
| `UserTable.UserDao.InsertUser` | app/src/main/java/com/example/userapp/data/local/UserDao.kt:15-16 | id 0 gets a new id above every id the table has held; a taken id aborts with nothing changed; otherwise exactly one row is added |
| `UserTable.UserDao.DeleteUser` | app/src/main/java/com/example/userapp/data/local/UserDao.kt:18-19 | the row with the entity's id is removed and every other row stays; an entity not in the table changes nothing |
| `UserTable.InsertTwiceThenList` | app/src/main/java/com/example/userapp/data/local/UserDao.kt:12-16 | on a fresh table, two inserts get ids 1 and 2 and are listed newest first |
| `Users.UserViewModel.constructor` | app/src/main/java/com/example/userapp/viewmodel/UserViewModel.kt:16-17 | `users` is the empty list before the table first emits |
| `Users.UserViewModel.OnUsersEmitted` | app/src/main/java/com/example/userapp/viewmodel/UserViewModel.kt:16-17 | an emission shows every row of the table once, ordered by id descending |
| `Users.UserViewModel.AddUser` | app/src/main/java/com/example/userapp/viewmodel/UserViewModel.kt:19-25 | with both names non-blank, exactly one row is added, with id one past the last generated id and those names, and the id counter advances by one; a blank name changes nothing |
| `Users.UserViewModel.DeleteUser` | app/src/main/java/com/example/userapp/viewmodel/UserViewModel.kt:27-32 | exactly the given user's row is removed through the repository |
| `Users.AddToEmptyTable` | app/src/main/java/com/example/userapp/viewmodel/UserViewModel.kt:16-25 | a fresh screen shows no users; after an add and an emission it shows the one new user with id 1, or nothing if a name was blank |

## Left out

- `ProfileViewModel` calls `refreshFromRemote`, so it type-checks only against
  `repository/ProfileRepository.kt`. The second copy's `syncFromRemote` has no caller in the
  app. `VariantDifferences.SaveFromScreenWithoutUser` drives the screen's save through the
  second copy only as a hypothetical screen built over it.
- Reactive streams are not modelled: Room `Flow`s, `StateFlow`, `collectLatest`, `stateIn`.
  A flow is modelled as its current value (`GetLocalProfile`, `GetAllUsers`). Its emissions
  are explicit methods (`OnLocalProfile`, `OnUsersEmitted`).
- Coroutines and their interleavings are not modelled (`viewModelScope.launch`, `await`).
  Each launched block is split at its suspension point into `Begin*` and `End*`. The save's
  snapshot is taken and applied in `BeginSave`, so the race is not modelled. The race is the
  write of a stale copy of the state between `ProfileViewModel.kt` lines 90 and 93.
- Firebase Auth, Firestore and Room are modelled as maps plus an explicit network outcome.
  Firestore's offline cache and the retry behaviour of `await` are left out. A remote write
  is all or nothing.
- A remote field whose value is not a string is left out. There, `getString` throws;
  documents are modelled as maps to strings.
- A failing Room write is left out. Local upserts always succeed.
- The current user is read once per call. Refresh reads `auth.currentUser` again for the
  email (line 36); the model uses one snapshot of uid and email.
- The code has no identity-change cancellation, in-flight tokens, refresh coalescing or
  key-mismatch check on save (save takes the uid from the session, not from a record). The
  model follows the code, so these are absent.
- Logging out does not clear the output either; the model follows the code here too.
- `IsoDate.Parse`: only the four-digit years 0000-9999 are modelled. `LocalDate` also
  accepts expanded, signed years such as "+10000-01-01" or "-0001-01-01"; the model rejects
  them. The model never writes such dates, because `IsoDate.LocalDate` is restricted to
  years 0000-9999.
- `UsersCollection.Message`: a `DateTimeParseException` message is modelled only up to
  "Text '…' could not be parsed". Java appends the error index or the reason.
- The epoch-day type converter is left out. It only passes null through and otherwise
  delegates to `java.time`.
- Also left out: the `dd/MM/yyyy` display format, the time-zone based epoch-millis
  conversion in the screens, all Compose screens, navigation, `MainActivity` wiring,
  `AppDatabase` annotations and the view-model factories.
- `UserEntity.kt` is not part of this model. Its shape is inferred from its uses: an
  integer primary key `id` generated by SQLite when 0, plus `firstName` and `lastName`.
  With `autoGenerate`, Room declares the key `AUTOINCREMENT`. `lastId` models that
  sequence. Running out of ids (`SQLITE_FULL`) and the 32-bit width of `Int` are left out.
- `insertUser` with an id that is already taken throws a constraint exception. This is
  modelled as the `PrimaryKeyConflict` result.

## Findings

| source | as written | input that shows it | evidently intended | confidence | as-written member | corrected member |
|---|---|---|---|---|---|---|
| app/src/main/java/com/example/userapp/data/prefs/ProfileRepository.kt:35 | sync parses any present `dateOfBirth`, but the same file's save (line 74) stores "" when there is no date | save a profile with `dateOfBirth = null`, then sync: `LocalDate.parse("")` throws before the upsert, so the local row is never refreshed and the exception reaches the caller (nothing in the app calls this sync; a screen built over it would show the error) | a blank date reads back as no date, as `repository/ProfileRepository.kt:39` does with its blank guard | high (not executed) | `PrefsProfileSync.ProfileFromSaveDataWithoutDate` | `ProfileSync.ProfileFromSaveData` |
