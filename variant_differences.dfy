/**
 * The two copies of `ProfileRepository` side by side: where their behaviour coincides and
 * exactly where it parts.
 */
module VariantDifferences {
  import opened Wrappers
  import opened Text
  import opened IsoDate
  import opened ProfileDao
  import opened UsersCollection
  import ProfileSync
  import PrefsProfileSync
  import opened ProfileUi

  /** A document whose `dateOfBirth` field is present but blank (for instance the "" a save writes for no date). */
  predicate HasBlankDate(doc: Document) {
    "dateOfBirth" in doc && IsBlank(doc["dateOfBirth"])
  }

  /**
   * The two readers of a remote document agree on every document except those with a
   * present, blank date: there the first yields a profile without a date and the second throws.
   */
  lemma {:induction false} ReadersAgreeUnlessBlankDate(uid: string, doc: Document, accountEmail: Option<string>)
    ensures !HasBlankDate(doc) <==>
              ProfileSync.ProfileFromSnapshot(uid, doc, accountEmail)
              == PrefsProfileSync.ProfileFromDocument(uid, doc, accountEmail)
    ensures HasBlankDate(doc) ==>
              && ProfileSync.ProfileFromSnapshot(uid, doc, accountEmail).Success?
              && ProfileSync.ProfileFromSnapshot(uid, doc, accountEmail).value.dateOfBirth.None?
              && PrefsProfileSync.ProfileFromDocument(uid, doc, accountEmail) == Failure(DateParse(doc["dateOfBirth"]))
  {
    if HasBlankDate(doc) {
      BlankDoesNotParse(doc["dateOfBirth"]);
    } else {
      assert ProfileSync.BirthDate(doc) == PrefsProfileSync.BirthDate(doc);
    }
  }

  /**
   * With nobody signed in, over the same stores: the first copy reads nothing and its save
   * throws; the second reads the row keyed "" and its save returns normally. Neither writes.
   */
  method NoUser(accountEmail: Option<string>, local: Table, remote: Collection,
                firstName: string, lastName: string, email: string, phone: string,
                dateOfBirth: Option<LocalDate>)
    returns (readA: Option<Profile>, readB: Option<Profile>, saveA: Outcome, saveB: Outcome,
             localA: Table, localB: Table, remoteA: Collection, remoteB: Collection)
    requires IsKeyed(local)
    ensures readA == None && readB == GetProfile(local, "")
    ensures saveA == Threw(NotLoggedIn) && saveB == Completed
    ensures localA == local && localB == local && remoteA == remote && remoteB == remote
  {
    var a := new ProfileSync.ProfileRepository(None, accountEmail, local, remote);
    var b := new PrefsProfileSync.ProfileRepository(None, accountEmail, local, remote);
    readA := a.GetLocalProfile();
    readB := b.GetLocalProfile();
    saveA := a.SaveProfile(firstName, lastName, email, phone, dateOfBirth, Reachable);
    saveB := b.SaveProfile(firstName, lastName, email, phone, dateOfBirth, Reachable);
    localA, remoteA := a.local, a.remote;
    localB, remoteB := b.local, b.remote;
  }

  /**
   * The profile screen's save with nobody signed in. The screen calls `refreshFromRemote`,
   * which only the first copy declares, so it is built over the first copy alone; the
   * second run is a hypothetical screen whose save goes through the second copy. The
   * first ends showing "User not logged in"; the second would end showing the profile as
   * saved, although neither store was written.
   */
  method SaveFromScreenWithoutUser(start: ProfileUiState, accountEmail: Option<string>, local: Table, remote: Collection)
    returns (finalA: ProfileUiState, finalB: ProfileUiState)
    requires IsKeyed(local)
    ensures !finalA.isLoading && !finalA.saved && finalA.error == Some("User not logged in")
    ensures !finalB.isLoading && finalB.saved && finalB.error == None
  {
    var screenA := new ProfileViewModel();
    screenA.state := start;
    var request := screenA.BeginSave();
    var a := new ProfileSync.ProfileRepository(None, accountEmail, local, remote);
    var outcomeA := a.SaveProfile(request.firstName, request.lastName, request.email, request.phone,
                                  request.dateOfBirth, Reachable);
    screenA.EndSave(outcomeA);
    finalA := screenA.state;

    var screenB := new ProfileViewModel();
    screenB.state := start;
    request := screenB.BeginSave();
    var b := new PrefsProfileSync.ProfileRepository(None, accountEmail, local, remote);
    var outcomeB := b.SaveProfile(request.firstName, request.lastName, request.email, request.phone,
                                  request.dateOfBirth, Reachable);
    screenB.EndSave(outcomeB);
    finalB := screenB.state;
  }
}
