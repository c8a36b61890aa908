/**
 * The divergent copy of the profile repository in `data/prefs/ProfileRepository.kt`.
 * It differs from `repository/ProfileRepository.kt` in three places: with no signed-in
 * user it reads the local row keyed "" and saves nothing without throwing, and it parses
 * any present `dateOfBirth`, blank or not.
 */
module PrefsProfileSync {
  import opened Wrappers
  import opened IsoDate
  import opened ProfileDao
  import opened UsersCollection

  /** `dobString?.let { LocalDate.parse(it) }`: an absent field gives no date; any present text must parse. */
  function BirthDate(doc: Document): (r: Result<Option<LocalDate>>)
    ensures "dateOfBirth" !in doc ==> r == Success(None)
    ensures r.Success? && r.value.Some? ==> Format(r.value.value) == doc["dateOfBirth"]
    ensures r.Success? && "dateOfBirth" in doc ==> r.value.Some?
    ensures r.Failure? <==> "dateOfBirth" in doc && Parse(doc["dateOfBirth"]).None?
    ensures r.Failure? ==> r.error == DateParse(doc["dateOfBirth"])
  {
    match GetString(doc, "dateOfBirth")
    case None => Success(None)
    case Some(text) =>
      match Parse(text)
      case None => Failure(DateParse(text))
      case Some(d) => Success(Some(d))
  }

  /** The entity `syncFromRemote` builds from an existing document, or the exception it throws. */
  function ProfileFromDocument(uid: string, doc: Document, accountEmail: Option<string>): (r: Result<Profile>)
    ensures r.Failure? <==> BirthDate(doc).Failure?
    ensures r.Failure? ==> r.error == BirthDate(doc).error
    ensures r.Success? ==> r.value == ProfileOf(uid, doc, accountEmail, BirthDate(doc).value)
    ensures r.Success? ==> (r.value.dateOfBirth.None? <==> "dateOfBirth" !in doc)
  {
    match BirthDate(doc)
    case Failure(e) => Failure(e)
    case Success(dob) => Success(ProfileOf(uid, doc, accountEmail, dob))
  }

  /** A saved document with a date reads back as the saved entity. */
  lemma ProfileFromSaveDataWithDate(p: Profile, accountEmail: Option<string>)
    requires p.dateOfBirth.Some?
    ensures ProfileFromDocument(p.uid, SaveData(p), accountEmail) == Success(p)
  {
    ProfileOfSaveData(p, accountEmail);
  }

  /**
   * A saved document without a date cannot be read back: `saveProfile` stores "" for a
   * null date and `LocalDate.parse("")` throws.
   */
  lemma {:induction false} ProfileFromSaveDataWithoutDate(p: Profile, accountEmail: Option<string>)
    requires p.dateOfBirth.None?
    ensures ProfileFromDocument(p.uid, SaveData(p), accountEmail) == Failure(DateParse(""))
  {
    BlankDoesNotParse("");
  }

  class ProfileRepository {
    /** `auth.currentUser?.uid`. */
    var uid: Option<string>
    /** `auth.currentUser?.email`. */
    var accountEmail: Option<string>
    /** The local `profile_table`. */
    var local: Table
    /** The remote `users` collection. */
    var remote: Collection
    /** Every committed store write, in order. */
    ghost var writes: seq<StoreWrite>

    ghost predicate Valid()
      reads this
    {
      IsKeyed(local)
    }

    constructor (uid: Option<string>, accountEmail: Option<string>, local: Table, remote: Collection)
      requires IsKeyed(local)
      ensures Valid()
      ensures this.uid == uid && this.accountEmail == accountEmail
      ensures this.local == local && this.remote == remote && writes == []
    {
      this.uid := uid;
      this.accountEmail := accountEmail;
      this.local := local;
      this.remote := remote;
      writes := [];
    }

    /** `getLocalProfile()`: the row keyed by the current uid, or by "" when no user is signed in. */
    function GetLocalProfile(): (r: Option<Profile>)
      requires Valid()
      reads this
      ensures r == GetProfile(local, uid.GetOr(""))
      ensures uid.None? ==> (r.Some? <==> "" in local)
      ensures r.Some? ==> r.value.uid == uid.GetOr("") && local[r.value.uid] == r.value
    {
      GetProfile(local, uid.GetOr(""))
    }

    /**
     * `syncFromRemote()`: pull the current user's document and upsert the entity built
     * from it. Nothing is written with no user, a failed fetch, a missing document or an
     * unparsable (including blank) date.
     */
    method SyncFromRemote(network: Network) returns (outcome: Outcome)
      requires Valid()
      modifies this`local, this`writes
      ensures Valid()
      ensures uid.None? ==> outcome == Completed
      ensures uid.Some? && network.Unreachable? ==> outcome == Threw(RemoteFailure(network.message))
      ensures uid.Some? && network.Reachable? && uid.value !in remote ==> outcome == Completed
      ensures outcome.Threw? || uid.None? || network.Unreachable? || uid.value !in remote ==>
                local == old(local) && writes == old(writes)
      ensures uid.Some? && network.Reachable? && uid.value in remote ==>
                match ProfileFromDocument(uid.value, remote[uid.value], accountEmail)
                case Failure(e) => outcome == Threw(e)
                case Success(p) =>
                  && outcome == Completed
                  && local == UpsertProfile(old(local), p)
                  && writes == old(writes) + [LocalUpsert(p)]
    {
      if uid.None? {
        return Completed;
      }
      var u := uid.value;
      if network.Unreachable? {
        return Threw(RemoteFailure(network.message));
      }
      if u in remote {
        var profile := ProfileFromDocument(u, remote[u], accountEmail);
        if profile.Failure? {
          return Threw(profile.error);
        }
        local := UpsertProfile(local, profile.value);
        writes := writes + [LocalUpsert(profile.value)];
      }
      outcome := Completed;
    }

    /**
     * `saveProfile(...)`: returns silently, writing nothing, with no user; otherwise sets
     * the remote document and, only once that has succeeded, upserts the same entity locally.
     */
    method SaveProfile(firstName: string, lastName: string, email: string, phone: string,
                       dateOfBirth: Option<LocalDate>, network: Network)
      returns (outcome: Outcome)
      requires Valid()
      modifies this`local, this`remote, this`writes
      ensures Valid()
      ensures uid.None? ==> outcome == Completed
      ensures uid.Some? && network.Unreachable? ==> outcome == Threw(RemoteFailure(network.message))
      ensures uid.None? || outcome.Threw? ==> local == old(local) && remote == old(remote) && writes == old(writes)
      ensures uid.Some? && network.Reachable? ==>
                var p := Profile(uid.value, firstName, lastName, email, phone, dateOfBirth);
                && outcome == Completed
                && remote == old(remote)[uid.value := SaveData(p)]
                && local == UpsertProfile(old(local), p)
                && writes == old(writes) + [RemoteSet(uid.value, SaveData(p)), LocalUpsert(p)]
    {
      if uid.None? {
        return Completed;
      }
      var u := uid.value;
      var profile := Profile(u, firstName, lastName, email, phone, dateOfBirth);
      var data := SaveData(profile);
      if network.Unreachable? {
        return Threw(RemoteFailure(network.message));
      }
      remote := remote[u := data];
      writes := writes + [RemoteSet(u, data)];
      local := UpsertProfile(local, profile);
      writes := writes + [LocalUpsert(profile)];
      outcome := Completed;
    }
  }

  /**
   * Save followed by sync against the unchanged remote document: the sync completes exactly
   * when a date was saved, and throws on the "" stored for a null date; either way the local
   * entity stays as the save left it, because the failing parse comes before the upsert.
   */
  method SaveThenSync(uid: string, accountEmail: Option<string>, local: Table, remote: Collection,
                      firstName: string, lastName: string, email: string, phone: string,
                      dateOfBirth: Option<LocalDate>)
    returns (saved: Option<Profile>, synced: Option<Profile>, outcome: Outcome)
    requires IsKeyed(local)
    ensures saved == Some(Profile(uid, firstName, lastName, email, phone, dateOfBirth))
    ensures dateOfBirth.Some? ==> outcome == Completed
    ensures dateOfBirth.None? ==> outcome == Threw(DateParse(""))
    ensures synced == saved
  {
    var repo := new ProfileRepository(Some(uid), accountEmail, local, remote);
    var _ := repo.SaveProfile(firstName, lastName, email, phone, dateOfBirth, Reachable);
    saved := repo.GetLocalProfile();
    if dateOfBirth.Some? {
      ProfileFromSaveDataWithDate(saved.value, accountEmail);
    } else {
      ProfileFromSaveDataWithoutDate(saved.value, accountEmail);
    }
    outcome := repo.SyncFromRemote(Reachable);
    synced := repo.GetLocalProfile();
  }
}
