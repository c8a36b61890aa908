/**
 * The profile repository of `repository/ProfileRepository.kt`: it keeps the signed-in
 * user's profile in the local `profile_table` and in the remote `users` collection,
 * reads the local copy, refreshes it from the remote document, and saves to the remote
 * document first and to the local table second.
 */
module ProfileSync {
  import opened Wrappers
  import opened Text
  import opened IsoDate
  import opened ProfileDao
  import opened UsersCollection

  /**
   * `dobString?.takeIf { it.isNotBlank() }?.let(LocalDate::parse)`: an absent or blank
   * `dateOfBirth` gives no date; any other text must parse as an ISO date.
   */
  function BirthDate(doc: Document): (r: Result<Option<LocalDate>>)
    ensures "dateOfBirth" !in doc ==> r == Success(None)
    ensures "dateOfBirth" in doc && IsBlank(doc["dateOfBirth"]) ==> r == Success(None)
    ensures r.Success? && r.value.Some? ==> Format(r.value.value) == doc["dateOfBirth"]
    ensures r.Failure? <==> "dateOfBirth" in doc && !IsBlank(doc["dateOfBirth"]) && Parse(doc["dateOfBirth"]).None?
    ensures r.Failure? ==> r.error == DateParse(doc["dateOfBirth"])
    ensures "dateOfBirth" in doc && !IsBlank(doc["dateOfBirth"]) && Parse(doc["dateOfBirth"]).Some? ==>
              r == Success(Parse(doc["dateOfBirth"]))
  {
    match GetString(doc, "dateOfBirth")
    case None => Success(None)
    case Some(text) =>
      if IsBlank(text) then Success(None)
      else match Parse(text)
        case None => Failure(DateParse(text))
        case Some(d) => Success(Some(d))
  }

  /** The entity `refreshFromRemote` builds from an existing snapshot, or the exception it throws. */
  function ProfileFromSnapshot(uid: string, doc: Document, accountEmail: Option<string>): (r: Result<Profile>)
    ensures r.Failure? <==> BirthDate(doc).Failure?
    ensures r.Failure? ==> r.error == BirthDate(doc).error
    ensures r.Success? ==> r.value == ProfileOf(uid, doc, accountEmail, BirthDate(doc).value)
    ensures r.Success? ==> (r.value.dateOfBirth.None? <==> "dateOfBirth" !in doc || IsBlank(doc["dateOfBirth"]))
  {
    match BirthDate(doc)
    case Failure(e) => Failure(e)
    case Success(dob) => Success(ProfileOf(uid, doc, accountEmail, dob))
  }

  /** A document written by `saveProfile` is read back as exactly the entity that was saved. */
  lemma ProfileFromSaveData(p: Profile, accountEmail: Option<string>)
    ensures ProfileFromSnapshot(p.uid, SaveData(p), accountEmail) == Success(p)
  {
    var doc := SaveData(p);
    match p.dateOfBirth
    case None =>
      assert doc["dateOfBirth"] == "";
      assert BirthDate(doc) == Success(None);
    case Some(d) =>
      FormatNotBlank(d);
      assert BirthDate(doc) == Success(Some(d));
    ProfileOfSaveData(p, accountEmail);
  }

  class ProfileRepository {
    /** `auth.currentUser?.uid`: the signed-in user's id, if any. */
    var uid: Option<string>
    /** `auth.currentUser?.email`. */
    var accountEmail: Option<string>
    /** The local `profile_table`. */
    var local: Table
    /** The remote `users` collection. */
    var remote: Collection
    /** Every committed store write, in order. */
    ghost var writes: seq<StoreWrite>

    ghost predicate Valid()
      reads this
    {
      IsKeyed(local)
    }

    constructor (uid: Option<string>, accountEmail: Option<string>, local: Table, remote: Collection)
      requires IsKeyed(local)
      ensures Valid()
      ensures this.uid == uid && this.accountEmail == accountEmail
      ensures this.local == local && this.remote == remote && writes == []
    {
      this.uid := uid;
      this.accountEmail := accountEmail;
      this.local := local;
      this.remote := remote;
      writes := [];
    }

    /**
     * `getLocalProfile()`: with no signed-in user, the constant null flow; otherwise the
     * row keyed by the current uid (the value the Room flow currently holds).
     */
    function GetLocalProfile(): (r: Option<Profile>)
      requires Valid()
      reads this
      ensures uid.None? ==> r.None?
      ensures uid.Some? ==> (r.Some? <==> uid.value in local)
      ensures r.Some? ==> uid == Some(r.value.uid) && local[r.value.uid] == r.value
    {
      match uid
      case None => None
      case Some(u) => GetProfile(local, u)
    }

    /**
     * `refreshFromRemote()`: pull the current user's document and upsert the entity built
     * from it. Nothing is written with no user, a failed fetch, a missing document or an
     * unparsable date.
     */
    method RefreshFromRemote(network: Network) returns (outcome: Outcome)
      requires Valid()
      modifies this`local, this`writes
      ensures Valid()
      ensures uid.None? ==> outcome == Completed
      ensures uid.Some? && network.Unreachable? ==> outcome == Threw(RemoteFailure(network.message))
      ensures uid.Some? && network.Reachable? && uid.value !in remote ==> outcome == Completed
      ensures outcome.Threw? || uid.None? || network.Unreachable? || uid.value !in remote ==>
                local == old(local) && writes == old(writes)
      ensures uid.Some? && network.Reachable? && uid.value in remote ==>
                match ProfileFromSnapshot(uid.value, remote[uid.value], accountEmail)
                case Failure(e) => outcome == Threw(e)
                case Success(p) =>
                  && outcome == Completed
                  && local == UpsertProfile(old(local), p)
                  && writes == old(writes) + [LocalUpsert(p)]
    {
      if uid.None? {
        return Completed;
      }
      var u := uid.value;
      if network.Unreachable? {
        return Threw(RemoteFailure(network.message));
      }
      if u !in remote {
        return Completed;
      }
      var entity := ProfileFromSnapshot(u, remote[u], accountEmail);
      if entity.Failure? {
        return Threw(entity.error);
      }
      local := UpsertProfile(local, entity.value);
      writes := writes + [LocalUpsert(entity.value)];
      outcome := Completed;
    }

    /**
     * `saveProfile(...)`: throws before touching either store with no user; otherwise sets
     * the remote document and, only once that has succeeded, upserts the same entity locally.
     */
    method SaveProfile(firstName: string, lastName: string, email: string, phone: string,
                       dateOfBirth: Option<LocalDate>, network: Network)
      returns (outcome: Outcome)
      requires Valid()
      modifies this`local, this`remote, this`writes
      ensures Valid()
      ensures uid.None? ==> outcome == Threw(NotLoggedIn)
      ensures uid.Some? && network.Unreachable? ==> outcome == Threw(RemoteFailure(network.message))
      ensures outcome.Threw? ==> local == old(local) && remote == old(remote) && writes == old(writes)
      ensures uid.Some? && network.Reachable? ==>
                var p := Profile(uid.value, firstName, lastName, email, phone, dateOfBirth);
                && outcome == Completed
                && remote == old(remote)[uid.value := SaveData(p)]
                && local == UpsertProfile(old(local), p)
                && writes == old(writes) + [RemoteSet(uid.value, SaveData(p)), LocalUpsert(p)]
    {
      if uid.None? {
        return Threw(NotLoggedIn);
      }
      var u := uid.value;
      var entity := Profile(u, firstName, lastName, email, phone, dateOfBirth);
      var data := SaveData(entity);
      if network.Unreachable? {
        return Threw(RemoteFailure(network.message));
      }
      remote := remote[u := data];
      writes := writes + [RemoteSet(u, data)];
      local := UpsertProfile(local, entity);
      writes := writes + [LocalUpsert(entity)];
      outcome := Completed;
    }
  }

  /**
   * Round trip through both stores: after a successful save, a refresh against the
   * unchanged remote document leaves the local entity exactly as the save left it
   * (a null date travels as "" and comes back as null).
   */
  method SaveThenRefresh(uid: string, accountEmail: Option<string>, local: Table, remote: Collection,
                         firstName: string, lastName: string, email: string, phone: string,
                         dateOfBirth: Option<LocalDate>)
    returns (saved: Option<Profile>, refreshed: Option<Profile>, outcome: Outcome)
    requires IsKeyed(local)
    ensures saved == Some(Profile(uid, firstName, lastName, email, phone, dateOfBirth))
    ensures outcome == Completed && refreshed == saved
  {
    var repo := new ProfileRepository(Some(uid), accountEmail, local, remote);
    var _ := repo.SaveProfile(firstName, lastName, email, phone, dateOfBirth, Reachable);
    saved := repo.GetLocalProfile();
    ProfileFromSaveData(saved.value, accountEmail);
    outcome := repo.RefreshFromRemote(Reachable);
    refreshed := repo.GetLocalProfile();
  }
}
