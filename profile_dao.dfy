/**
 * The local profile table `profile_table`: rows of `UserProfileEntity` keyed by
 * their primary key `uid`, read with `getProfile(uid)` and written with
 * `upsertProfile`, an insert whose conflict strategy is REPLACE.
 */
module ProfileDao {
  import opened Wrappers
  import opened IsoDate

  /** One row of `profile_table`; `dateOfBirth` is stored as a nullable date. */
  datatype Profile = Profile(
    uid: string,
    firstName: string,
    lastName: string,
    email: string,
    phone: string,
    dateOfBirth: Option<LocalDate>)

  /** The table's contents, indexed by primary key. */
  type Table = map<string, Profile>

  /** Every row sits under its own primary key. */
  predicate IsKeyed(t: Table) {
    forall k | k in t :: t[k].uid == k
  }

  /** `SELECT * FROM profile_table WHERE uid = :uid LIMIT 1`: the row whose key is `uid`, or null. */
  function GetProfile(t: Table, uid: string): (r: Option<Profile>)
    ensures r.Some? <==> uid in t
    ensures r.Some? ==> r.value == t[uid]
    ensures IsKeyed(t) && r.Some? ==> r.value.uid == uid
  {
    if uid in t then Some(t[uid]) else None
  }

  /** `@Insert(onConflict = REPLACE)`: the row for `p.uid` becomes `p`, whether or not one existed. */
  function UpsertProfile(t: Table, p: Profile): (r: Table)
    ensures r.Keys == t.Keys + {p.uid}
    ensures GetProfile(r, p.uid) == Some(p)
    ensures forall k | k in t && k != p.uid :: r[k] == t[k]
    ensures |r| == if p.uid in t then |t| else |t| + 1
    ensures IsKeyed(t) ==> IsKeyed(r)
  {
    t[p.uid := p]
  }

  /** Upserting the same entity twice leaves the table as upserting it once. */
  lemma UpsertIdempotent(t: Table, p: Profile)
    ensures UpsertProfile(UpsertProfile(t, p), p) == UpsertProfile(t, p)
  {
  }

  /** A later upsert for the same key wins outright: the earlier row leaves no trace. */
  lemma UpsertReplaces(t: Table, p: Profile, q: Profile)
    requires p.uid == q.uid
    ensures UpsertProfile(UpsertProfile(t, p), q) == UpsertProfile(t, q)
  {
  }

  /** Reads under any other key see the table as it was before the upsert. */
  lemma UpsertIsolated(t: Table, p: Profile, uid: string)
    requires uid != p.uid
    ensures GetProfile(UpsertProfile(t, p), uid) == GetProfile(t, uid)
  {
  }
}
