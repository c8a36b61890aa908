/**
 * The remote Firestore collection `users`: one document per uid, each a mapping from
 * field names to string values. This module holds what both profile repositories share:
 * the document that `saveProfile` writes, the `getString` reads that sync performs, and
 * what their suspending calls can throw.
 */
module UsersCollection {
  import opened Wrappers
  import opened IsoDate
  import opened ProfileDao

  type Document = map<string, string>

  /** The collection, indexed by document id. */
  type Collection = map<string, Document>

  /** Whether the network call to Firestore completes or throws (with its exception message, possibly null). */
  datatype Network = Reachable | Unreachable(message: Option<string>)

  /** The exceptions a repository call can end with. */
  datatype Exception =
    | NotLoggedIn                     // IllegalStateException("User not logged in")
    | RemoteFailure(message: Option<string>) // a failed `get().await()` or `set(data).await()`
    | DateParse(text: string)         // DateTimeParseException from `LocalDate.parse(text)`

  /** A repository call either returns normally or throws. */
  datatype Outcome = Completed | Threw(error: Exception)

  /** A value computed by code that may throw. */
  datatype Result<+T> = Success(value: T) | Failure(error: Exception)

  /** A committed write to one of the two stores, in the order the repository performs them. */
  datatype StoreWrite = RemoteSet(id: string, doc: Document) | LocalUpsert(row: Profile)

  /** `e.message` as a catching caller sees it. */
  function Message(e: Exception): (m: Option<string>)
    ensures e.NotLoggedIn? ==> m == Some("User not logged in")
    ensures e.RemoteFailure? ==> m == e.message
    ensures e.DateParse? ==> m.Some?
  {
    match e
    case NotLoggedIn => Some("User not logged in")
    case RemoteFailure(msg) => msg
    case DateParse(text) => Some("Text '" + text + "' could not be parsed")
  }

  /** `dateOfBirth?.toString() ?: ""`: the date's ISO form, or "" for no date. */
  function DateText(dob: Option<LocalDate>): (s: string)
    ensures dob.None? <==> s == ""
    ensures dob.Some? ==> Parse(s) == dob
  {
    match dob
    case None => ""
    case Some(d) => ParseFormat(d); Format(d)
  }

  /** The `hashMapOf(...)` document that `saveProfile` sends with `set(data)`. */
  function SaveData(p: Profile): (doc: Document)
    ensures doc.Keys == {"uid", "firstName", "lastName", "email", "phone", "dateOfBirth"}
    ensures doc["uid"] == p.uid && doc["firstName"] == p.firstName && doc["lastName"] == p.lastName
    ensures doc["email"] == p.email && doc["phone"] == p.phone
    ensures doc["dateOfBirth"] == DateText(p.dateOfBirth)
  {
    map["uid" := p.uid, "firstName" := p.firstName, "lastName" := p.lastName,
        "email" := p.email, "phone" := p.phone, "dateOfBirth" := DateText(p.dateOfBirth)]
  }

  /** `snapshot.getString(field)`: the field's value, or null when the field is absent. */
  function GetString(doc: Document, field: string): (r: Option<string>)
    ensures r.Some? <==> field in doc
    ensures r.Some? ==> r.value == doc[field]
  {
    if field in doc then Some(doc[field]) else None
  }

  /** `getString(field) ?: ""`: a missing string field reads as empty. */
  function StringOrEmpty(doc: Document, field: string): (s: string)
    ensures field in doc ==> s == doc[field]
    ensures field !in doc ==> s == ""
  {
    GetString(doc, field).GetOr("")
  }

  /** `getString("email") ?: (auth.currentUser?.email ?: "")`: the document's email, else the account's, else "". */
  function EmailOrFallback(doc: Document, accountEmail: Option<string>): (s: string)
    ensures "email" in doc ==> s == doc["email"]
    ensures "email" !in doc && accountEmail.Some? ==> s == accountEmail.value
    ensures "email" !in doc && accountEmail.None? ==> s == ""
  {
    GetString(doc, "email").GetOr(accountEmail.GetOr(""))
  }

  /** The entity both repositories build from a document once the date has been decided. */
  function ProfileOf(uid: string, doc: Document, accountEmail: Option<string>, dob: Option<LocalDate>): (p: Profile)
    ensures p.uid == uid && p.dateOfBirth == dob
    ensures p.firstName == StringOrEmpty(doc, "firstName") && p.lastName == StringOrEmpty(doc, "lastName")
    ensures p.email == EmailOrFallback(doc, accountEmail) && p.phone == StringOrEmpty(doc, "phone")
  {
    Profile(uid, StringOrEmpty(doc, "firstName"), StringOrEmpty(doc, "lastName"),
            EmailOrFallback(doc, accountEmail), StringOrEmpty(doc, "phone"), dob)
  }

  /** The five profile fields come back unchanged from a saved document, whatever the account email. */
  lemma ProfileOfSaveData(p: Profile, accountEmail: Option<string>)
    ensures ProfileOf(p.uid, SaveData(p), accountEmail, p.dateOfBirth) == p
  {
  }
}
