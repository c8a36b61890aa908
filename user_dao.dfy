/**
 * The `user_table` behind `UserDao`: rows of `UserEntity` keyed by an auto-generated
 * integer primary key `id`. As SQLite stores a table whose primary key is an integer,
 * the rows are kept in ascending key order. `getAllUsers` reads every row ordered by id
 * descending, `insertUser` adds one row (an id of 0 means "generate one"; an id already
 * present aborts the insert), `deleteUser` removes the row with the entity's id.
 */
module UserTable {

  datatype UserEntity = UserEntity(id: int, firstName: string, lastName: string)

  /** The outcome of `insertUser`: the row's id, or the constraint failure of a taken id. */
  datatype InsertResult = Inserted(id: int) | PrimaryKeyConflict

  /** Ids strictly increase along the list: key order, each key once. */
  predicate AscendingById(s: seq<UserEntity>) {
    forall i, j | 0 <= i < j < |s| :: s[i].id < s[j].id
  }

  /** Ids strictly decrease along the list: `ORDER BY id DESC`, each key once. */
  predicate DescendingById(s: seq<UserEntity>) {
    forall i, j | 0 <= i < j < |s| :: s[i].id > s[j].id
  }

  predicate HasId(s: seq<UserEntity>, id: int) {
    exists i | 0 <= i < |s| :: s[i].id == id
  }

  /** `u` placed among key-ordered rows at the position its id calls for. */
  function InsertById(s: seq<UserEntity>, u: UserEntity): (r: seq<UserEntity>)
    requires AscendingById(s) && !HasId(s, u.id)
    ensures AscendingById(r)
    ensures |r| == |s| + 1
    ensures forall x :: x in r <==> x == u || x in s
  {
    if s == [] || u.id < s[0].id then [u] + s
    else
      assert forall x :: x in s <==> x == s[0] || x in s[1..];
      var t := InsertById(s[1..], u);
      assert forall k | 0 <= k < |t| :: s[0].id < t[k].id by {
        forall k | 0 <= k < |t|
          ensures s[0].id < t[k].id
        {
          assert t[k] in t;
          if t[k] != u {
            var j :| 0 <= j < |s[1..]| && s[1..][j] == t[k];
            assert s[j + 1] == t[k];
          }
        }
      }
      [s[0]] + t
  }

  /** Key-ordered rows without the one whose id is `id`, if any. */
  function RemoveById(s: seq<UserEntity>, id: int): (r: seq<UserEntity>)
    requires AscendingById(s)
    ensures AscendingById(r)
    ensures |r| == if HasId(s, id) then |s| - 1 else |s|
    ensures forall x :: x in r <==> x in s && x.id != id
    ensures !HasId(s, id) ==> r == s
  {
    if s == [] then []
    else
      assert forall x :: x in s <==> x == s[0] || x in s[1..];
      if s[0].id == id then
        assert !HasId(s[1..], id);
        s[1..]
      else
        assert HasId(s, id) <==> HasId(s[1..], id);
        [s[0]] + RemoveById(s[1..], id)
  }

  class UserDao {
    /** The rows, in ascending primary-key order. */
    var rows: seq<UserEntity>
    /** The largest id the table has ever held (SQLite's AUTOINCREMENT sequence). */
    var lastId: int

    ghost predicate Valid()
      reads this
    {
      && AscendingById(rows)
      && forall i | 0 <= i < |rows| :: rows[i].id <= lastId
    }

    /** An empty table. */
    constructor ()
      ensures Valid() && rows == [] && lastId == 0
    {
      rows := [];
      lastId := 0;
    }

    /** `getAllUsers()`: every row once, ordered by id descending. */
    method GetAllUsers() returns (users: seq<UserEntity>)
      requires Valid()
      ensures DescendingById(users)
      ensures |users| == |rows|
      ensures forall u :: u in users <==> u in rows
    {
      users := [];
      var i := |rows|;
      while i > 0
        invariant 0 <= i <= |rows|
        invariant |users| == |rows| - i
        invariant forall k | 0 <= k < |users| :: users[k] == rows[|rows| - 1 - k]
      {
        i := i - 1;
        users := users + [rows[i]];
      }
      forall u | u in rows
        ensures u in users
      {
        var k :| 0 <= k < |rows| && rows[k] == u;
        assert users[|rows| - 1 - k] == u;
      }
    }

    /**
     * `insertUser(user)`: an id of 0 receives the next id after every id the table has
     * held; any other id is used as given unless a row already has it, which aborts.
     */
    method InsertUser(user: UserEntity) returns (result: InsertResult)
      requires Valid()
      modifies this
      ensures Valid()
      ensures user.id == 0 ==> result == Inserted(old(lastId) + 1)
      ensures user.id != 0 ==> result == if HasId(old(rows), user.id) then PrimaryKeyConflict else Inserted(user.id)
      ensures result.PrimaryKeyConflict? ==> rows == old(rows) && lastId == old(lastId)
      ensures result.Inserted? ==>
                && !HasId(old(rows), result.id)
                && |rows| == |old(rows)| + 1
                && (forall u :: u in rows <==> u == user.(id := result.id) || u in old(rows))
                && lastId == if result.id > old(lastId) then result.id else old(lastId)
    {
      var id := if user.id == 0 then lastId + 1 else user.id;
      if HasId(rows, id) {
        return PrimaryKeyConflict;
      }
      ghost var before := rows;
      rows := InsertById(rows, user.(id := id));
      if id > lastId {
        lastId := id;
      }
      forall i | 0 <= i < |rows|
        ensures rows[i].id <= lastId
      {
        assert rows[i] in rows;
        if rows[i] != user.(id := id) {
          var j :| 0 <= j < |before| && before[j] == rows[i];
        }
      }
      result := Inserted(id);
    }

    /** `deleteUser(user)`: removes the row whose id is the entity's, if any; no other row changes. */
    method DeleteUser(user: UserEntity)
      requires Valid()
      modifies this`rows
      ensures Valid()
      ensures forall u :: u in rows <==> u in old(rows) && u.id != user.id
      ensures |rows| == if HasId(old(rows), user.id) then |old(rows)| - 1 else |old(rows)|
      ensures !HasId(old(rows), user.id) ==> rows == old(rows)
    {
      rows := RemoveById(rows, user.id);
    }
  }

  /**
   * Two inserts then a read, on a fresh table: generated ids count up from 1, so the
   * newest user comes first.
   */
  method InsertTwiceThenList(a: UserEntity, b: UserEntity) returns (users: seq<UserEntity>)
    requires a.id == 0 && b.id == 0
    ensures users == [b.(id := 2), a.(id := 1)]
  {
    var dao := new UserDao();
    var _ := dao.InsertUser(a);
    var _ := dao.InsertUser(b);
    users := dao.GetAllUsers();
    assert users[0] in users && users[1] in users;
  }
}
