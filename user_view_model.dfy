/**
 * The user list screen's state holder (`UserViewModel`), with the pass-through
 * `UserRepository` folded into the table it forwards to: a list of users that starts
 * empty and follows the table, a guarded insert and a delete.
 */
module Users {
  import opened Text
  import opened UserTable

  /** The guard of `addUser`: both names must have a non-whitespace character. */
  predicate AcceptsNames(first: string, last: string) {
    !IsBlank(first) && !IsBlank(last)
  }

  class UserViewModel {
    /** The table the repository forwards to. */
    const dao: UserDao
    /** The current value of the `users` state flow. */
    var users: seq<UserEntity>

    ghost predicate Valid()
      reads this, dao
    {
      dao.Valid()
    }

    /** `users` holds `emptyList()` until the table first emits. */
    constructor (dao: UserDao)
      requires dao.Valid()
      ensures Valid() && this.dao == dao && users == []
    {
      this.dao := dao;
      users := [];
    }

    /** An emission of `getAllUsers()` reaching the state flow. */
    method OnUsersEmitted()
      requires Valid()
      modifies this`users
      ensures Valid()
      ensures DescendingById(users) && |users| == |dao.rows|
      ensures forall u :: u in users <==> u in dao.rows
    {
      users := dao.GetAllUsers();
    }

    /** `addUser(first, last)`: with both names non-blank, exactly one new row with a fresh id and those names. */
    method AddUser(first: string, last: string)
      requires Valid()
      modifies dao
      ensures Valid()
      ensures !AcceptsNames(first, last) ==> dao.rows == old(dao.rows) && dao.lastId == old(dao.lastId)
      ensures AcceptsNames(first, last) ==>
                && |dao.rows| == |old(dao.rows)| + 1
                && dao.lastId == old(dao.lastId) + 1
                && !HasId(old(dao.rows), old(dao.lastId) + 1)
                && (forall u :: u in dao.rows <==> u == UserEntity(old(dao.lastId) + 1, first, last) || u in old(dao.rows))
    {
      if !IsBlank(first) && !IsBlank(last) {
        var _ := dao.InsertUser(UserEntity(0, first, last));
      }
    }

    /** `deleteUser(user)`: the row with the user's id goes; every other row stays. */
    method DeleteUser(user: UserEntity)
      requires Valid()
      modifies dao`rows
      ensures Valid()
      ensures forall u :: u in dao.rows <==> u in old(dao.rows) && u.id != user.id
      ensures !HasId(old(dao.rows), user.id) ==> dao.rows == old(dao.rows)
    {
      dao.DeleteUser(user);
    }
  }

  /**
   * A fresh screen over an empty table: adding a user and receiving the table's next
   * emission shows that one user with id 1, or nothing when a name is blank.
   */
  method AddToEmptyTable(first: string, last: string) returns (before: seq<UserEntity>, after: seq<UserEntity>)
    ensures before == []
    ensures AcceptsNames(first, last) ==> after == [UserEntity(1, first, last)]
    ensures !AcceptsNames(first, last) ==> after == []
  {
    var dao := new UserDao();
    var vm := new UserViewModel(dao);
    before := vm.users;
    vm.AddUser(first, last);
    vm.OnUsersEmitted();
    after := vm.users;
    if AcceptsNames(first, last) {
      assert after[0] in after;
    }
  }
}
