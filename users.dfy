/**
 * The users table and its two writers: open self-registration and the
 * admin-only creation of a user with a chosen role.
 */
module Users {
  import opened Wrappers

  const ADMIN_ROLE: string := "admin"

  /** The column default of users.role. */
  const DEFAULT_ROLE: string := "user"

  /** The identity the session supplies to every authenticated endpoint. */
  datatype Caller = Caller(id: int, name: Option<string>, email: string, role: string)

  /** One row of users, without its SERIAL id; password holds the bcrypt hash. */
  datatype User = User(name: Option<string>, email: string, password: string, role: string)

  /** The body of an admin's create-user request. */
  datatype CreateUserIn = CreateUserIn(name: string, email: string, password: string, role: string)

  /**
   * The refusals of the two writers: "User exists" from register and "User
   * already exists" from create_user (both 400), and "Admins only" (403).
   */
  datatype UserError = UserExists | UserAlreadyExists | AdminsOnly

  /** SELECT id FROM users WHERE email = email finds a row. */
  predicate EmailTaken(rows: map<int, User>, email: string)
  {
    exists id :: id in rows && rows[id].email == email
  }

  /** No two users share an email. */
  ghost predicate EmailsUnique(rows: map<int, User>)
  {
    forall a, b :: a in rows && b in rows && rows[a].email == rows[b].email ==> a == b
  }

  /** Adding a user whose email is not taken keeps emails unique. */
  lemma InsertKeepsEmailsUnique(rows: map<int, User>, id: int, u: User)
    requires EmailsUnique(rows) && id !in rows && !EmailTaken(rows, u.email)
    ensures EmailsUnique(rows[id := u])
    ensures EmailTaken(rows[id := u], u.email)
  {
    assert rows[id := u][id].email == u.email;
  }

  class UserTable {
    var rows: map<int, User>
    var nextId: int

    ghost predicate Valid()
      reads this
    {
      EmailsUnique(rows) && forall id :: id in rows ==> id < nextId
    }

    constructor ()
      ensures Valid() && rows == map[] && nextId == 1
    {
      rows := map[];
      nextId := 1;
    }

    /** The INSERT INTO users of both writers: the row takes the next id. */
    method Insert(u: User) returns (id: int)
      requires Valid() && !EmailTaken(rows, u.email)
      modifies this
      ensures Valid()
      ensures id == old(nextId) && id !in old(rows) && rows == old(rows)[id := u] && nextId == old(nextId) + 1
    {
      InsertKeepsEmailsUnique(rows, nextId, u);
      id := nextId;
      rows := rows[id := u];
      nextId := nextId + 1;
    }

    /**
     * register: refuse an email that exists; otherwise insert email and the
     * password hash only, so name is NULL and role takes its default.
     */
    method Register(email: string, passwordHash: string) returns (r: Result<int, UserError>)
      requires Valid()
      modifies this
      ensures Valid()
      ensures r.Failure? <==> EmailTaken(old(rows), email)
      ensures r.Failure? ==> r.error == UserExists && rows == old(rows) && nextId == old(nextId)
      ensures r.Success? ==>
        r.value !in old(rows) && rows == old(rows)[r.value := User(None, email, passwordHash, DEFAULT_ROLE)] &&
        nextId == old(nextId) + 1
    {
      if EmailTaken(rows, email) {
        return Failure(UserExists);
      }
      var id := Insert(User(None, email, passwordHash, DEFAULT_ROLE));
      return Success(id);
    }

    /**
     * create_user: only an admin caller may create users; an existing email
     * is refused; otherwise the row gets the given name, email, hash and role.
     */
    method CreateUser(caller: Caller, data: CreateUserIn, passwordHash: string) returns (r: Result<int, UserError>)
      requires Valid()
      modifies this
      ensures Valid()
      ensures caller.role != ADMIN_ROLE ==> r == Failure(AdminsOnly)
      ensures caller.role == ADMIN_ROLE ==> (r.Failure? <==> EmailTaken(old(rows), data.email))
      ensures caller.role == ADMIN_ROLE && r.Failure? ==> r.error == UserAlreadyExists
      ensures r.Failure? ==> rows == old(rows) && nextId == old(nextId)
      ensures r.Success? ==>
        r.value !in old(rows) &&
        rows == old(rows)[r.value := User(Some(data.name), data.email, passwordHash, data.role)] &&
        nextId == old(nextId) + 1
    {
      if caller.role != ADMIN_ROLE {
        return Failure(AdminsOnly);
      }
      if EmailTaken(rows, data.email) {
        return Failure(UserAlreadyExists);
      }
      var id := Insert(User(Some(data.name), data.email, passwordHash, data.role));
      return Success(id);
    }
  }
}
