/**
 * The in-memory user repository: a list of users and a password table
 * keyed by e-mail, seeded with two accounts. Lookup returns the first user
 * with the e-mail, sign-up appends a user whose id is the next position,
 * and authentication compares the stored password for the e-mail.
 */
module MockUserRepository {
  import opened Wrappers
  import Decimal

  datatype User = User(id: string, email: string, name: string, role: string)

  const UserRole: string := "user"

  const SeedUsers: seq<User> := [
    User("1", "admin@example.com", "Admin User", UserRole),
    User("2", "john.doe@example.com", "John Doe", UserRole)
  ]

  const SeedPasswords: map<string, string> := map[
    "admin@example.com" := "admin123",
    "john.doe@example.com" := "password123"
  ]

  /** `users.find(u => u.email === email)`: the first user in list order with that e-mail. */
  function FindUser(users: seq<User>, email: string): (r: Option<User>)
    ensures r.Some? ==> r.value in users && r.value.email == email
    ensures r.None? <==> forall i :: 0 <= i < |users| ==> users[i].email != email
    ensures r.Some? ==> exists i :: 0 <= i < |users| && users[i] == r.value
                                     && forall j :: 0 <= j < i ==> users[j].email != email
  {
    if users == [] then None
    else if users[0].email == email then Some(users[0])
    else
      var r := FindUser(users[1..], email);
      assert forall i :: 1 <= i < |users| ==> users[i] == users[1..][i - 1];
      if r.Some? then
        var i :| 0 <= i < |users[1..]| && users[1..][i] == r.value
                 && forall j :: 0 <= j < i ==> users[1..][j].email != email;
        assert users[i + 1] == r.value;
        r
      else r
  }

  /**
   * `authenticate`: the user found for the e-mail, provided the password
   * stored under that e-mail equals the given one.
   */
  function Authenticated(users: seq<User>, passwords: map<string, string>, email: string, password: string): (r: Option<User>)
    ensures r.Some? <==> FindUser(users, email).Some? && email in passwords && passwords[email] == password
    ensures r.Some? ==> r == FindUser(users, email)
  {
    var user := FindUser(users, email);
    if user.None? then None
    else if email !in passwords || passwords[email] != password then None
    else user
  }

  /** The user `create` appends to a list of `count` users. */
  function NewUser(count: nat, email: string, name: string): User {
    User(Decimal.NatToString(count + 1), email, name, UserRole)
  }

  /** Every user's id is its 1-based position, its role is "user" and its e-mail has a password. */
  predicate WellFormed(users: seq<User>, passwords: map<string, string>) {
    forall i :: 0 <= i < |users| ==>
      users[i].id == Decimal.NatToString(i + 1) && users[i].role == UserRole && users[i].email in passwords
  }

  /** The two seed accounts are well formed. */
  lemma SeedWellFormed()
    ensures WellFormed(SeedUsers, SeedPasswords)
  {
    assert Decimal.NatToString(1) == "1";
    assert Decimal.NatToString(2) == "2";
  }

  /** Signing up keeps the table well formed. */
  lemma CreateKeepsWellFormed(users: seq<User>, passwords: map<string, string>, email: string, name: string, password: string)
    requires WellFormed(users, passwords)
    ensures WellFormed(users + [NewUser(|users|, email, name)], passwords[email := password])
  {
  }

  /** In a well-formed table no two users share an id. */
  lemma IdsDistinct(users: seq<User>, passwords: map<string, string>)
    requires WellFormed(users, passwords)
    ensures forall i, j :: 0 <= i < j < |users| ==> users[i].id != users[j].id
  {
    forall i, j | 0 <= i < j < |users|
      ensures users[i].id != users[j].id
    {
      Decimal.NatToStringInjective(i + 1, j + 1);
    }
  }

  /** In a well-formed table a known e-mail fails to authenticate only through a wrong password. */
  lemma KnownEmailFailsOnlyOnPassword(users: seq<User>, passwords: map<string, string>, email: string, password: string)
    requires WellFormed(users, passwords)
    requires FindUser(users, email).Some?
    ensures Authenticated(users, passwords, email, password).None? <==> passwords[email] != password
  {
  }

  /** With the seed table, each seed account authenticates with its own password and with no other. */
  lemma SeedCredentials(password: string)
    ensures Authenticated(SeedUsers, SeedPasswords, "admin@example.com", password).Some? <==> password == "admin123"
    ensures Authenticated(SeedUsers, SeedPasswords, "john.doe@example.com", password).Some? <==> password == "password123"
    ensures Authenticated(SeedUsers, SeedPasswords, "admin@example.com", "admin123") == Some(SeedUsers[0])
    ensures Authenticated(SeedUsers, SeedPasswords, "john.doe@example.com", "password123") == Some(SeedUsers[1])
  {
    assert SeedUsers[0].email == "admin@example.com";
    assert SeedUsers[1].email == "john.doe@example.com";
    assert SeedUsers[0].email != "john.doe@example.com";
    assert FindUser(SeedUsers, "admin@example.com") == Some(SeedUsers[0]);
    assert FindUser(SeedUsers, "john.doe@example.com") == Some(SeedUsers[1]);
  }

  /**
   * Signing up again with an e-mail already in use is accepted: lookup still
   * returns the older user, while authentication checks the new password
   * and hands back that older user.
   */
  lemma DuplicateSignup(users: seq<User>, passwords: map<string, string>, email: string, name: string, password: string, other: string)
    requires FindUser(users, email).Some?
    ensures FindUser(users + [NewUser(|users|, email, name)], email) == FindUser(users, email)
    ensures Authenticated(users + [NewUser(|users|, email, name)], passwords[email := password], email, password)
            == FindUser(users, email)
    ensures other != password ==>
              Authenticated(users + [NewUser(|users|, email, name)], passwords[email := password], email, other).None?
  {
    FindUserAppend(users, [NewUser(|users|, email, name)], email);
  }

  /** A match in the front part of a list hides any later one. */
  lemma {:induction false} FindUserAppend(front: seq<User>, back: seq<User>, email: string)
    requires FindUser(front, email).Some?
    ensures FindUser(front + back, email) == FindUser(front, email)
  {
    if front[0].email != email {
      assert (front + back)[1..] == front[1..] + back;
      FindUserAppend(front[1..], back, email);
    }
  }

  /** The repository state that every instance shares: the user list and the password table. */
  class Repository {
    var users: seq<User>
    var passwords: map<string, string>

    predicate Valid()
      reads this
    {
      WellFormed(users, passwords)
    }

    constructor ()
      ensures users == SeedUsers && passwords == SeedPasswords
      ensures Valid()
    {
      users := SeedUsers;
      passwords := SeedPasswords;
      SeedWellFormed();
    }

    /** `findByEmail`. */
    function FindByEmail(email: string): (r: Option<User>)
      reads this
      ensures r.Some? ==> r.value in users && r.value.email == email
      ensures r.None? <==> forall i :: 0 <= i < |users| ==> users[i].email != email
      ensures r.Some? ==> exists k :: 0 <= k < |users| && users[k] == r.value
                                      && forall j :: 0 <= j < k ==> users[j].email != email
    {
      FindUser(users, email)
    }

    /** `create`: appends one user with the next id and (re)sets the e-mail's password. */
    method Create(email: string, name: string, password: string) returns (user: User)
      requires Valid()
      modifies this
      ensures Valid()
      ensures user == User(Decimal.NatToString(|old(users)| + 1), email, name, UserRole)
      ensures users == old(users) + [user]
      ensures passwords == old(passwords)[email := password]
    {
      user := NewUser(|users|, email, name);
      CreateKeepsWellFormed(users, passwords, email, name, password);
      users := users + [user];
      passwords := passwords[email := password];
    }

    /** `authenticate`. */
    function Authenticate(email: string, password: string): (r: Option<User>)
      reads this
      ensures r.Some? <==> FindByEmail(email).Some? && email in passwords && passwords[email] == password
      ensures r.Some? ==> r == FindByEmail(email)
    {
      Authenticated(users, passwords, email, password)
    }
  }
}
