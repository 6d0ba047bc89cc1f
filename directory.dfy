/**
 * The in-memory user directory of actions/users.go: the `User` record, the
 * seeded `users` slice and the two exact-match lookups `getUser` and
 * `getUserByID`.
 */
module Directory {
  import opened Wrappers
  import opened Passwords

  /** A user; `password` holds the bcrypt hash, never the plaintext. */
  datatype User = User(id: string, email: string, password: string)

  const UserNotFound: string := "User not found"

  /** No two users share an ID. */
  ghost predicate UniqueIds(users: seq<User>) {
    forall i, j | 0 <= i < j < |users| :: users[i].id != users[j].id
  }

  /** The IDs, emails and plaintext passwords of the two seeded users. */
  const FirstId: string := "fceb-adse-dffa-ewop"
  const FirstEmail: string := "fake-email@email.you"
  const FirstPassword: string := "fake-pwd"
  const SecondId: string := "3adf-32ff-vx0d-pol2"
  const SecondEmail: string := "one-more-fake-email@email.you"
  const SecondPassword: string := "one-more-fake-pwd"

  /**
   * The package-level `users` slice: two users whose stored passwords are
   * `encryptPassword` of fixed plaintexts.
   */
  function SeedUsers(h: Hasher): (users: seq<User>)
    ensures |users| == 2 && UniqueIds(users)
    ensures forall i | 0 <= i < |users| :: users[i].id != ""
  {
    [ User(FirstId, FirstEmail, EncryptPassword(h, FirstPassword)),
      User(SecondId, SecondEmail, EncryptPassword(h, SecondPassword)) ]
  }

  /**
   * `getUser`: the first user whose email is exactly `email`, or the error
   * "User not found" when there is none.
   */
  function GetUser(users: seq<User>, email: string): (r: Result<User, string>)
    ensures r.Ok? ==> exists i | 0 <= i < |users| ::
      && users[i] == r.value && users[i].email == email
      && forall j | 0 <= j < i :: users[j].email != email
    ensures r.Err? <==> forall i | 0 <= i < |users| :: users[i].email != email
    ensures r.Err? ==> r.error == UserNotFound
  {
    if users == [] then Err(UserNotFound)
    else if users[0].email == email then Ok(users[0])
    else
      var r := GetUser(users[1..], email);
      assert forall i | 1 <= i < |users| :: users[i] == users[1..][i - 1];
      r
  }

  /**
   * `getUserByID`: the first user whose ID is exactly `id`, or the error
   * "User not found" when there is none.
   */
  function GetUserByID(users: seq<User>, id: string): (r: Result<User, string>)
    ensures r.Ok? ==> exists i | 0 <= i < |users| ::
      && users[i] == r.value && users[i].id == id
      && forall j | 0 <= j < i :: users[j].id != id
    ensures r.Err? <==> forall i | 0 <= i < |users| :: users[i].id != id
    ensures r.Err? ==> r.error == UserNotFound
  {
    if users == [] then Err(UserNotFound)
    else if users[0].id == id then Ok(users[0])
    else
      var r := GetUserByID(users[1..], id);
      assert forall i | 1 <= i < |users| :: users[i] == users[1..][i - 1];
      r
  }

  /** The for-range loop of `getUser`, with its early return, computes `GetUser`. */
  method FindUser(users: seq<User>, email: string) returns (r: Result<User, string>)
    ensures r == GetUser(users, email)
  {
    for i := 0 to |users|
      invariant GetUser(users[i..], email) == GetUser(users, email)
    {
      assert users[i..][1..] == users[i + 1..];
      if users[i].email == email {
        return Ok(users[i]);
      }
    }
    return Err(UserNotFound);
  }

  /** The for-range loop of `getUserByID`, with its early return, computes `GetUserByID`. */
  method FindUserByID(users: seq<User>, id: string) returns (r: Result<User, string>)
    ensures r == GetUserByID(users, id)
  {
    for i := 0 to |users|
      invariant GetUserByID(users[i..], id) == GetUserByID(users, id)
    {
      assert users[i..][1..] == users[i + 1..];
      if users[i].id == id {
        return Ok(users[i]);
      }
    }
    return Err(UserNotFound);
  }

  /** With unique IDs, looking a member up by its own ID finds exactly that member. */
  lemma {:induction false} GetUserByIDOfMember(users: seq<User>, k: nat)
    requires UniqueIds(users)
    requires k < |users|
    ensures GetUserByID(users, users[k].id) == Ok(users[k])
  {
    if k > 0 {
      assert users[0].id != users[k].id;
      assert UniqueIds(users[1..]) by {
        forall i, j | 0 <= i < j < |users| - 1
          ensures users[1..][i].id != users[1..][j].id
        {
          assert users[1..][i] == users[i + 1] && users[1..][j] == users[j + 1];
        }
      }
      GetUserByIDOfMember(users[1..], k - 1);
    }
  }
}
