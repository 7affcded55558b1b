/**
 * The credential table behind the login screen. Browser storage is
 * abstracted to two fields: `users`, the record list kept under
 * 'matrix-math-users', and `storedUser`, the session entry kept under
 * 'matrix-math-user'; `user` is the signed-in name the page reads.
 */
module Auth {
  import opened Wrappers

  datatype UserData = UserData(username: string, password: string)

  /** The index of the first record with this username (`users.find`), if any. */
  function FindUser(users: seq<UserData>, name: string): (r: Option<nat>)
    ensures r.Some? ==> r.value < |users| && users[r.value].username == name
    ensures r.Some? ==> forall j :: 0 <= j < r.value ==> users[j].username != name
    ensures r.None? ==> forall j :: 0 <= j < |users| ==> users[j].username != name
    decreases |users|
  {
    if users == [] then None
    else if users[0].username == name then Some(0)
    else match FindUser(users[1..], name)
      case None => None
      case Some(i) => Some(i + 1)
  }

  /** No two records share a username. */
  predicate UniqueNames(users: seq<UserData>)
  {
    forall i, j :: 0 <= i < j < |users| ==> users[i].username != users[j].username
  }

  /** Adding a record for a name not yet present keeps names unique. */
  lemma AppendNewNameKeepsUnique(users: seq<UserData>, u: UserData)
    requires UniqueNames(users) && FindUser(users, u.username).None?
    ensures UniqueNames(users + [u])
  {
  }

  class CredentialStore {
    var users: seq<UserData>
    var storedUser: Option<string>
    var user: Option<string>

    /** The provider's state before its mount effect runs: storage as found, no user. */
    constructor (stored: seq<UserData>, session: Option<string>)
      ensures users == stored && storedUser == session && user == None
    {
      users := stored;
      storedUser := session;
      user := None;
    }

    /** The mount effect: any session left in storage is cleared. */
    method Mount()
      modifies this
      ensures users == old(users) && storedUser == None && user == None
    {
      storedUser := None;
      user := None;
    }

    /**
     * Find-or-create: an unknown name gets a new record and is signed in;
     * a known name is signed in when the password matches its first
     * record; otherwise nothing changes and the answer is false.
     * Existing records are never rewritten.
     */
    method Login(username: string, password: string) returns (ok: bool)
      modifies this
      ensures var found := FindUser(old(users), username);
        match found
        case None =>
          ok && users == old(users) + [UserData(username, password)]
          && user == Some(username) && storedUser == Some(username)
        case Some(i) =>
          && ok == (old(users)[i].password == password)
          && users == old(users)
          && (if ok then user == Some(username) && storedUser == Some(username)
              else user == old(user) && storedUser == old(storedUser))
      ensures !ok ==> unchanged(this)
      ensures UniqueNames(old(users)) ==> UniqueNames(users)
    {
      var found := FindUser(users, username);
      match found {
        case None =>
          if UniqueNames(users) {
            AppendNewNameKeepsUnique(users, UserData(username, password));
          }
          users := users + [UserData(username, password)];
          user := Some(username);
          storedUser := Some(username);
          ok := true;
        case Some(i) =>
          if users[i].password == password {
            user := Some(username);
            storedUser := Some(username);
            ok := true;
          } else {
            ok := false;
          }
      }
    }

    method Logout()
      modifies this
      ensures users == old(users) && user == None && storedUser == None
    {
      user := None;
      storedUser := None;
    }
  }
}
