/** The identity store (src/context/AuthContext.jsx): the registered users and
    the current session. The users list stands for the stored "users" array,
    which every call re-reads and `signup` rewrites; the session stands for the
    `currentUser` state and its stored copy. */
module AuthContext {
  import opened Js
  import opened Sequences
  import opened Records

  datatype AuthError = EmailAlreadyExists | InvalidCredentials

  /** `users.some(user => user.email === email)` */
  predicate EmailTaken(users: seq<User>, email: string)
  {
    exists i :: 0 <= i < |users| && users[i].email == email
  }

  /** No two users share an email. */
  predicate EmailsUnique(users: seq<User>)
  {
    forall i, j :: 0 <= i < j < |users| ==> users[i].email != users[j].email
  }

  /** `users.find(user => user.email === email && user.password === password)` */
  function FindByCredentials(users: seq<User>, email: string, password: string): (r: Option<User>)
    ensures r.Some? <==> exists i :: 0 <= i < |users| && users[i].email == email && users[i].password == password
    ensures r.Some? ==> exists i :: 0 <= i < |users| && users[i] == r.value &&
                          r.value.email == email && r.value.password == password &&
                          forall j :: 0 <= j < i ==> !(users[j].email == email && users[j].password == password)
  {
    var found := Find(users, (u: User) => u.email == email && u.password == password);
    assert found.Some? ==> users[FirstIndex(users, (u: User) => u.email == email && u.password == password).value] == found.value;
    found
  }

  /** Appending a user whose email is new keeps the emails unique. */
  lemma SignupKeepsEmailsUnique(users: seq<User>, u: User)
    requires EmailsUnique(users) && !EmailTaken(users, u.email)
    ensures EmailsUnique(users + [u])
  {
    forall i, j | 0 <= i < j < |users + [u]|
      ensures (users + [u])[i].email != (users + [u])[j].email
    {
      if j == |users| {
        assert users[i].email != u.email;
      }
    }
  }

  /** Right after a successful signup (emails unique, the new email not yet
      taken), logging in with the same email and password finds the new user. */
  lemma {:induction false} LoginFindsNewUser(users: seq<User>, u: User)
    requires !EmailTaken(users, u.email)
    ensures FindByCredentials(users + [u], u.email, u.password) == Some(u)
  {
    var r := FindByCredentials(users + [u], u.email, u.password);
    assert (users + [u])[|users|] == u;
    var i :| 0 <= i < |users + [u]| && (users + [u])[i] == r.value && r.value.email == u.email &&
             forall j :: 0 <= j < i ==> !((users + [u])[j].email == u.email && (users + [u])[j].password == u.password);
    if i < |users| {
      assert false;
    }
  }

  class AuthProvider {
    var users: seq<User>
    var currentUser: Option<User>

    /** Start-up: the stored users, and the stored session if there is one. */
    constructor (storedUsers: seq<User>, storedSession: Option<User>)
      ensures users == storedUsers
      ensures currentUser == storedSession
    {
      users := storedUsers;
      currentUser := storedSession;
    }

    /** `signup`: refuses an email already registered; otherwise appends the new
        user (with the id the clock supplies), makes it the session and returns it. */
    method Signup(email: string, password: string, name: string, newId: string)
      returns (r: Result<User, AuthError>)
      modifies this
      ensures EmailTaken(old(users), email) ==>
        r == Err(EmailAlreadyExists) && users == old(users) && currentUser == old(currentUser)
      ensures !EmailTaken(old(users), email) ==>
        r == Ok(User(newId, email, name, password)) &&
        users == old(users) + [r.value] && currentUser == Some(r.value)
      ensures EmailsUnique(old(users)) ==> EmailsUnique(users)
    {
      var newUser := User(newId, email, name, password);
      if EmailTaken(users, email) {
        return Err(EmailAlreadyExists);
      }
      if EmailsUnique(users) {
        SignupKeepsEmailsUnique(users, newUser);
      }
      users := users + [newUser];
      currentUser := Some(newUser);
      r := Ok(newUser);
    }

    /** `login`: the first user with that email and password becomes the session;
        without one it fails and the session is left alone. */
    method Login(email: string, password: string) returns (r: Result<User, AuthError>)
      modifies this
      ensures users == old(users)
      ensures FindByCredentials(users, email, password).None? ==>
        r == Err(InvalidCredentials) && currentUser == old(currentUser)
      ensures FindByCredentials(users, email, password).Some? ==>
        r == Ok(FindByCredentials(users, email, password).value) &&
        currentUser == FindByCredentials(users, email, password)
    {
      var user := FindByCredentials(users, email, password);
      if user.None? {
        return Err(InvalidCredentials);
      }
      currentUser := user;
      r := Ok(user.value);
    }

    /** `logout`: the session ends, whatever it was. */
    method Logout()
      modifies this
      ensures currentUser == None
      ensures users == old(users)
    {
      currentUser := None;
    }
  }
}
