/** The credential store behind the login and sign-up forms: a table of
    users keyed by user name (`users.db`), the password check, the sign-up
    validation and the two session fields that login and logout set. */
module Credentials {

  import opened Wrappers

  /** One row of the users table, minus its key: the hex digest of the
      password and the e-mail address, both stored as given. */
  datatype UserRecord = UserRecord(passwordHash: string, email: string)

  type Table = map<string, UserRecord>

  /** SQL `INSERT` into a table whose key column is a PRIMARY KEY: a new key
      is added, an existing one makes the statement fail and the table stays
      as it was. `inserted` is false exactly on that failure. */
  function Insert(users: Table, username: string, record: UserRecord): (result: (Table, bool))
    ensures var (after, inserted) := result;
      && (inserted <==> username !in users)
      && after.Keys == users.Keys + {username}
      && |after| == |users| + (if inserted then 1 else 0)
      && (forall u :: u in users ==> after[u] == users[u])
      && after[username] == (if inserted then record else users[username])
  {
    if username in users then (users, false)
    else
      var after := users[username := record];
      assert after.Keys == users.Keys + {username};
      (after, true)
  }

  /** The password check against a table, for a given password digest
      function: the user must exist and the stored digest must equal the
      digest of the password offered. */
  predicate Verified(users: Table, hashPassword: string -> string, username: string, password: string)
  {
    username in users && users[username].passwordHash == hashPassword(password)
  }

  /** The users table. `hashPassword` stands for SHA-256 over the UTF-8
      encoding, rendered as a hex digest; it is a parameter of the store and
      nothing is assumed about it (in particular not that it is injective). */
  class UserStore {
    const hashPassword: string -> string
    var users: Table

    constructor (hashPassword: string -> string)
      ensures this.hashPassword == hashPassword && users == map[]
    {
      this.hashPassword := hashPassword;
      users := map[];
    }

    /** Adds a user with the digest of `password`; false, with nothing
        changed, when the user name is already taken. */
    method CreateUser(username: string, password: string, email: string) returns (created: bool)
      modifies this
      ensures created <==> username !in old(users)
      ensures (users, created) == Insert(old(users), username, UserRecord(hashPassword(password), email))
      ensures created ==> Verified(users, hashPassword, username, password)
    {
      var result := Insert(users, username, UserRecord(hashPassword(password), email));
      users, created := result.0, result.1;
    }

    /** Looks the user up and compares the stored digest with the digest
        of the password offered; an unknown user is never verified. */
    method VerifyUser(username: string, password: string) returns (ok: bool)
      ensures username !in users ==> !ok
      ensures username in users ==> (ok <==> users[username].passwordHash == hashPassword(password))
    {
      if username in users {
        var stored := users[username].passwordHash;
        ok := stored == hashPassword(password);
      } else {
        ok := false;
      }
    }
  }

  /** Inserting one user leaves the password check of every other user as
      it was, and makes the new user's own password pass. */
  lemma InsertKeepsOtherLogins(users: Table, hashPassword: string -> string, username: string,
                               password: string, email: string, other: string, otherPassword: string)
    requires username !in users
    requires other != username
    ensures var after := Insert(users, username, UserRecord(hashPassword(password), email)).0;
      && Verified(after, hashPassword, username, password)
      && (Verified(after, hashPassword, other, otherPassword) <==> Verified(users, hashPassword, other, otherPassword))
  {
  }

  /** A password other than the registered one passes exactly when its
      digest collides with the registered password's digest: the store
      relies on the digest, not on the password itself. */
  lemma WrongPasswordNeedsCollision(users: Table, hashPassword: string -> string, username: string,
                                    password: string, email: string, attempt: string)
    requires username !in users
    ensures var after := Insert(users, username, UserRecord(hashPassword(password), email)).0;
      Verified(after, hashPassword, username, attempt) <==> hashPassword(attempt) == hashPassword(password)
  {
  }

  /** A second registration under a taken name fails and leaves the whole
      table, including the first registration's digest and e-mail, as it was. */
  lemma SecondRegistrationFails(users: Table, username: string, first: UserRecord, second: UserRecord)
    requires username !in users
    ensures var (once, ok1) := Insert(users, username, first);
      var (twice, ok2) := Insert(once, username, second);
      ok1 && !ok2 && twice == once && |twice| == |users| + 1 && twice[username] == first
  {
  }

  // ---------------------------------------------------------------------
  // Sign-up form

  /** The minimum password length the sign-up form accepts. */
  const MinPasswordLength := 6

  /** What the sign-up form reports. */
  datatype SignUpOutcome = PasswordsDontMatch | PasswordTooShort | UsernameTaken | AccountCreated

  /** The checks made before any insert: the confirmation is compared
      first, the length second; `None` lets the insert go ahead. */
  function ValidateNewPassword(password: string, confirm: string): (verdict: Option<SignUpOutcome>)
    ensures verdict.None? <==> password == confirm && |password| >= MinPasswordLength
    ensures verdict.Some? ==> verdict.value in {PasswordsDontMatch, PasswordTooShort}
    ensures password != confirm ==> verdict == Some(PasswordsDontMatch)
    ensures password == confirm && |password| < MinPasswordLength ==> verdict == Some(PasswordTooShort)
  {
    if password != confirm then Some(PasswordsDontMatch)
    else if |password| < MinPasswordLength then Some(PasswordTooShort)
    else None
  }

  /** Submitting the sign-up form: validation, then `CreateUser`. A
      rejected password creates no user. */
  method SignUp(store: UserStore, username: string, email: string, password: string, confirm: string)
    returns (outcome: SignUpOutcome)
    modifies store
    ensures ValidateNewPassword(password, confirm).Some? ==>
      outcome == ValidateNewPassword(password, confirm).value && store.users == old(store.users)
    ensures ValidateNewPassword(password, confirm).None? ==>
      && (outcome == AccountCreated <==> username !in old(store.users))
      && (outcome != AccountCreated ==> outcome == UsernameTaken)
      && (store.users, outcome == AccountCreated)
         == Insert(old(store.users), username, UserRecord(store.hashPassword(password), email))
    ensures outcome == AccountCreated <==> store.users != old(store.users)
  {
    var verdict := ValidateNewPassword(password, confirm);
    if verdict.Some? {
      outcome := verdict.value;
    } else {
      var created := store.CreateUser(username, password, email);
      outcome := if created then AccountCreated else UsernameTaken;
    }
  }

  /** A password shorter than the minimum never creates an account, whatever
      the confirmation says. */
  lemma ShortPasswordNeverAccepted(password: string, confirm: string)
    requires |password| < MinPasswordLength
    ensures ValidateNewPassword(password, confirm).Some?
  {
  }

  // ---------------------------------------------------------------------
  // Session

  /** The two session fields the authentication gate reads. */
  class Session {
    var authenticated: bool
    var username: Option<string>

    /** A fresh session is signed out. */
    constructor ()
      ensures !authenticated && username == None
    {
      authenticated := false;
      username := None;
    }

    /** Submitting the login form: a verified password signs the user in;
        a failed one leaves the session as it was. */
    method Login(store: UserStore, name: string, password: string) returns (ok: bool)
      modifies this
      ensures ok <==> Verified(store.users, store.hashPassword, name, password)
      ensures ok ==> authenticated && username == Some(name)
      ensures !ok ==> authenticated == old(authenticated) && username == old(username)
    {
      ok := store.VerifyUser(name, password);
      if ok {
        authenticated := true;
        username := Some(name);
      }
    }

    /** The sidebar's logout button. */
    method Logout()
      modifies this
      ensures !authenticated && username == None
    {
      authenticated := false;
      username := None;
    }
  }
}
