/** src/hooks/useAuth.ts: the password obfuscation and the local account
    store (the `users` map and the `userSession` slot). */
module Auth {
  import opened Wrappers
  import opened Model
  import opened Strings
  import opened Base64
  import opened Store

  /** `text.split('').reverse().join('')`. */
  function Reverse(s: string): (r: string)
    ensures |r| == |s|
    ensures forall i :: 0 <= i < |s| ==> r[i] == s[|s| - 1 - i]
  {
    seq(|s|, i requires 0 <= i < |s| => s[|s| - 1 - i])
  }

  lemma ReverseReverse(s: string)
    ensures Reverse(Reverse(s)) == s
  {
  }

  lemma ReverseBinary(s: string)
    ensures IsBinaryString(Reverse(s)) <==> IsBinaryString(s)
  {
    if IsBinaryString(Reverse(s)) {
      forall i | 0 <= i < |s| ensures s[i] as int < 256 {
        assert Reverse(s)[|s| - 1 - i] == s[i];
      }
    }
  }

  /** `encrypt(text)`: Base64 of the reversed text; `None` where `btoa` throws. */
  function Encrypt(text: string): (r: Option<string>)
    ensures r.Some? <==> IsBinaryString(text)
  {
    ReverseBinary(text);
    Btoa(Reverse(text))
  }

  /** `decrypt(text)`: decode, then reverse; `None` where `atob` throws. */
  function Decrypt(text: string): (r: Option<string>)
    ensures r.Some? ==> IsBinaryString(r.value)
  {
    match Atob(text)
    case None => None
    case Some(s) => ReverseBinary(Reverse(s)); ReverseReverse(s); Some(Reverse(s))
  }

  /** `decrypt(encrypt(s)) == s` for every string `encrypt` accepts. */
  lemma DecryptEncrypt(s: string)
    requires IsBinaryString(s)
    ensures Encrypt(s).Some? && Decrypt(Encrypt(s).value) == Some(s)
  {
    ReverseBinary(s);
    AtobBtoa(Reverse(s));
    ReverseReverse(s);
  }

  /** Two passwords obfuscate alike only when they are the same password. */
  lemma EncryptInjective(a: string, b: string)
    requires Encrypt(a).Some? && Encrypt(a) == Encrypt(b)
    ensures a == b
  {
    DecryptEncrypt(a);
    DecryptEncrypt(b);
  }

  const InvalidCredentials: string := "Invalid email or password"
  const SignInError: string := "An error occurred during sign in"
  const UserExists: string := "User already exists"
  const SignUpError: string := "An error occurred during sign up"

  /** The profile written at sign-in and sign-up: always an admin of the same company. */
  function ProfileOf(email: string, fullName: string): (p: Profile)
    ensures p.email == email && p.fullName == fullName
    ensures p.role == "admin" && p.companyName == "Magnates Empire"
  {
    Profile(fullName, email, "admin", "Magnates Empire")
  }

  /** The session of a stored account: its id, or the e-mail when it has none. */
  function SessionOf(email: string, rec: UserRecord): (s: Session)
    ensures s.email == email && s.fullName == rec.fullName
    ensures s.id == (if rec.id.Some? && rec.id.value != "" then rec.id.value else email)
  {
    Session(email, rec.fullName, if rec.id.Some? && rec.id.value != "" then rec.id.value else email)
  }

  /** What `signIn` answers for a users map: the e-mail is looked up first, and
      the password is obfuscated only for a known e-mail. */
  function SignInOutcome(users: map<string, UserRecord>, email: string, password: string): (r: Result<Session>)
    ensures r.Ok? <==> email in users && Encrypt(password) == Some(users[email].password)
    ensures r.Ok? ==> r.value == SessionOf(email, users[email])
    ensures email !in users ==> r == Err(InvalidCredentials)
    ensures email in users && !IsBinaryString(password) ==> r == Err(SignInError)
    ensures r.Err? ==> r.message == InvalidCredentials || r.message == SignInError
  {
    if email !in users then Err(InvalidCredentials)
    else match Encrypt(password)
      case None => Err(SignInError)
      case Some(p) => if users[email].password == p then Ok(SessionOf(email, users[email])) else Err(InvalidCredentials)
  }

  /** The id `signUp` gives a new account: "user_" and the clock reading. */
  function UserId(now: nat): (id: string)
    ensures |id| > 5 && id[..5] == "user_" && AllDigits(id[5..]) && DigitsValue(id[5..]) == now
  {
    var id := "user_" + NatToString(now);
    assert id[5..] == NatToString(now);
    id
  }

  /** The account `signUp` stores for a password `encrypt` accepts. */
  function NewUser(password: string, fullName: string, now: nat): (rec: UserRecord)
    requires IsBinaryString(password)
    ensures Some(rec.password) == Encrypt(password)
    ensures rec.fullName == fullName && rec.id == Some(UserId(now)) && rec.createdAt == now
  {
    UserRecord(Encrypt(password).value, fullName, Some(UserId(now)), now)
  }

  /** After signing up, the same e-mail and password sign in, with the id
      the sign-up gave. */
  lemma SignUpThenSignIn(users: map<string, UserRecord>, email: string, password: string, fullName: string, now: nat)
    requires IsBinaryString(password)
    ensures SignInOutcome(users[email := NewUser(password, fullName, now)], email, password)
            == Ok(Session(email, fullName, UserId(now)))
  {
  }

  /** After signing up, any other password is refused. */
  lemma SignUpRefusesOtherPasswords(users: map<string, UserRecord>, email: string, password: string,
                                    fullName: string, now: nat, other: string)
    requires IsBinaryString(password) && other != password
    ensures SignInOutcome(users[email := NewUser(password, fullName, now)], email, other).Err?
  {
    var users' := users[email := NewUser(password, fullName, now)];
    if SignInOutcome(users', email, other).Ok? {
      EncryptInjective(password, other);
    }
  }

  /** The hook's state: the signed-in user and the loading flag. */
  class AuthHook {
    var user: Option<Session>
    var loading: bool

    /** The state before the session is restored. */
    constructor ()
      ensures user == None && loading
    {
      user := None;
      loading := true;
    }

    /** The mount effect: adopt the stored session if there is one, then stop loading. */
    method RestoreSession(st: LocalStore)
      modifies this
      ensures user == if st.session.Some? then st.session else old(user)
      ensures !loading
    {
      if st.session.Some? {
        user := st.session;
      }
      loading := false;
    }

    /** `signIn(email, password)`: on success the session and profile are
        written and become the hook's user; a refused sign-in writes nothing. */
    method SignIn(st: LocalStore, email: string, password: string) returns (r: Result<Session>)
      modifies this, st`session, st`profile
      ensures r == SignInOutcome(old(st.users), email, password)
      ensures !loading
      ensures r.Ok? ==> st.session == Some(r.value) && user == Some(r.value) &&
                        st.profile == Some(ProfileOf(email, old(st.users)[email].fullName))
      ensures r.Err? ==> st.session == old(st.session) && st.profile == old(st.profile) && user == old(user)
    {
      loading := true;
      if email in st.users {
        var encrypted := Encrypt(password);
        if encrypted.None? {
          r := Err(SignInError);
        } else if st.users[email].password == encrypted.value {
          var session := SessionOf(email, st.users[email]);
          st.session := Some(session);
          st.profile := Some(ProfileOf(email, st.users[email].fullName));
          user := Some(session);
          r := Ok(session);
        } else {
          r := Err(InvalidCredentials);
        }
      } else {
        r := Err(InvalidCredentials);
      }
      loading := false;
    }

    /** `signUp(email, password, fullName)` at clock reading `now`: a new
        e-mail gets exactly one new account, the session and profile are
        written, and the `clients` and `invoices` keys are reset. */
    method SignUp(st: LocalStore, email: string, password: string, fullName: string, now: nat) returns (r: Result<Session>)
      modifies this, st`users, st`session, st`profile, st`clients, st`invoices
      ensures !loading
      ensures email in old(st.users) ==> r == Err(UserExists)
      ensures email !in old(st.users) && !IsBinaryString(password) ==> r == Err(SignUpError)
      ensures r.Err? ==> st.users == old(st.users) && st.session == old(st.session) &&
                         st.profile == old(st.profile) && st.clients == old(st.clients) &&
                         st.invoices == old(st.invoices) && user == old(user)
      ensures r.Ok? <==> email !in old(st.users) && IsBinaryString(password)
      ensures r.Ok? ==> r.value == Session(email, fullName, UserId(now)) &&
                        st.users == old(st.users)[email := NewUser(password, fullName, now)] &&
                        st.session == Some(r.value) && user == Some(r.value) &&
                        st.profile == Some(ProfileOf(email, fullName)) &&
                        st.clients == [] && st.invoices == []
    {
      loading := true;
      if email in st.users {
        r := Err(UserExists);
      } else {
        var encrypted := Encrypt(password);
        if encrypted.None? {
          r := Err(SignUpError);
        } else {
          var id := UserId(now);
          st.users := st.users[email := UserRecord(encrypted.value, fullName, Some(id), now)];
          var session := Session(email, fullName, id);
          st.session := Some(session);
          st.profile := Some(ProfileOf(email, fullName));
          st.clients := [];
          st.invoices := [];
          user := Some(session);
          r := Ok(session);
        }
      }
      loading := false;
    }

    /** `signOut()`: the four per-user keys are removed and nobody is signed in;
        accounts and stored data stay. */
    method SignOut(st: LocalStore)
      modifies this`user, st`session, st`profile, st`companySettings, st`sidebarCollapsed
      ensures st.session == None && st.profile == None
      ensures st.companySettings == None && st.sidebarCollapsed == None
      ensures user == None
    {
      st.session := None;
      st.profile := None;
      st.companySettings := None;
      st.sidebarCollapsed := None;
      user := None;
    }
  }
}
