/** The sign-in / sign-up form: validation of the two fields, dispatch to the
    identity store, the toast that reports the outcome, and the mode toggle. */
module LoginForm {
  import opened Types
  import opened Text
  import opened Remote
  import opened AuthStore

  const FillInAllFields := "Please fill in all fields"
  const PasscodeTooShort := "Passcode must be at least 6 characters"
  const WelcomeBack := "Welcome back!"
  const AccountCreated := "Account created successfully!"
  const InvalidCredentials := "Invalid credentials"
  const UsernameTaken := "Username already exists"

  /** The shortest passcode the form lets through, in UTF-16 code units. */
  const MinPasscodeLength := 6

  /** `s.length`: the number of UTF-16 code units of `s`; a code point above
      U+FFFF takes two. */
  function Utf16Length(s: string): (n: nat)
    ensures |s| <= n <= 2 * |s|
  {
    if s == [] then 0 else (if s[0] as int > 0xFFFF then 2 else 1) + Utf16Length(s[1..])
  }

  /** `length` adds up over concatenation, one unit for each code point up
      to U+FFFF and two for each above it. */
  lemma {:induction false} Utf16LengthAdds(a: string, b: string, c: char)
    ensures Utf16Length(a + b) == Utf16Length(a) + Utf16Length(b)
    ensures Utf16Length([c]) == if c as int > 0xFFFF then 2 else 1
  {
    assert [c][1..] == [];
    if a != [] {
      assert (a + b)[1..] == a[1..] + b;
      Utf16LengthAdds(a[1..], b, c);
    } else {
      assert a + b == b;
    }
  }

  /** What a submit leads to: a rejection with its message, or a call to the
      store with the arguments passed. */
  datatype Submission =
    | Rejected(message: string)
    | SignIn(username: string, passcode: string)
    | SignUp(username: string, passcode: string)

  /** The guards of `handleSubmit`, in order: both fields non-blank, then the
      passcode long enough (measured untrimmed), then the mode picks the call;
      the username is sent trimmed and the passcode as typed. */
  function Validate(isLogin: bool, username: string, passcode: string): (r: Submission)
    ensures r.Rejected? <==> IsBlank(username) || IsBlank(passcode) || Utf16Length(passcode) < MinPasscodeLength
    ensures r.Rejected? ==> r.message == (if IsBlank(username) || IsBlank(passcode) then FillInAllFields else PasscodeTooShort)
    ensures r.SignIn? <==> !r.Rejected? && isLogin
    ensures !r.Rejected? ==> r.username == Trim(username) && r.passcode == passcode
  {
    if IsBlank(username) || IsBlank(passcode) then Rejected(FillInAllFields)
    else if Utf16Length(passcode) < MinPasscodeLength then Rejected(PasscodeTooShort)
    else if isLogin then SignIn(Trim(username), passcode)
    else SignUp(Trim(username), passcode)
  }

  /** What reaches the store is clean: the username is non-empty and already
      trimmed, and the passcode is non-blank and at least six units long. */
  lemma DispatchedArgumentsAreClean(isLogin: bool, username: string, passcode: string)
    requires !Validate(isLogin, username, passcode).Rejected?
    ensures var r := Validate(isLogin, username, passcode);
      && r.username != [] && Trim(r.username) == r.username
      && !IsBlank(r.passcode) && Utf16Length(r.passcode) >= MinPasscodeLength
  {
  }

  /** Whitespace-only input is reported as missing, never as too short. */
  lemma BlankBeforeLength(isLogin: bool, username: string, passcode: string)
    requires forall i :: 0 <= i < |passcode| ==> IsWhitespace(passcode[i])
    ensures Validate(isLogin, username, passcode) == Rejected(FillInAllFields)
  {
  }

  /** Proof step of `LengthIsUntrimmed`: trimming the padded sample passcode
      leaves its one visible character. Kept apart so that evaluating `Trim`
      on the literal does not share a context with `Validate`. */
  lemma PaddedTrim()
    ensures Trim("  x   ") == "x"
  {
  }

  /** Proof step of `LengthIsUntrimmed`: the sample username has nothing to trim. */
  lemma NameTrimsToItself()
    ensures Trim("ann") == "ann"
  {
  }

  /** Surrounding whitespace counts towards the length: a passcode whose
      trimmed form has one character still passes when padded to six. */
  lemma LengthIsUntrimmed()
    ensures Validate(true, "ann", "  x   ") == SignIn("ann", "  x   ")
    ensures |Trim("  x   ")| == 1
  {
    PaddedTrim();
    NameTrimsToItself();
    var p := "  x   ";
    assert p[1..][1..][1..][1..][1..][1..] == [];
    assert Utf16Length(p) == 6;
  }

  /** A code point outside the basic plane counts twice, as in `length`: three
      of them make six units, enough for the length check. */
  lemma AstralCountsTwice(c: char)
    requires c as int > 0xFFFF
    ensures Utf16Length([c, c, c]) == 6
    ensures Validate(false, "ann", [c, c, c]).SignUp?
  {
    var p := [c, c, c];
    assert p == [c] + ([c] + [c]);
    Utf16LengthAdds([c], [c], c);
    Utf16LengthAdds([c], [c] + [c], c);
    assert !IsWhitespace(p[0]);
    BlankIffAllWhitespace(p);
    NameTrimsToItself();
  }

  /** A toast: green for success, red for failure. */
  datatype Toast = Success(text: string) | Error(text: string)

  /** The toast after the store answered. */
  function Outcome(isLogin: bool, success: bool): (t: Toast)
    ensures t.Success? <==> success
    ensures t.text == (if isLogin then (if success then WelcomeBack else InvalidCredentials)
                       else (if success then AccountCreated else UsernameTaken))
  {
    if success then Success(if isLogin then WelcomeBack else AccountCreated)
    else Error(if isLogin then InvalidCredentials else UsernameTaken)
  }

  /** The form's state: its mode and the two fields as typed. */
  class Form {
    const auth: AuthStore
    var isLogin: bool
    var username: string
    var passcode: string

    constructor (auth: AuthStore)
      ensures this.auth == auth
      ensures isLogin && username == [] && passcode == []
    {
      this.auth := auth;
      isLogin := true;
      username := [];
      passcode := [];
    }

    /** The mode link: switches between signing in and signing up. */
    method Toggle()
      modifies this`isLogin
      ensures isLogin == !old(isLogin)
    {
      isLogin := !isLogin;
    }

    /** `handleSubmit`: rejected input shows its message and leaves the store
        untouched, loading flag included; a dispatched submit ends with the
        store not loading; otherwise the store's answer picks the toast, a success
        toast comes with a signed-in session and an error toast with the
        session as it was. The store gets the trimmed username and the
        passcode as typed, as the stored row and the signed-in user show.
        The fields keep their contents. */
    method HandleSubmit(verify: (string, Digest) -> bool, hash: string -> Digest,
                        lookupFails: bool, presenceFails: bool, checkFails: bool, reply: InsertReply)
      returns (toast: Toast)
      modifies auth`user, auth`isAuthenticated, auth`isLoading, auth.db`tables, auth.db`nextId
      ensures var s := Validate(isLogin, username, passcode);
        && (s.Rejected? ==>
              && toast == Error(s.message)
              && auth.user == old(auth.user) && auth.isAuthenticated == old(auth.isAuthenticated)
              && auth.db.tables == old(auth.db.tables) && auth.db.nextId == old(auth.db.nextId)
              && auth.isLoading == old(auth.isLoading))
        && (!s.Rejected? ==> !auth.isLoading)
        && (s.SignIn? ==>
              && auth.db.nextId == old(auth.db.nextId)
              && (toast.Error? ==> auth.db.tables == old(auth.db.tables))
              && toast == Outcome(true, !lookupFails &&
                   SignInAccepts(old(auth.db.tables.users), s.username, passcode, verify).Some?)
              && (toast.Success? ==>
                    auth.user == Some(SignInAccepts(old(auth.db.tables.users), s.username, passcode, verify)
                                        .value.profile.(isOnline := true))))
        && (s.SignIn? && toast.Success? ==>
              auth.db.tables == old(auth.db.tables).(users :=
                if presenceFails then old(auth.db.tables.users)
                else SetPresence(old(auth.db.tables.users),
                                 SignInAccepts(old(auth.db.tables.users), s.username, passcode, verify).value.profile.id,
                                 true, auth.db.clock)))
        && (s.SignUp? ==>
              var taken := !checkFails && !UsernameFree(old(auth.db.tables.users), s.username);
              var row := NewUserRow(old(auth.db.nextId), s.username, hash(passcode), auth.db.clock);
              && toast == Outcome(false, !taken && reply == InsertedReturned)
              && (taken || reply == InsertRejected ==>
                    auth.db.tables == old(auth.db.tables) && auth.db.nextId == old(auth.db.nextId))
              && (!taken && reply != InsertRejected ==>
                    && auth.db.tables == old(auth.db.tables).(users := old(auth.db.tables.users) + [row])
                    && auth.db.nextId == old(auth.db.nextId) + 1)
              && (toast.Success? ==> auth.user == Some(row.profile)))
        && (toast.Success? ==> auth.isAuthenticated && auth.user.Some?)
        && (toast.Error? ==> auth.user == old(auth.user) && auth.isAuthenticated == old(auth.isAuthenticated))
    {
      var s := Validate(isLogin, username, passcode);
      match s
      case Rejected(message) =>
        toast := Error(message);
      case SignIn(name, code) =>
        var success := auth.Login(name, code, verify, lookupFails, presenceFails);
        toast := Outcome(true, success);
      case SignUp(name, code) =>
        var success := auth.Register(name, code, hash, checkFails, reply);
        toast := Outcome(false, success);
    }
  }
}
