/** `/api/auth/signup`: account creation with e-mail and password. The
    checks run in a fixed order and the first failure decides the reply. */
module Signup {
  import opened Wrappers
  import opened Strings
  import opened Api
  import opened Mongo
  import opened Users

  const MissingFields := "Missing required fields."
  const InvalidEmail := "Invalid email format."
  const ShortPassword := "Password must be at least 6 characters long."
  const EmailTaken := "User with this email already exists."
  const Created := "Account created successfully. Please log in."
  const SignupUnavailable := "Database connection error. Please try again later."
  const MinPasswordLength: nat := 6

  /** No character of `s` is matched by `\s`. */
  predicate NoWhitespace(s: string) {
    forall k :: 0 <= k < |s| ==> !IsWhitespace(s[k])
  }

  /** What `/^\S+@\S+\.\S+$/` accepts: text without whitespace that reads as
      `a@b.c` with `a`, `b` and `c` non-empty (each may itself contain `@`
      or `.`). */
  predicate MatchesEmailPattern(s: string) {
    NoWhitespace(s) && exists i, j :: 0 < i && i + 1 < j && j + 1 < |s| && s[i] == '@' && s[j] == '.'
  }

  /** The check as it can be run: the first `@` after the first character,
      then a `.` with at least one character on each side of it. */
  function IsEmail(s: string): (b: bool)
    ensures b <==> MatchesEmailPattern(s)
  {
    EmailIffPattern(s);
    NoWhitespace(s) && |s| > 0 && '@' in s[1..] && EmailTail(s, 1 + IndexOf(s[1..], '@'))
  }

  /** A `.` strictly between position `i + 1` and the last character. */
  function EmailTail(s: string, i: nat): bool
    requires i < |s|
  {
    i + 3 <= |s| && '.' in s[i + 2..|s| - 1]
  }

  lemma EmailIffPattern(s: string)
    ensures NoWhitespace(s) && |s| > 0 && '@' in s[1..] && EmailTail(s, 1 + IndexOf(s[1..], '@'))
      <==> MatchesEmailPattern(s)
  {
    if NoWhitespace(s) && |s| > 0 && '@' in s[1..] && EmailTail(s, 1 + IndexOf(s[1..], '@')) {
      var i := 1 + IndexOf(s[1..], '@');
      var j := i + 2 + IndexOf(s[i + 2..|s| - 1], '.');
      assert s[j] == s[i + 2..|s| - 1][j - i - 2];
      assert s[i] == s[1..][i - 1];
    }
    if MatchesEmailPattern(s) {
      var i0, j0 :| 0 < i0 && i0 + 1 < j0 && j0 + 1 < |s| && s[i0] == '@' && s[j0] == '.';
      assert s[1..][i0 - 1] == '@';
      var i := 1 + IndexOf(s[1..], '@');
      assert i <= i0;
      assert s[i + 2..|s| - 1][j0 - i - 2] == '.';
    }
  }

  /** The validation before the database is reached: `None` when the
      request passes, otherwise the reply of the first check that fails.
      The password's length is JavaScript's, in UTF-16 code units. */
  function Check(name: Option<string>, email: Option<string>, password: Option<string>): (r: Option<Reply<()>>)
    ensures r == Some(Fail(400, MissingFields)) <==> !Present(name) || !Present(email) || !Present(password)
    ensures r == Some(Fail(400, InvalidEmail)) <==>
      Present(name) && Present(email) && Present(password) && !MatchesEmailPattern(email.value)
    ensures r == Some(Fail(400, ShortPassword)) <==>
      Present(name) && Present(email) && Present(password) && MatchesEmailPattern(email.value)
      && Utf16Length(password.value) < MinPasswordLength
    ensures r.None? <==>
      Present(name) && Present(email) && Present(password) && MatchesEmailPattern(email.value)
      && Utf16Length(password.value) >= MinPasswordLength
  {
    if !Present(name) || !Present(email) || !Present(password) then Some(Fail(400, MissingFields))
    else if !IsEmail(email.value) then Some(Fail(400, InvalidEmail))
    else if Utf16Length(password.value) < MinPasswordLength then Some(Fail(400, ShortPassword))
    else None
  }

  /** The account a valid request creates: the name, the e-mail, the hash
      of the password (never the password itself) and the creation time. */
  function NewAccount(name: string, email: string, password: string, hash: string -> string,
                      freshId: ObjectId, now: int): (u: User)
    ensures u.id == freshId && u.email == Some(email) && u.password == Some(hash(password))
    ensures u.clerkId.None? && u.promptHistory.None?
  {
    User(freshId, None, Some(name), Some(email), Some(hash(password)), now, None)
  }

  /** POST: validates, refuses an e-mail already registered with a 409, and
      otherwise inserts exactly one account. `hash` stands for bcrypt with
      10 salt rounds. The account has no Clerk id, so when another account
      without one exists the unique index on `clerkId` makes `insertOne`
      throw a duplicate-key error, which the catch block turns into a 500. */
  method Post(users: UserCollection, name: Option<string>, email: Option<string>, password: Option<string>,
              hash: string -> string, freshId: ObjectId, now: int, fault: Option<DbError>) returns (r: Reply<()>)
    modifies users
    ensures Check(name, email, password).Some? ==>
      r == Check(name, email, password).value && users.docs == old(users.docs)
    ensures Check(name, email, password).None? && fault.Some? ==>
      r == Caught(fault.value, SignupUnavailable) && users.docs == old(users.docs)
    ensures Check(name, email, password).None? && fault.None? ==>
      if FindByEmail(old(users.docs), email.value).Some? then
        r == Fail(409, EmailTaken) && users.docs == old(users.docs)
      else if ClerkIdTaken(old(users.docs), None) then
        r == Caught(OtherError, SignupUnavailable) && users.docs == old(users.docs)
      else
        && r == Ok((), Created)
        && users.docs == old(users.docs) + [NewAccount(name.value, email.value, password.value, hash, freshId, now)]
    ensures ClerkIdsUnique(old(users.docs)) ==> ClerkIdsUnique(users.docs)
  {
    var refusal := Check(name, email, password);
    if refusal.Some? {
      return refusal.value;
    }
    if fault.Some? {
      return Caught(fault.value, SignupUnavailable);
    }
    var existingUser := FindByEmail(users.docs, email.value);
    if existingUser.Some? {
      return Fail(409, EmailTaken);
    }
    var inserted := users.InsertOne(NewAccount(name.value, email.value, password.value, hash, freshId, now));
    if !inserted {
      return Caught(OtherError, SignupUnavailable);
    }
    r := Ok((), Created);
  }

  /** Once an e-mail is registered, signing up with it again is refused. */
  lemma SecondSignupRefused(docs: seq<User>, name: string, email: string, password: string,
                            hash: string -> string, freshId: ObjectId, now: int)
    ensures FindByEmail(docs + [NewAccount(name, email, password, hash, freshId, now)], email).Some?
  {
    var d := docs + [NewAccount(name, email, password, hash, freshId, now)];
    assert d[|docs|].email == Some(email);
  }

  /** Six UTF-16 code units is the shortest accepted password. */
  lemma PasswordBoundary(name: string, email: string, password: string, shorter: string)
    requires name != "" && MatchesEmailPattern(email)
    requires Utf16Length(password) == MinPasswordLength && Utf16Length(shorter) == MinPasswordLength - 1
    ensures Check(Some(name), Some(email), Some(password)).None?
    ensures Check(Some(name), Some(email), Some(shorter)) == Some(Fail(400, ShortPassword))
  {
  }

  /** Three emoji are six UTF-16 code units, so they make a long enough
      password although they are three characters. */
  lemma ThreeEmojiPassword()
    ensures Check(Some("Ada"), Some("ada@example.com"), Some("\U{1F600}\U{1F600}\U{1F600}")).None?
  {
    var email := "ada@example.com";
    assert email[3] == '@' && email[11] == '.';
    assert MatchesEmailPattern(email);
    var p := "\U{1F600}\U{1F600}\U{1F600}";
    assert p[1..][1..][1..] == [];
    assert Utf16Length(p) == 6;
  }

  /** The unique index on `clerkId` counts a missing Clerk id as a key, so
      once one sign-up account exists, the next one cannot be inserted. */
  lemma SecondAccountWithoutClerkId(docs: seq<User>, name: string, email: string, password: string,
                                    hash: string -> string, freshId: ObjectId, now: int)
    ensures ClerkIdTaken(docs + [NewAccount(name, email, password, hash, freshId, now)], None)
  {
    var d := docs + [NewAccount(name, email, password, hash, freshId, now)];
    assert d[|docs|].clerkId == None;
  }
}
