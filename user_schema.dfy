/**
 * The user record of the credential store: the email is stored lowercased
 * and trimmed and is unique, the password (its digest, once hashed) has at
 * least six characters, and the name is required and stored trimmed.
 */
module UserSchema {
  import opened Values

  type UserId = nat

  datatype User = User(id: UserId, email: string, password: string, name: string)

  const PasswordMinLength := 6

  /** The characters String.prototype.trim removes: ECMAScript WhiteSpace and LineTerminator. */
  predicate IsSpace(c: char)
  {
    || c == '\t' || c == '\n' || c == '\U{B}' || c == '\U{C}' || c == '\r' || c == ' '
    || c == '\U{A0}' || c == '\U{1680}' || ('\U{2000}' <= c <= '\U{200A}')
    || c == '\U{2028}' || c == '\U{2029}' || c == '\U{202F}' || c == '\U{205F}'
    || c == '\U{3000}' || c == '\U{FEFF}'
  }

  function TrimStart(s: string): (r: string)
    ensures |r| <= |s|
  {
    if s != [] && IsSpace(s[0]) then TrimStart(s[1..]) else s
  }

  function TrimEnd(s: string): (r: string)
    ensures |r| <= |s|
  {
    if s != [] && IsSpace(s[|s| - 1]) then TrimEnd(s[..|s| - 1]) else s
  }

  /** Trimming the start drops exactly the leading run of white space. */
  lemma {:induction false} TrimStartShape(s: string)
    ensures TrimStart(s) == s[|s| - |TrimStart(s)|..]
    ensures TrimStart(s) == [] || !IsSpace(TrimStart(s)[0])
    ensures forall i :: 0 <= i < |s| - |TrimStart(s)| ==> IsSpace(s[i])
    decreases |s|
  {
    if s != [] && IsSpace(s[0]) {
      TrimStartShape(s[1..]);
      var r := TrimStart(s);
      assert r == TrimStart(s[1..]);
      forall i | 0 <= i < |s| - |r| ensures IsSpace(s[i]) {
        if i > 0 {
          assert s[i] == s[1..][i - 1];
        }
      }
    }
  }

  /** Trimming the end drops exactly the trailing run of white space. */
  lemma {:induction false} TrimEndShape(s: string)
    ensures TrimEnd(s) == s[..|TrimEnd(s)|]
    ensures TrimEnd(s) == [] || !IsSpace(TrimEnd(s)[|TrimEnd(s)| - 1])
    ensures forall i :: |TrimEnd(s)| <= i < |s| ==> IsSpace(s[i])
    decreases |s|
  {
    if s != [] && IsSpace(s[|s| - 1]) {
      var p := s[..|s| - 1];
      TrimEndShape(p);
      var r := TrimEnd(s);
      assert r == TrimEnd(p);
      assert s[..|r|] == p[..|r|];
      forall i | |r| <= i < |s| ensures IsSpace(s[i]) {
        if i < |s| - 1 {
          assert s[i] == p[i];
        }
      }
    }
  }

  /** String.prototype.trim, the schema's `trim: true` setter. */
  function Trim(s: string): (r: string)
    ensures r == [] || (!IsSpace(r[0]) && !IsSpace(r[|r| - 1]))
  {
    var u := TrimStart(s);
    TrimStartShape(s);
    TrimEndShape(u);
    var r := TrimEnd(u);
    assert r != [] ==> r[0] == u[0];
    r
  }

  function LowerChar(c: char): (d: char)
  {
    if 'A' <= c <= 'Z' then (c as int - 'A' as int + 'a' as int) as char else c
  }

  /** The schema's `lowercase: true` setter, on the ASCII letters. */
  function ToLower(s: string): (r: string)
    ensures |r| == |s| && forall i :: 0 <= i < |s| ==> r[i] == LowerChar(s[i])
  {
    seq(|s|, i requires 0 <= i < |s| => LowerChar(s[i]))
  }

  /** The stored form of an email: the `lowercase` and then the `trim` setter. */
  function NormalizeEmail(s: string): string
  {
    Trim(ToLower(s))
  }

  /** Once trimmed, trimming again changes nothing. */
  lemma TrimIdempotent(s: string)
    ensures Trim(Trim(s)) == Trim(s)
  {
    var t := Trim(s);
    assert TrimStart(t) == t;
    assert TrimEnd(t) == t;
  }

  /** Lowercasing maps white space to itself and nothing else to white space. */
  lemma LowerCharSpace(c: char)
    ensures IsSpace(LowerChar(c)) == IsSpace(c)
  {
  }

  lemma {:induction false} TrimStartLower(s: string)
    ensures TrimStart(ToLower(s)) == ToLower(TrimStart(s))
    decreases |s|
  {
    if s != [] {
      var low := ToLower(s);
      LowerCharSpace(s[0]);
      assert low[0] == LowerChar(s[0]);
      if IsSpace(s[0]) {
        assert low[1..] == ToLower(s[1..]);
        calc {
          TrimStart(low);
          TrimStart(low[1..]);
          TrimStart(ToLower(s[1..]));
          { TrimStartLower(s[1..]); }
          ToLower(TrimStart(s[1..]));
        }
      }
    }
  }

  lemma {:induction false} TrimEndLower(s: string)
    ensures TrimEnd(ToLower(s)) == ToLower(TrimEnd(s))
    decreases |s|
  {
    if s != [] {
      var low := ToLower(s);
      var n := |s| - 1;
      LowerCharSpace(s[n]);
      assert low[n] == LowerChar(s[n]);
      if IsSpace(s[n]) {
        assert low[..n] == ToLower(s[..n]);
        calc {
          TrimEnd(low);
          TrimEnd(low[..n]);
          TrimEnd(ToLower(s[..n]));
          { TrimEndLower(s[..n]); }
          ToLower(TrimEnd(s[..n]));
        }
      }
    }
  }

  /** The order of the two setters does not matter: lowercasing never creates or removes white space. */
  lemma NormalizeOrderIrrelevant(s: string)
    ensures NormalizeEmail(s) == ToLower(Trim(s))
  {
    TrimStartLower(s);
    TrimEndLower(TrimStart(s));
  }

  predicate NoUpper(s: string)
  {
    forall i :: 0 <= i < |s| ==> !('A' <= s[i] <= 'Z')
  }

  /** Any slice of a string without upper-case letters has none. */
  lemma NoUpperSlice(s: string, a: nat, b: nat)
    requires NoUpper(s) && a <= b <= |s|
    ensures NoUpper(s[a..b])
  {
    var t := s[a..b];
    forall i | 0 <= i < |t| ensures !('A' <= t[i] <= 'Z') {
      assert t[i] == s[a + i];
    }
  }

  /** Trimming a string without upper-case letters leaves none. */
  lemma TrimNoUpper(s: string)
    requires NoUpper(s)
    ensures NoUpper(Trim(s))
  {
    var u := TrimStart(s);
    TrimStartShape(s);
    assert u == s[|s| - |u|..|s|];
    NoUpperSlice(s, |s| - |u|, |s|);
    TrimEndShape(u);
    assert TrimEnd(u) == u[0..|TrimEnd(u)|];
    NoUpperSlice(u, 0, |TrimEnd(u)|);
  }

  /** Lowercasing leaves no upper-case letter. */
  lemma ToLowerNoUpper(s: string)
    ensures NoUpper(ToLower(s))
  {
    var low := ToLower(s);
    forall i | 0 <= i < |low| ensures !('A' <= low[i] <= 'Z') {
      assert low[i] == LowerChar(s[i]);
    }
  }

  /** A string without upper-case letters is its own lowercase. */
  lemma ToLowerFixed(s: string)
    requires NoUpper(s)
    ensures ToLower(s) == s
  {
    var low := ToLower(s);
    forall i | 0 <= i < |s| ensures low[i] == s[i] {
      assert low[i] == LowerChar(s[i]);
    }
  }

  /** A stored email holds no upper-case letter. */
  lemma NormalizeEmailNoUpper(s: string)
    ensures NoUpper(NormalizeEmail(s))
  {
    ToLowerNoUpper(s);
    TrimNoUpper(ToLower(s));
  }

  /** Normalising a stored email again leaves it as it is. */
  lemma NormalizeEmailIdempotent(s: string)
    ensures NormalizeEmail(NormalizeEmail(s)) == NormalizeEmail(s)
  {
    var low := ToLower(s);
    var t := Trim(low);
    assert NormalizeEmail(s) == t;
    ToLowerNoUpper(s);
    TrimNoUpper(low);
    ToLowerFixed(t);
    TrimIdempotent(low);
    assert NormalizeEmail(t) == Trim(ToLower(t));
  }

  /** A user document as the store keeps it. */
  predicate StoredUser(u: User)
  {
    && u.email != "" && u.email == NormalizeEmail(u.email)
    && |u.password| >= PasswordMinLength
    && u.name != "" && u.name == Trim(u.name)
  }

  /** The unique index on email. */
  predicate UniqueEmails(users: seq<User>)
  {
    forall i, j :: 0 <= i < j < |users| ==> users[i].email != users[j].email
  }

  /** The store's invariant: every user well formed, emails and ids unique, ids below the next fresh one. */
  predicate UserStoreInvariant(users: seq<User>, nextId: UserId)
  {
    && UniqueEmails(users)
    && (forall i, j :: 0 <= i < j < |users| ==> users[i].id != users[j].id)
    && (forall i :: 0 <= i < |users| ==> StoredUser(users[i]) && users[i].id < nextId)
  }

  /** Saving a well-formed user under a fresh id and an email nobody holds keeps the invariant. */
  lemma AppendUserPreservesInvariant(users: seq<User>, nextId: UserId, u: User)
    requires UserStoreInvariant(users, nextId)
    requires StoredUser(u) && u.id == nextId
    requires forall k :: 0 <= k < |users| ==> users[k].email != u.email
    ensures UserStoreInvariant(users + [u], nextId + 1)
  {
    var us := users + [u];
    forall i | 0 <= i < |us|
      ensures StoredUser(us[i]) && us[i].id < nextId + 1
    {
      if i < |users| {
        assert us[i] == users[i];
      } else {
        assert us[i] == u;
      }
    }
    forall i, j | 0 <= i < j < |us|
      ensures us[i].email != us[j].email && us[i].id != us[j].id
    {
      assert us[i] == users[i];
      if j < |users| {
        assert us[j] == users[j];
      } else {
        assert us[j] == u;
      }
    }
  }

  /**
   * Building and validating a user document: the setters run, then the
   * `required` and `minlength` validators. `password` is what is stored,
   * which the registration route makes the digest.
   */
  function NewUser(id: UserId, email: string, password: string, name: string): (r: Result<User, SchemaError>)
    ensures r.Success? <==> NormalizeEmail(email) != "" && |password| >= PasswordMinLength && Trim(name) != ""
    ensures r.Success? ==> StoredUser(r.value) && r.value == User(id, NormalizeEmail(email), password, Trim(name))
  {
    var e := NormalizeEmail(email);
    var n := Trim(name);
    if e == "" then Failure(Required("email"))
    else if password == "" then Failure(Required("password"))
    else if |password| < PasswordMinLength then Failure(TooShort("password"))
    else if n == "" then Failure(Required("name"))
    else
      NormalizeEmailIdempotent(email);
      TrimIdempotent(name);
      Success(User(id, e, password, n))
  }
}
