/** The `User` schema: its fields, the `trim`/`lowercase` setters and the
    `required`/`minlength` validators. Uniqueness is a store property (see Database). */
module UserModel {
  import opened Common

  /** A stored user. `password` holds the bcrypt hash; the schema declares no `isAdmin`. */
  datatype User = User(
    id: ObjectId,
    username: string,
    email: string,
    password: string,
    bookmarks: seq<ObjectId>,   // references to News documents
    isPublisher: bool)

  /** The whitespace that `trim` removes, restricted to ASCII: space, tab, line feed,
      vertical tab, form feed and carriage return. */
  predicate IsSpace(c: char)
  {
    c == ' ' || c == '\t' || c == '\n' || c == '\U{B}' || c == '\U{C}' || c == '\r'
  }

  /** Drops leading whitespace: the result is a suffix of `s`, and only spaces were dropped. */
  function TrimStart(s: string): (r: string)
    ensures |r| <= |s| && r == s[|s| - |r|..]
    ensures forall i :: 0 <= i < |s| - |r| ==> IsSpace(s[i])
    ensures r == [] || !IsSpace(r[0])
  {
    if s != [] && IsSpace(s[0]) then TrimStart(s[1..]) else s
  }

  /** Drops trailing whitespace: the result is a prefix of `s`, and only spaces were dropped. */
  function TrimEnd(s: string): (r: string)
    ensures |r| <= |s| && r == s[..|r|]
    ensures forall i :: |r| <= i < |s| ==> IsSpace(s[i])
    ensures r == [] || !IsSpace(r[|r| - 1])
  {
    if s != [] && IsSpace(s[|s| - 1]) then TrimEnd(s[..|s| - 1]) else s
  }

  /** The `trim: true` setter. */
  function Trim(s: string): string
  {
    TrimEnd(TrimStart(s))
  }

  function Lower(c: char): char
  {
    if 'A' <= c <= 'Z' then (c as int + 32) as char else c
  }

  /** The `lowercase: true` setter (ASCII letters). */
  function Lowercase(s: string): (r: string)
    ensures |r| == |s|
    ensures forall i :: 0 <= i < |r| ==> !('A' <= r[i] <= 'Z')
  {
    if s == [] then [] else [Lower(s[0])] + Lowercase(s[1..])
  }

  /** What the schema stores for an email: trimmed and lowercased. */
  function NormalizeEmail(email: string): string
  {
    Lowercase(Trim(email))
  }

  /** `new User({ username, email, password })`: setters applied, defaults filled in. */
  function NewUser(id: ObjectId, username: string, email: string, passwordHash: string): (u: User)
    ensures u.id == id && u.password == passwordHash
    ensures u.username == Trim(username) && u.email == NormalizeEmail(email)
    ensures u.bookmarks == [] && !u.isPublisher
  {
    User(id, Trim(username), NormalizeEmail(email), passwordHash, [], false)
  }

  /** The paths whose `required`/`minlength` validators fail on a user document. */
  function SchemaErrors(u: User): set<string>
  {
    (if |u.username| < 3 then {"username"} else {})
    + (if u.email == "" then {"email"} else {})
    + (if |u.password| < 6 then {"password"} else {})
  }

  /** A user document that passes validation. */
  predicate SchemaValid(u: User)
  {
    SchemaErrors(u) == {}
  }

  lemma SchemaValidMeaning(u: User)
    ensures SchemaValid(u) <==> |u.username| >= 3 && u.email != "" && |u.password| >= 6
  {
    if !SchemaValid(u) {
      assert "username" in SchemaErrors(u) || "email" in SchemaErrors(u) || "password" in SchemaErrors(u);
    }
  }

  lemma {:induction false} TrimEndIdempotent(s: string)
    ensures TrimEnd(TrimEnd(s)) == TrimEnd(s)
  {
  }

  /** Trimming twice is trimming once, so re-saving a user does not change its username. */
  lemma TrimIdempotent(s: string)
    ensures Trim(Trim(s)) == Trim(s)
  {
    var t := Trim(s);
    assert t == [] || !IsSpace(t[0]);
    assert TrimStart(t) == t;
    TrimEndIdempotent(TrimStart(s));
  }

  lemma {:induction false} LowercaseIdempotent(s: string)
    ensures Lowercase(Lowercase(s)) == Lowercase(s)
  {
    if s != [] {
      LowercaseIdempotent(s[1..]);
    }
  }

  lemma {:induction false} LowercaseSpaces(s: string, i: int)
    requires 0 <= i < |s|
    ensures Lowercase(s)[i] == Lower(s[i])
  {
    if i > 0 {
      LowercaseSpaces(s[1..], i - 1);
    }
  }

  lemma {:induction false} LowercaseSlice(s: string, i: int, j: int)
    requires 0 <= i <= j <= |s|
    ensures Lowercase(s[i..j]) == Lowercase(s)[i..j]
  {
    var a, b := Lowercase(s[i..j]), Lowercase(s)[i..j];
    forall k | 0 <= k < |a|
      ensures a[k] == b[k]
    {
      LowercaseSpaces(s[i..j], k);
      LowercaseSpaces(s, i + k);
    }
  }

  lemma LowerKeepsSpaces(c: char)
    ensures IsSpace(Lower(c)) <==> IsSpace(c)
  {
  }

  lemma {:induction false} TrimStartLowercase(s: string)
    ensures TrimStart(Lowercase(s)) == Lowercase(TrimStart(s))
  {
    if s != [] {
      var l := Lowercase(s);
      assert l == [Lower(s[0])] + Lowercase(s[1..]);
      LowerKeepsSpaces(s[0]);
      if IsSpace(s[0]) {
        assert l[1..] == Lowercase(s[1..]);
        TrimStartLowercase(s[1..]);
      }
    }
  }

  lemma {:induction false} TrimEndLowercase(s: string)
    ensures TrimEnd(Lowercase(s)) == Lowercase(TrimEnd(s))
  {
    if s != [] {
      var n := |s| - 1;
      var l := Lowercase(s);
      LowercaseSpaces(s, n);
      LowerKeepsSpaces(s[n]);
      if IsSpace(s[n]) {
        LowercaseSlice(s, 0, n);
        assert s[0..n] == s[..n];
        assert l[0..n] == l[..|l| - 1];
        TrimEndLowercase(s[..n]);
      }
    }
  }

  /** The two email setters commute, so their order in the schema does not matter,
      and normalising an email a second time changes nothing. */
  lemma NormalizeEmailCommutesAndIsIdempotent(email: string)
    ensures NormalizeEmail(email) == Trim(Lowercase(email))
    ensures NormalizeEmail(NormalizeEmail(email)) == NormalizeEmail(email)
  {
    TrimStartLowercase(email);
    TrimEndLowercase(TrimStart(email));
    var t := Trim(email);
    TrimStartLowercase(t);
    TrimEndLowercase(TrimStart(t));
    TrimIdempotent(email);
    LowercaseIdempotent(t);
  }
}
