/** The auth context: a registry of users kept in local storage
    (`autorug_users`), the stored session (`autorug_current_user`) and the
    in-memory current user. Passwords are stored under `btoa`, which is
    base64 over Latin-1 code units and throws on anything wider. */
module Auth {
  import opened Wrappers
  import opened Seqs

  /** The session record: a user without the password hash. */
  datatype User = User(id: string, username: string, name: string)

  /** A record of the stored user list. */
  datatype StoredUser = StoredUser(id: string, username: string, name: string, passwordHash: string)

  function Session(u: StoredUser): User {
    User(u.id, u.username, u.name)
  }

  // ---------------------------------------------------------------------
  // btoa

  /** `btoa` accepts only strings whose code units all fit in one byte. */
  predicate Latin1(s: string) {
    forall i :: 0 <= i < |s| ==> s[i] as int < 256
  }

  /** The base64 digit for a 6-bit value. */
  function Digit(d: nat): (ch: char)
    requires d < 64
    ensures ch != '='
  {
    if d < 26 then ('A' as int + d) as char
    else if d < 52 then ('a' as int + (d - 26)) as char
    else if d < 62 then ('0' as int + (d - 52)) as char
    else if d == 62 then '+'
    else '/'
  }

  /** The 6-bit value of a base64 digit; padding and other characters read as 0. */
  function DigitValue(ch: char): nat {
    if 'A' <= ch <= 'Z' then ch as int - 'A' as int
    else if 'a' <= ch <= 'z' then ch as int - 'a' as int + 26
    else if '0' <= ch <= '9' then ch as int - '0' as int + 52
    else if ch == '+' then 62
    else if ch == '/' then 63
    else 0
  }

  lemma DigitRoundTrip(d: nat)
    requires d < 64
    ensures DigitValue(Digit(d)) == d
  {
  }

  /** Base64 of a Latin-1 string: every three bytes become four digits, and
      a final group of one or two bytes is padded with `=`. */
  function Base64(s: string): (r: string)
    requires Latin1(s)
    ensures |r| == 4 * ((|s| + 2) / 3)
    decreases |s|
  {
    if |s| == 0 then ""
    else if |s| == 1 then
      var b0 := s[0] as int;
      [Digit(b0 / 4), Digit((b0 % 4) * 16), '=', '=']
    else if |s| == 2 then
      var b0, b1 := s[0] as int, s[1] as int;
      [Digit(b0 / 4), Digit((b0 % 4) * 16 + b1 / 16), Digit((b1 % 16) * 4), '=']
    else
      var b0, b1, b2 := s[0] as int, s[1] as int, s[2] as int;
      [Digit(b0 / 4), Digit((b0 % 4) * 16 + b1 / 16), Digit((b1 % 16) * 4 + b2 / 64), Digit(b2 % 64)]
      + Base64(s[3..])
  }

  /** `btoa(password)`: `None` stands for the exception it throws on a
      character above U+00FF. */
  function Btoa(s: string): (r: Option<string>)
    ensures r.Some? <==> Latin1(s)
  {
    if Latin1(s) then Some(Base64(s)) else None
  }

  /** Base64 decoding (`atob`), the inverse of the encoding above. */
  function Atob(e: string): string
    decreases |e|
  {
    if |e| < 4 then ""
    else
      var v0, v1, v2, v3 := DigitValue(e[0]), DigitValue(e[1]), DigitValue(e[2]), DigitValue(e[3]);
      var b0 := (v0 * 4 + v1 / 16) as char;
      var b1 := ((v1 % 16) * 16 + v2 / 4) as char;
      var b2 := ((v2 % 4) * 64 + v3) as char;
      (if e[2] == '=' then [b0] else if e[3] == '=' then [b0, b1] else [b0, b1, b2]) + Atob(e[4..])
  }

  lemma ByteRoundTrip(b0: int, b1: int, b2: int)
    requires 0 <= b0 < 256 && 0 <= b1 < 256 && 0 <= b2 < 256
    ensures (b0 / 4) * 4 + ((b0 % 4) * 16 + b1 / 16) / 16 == b0
    ensures (((b0 % 4) * 16 + b1 / 16) % 16) * 16 + ((b1 % 16) * 4 + b2 / 64) / 4 == b1
    ensures (((b1 % 16) * 4 + b2 / 64) % 4) * 64 + b2 % 64 == b2
  {
  }

  /** A full group of four digits decodes to its three bytes. */
  lemma DecodeGroup(b0: int, b1: int, b2: int, rest: string)
    requires 0 <= b0 < 256 && 0 <= b1 < 256 && 0 <= b2 < 256
    ensures Atob([Digit(b0 / 4), Digit((b0 % 4) * 16 + b1 / 16), Digit((b1 % 16) * 4 + b2 / 64), Digit(b2 % 64)] + rest)
            == [b0 as char, b1 as char, b2 as char] + Atob(rest)
  {
    var v0, v1, v2, v3 := b0 / 4, (b0 % 4) * 16 + b1 / 16, (b1 % 16) * 4 + b2 / 64, b2 % 64;
    ByteRoundTrip(b0, b1, b2);
    DigitRoundTrip(v0);
    DigitRoundTrip(v1);
    DigitRoundTrip(v2);
    DigitRoundTrip(v3);
    var e := [Digit(v0), Digit(v1), Digit(v2), Digit(v3)] + rest;
    assert e[4..] == rest;
    assert e[2] != '=' && e[3] != '=';
    assert DigitValue(e[0]) == v0 && DigitValue(e[1]) == v1;
    assert DigitValue(e[2]) == v2 && DigitValue(e[3]) == v3;
    assert (v0 * 4 + v1 / 16) as char == b0 as char;
    assert ((v1 % 16) * 16 + v2 / 4) as char == b1 as char;
    assert ((v2 % 4) * 64 + v3) as char == b2 as char;
  }

  /** A final group of one byte, padded with two `=`, decodes to that byte. */
  lemma DecodeOne(b0: int)
    requires 0 <= b0 < 256
    ensures Atob([Digit(b0 / 4), Digit((b0 % 4) * 16), '=', '=']) == [b0 as char]
  {
    ByteRoundTrip(b0, 0, 0);
    DigitRoundTrip(b0 / 4);
    DigitRoundTrip((b0 % 4) * 16);
    var e := [Digit(b0 / 4), Digit((b0 % 4) * 16), '=', '='];
    assert e[4..] == "";
  }

  /** A final group of two bytes, padded with one `=`, decodes to those bytes. */
  lemma DecodeTwo(b0: int, b1: int)
    requires 0 <= b0 < 256 && 0 <= b1 < 256
    ensures Atob([Digit(b0 / 4), Digit((b0 % 4) * 16 + b1 / 16), Digit((b1 % 16) * 4), '='])
            == [b0 as char, b1 as char]
  {
    ByteRoundTrip(b0, b1, 0);
    DigitRoundTrip(b0 / 4);
    DigitRoundTrip((b0 % 4) * 16 + b1 / 16);
    DigitRoundTrip((b1 % 16) * 4);
    var e := [Digit(b0 / 4), Digit((b0 % 4) * 16 + b1 / 16), Digit((b1 % 16) * 4), '='];
    assert e[4..] == "";
  }

  lemma {:induction false} Base64RoundTrip(s: string)
    requires Latin1(s)
    ensures Atob(Base64(s)) == s
    decreases |s|
  {
    if |s| == 1 {
      var b0 := s[0] as int;
      assert Base64(s) == [Digit(b0 / 4), Digit((b0 % 4) * 16), '=', '='];
      DecodeOne(b0);
      assert s == [b0 as char];
    } else if |s| == 2 {
      var b0, b1 := s[0] as int, s[1] as int;
      assert Base64(s) == [Digit(b0 / 4), Digit((b0 % 4) * 16 + b1 / 16), Digit((b1 % 16) * 4), '='];
      DecodeTwo(b0, b1);
      assert s == [b0 as char, b1 as char];
    } else if |s| > 2 {
      var b0, b1, b2 := s[0] as int, s[1] as int, s[2] as int;
      var rest := Base64(s[3..]);
      assert Base64(s) == [Digit(b0 / 4), Digit((b0 % 4) * 16 + b1 / 16), Digit((b1 % 16) * 4 + b2 / 64), Digit(b2 % 64)] + rest;
      DecodeGroup(b0, b1, b2, rest);
      Base64RoundTrip(s[3..]);
      assert s == [b0 as char, b1 as char, b2 as char] + s[3..];
    }
  }

  /** The stored hash is reversible: decoding it gives back the password. */
  lemma BtoaRoundTrip(s: string)
    requires Latin1(s)
    ensures Atob(Btoa(s).value) == s
  {
    Base64RoundTrip(s);
  }

  // ---------------------------------------------------------------------
  // The user list

  function NameIs(username: string): StoredUser -> bool {
    (u: StoredUser) => u.username == username
  }

  /** `users.find(u => u.username === username)`, as the index of the match. */
  function FindUser(users: seq<StoredUser>, username: string): (r: Option<nat>)
    ensures r.None? <==> forall i :: 0 <= i < |users| ==> users[i].username != username
    ensures r.Some? ==> r.value < |users| && users[r.value].username == username
    ensures r.Some? ==> forall i :: 0 <= i < r.value ==> users[i].username != username
  {
    FirstIndex(NameIs(username), users)
  }

  predicate UniqueUsernames(users: seq<StoredUser>) {
    forall i, j :: 0 <= i < j < |users| ==> users[i].username != users[j].username
  }

  /** `name || username`: an absent or empty name falls back to the username. */
  function DisplayName(name: Option<string>, username: string): string {
    if name.Some? && name.value != "" then name.value else username
  }

  /** The record `register` appends for a new user. */
  function NewUser(id: string, username: string, password: string, name: Option<string>): StoredUser
    requires Latin1(password)
  {
    StoredUser(id, username, DisplayName(name, username), Btoa(password).value)
  }

  /** `login` accepts a pair when the first user with that username stores
      the encoding of that password. */
  predicate Authenticates(users: seq<StoredUser>, username: string, password: string) {
    var found := FindUser(users, username);
    found.Some? && Btoa(password) == Some(users[found.value].passwordHash)
  }

  /** A username that is new finds the record just appended for it. */
  lemma FindAppended(users: seq<StoredUser>, u: StoredUser)
    requires FindUser(users, u.username).None?
    ensures FindUser(users + [u], u.username) == Some(|users|)
  {
    var all := users + [u];
    assert all[|users|] == u;
    forall i | 0 <= i < |users| ensures all[i].username != u.username {
      assert all[i] == users[i];
    }
  }

  /** Registering and then logging in with the same password succeeds,
      because both sides use the same encoding. */
  lemma RegisterThenLogin(users: seq<StoredUser>, id: string, username: string, password: string, name: Option<string>)
    requires FindUser(users, username).None?
    requires Latin1(password)
    ensures Authenticates(users + [NewUser(id, username, password, name)], username, password)
  {
    FindAppended(users, NewUser(id, username, password, name));
  }

  /** Logging in with a different password than the one registered fails:
      the encoding is injective on the strings it accepts. */
  lemma WrongPasswordRejected(users: seq<StoredUser>, id: string, username: string, password: string,
                              name: Option<string>, other: string)
    requires FindUser(users, username).None?
    requires Latin1(password)
    requires other != password
    ensures !Authenticates(users + [NewUser(id, username, password, name)], username, other)
  {
    FindAppended(users, NewUser(id, username, password, name));
    if Latin1(other) && Btoa(other) == Btoa(password) {
      BtoaRoundTrip(other);
      BtoaRoundTrip(password);
      assert false;
    }
  }

  /** The auth provider's state. */
  class AuthContext {
    var users: seq<StoredUser>       // `autorug_users`
    var storedUser: Option<User>     // `autorug_current_user`
    var user: Option<User>           // the `user` state
    var isLoading: bool

    /** The provider before its startup effect: nobody signed in, loading. */
    constructor (users0: seq<StoredUser>, storedUser0: Option<User>)
      ensures users == users0 && storedUser == storedUser0
      ensures user.None? && isLoading
    {
      users, storedUser := users0, storedUser0;
      user, isLoading := None, true;
    }

    /** The startup effect: restore the stored session if there is one. */
    method Restore()
      modifies this`user, this`isLoading
      ensures user == if storedUser.Some? then storedUser else old(user)
      ensures !isLoading
    {
      if storedUser.Some? {
        user := storedUser;
      }
      isLoading := false;
    }

    /** `register`: a taken username or a password `btoa` rejects leaves
        everything unchanged; otherwise one record is appended and the new
        user, without the hash, becomes the session. */
    method Register(username: string, password: string, name: Option<string>, freshId: string)
      returns (ok: bool)
      modifies this`users, this`storedUser, this`user
      ensures ok <==> FindUser(old(users), username).None? && Latin1(password)
      ensures !ok ==> users == old(users) && storedUser == old(storedUser) && user == old(user)
      ensures ok ==> users == old(users) + [NewUser(freshId, username, password, name)]
      ensures ok ==> storedUser == Some(User(freshId, username, DisplayName(name, username))) && user == storedUser
      ensures UniqueUsernames(old(users)) ==> UniqueUsernames(users)
    {
      if FindUser(users, username).Some? {
        return false;  // "User already exists"
      }
      var hash := Btoa(password);
      if hash.None? {
        return false;  // btoa throws
      }
      var record := NewUser(freshId, username, password, name);
      users := users + [record];
      storedUser := Some(Session(record));
      user := storedUser;
      ok := true;
    }

    /** `login`: the first record with the username must hold the encoding of
        the password; on success its session record becomes current, on
        failure nothing changes. */
    method Login(username: string, password: string) returns (ok: bool)
      modifies this`storedUser, this`user
      ensures ok <==> Authenticates(users, username, password)
      ensures ok ==> storedUser == Some(Session(users[FindUser(users, username).value])) && user == storedUser
      ensures !ok ==> storedUser == old(storedUser) && user == old(user)
    {
      var found := FindUser(users, username);
      if found.None? || Btoa(password) != Some(users[found.value].passwordHash) {
        return false;  // "Invalid username or password", or btoa throws
      }
      storedUser := Some(Session(users[found.value]));
      user := storedUser;
      ok := true;
    }

    /** `logout`: forget the session; the user list stays. */
    method Logout()
      modifies this`storedUser, this`user
      ensures storedUser.None? && user.None?
    {
      storedUser := None;
      user := None;
    }
  }
}
