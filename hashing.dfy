/** The user table and key hashing (webserver/hashing.go). Reading keys.json,
    decoding its JSON and bcrypt are outside the model: LoadKeys receives the
    decoded user list (None when reading or decoding failed), HashKey the
    outcome of bcrypt's hashing, ValidateUserHash the outcome of bcrypt's
    comparison. */
module Hashing {
  import opened Common
  import opened Validation

  datatype User = User(name: string, hash: string, allowedSessions: int)

  /** No two users share a name. */
  predicate DistinctNames(users: seq<User>) {
    forall i, j :: 0 <= i < j < |users| ==> users[i].name != users[j].name
  }

  /** LoadKeys: nil when the file could not be read or decoded, or when two
      users share a name; otherwise the users keyed by name. */
  method LoadKeys(decoded: Option<seq<User>>) returns (usersMap: Option<map<string, User>>)
    ensures usersMap.None? <==> decoded.None? || !DistinctNames(decoded.value)
    ensures usersMap.Some? ==>
      && (forall name :: name in usersMap.value <==> exists i :: 0 <= i < |decoded.value| && decoded.value[i].name == name)
      && (forall i :: 0 <= i < |decoded.value| ==> usersMap.value[decoded.value[i].name] == decoded.value[i])
  {
    if decoded.None? {
      return None;
    }
    var users := decoded.value;
    var m: map<string, User> := map[];
    for i := 0 to |users|
      invariant DistinctNames(users[..i])
      invariant forall name :: name in m <==> exists k :: 0 <= k < i && users[k].name == name
      invariant forall k :: 0 <= k < i ==> m[users[k].name] == users[k]
    {
      if users[i].name in m {
        var k :| 0 <= k < i && users[k].name == users[i].name;
        assert !DistinctNames(users);
        return None;
      }
      m := m[users[i].name := users[i]];
    }
    assert users[..|users|] == users;
    return Some(m);
  }

  /** The refusal message HashKey returns for a key that is not a valid password. */
  const InvalidPasswordFormat: string :=
    "ERROR: Invalid password format. Only use letters,numbers and these symbols: _:/?#@!$&'()*+,;=- Between 12 and 64 characters"

  /** HashKey: a key that fails password validation is refused without being
      hashed; otherwise the outcome of bcrypt (`generated`) is returned. */
  function HashKey(key: string, generated: Result<string, string>): (r: Result<string, string>)
    ensures r.Ok? ==> 12 <= |key| <= 64 && !HasDotDot(key) && (forall i :: 0 <= i < |key| ==> PasswordChar(key[i]))
    ensures r != generated ==> r == Err(InvalidPasswordFormat)
  {
    PasswordAccepted(key);
    if !ValidateInput(key, TypePassword) then Err(InvalidPasswordFormat) else generated
  }

  /** Every key that is not 12 to 64 password characters free of ".." is
      refused without being hashed: too short, too long, holding "..", or
      holding any character outside the password class. */
  lemma HashKeyRefuses(key: string, generated: Result<string, string>)
    requires !(PasswordPattern(key) && !HasDotDot(key))
    ensures HashKey(key, generated) == Err(InvalidPasswordFormat)
  {
    PasswordAccepted(key);
  }

  /** In particular, a key of any length holding a character outside the
      class (a space, '%', a quote, a backslash, NUL, anything non-ASCII) is
      refused. */
  lemma HashKeyRefusesBadCharacter(key: string, generated: Result<string, string>, i: nat)
    requires i < |key| && !PasswordChar(key[i])
    ensures HashKey(key, generated) == Err(InvalidPasswordFormat)
  {
    HashKeyRefuses(key, generated);
  }

  /** A key of 12 to 64 password characters without ".." is handed to bcrypt. */
  lemma HashKeyAccepts(key: string, generated: Result<string, string>)
    requires PasswordPattern(key) && !HasDotDot(key)
    ensures HashKey(key, generated) == generated
  {
    PasswordAccepted(key);
  }

  /** ValidateUserHash: bcrypt's comparison error (None when the password
      matches) becomes a (match, error) pair. */
  function ValidateUserHash(compareErr: Option<string>): (r: (bool, Option<string>))
    ensures r.0 <==> r.1.None?
    ensures r.1 == compareErr
  {
    match compareErr
    case None => (true, None)
    case Some(e) => (false, Some(e))
  }
}
