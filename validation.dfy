/** Input validation (firewall/validation.go): two pre-checks shared by every
    input type, then one allow-list pattern per type. Each regular expression
    is written out as the character-class and length predicate it denotes;
    the host pattern as a grammar of dot-separated labels. */
module Validation {
  import opened Common

  const TypeUsername: string := "username"
  const TypePassword: string := "password"
  const TypePath: string := "path"
  const TypeURL: string := "url"

  // ---------------------------------------------------------------------------
  // Character classes

  predicate Alnum(c: char) { 'a' <= c <= 'z' || 'A' <= c <= 'Z' || '0' <= c <= '9' }

  /** `[a-zA-Z0-9_-]` */
  predicate UsernameChar(c: char) { Alnum(c) || c == '_' || c == '-' }

  /** `[a-zA-Z0-9._:/?#@!$&'()*+,;=-]` */
  predicate PasswordChar(c: char) { Alnum(c) || c in "._:/?#@!$&'()*+,;=-" }

  /** `\s` in Go's regular expressions: tab, newline, form feed, carriage return, space. */
  predicate SpaceChar(c: char) { c == '\t' || c == '\n' || c as int == 12 || c == '\r' || c == ' ' }

  /** `[a-zA-Z0-9\s._~:/?#[\]@!$&'()*+,;=-]` */
  predicate PathChar(c: char) { Alnum(c) || SpaceChar(c) || c in "._~:/?#[]@!$&'()*+,;=-" }

  /** `[a-z0-9]` */
  predicate LowerAlnum(c: char) { 'a' <= c <= 'z' || '0' <= c <= '9' }

  /** `[a-z0-9-]` */
  predicate HostChar(c: char) { LowerAlnum(c) || c == '-' }

  // ---------------------------------------------------------------------------
  // The four patterns

  /** UsernamePattern `^[a-zA-Z0-9_-]{1,64}$` */
  predicate UsernamePattern(s: string) {
    1 <= |s| <= 64 && forall i :: 0 <= i < |s| ==> UsernameChar(s[i])
  }

  /** PasswordPattern `^[a-zA-Z0-9._:/?#@!$&'()*+,;=-]{12,64}$` */
  predicate PasswordPattern(s: string) {
    12 <= |s| <= 64 && forall i :: 0 <= i < |s| ==> PasswordChar(s[i])
  }

  /** PathPattern `^[a-zA-Z0-9\s._~:/?#[\]@!$&'()*+,;=-]*$` */
  predicate PathPattern(s: string) {
    forall i :: 0 <= i < |s| ==> PathChar(s[i])
  }

  /** One label of UrPattern: `[a-z0-9]([a-z0-9-]{0,61}[a-z0-9])?` */
  predicate Label(l: string) {
    && |l| >= 1
    && LowerAlnum(l[0])
    && (|l| == 1 || (|l| <= 63 && LowerAlnum(l[|l| - 1]) && forall i :: 1 <= i < |l| - 1 ==> HostChar(l[i])))
  }

  /** UrPattern `^(label\.)+label$`: at least two labels, separated by dots. */
  predicate UrPattern(s: string) {
    var labels := Split(s, '.');
    |labels| >= 2 && forall i :: 0 <= i < |labels| ==> Label(labels[i])
  }

  /** ValidateInput: reject a NUL byte, reject "..", then match the pattern of
      the input type; an unknown type is rejected. */
  function ValidateInput(input: string, inputType: string): (ok: bool)
    ensures ok ==> '\0' !in input
    ensures ok ==> forall i :: 0 <= i < |input| - 1 ==> !(input[i] == '.' && input[i + 1] == '.')
    ensures ok ==> inputType in {TypeUsername, TypePassword, TypePath, TypeURL}
  {
    ContainsChar(input, '\0');
    ContainsPair(input, '.', '.');
    if Contains(input, "\0") then false
    else if Contains(input, "..") then false
    else if inputType == TypeUsername then UsernamePattern(input)
    else if inputType == TypePassword then PasswordPattern(input)
    else if inputType == TypePath then PathPattern(input)
    else if inputType == TypeURL then UrPattern(input)
    else false
  }

  // ---------------------------------------------------------------------------
  // What ValidateInput accepts, type by type

  /** Any input holding a NUL byte is rejected, whatever the type. */
  lemma RejectsNul(input: string, inputType: string)
    requires '\0' in input
    ensures !ValidateInput(input, inputType)
  {
    ContainsChar(input, '\0');
  }

  /** Any input holding ".." is rejected, even where '.' is an allowed character. */
  lemma RejectsDotDot(input: string, inputType: string, i: nat)
    requires i + 1 < |input| && input[i] == '.' && input[i + 1] == '.'
    ensures !ValidateInput(input, inputType)
  {
    ContainsPair(input, '.', '.');
  }

  /** Any type other than the four named ones is rejected. */
  lemma RejectsUnknownType(input: string, inputType: string)
    requires inputType !in {TypeUsername, TypePassword, TypePath, TypeURL}
    ensures !ValidateInput(input, inputType)
  {
  }

  predicate HasDotDot(s: string) {
    exists i :: 0 <= i < |s| - 1 && s[i] == '.' && s[i + 1] == '.'
  }

  /** A username is accepted iff it is 1 to 64 characters of `[A-Za-z0-9_-]`
      (the pre-checks never reject such a string). */
  lemma UsernameAccepted(s: string)
    ensures ValidateInput(s, TypeUsername) <==> UsernamePattern(s)
  {
    ContainsChar(s, '\0');
    ContainsPair(s, '.', '.');
  }

  /** A password is accepted iff it is 12 to 64 characters of the password
      class and has no ".." in it. */
  lemma PasswordAccepted(s: string)
    ensures ValidateInput(s, TypePassword) <==> PasswordPattern(s) && !HasDotDot(s)
  {
    ContainsChar(s, '\0');
    ContainsPair(s, '.', '.');
  }

  /** A path is accepted iff every character is in the path class and it has
      no ".." in it; the empty path is accepted. */
  lemma PathAccepted(s: string)
    ensures ValidateInput(s, TypePath) <==> PathPattern(s) && !HasDotDot(s)
  {
    ContainsChar(s, '\0');
    ContainsPair(s, '.', '.');
  }

  lemma EmptyPathAccepted()
    ensures ValidateInput("", TypePath)
  {
    PathAccepted("");
  }

  /** A percent sign (an escaped path) is rejected. */
  lemma PercentPathRejected(s: string, i: nat)
    requires i < |s| && s[i] == '%'
    ensures !ValidateInput(s, TypePath)
  {
    PathAccepted(s);
    assert !PathChar(s[i]);
  }

  // ---------------------------------------------------------------------------
  // Hosts

  /** A label, stated plainly: 1 to 63 characters of `[a-z0-9-]`, neither
      starting nor ending with '-'. */
  lemma LabelPlain(l: string)
    ensures Label(l) <==>
      1 <= |l| <= 63 && (forall i :: 0 <= i < |l| ==> HostChar(l[i])) && l[0] != '-' && l[|l| - 1] != '-'
  {
  }

  /** The host pattern read as its grammar: some sequence of at least two
      labels joined by dots. */
  ghost predicate HostGrammar(s: string) {
    exists labels: seq<string> :: |labels| >= 2 && (forall i :: 0 <= i < |labels| ==> Label(labels[i])) && Join(labels, '.') == s
  }

  /** The split-based reading of UrPattern and its grammar agree. */
  lemma UrPatternIsGrammar(s: string)
    ensures UrPattern(s) <==> HostGrammar(s)
  {
    if UrPattern(s) {
      var labels := Split(s, '.');
      SplitSpec(s, '.');
      assert |labels| >= 2 && (forall i :: 0 <= i < |labels| ==> Label(labels[i])) && Join(labels, '.') == s;
    }
    if HostGrammar(s) {
      var labels: seq<string> :| |labels| >= 2 && (forall i :: 0 <= i < |labels| ==> Label(labels[i])) && Join(labels, '.') == s;
      forall i | 0 <= i < |labels| ensures '.' !in labels[i] {
        assert Label(labels[i]);
      }
      SplitJoin(labels, '.');
    }
  }

  /** A host is accepted iff it matches UrPattern (the pre-checks never reject
      a string of labels). */
  lemma UrlAccepted(s: string)
    ensures ValidateInput(s, TypeURL) <==> UrPattern(s)
  {
    ContainsChar(s, '\0');
    ContainsPair(s, '.', '.');
    if UrPattern(s) {
      var labels := Split(s, '.');
      SplitSpec(s, '.');
      assert '\0' !in s by {
        if '\0' in s {
          var i :| 0 <= i < |s| && s[i] == '\0';
          JoinHasNoChar(labels, '.', '\0', i);
        }
      }
      assert !HasDotDot(s) by {
        if HasDotDot(s) {
          var i :| 0 <= i < |s| - 1 && s[i] == '.' && s[i + 1] == '.';
          JoinNoDoubleSep(labels, '.', i);
        }
      }
    }
  }

  /** No character outside the labels' alphabet and the separator occurs in a
      join of labels. */
  lemma {:induction false} JoinHasNoChar(labels: seq<string>, sep: char, c: char, i: nat)
    requires |labels| >= 1 && (forall j :: 0 <= j < |labels| ==> Label(labels[j]))
    requires c != sep && !HostChar(c)
    requires i < |Join(labels, sep)|
    ensures Join(labels, sep)[i] != c
    decreases |labels|
  {
    var l := labels[0];
    assert Label(l);
    if i < |l| {
      assert i == 0 || i == |l| - 1 || HostChar(l[i]);
    } else if |labels| > 1 && i > |l| {
      JoinHasNoChar(labels[1..], sep, c, i - |l| - 1);
    }
  }

  /** Two separators are never adjacent in a join of non-empty labels. */
  lemma {:induction false} JoinNoDoubleSep(labels: seq<string>, sep: char, i: nat)
    requires |labels| >= 1 && (forall j :: 0 <= j < |labels| ==> Label(labels[j]) && sep !in labels[j])
    requires i + 1 < |Join(labels, sep)|
    ensures !(Join(labels, sep)[i] == sep && Join(labels, sep)[i + 1] == sep)
    decreases |labels|
  {
    var l := labels[0];
    assert Label(l);
    if |labels| > 1 {
      var rest := Join(labels[1..], sep);
      assert Join(labels, sep) == l + [sep] + rest;
      if i + 1 < |l| {
        assert Join(labels, sep)[i] == l[i];
      } else if i + 1 == |l| {
        assert Join(labels, sep)[i] == l[i];
      } else if i == |l| {
        assert Label(labels[1]);
        assert Join(labels, sep)[i + 1] == rest[0];
        assert rest[0] == labels[1][0] by {
          if |labels| > 2 {
            assert rest == labels[1] + [sep] + Join(labels[2..], sep) by { assert labels[1..][1..] == labels[2..]; }
          }
        }
      } else {
        JoinNoDoubleSep(labels[1..], sep, i - |l| - 1);
      }
    }
  }

  /** A host without a dot is rejected: it has only one label. */
  lemma DotlessHostRejected(s: string)
    requires '.' !in s
    ensures !ValidateInput(s, TypeURL)
  {
    UrlAccepted(s);
    SplitJoin([s], '.');
  }

  /** A host with an upper-case letter is rejected. */
  lemma UppercaseHostRejected(s: string, i: nat)
    requires i < |s| && 'A' <= s[i] <= 'Z'
    ensures !ValidateInput(s, TypeURL)
  {
    UrlAccepted(s);
    if UrPattern(s) {
      SplitSpec(s, '.');
      JoinHasNoChar(Split(s, '.'), '.', s[i], i);
    }
  }
}
