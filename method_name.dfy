/**
 * How the client turns the name a caller used into the name of the remote
 * SOAP procedure it invokes (Client::formatMethodName).  A name that already
 * has the form `do` followed by an ASCII capital is used as it is; any other
 * name gets the prefix `do` and its first character upper-cased.
 */
module MethodName {

  predicate IsAsciiUpper(c: char) { 'A' <= c <= 'Z' }

  predicate IsAsciiLower(c: char) { 'a' <= c <= 'z' }

  predicate IsAsciiLetter(c: char) { IsAsciiUpper(c) || IsAsciiLower(c) }

  /** The anchored pattern `^do[A-Z]`, written out on characters. */
  predicate HasDoPrefix(name: string)
  {
    |name| >= 3 && name[0] == 'd' && name[1] == 'o' && IsAsciiUpper(name[2])
  }

  /** Upper-casing of one character as PHP's ucfirst does it: ASCII only. */
  function ToUpper(c: char): (u: char)
    ensures IsAsciiUpper(u) <==> IsAsciiLetter(c)
    ensures IsAsciiLower(c) ==> u as int == c as int - 32
    ensures !IsAsciiLower(c) ==> u == c
  {
    if IsAsciiLower(c) then (c as int - 32) as char else c
  }

  /** ASCII lower-casing of one character, the inverse of ToUpper on lower-case letters. */
  function ToLower(c: char): (l: char)
    ensures IsAsciiLower(l) <==> IsAsciiLetter(c)
    ensures IsAsciiUpper(c) ==> l as int == c as int + 32
    ensures !IsAsciiUpper(c) ==> l == c
  {
    if IsAsciiUpper(c) then (c as int + 32) as char else c
  }

  /** PHP's ucfirst: the first character upper-cased, the rest untouched. */
  function UcFirst(s: string): (r: string)
    ensures |r| == |s|
    ensures |s| > 0 ==> r[0] == ToUpper(s[0]) && r[1..] == s[1..]
  {
    if s == [] then [] else [ToUpper(s[0])] + s[1..]
  }

  /** The inverse of UcFirst on names that start with a lower-case letter. */
  function LcFirst(s: string): (r: string)
    ensures |r| == |s|
    ensures |s| > 0 ==> r[0] == ToLower(s[0]) && r[1..] == s[1..]
  {
    if s == [] then [] else [ToLower(s[0])] + s[1..]
  }

  const Prefix: string := "do"

  /** The remote procedure that a call made under `name` is sent to. */
  function FormatMethodName(name: string): (r: string)
    ensures |r| >= 2 && r[..2] == Prefix
    ensures HasDoPrefix(name) ==> r == name
    ensures !HasDoPrefix(name) ==> |r| == |name| + 2 && r[2..] == UcFirst(name)
  {
    if HasDoPrefix(name) then name else Prefix + UcFirst(name)
  }

  /** Upper-casing a lower-case letter and lower-casing it again gives it back. */
  lemma ToLowerToUpper(c: char)
    requires IsAsciiLower(c)
    ensures ToLower(ToUpper(c)) == c
  {
  }

  /**
   * A derived name has the `do[A-Z]` form exactly when the caller's name had
   * it already or starts with an ASCII letter.
   */
  lemma {:induction false} FormattedHasDoPrefix(name: string)
    ensures HasDoPrefix(FormatMethodName(name)) <==> HasDoPrefix(name) || (|name| > 0 && IsAsciiLetter(name[0]))
  {
    var r := FormatMethodName(name);
    if !HasDoPrefix(name) && |name| > 0 {
      assert r[2] == UcFirst(name)[0];
    }
  }

  /**
   * Deriving the name a second time changes nothing exactly when the first
   * derivation produced the `do[A-Z]` form; an empty name or one starting
   * with a digit or `_` gets prefixed again (`""` gives `"do"`, then `"doDo"`).
   */
  lemma {:induction false} FormatIdempotentIff(name: string)
    ensures FormatMethodName(FormatMethodName(name)) == FormatMethodName(name)
        <==> HasDoPrefix(name) || (|name| > 0 && IsAsciiLetter(name[0]))
  {
    var r := FormatMethodName(name);
    FormattedHasDoPrefix(name);
    if !HasDoPrefix(r) {
      assert |FormatMethodName(r)| == |r| + 2;
    }
  }

  /**
   * For a name in the usual lower-camel-case form, the caller's name can be
   * read back off the remote procedure name.
   */
  lemma {:induction false} FormatRecoverable(name: string)
    requires |name| > 0 && IsAsciiLower(name[0]) && !HasDoPrefix(name)
    ensures LcFirst(FormatMethodName(name)[2..]) == name
  {
    var u := FormatMethodName(name)[2..];
    assert u == UcFirst(name);
    ToLowerToUpper(name[0]);
    assert LcFirst(u)[0] == name[0];
    assert LcFirst(u)[1..] == name[1..];
  }

  /** Two distinct lower-camel-case names are never sent to the same procedure. */
  lemma {:induction false} FormatInjective(a: string, b: string)
    requires |a| > 0 && IsAsciiLower(a[0]) && !HasDoPrefix(a)
    requires |b| > 0 && IsAsciiLower(b[0]) && !HasDoPrefix(b)
    requires FormatMethodName(a) == FormatMethodName(b)
    ensures a == b
  {
    FormatRecoverable(a);
    FormatRecoverable(b);
  }

  /**
   * The unchanged branch yields no procedure that prefixing cannot reach: a
   * `do[A-Z]` name is also what prefixing gives for a name without the form
   * (its tail after `do`).  The converse fails (prefixing also yields `do`,
   * `do1x`, `do_x`), and the two branches collide: `GetFoo` and `doGetFoo`
   * are both sent to `doGetFoo`.
   */
  lemma {:induction false} PrefixedReachedByPrefixing(name: string)
    requires HasDoPrefix(name)
    ensures exists n :: !HasDoPrefix(n) && FormatMethodName(n) == name
  {
    var n := name[2..];
    assert !HasDoPrefix(n);
    assert FormatMethodName(n) == Prefix + UcFirst(n) == name;
  }

  /** `getFoo` is sent as `doGetFoo`. */
  lemma GetFooExample()
    ensures FormatMethodName("getFoo") == "doGetFoo"
  {
  }

  /** `doGetFoo` already has the form and is sent unchanged. */
  lemma PrefixedExample()
    ensures FormatMethodName("doGetFoo") == "doGetFoo"
  {
  }

  /** The operation documented on the class: `getSellFormFieldsExt`. */
  lemma SellFormFieldsExample()
    ensures FormatMethodName("getSellFormFieldsExt") == "doGetSellFormFieldsExt"
  {
    var rest := "etSellFormFieldsExt";
    assert "getSellFormFieldsExt" == ['g'] + rest;
    assert (['g'] + rest)[1..] == rest;
    assert "doGetSellFormFieldsExt" == Prefix + ['G'] + rest;
  }
}
