/** JavaScript values and the built-in string operations the pages rely on.
    A value that may be missing is an `Option`. Where the pages read it
    through `?.` or `||`, null and undefined behave alike, and both are
    `None`; where only undefined is possible (an omitted prop), `None` is
    undefined. Case mapping is ASCII-only:
    `toLowerCase` and `toUpperCase` change only the letters A-Z and a-z and
    leave every other character as it is. `trim` removes the characters
    ECMAScript counts as WhiteSpace or LineTerminator. */
module Js {

  datatype Option<+T> = None | Some(value: T) {
    /** The value, or `default` when there is none: an omitted (undefined) prop taking its default. */
    function GetOr(default: T): T {
      match this
      case Some(v) => v
      case None => default
    }
  }

  /** `v || d` for a string that may be null or undefined: "" is falsy. */
  function OrString(v: Option<string>, d: string): (r: string)
    ensures v.Some? && v.value != "" ==> r == v.value
    ensures (v.None? || v.value == "") ==> r == d
    ensures d != "" ==> r != ""
  {
    if v.Some? && v.value != "" then v.value else d
  }

  /** `v || d` for a number that may be null or undefined: 0 is falsy. */
  function OrNumber(v: Option<int>, d: int): (r: int)
    ensures d == 0 ==> r == v.GetOr(0)
    ensures v.Some? && v.value != 0 ==> r == v.value
  {
    if v.Some? && v.value != 0 then v.value else d
  }

  lemma OrStringDefaultWhenFalsy(v: Option<string>, d: string)
    ensures OrString(v, d) == d <==> v.None? || v.value == "" || v.value == d
    ensures d != "" ==> OrString(v, d) != ""
  {
  }

  // ---------------------------------------------------------------- case

  predicate IsAsciiUpper(c: char) { 'A' <= c <= 'Z' }
  predicate IsAsciiLower(c: char) { 'a' <= c <= 'z' }

  function LowerChar(c: char): char {
    if IsAsciiUpper(c) then (c as int + 32) as char else c
  }

  function UpperChar(c: char): char {
    if IsAsciiLower(c) then (c as int - 32) as char else c
  }

  /** `s.toLowerCase()`: same length, every character lowered. */
  function ToLowerCase(s: string): (r: string)
    ensures |r| == |s|
    ensures forall i :: 0 <= i < |s| ==> r[i] == LowerChar(s[i])
  {
    if s == "" then "" else [LowerChar(s[0])] + ToLowerCase(s[1..])
  }

  /** `s.toUpperCase()`: same length, every character raised. */
  function ToUpperCase(s: string): (r: string)
    ensures |r| == |s|
    ensures forall i :: 0 <= i < |s| ==> r[i] == UpperChar(s[i])
  {
    if s == "" then "" else [UpperChar(s[0])] + ToUpperCase(s[1..])
  }

  /** Lowering twice is lowering once. */
  lemma LowerIdempotent(s: string)
    ensures ToLowerCase(ToLowerCase(s)) == ToLowerCase(s)
  {
    var once := ToLowerCase(s);
    var twice := ToLowerCase(once);
    forall i | 0 <= i < |s| ensures twice[i] == once[i] {
      assert once[i] == LowerChar(s[i]);
    }
  }

  /** Lowering forgets any earlier upper-casing: the two cases of a letter compare equal. */
  lemma LowerOfUpper(s: string)
    ensures ToLowerCase(ToUpperCase(s)) == ToLowerCase(s)
  {
    var up := ToUpperCase(s);
    var l1 := ToLowerCase(up);
    var l2 := ToLowerCase(s);
    forall i | 0 <= i < |s| ensures l1[i] == l2[i] {
      assert up[i] == UpperChar(s[i]);
    }
  }

  // --------------------------------------------------------------- charAt

  /** `s.charAt(i)`: the one-character string at `i`, or "" past the end. */
  function CharAt(s: string, i: nat): (r: string)
    ensures |r| <= 1
    ensures i < |s| ==> r == [s[i]]
    ensures i >= |s| ==> r == ""
  {
    if i < |s| then [s[i]] else ""
  }

  // ----------------------------------------------------------------- trim

  /** The characters `String.prototype.trim` removes (ECMAScript WhiteSpace and LineTerminator). */
  predicate IsWhiteSpace(c: char) {
    var n := c as int;
    n == 0x09 || n == 0x0A || n == 0x0B || n == 0x0C || n == 0x0D || n == 0x20
    || n == 0xA0 || n == 0x1680 || (0x2000 <= n <= 0x200A) || n == 0x2028 || n == 0x2029
    || n == 0x202F || n == 0x205F || n == 0x3000 || n == 0xFEFF
  }

  predicate AllWhiteSpace(s: string) {
    forall i :: 0 <= i < |s| ==> IsWhiteSpace(s[i])
  }

  /** Drops the leading white space: the result is a suffix of `s` that does
      not start with white space, and everything dropped is white space. */
  function TrimStart(s: string): (r: string)
    ensures |r| <= |s| && r == s[|s| - |r|..]
    ensures r != "" ==> !IsWhiteSpace(r[0])
    ensures forall i :: 0 <= i < |s| - |r| ==> IsWhiteSpace(s[i])
    decreases |s|
  {
    if s != "" && IsWhiteSpace(s[0]) then
      var r := TrimStart(s[1..]);
      assert forall i :: 1 <= i < |s| ==> s[i] == s[1..][i - 1];
      r
    else
      s
  }

  /** Drops the trailing white space: the result is a prefix of `s` that does
      not end with white space, and everything dropped is white space. */
  function TrimEnd(s: string): (r: string)
    ensures |r| <= |s| && r == s[..|r|]
    ensures r != "" ==> !IsWhiteSpace(r[|r| - 1])
    ensures forall i :: |r| <= i < |s| ==> IsWhiteSpace(s[i])
    decreases |s|
  {
    if s != "" && IsWhiteSpace(s[|s| - 1]) then TrimEnd(s[..|s| - 1]) else s
  }

  /** `s.trim()`: neither end of the result is white space. */
  function Trim(s: string): (r: string)
    ensures r == "" || (!IsWhiteSpace(r[0]) && !IsWhiteSpace(r[|r| - 1]))
  {
    TrimEnd(TrimStart(s))
  }

  /** `!s.trim()` holds exactly when every character of `s` is white space. */
  lemma TrimEmptyIffAllWhiteSpace(s: string)
    ensures Trim(s) == "" <==> AllWhiteSpace(s)
  {
    var t := TrimStart(s);
    var d := |s| - |t|;
    if Trim(s) == "" {
      assert t == "";
    } else {
      var r := Trim(s);
      assert r[0] == t[0] == s[d];
      assert !IsWhiteSpace(s[d]);
    }
  }

  // ------------------------------------------------------------- includes

  /** `s.includes(sub)`. */
  predicate Includes(s: string, sub: string): (r: bool)
    ensures sub <= s ==> r
    ensures r ==> |sub| <= |s|
    decreases |s|
  {
    sub <= s || (s != "" && Includes(s[1..], sub))
  }

  /** `sub` stands in `s` starting at index `i`. */
  ghost predicate OccursAt(s: string, sub: string, i: int) {
    0 <= i && i + |sub| <= |s| && s[i..i + |sub|] == sub
  }

  /** `Includes` is the substring relation. */
  lemma {:induction false} IncludesIffOccurs(s: string, sub: string)
    ensures Includes(s, sub) <==> exists i :: OccursAt(s, sub, i)
    decreases |s|
  {
    if sub <= s {
      assert OccursAt(s, sub, 0);
    } else if s == "" {
    } else {
      IncludesIffOccurs(s[1..], sub);
      if Includes(s[1..], sub) {
        var i :| OccursAt(s[1..], sub, i);
        assert s[i + 1..i + 1 + |sub|] == s[1..][i..i + |sub|];
        assert OccursAt(s, sub, i + 1);
      }
      if exists i :: OccursAt(s, sub, i) {
        var i :| OccursAt(s, sub, i);
        assert s[1..][i - 1..i - 1 + |sub|] == s[i..i + |sub|];
        assert OccursAt(s[1..], sub, i - 1);
      }
    }
  }

  /** Every string includes "", and nothing includes a longer string. */
  lemma {:induction false} IncludesLength(s: string, sub: string)
    ensures sub == "" ==> Includes(s, sub)
    ensures Includes(s, sub) ==> |sub| <= |s|
    decreases |s|
  {
    if s != "" && !(sub <= s) {
      IncludesLength(s[1..], sub);
    }
  }

  /** A non-empty string is included only where its first character occurs. */
  lemma {:induction false} IncludesHasFirstChar(s: string, sub: string)
    requires sub != "" && Includes(s, sub)
    ensures sub[0] in s
    decreases |s|
  {
    if !(sub <= s) {
      IncludesHasFirstChar(s[1..], sub);
    }
  }
}
