/**
 * `String.prototype.trim`: removal of leading and trailing white space and
 * line terminators, as the ECMAScript language defines those characters.
 */
module TextTrim {

  /** The characters `trim` removes: white space (including every space separator) and line terminators. */
  const TrimmableChars: set<char> := {
    '\t', '\U{B}', '\U{C}', ' ', '\U{A0}', '\U{FEFF}', '\U{1680}',
    '\U{2000}', '\U{2001}', '\U{2002}', '\U{2003}', '\U{2004}', '\U{2005}',
    '\U{2006}', '\U{2007}', '\U{2008}', '\U{2009}', '\U{200A}',
    '\U{202F}', '\U{205F}', '\U{3000}',
    '\n', '\r', '\U{2028}', '\U{2029}'
  }

  predicate IsTrimmable(c: char)
  {
    c in TrimmableChars
  }

  /** Every character of `s` is one `trim` removes. */
  predicate Blank(s: string)
  {
    forall i :: 0 <= i < |s| ==> IsTrimmable(s[i])
  }

  lemma BlankCons(c: char, s: string)
    requires IsTrimmable(c) && Blank(s)
    ensures Blank([c] + s)
  {
    var z := [c] + s;
    forall i | 0 <= i < |z| ensures IsTrimmable(z[i]) {
      if i > 0 { assert z[i] == s[i - 1]; }
    }
  }

  lemma BlankSnoc(s: string, c: char)
    requires Blank(s) && IsTrimmable(c)
    ensures Blank(s + [c])
  {
    var z := s + [c];
    forall i | 0 <= i < |z| ensures IsTrimmable(z[i]) {
      if i < |s| { assert z[i] == s[i]; }
    }
  }

  /** `s` without its leading trimmable characters. */
  function TrimStart(s: string): (r: string)
    ensures |r| <= |s| && r == s[|s| - |r|..]
    ensures Blank(s[..|s| - |r|])
    ensures r != [] ==> !IsTrimmable(r[0])
  {
    if |s| > 0 && IsTrimmable(s[0]) then
      var t := TrimStart(s[1..]);
      assert s[1..][|s| - 1 - |t|..] == s[|s| - |t|..];
      BlankCons(s[0], s[1..][..|s| - 1 - |t|]);
      assert s[..|s| - |t|] == [s[0]] + s[1..][..|s| - 1 - |t|];
      t
    else s
  }

  /** `s` without its trailing trimmable characters. */
  function TrimEnd(s: string): (r: string)
    ensures |r| <= |s| && r == s[..|r|]
    ensures Blank(s[|r|..])
    ensures r != [] ==> !IsTrimmable(r[|r| - 1])
  {
    if |s| > 0 && IsTrimmable(s[|s| - 1]) then
      var t := TrimEnd(s[..|s| - 1]);
      assert s[..|s| - 1][..|t|] == s[..|t|];
      BlankSnoc(s[..|s| - 1][|t|..], s[|s| - 1]);
      assert s[|t|..] == s[..|s| - 1][|t|..] + [s[|s| - 1]];
      t
    else s
  }

  /** `s.trim()`: leaves nothing exactly when every character is trimmable. */
  function Trim(s: string): (r: string)
    ensures r == [] <==> Blank(s)
  {
    var u := TrimStart(s);
    assert s == s[..|s| - |u|] + u;
    var r := TrimEnd(u);
    assert r == [] ==> Blank(u[0..]) && u == [];
    r
  }

  /** The guard `!text.trim()`: whether trimming leaves nothing. */
  method TrimsToEmpty(s: string) returns (b: bool)
    ensures b <==> Blank(s)
  {
    b := Trim(s) == [];
  }
}
