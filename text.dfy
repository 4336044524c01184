/** String helpers the components use: `trim`, `toLowerCase`, the
    `charAt(0).toUpperCase() + slice(1)` label expression and `includes`.
    Characters are treated ASCII-style: only the ASCII whitespace characters
    count for trimming and only the letters A-Z / a-z change case. */
module Text {

  /** The ASCII characters that `String.prototype.trim` removes. */
  predicate IsSpace(c: char) {
    c == ' ' || c == '\t' || c == '\n' || c == '\r' || c == '\U{000B}' || c == '\U{000C}'
  }

  /** Drops the leading whitespace. */
  function TrimStart(s: string): (r: string)
    ensures |r| <= |s|
  {
    if s != [] && IsSpace(s[0]) then TrimStart(s[1..]) else s
  }

  /** Drops the trailing whitespace. */
  function TrimEnd(s: string): (r: string)
    ensures |r| <= |s|
  {
    if s != [] && IsSpace(s[|s| - 1]) then TrimEnd(s[..|s| - 1]) else s
  }

  /** `TrimStart` removes a prefix made of whitespace and stops at the first other character. */
  lemma {:induction false} TrimStartSpec(s: string)
    ensures TrimStart(s) == s[|s| - |TrimStart(s)|..]
    ensures forall i :: 0 <= i < |s| - |TrimStart(s)| ==> IsSpace(s[i])
    ensures TrimStart(s) == [] || !IsSpace(TrimStart(s)[0])
  {
    if s != [] && IsSpace(s[0]) {
      TrimStartSpec(s[1..]);
    }
  }

  /** `TrimEnd` removes a suffix made of whitespace and stops at the last other character. */
  lemma {:induction false} TrimEndSpec(s: string)
    ensures TrimEnd(s) == s[..|TrimEnd(s)|]
    ensures forall i :: |TrimEnd(s)| <= i < |s| ==> IsSpace(s[i])
    ensures TrimEnd(s) == [] || !IsSpace(TrimEnd(s)[|TrimEnd(s)| - 1])
  {
    if s != [] && IsSpace(s[|s| - 1]) {
      TrimEndSpec(s[..|s| - 1]);
    }
  }

  /** `s.trim()`: the longest slice of `s` that neither starts nor ends with whitespace. */
  function Trim(s: string): string {
    TrimEnd(TrimStart(s))
  }

  /** `!s.trim()`: the trimmed string is the empty (falsy) string. */
  predicate IsBlank(s: string) {
    Trim(s) == ""
  }

  /** A string trims to nothing exactly when every character of it is whitespace. */
  lemma BlankIffAllSpace(s: string)
    ensures IsBlank(s) <==> forall i :: 0 <= i < |s| ==> IsSpace(s[i])
  {
    var t := TrimStart(s);
    TrimStartSpec(s);
    TrimEndSpec(t);
    if IsBlank(s) {
      assert t == [];
    } else {
      assert Trim(s)[0] == t[0] == s[|s| - |t|];
    }
  }

  /** The trimmed string neither starts nor ends with whitespace, and
      trimming it again changes nothing. */
  lemma TrimSpec(s: string)
    ensures Trim(s) != [] ==> !IsSpace(Trim(s)[0]) && !IsSpace(Trim(s)[|Trim(s)| - 1])
    ensures Trim(Trim(s)) == Trim(s)
  {
    var t := TrimStart(s);
    var r := Trim(s);
    TrimStartSpec(s);
    TrimEndSpec(t);
    if r != [] {
      assert r[0] == t[0];
      assert TrimStart(r) == r;
      assert TrimEnd(r) == r;
    }
  }

  /** ASCII `toLowerCase` of one character. */
  function LowerChar(c: char): char {
    if 'A' <= c <= 'Z' then (c as int + 32) as char else c
  }

  /** ASCII `toUpperCase` of one character. */
  function UpperChar(c: char): char {
    if 'a' <= c <= 'z' then (c as int - 32) as char else c
  }

  /** `s.toLowerCase()`, character by character. */
  function Lower(s: string): (r: string)
    ensures |r| == |s|
    ensures forall i :: 0 <= i < |s| ==> r[i] == LowerChar(s[i])
  {
    if s == [] then [] else [LowerChar(s[0])] + Lower(s[1..])
  }

  /** `key.charAt(0).toUpperCase() + key.slice(1)`: `charAt(0)` of the empty
      string is the empty string, so the empty key stays empty. */
  function Capitalise(key: string): string {
    if key == "" then "" else [UpperChar(key[0])] + key[1..]
  }

  /** The label has the key's length, its first character upper-cased and
      every later character unchanged. */
  lemma CapitaliseShape(key: string)
    ensures |Capitalise(key)| == |key|
    ensures key != "" ==> Capitalise(key)[0] == UpperChar(key[0])
    ensures forall i :: 0 < i < |key| ==> Capitalise(key)[i] == key[i]
  {
  }

  /** `s` begins with `sub`. */
  predicate StartsWith(s: string, sub: string) {
    |sub| <= |s| && s[..|sub|] == sub
  }

  /** `s.includes(sub)`. */
  predicate Contains(s: string, sub: string) {
    StartsWith(s, sub) || (s != [] && Contains(s[1..], sub))
  }

  /** `sub` occurs in `s` starting at position `i`. */
  predicate OccursAt(s: string, sub: string, i: int) {
    0 <= i <= |s| - |sub| && s[i..i + |sub|] == sub
  }

  /** `includes` holds exactly when `sub` occurs at some position of `s`. */
  lemma {:induction false} ContainsIff(s: string, sub: string)
    ensures Contains(s, sub) <==> exists i :: OccursAt(s, sub, i)
  {
    if StartsWith(s, sub) {
      assert OccursAt(s, sub, 0);
    } else if s == [] {
    } else {
      ContainsIff(s[1..], sub);
      if Contains(s[1..], sub) {
        var i :| OccursAt(s[1..], sub, i);
        assert s[i + 1..i + 1 + |sub|] == s[1..][i..i + |sub|];
        assert OccursAt(s, sub, i + 1);
      }
      if exists i :: OccursAt(s, sub, i) {
        var i :| OccursAt(s, sub, i);
        assert i != 0;
        assert s[1..][i - 1..i - 1 + |sub|] == s[i..i + |sub|];
        assert OccursAt(s[1..], sub, i - 1);
      }
    }
  }

  /** Every string includes the empty string. */
  lemma ContainsEmpty(s: string)
    ensures Contains(s, "")
  {
  }
}
