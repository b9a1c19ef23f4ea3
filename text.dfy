/**
 * The string primitives the chat widget relies on: ASCII case mapping
 * (`toLowerCase`, `toUpperCase`), substring search (`includes`) and
 * `trim`, each with an independent characterisation.
 */
module Text {

  /** `toLowerCase` on one character, restricted to ASCII letters. */
  function LowerChar(c: char): char
  {
    if 'A' <= c <= 'Z' then (c as int + 32) as char else c
  }

  /** `toUpperCase` on one character, restricted to ASCII letters. */
  function UpperChar(c: char): char
  {
    if 'a' <= c <= 'z' then (c as int - 32) as char else c
  }

  function Lower(s: string): (r: string)
    ensures |r| == |s|
    ensures forall i :: 0 <= i < |s| ==> r[i] == LowerChar(s[i])
  {
    seq(|s|, i requires 0 <= i < |s| => LowerChar(s[i]))
  }

  function Upper(s: string): (r: string)
    ensures |r| == |s|
    ensures forall i :: 0 <= i < |s| ==> r[i] == UpperChar(s[i])
  {
    seq(|s|, i requires 0 <= i < |s| => UpperChar(s[i]))
  }

  /** No character of `s` is an upper-case ASCII letter. */
  predicate IsLowerCase(s: string)
  {
    forall i :: 0 <= i < |s| ==> !('A' <= s[i] <= 'Z')
  }

  /** Lowering leaves a lower-case string alone, and its result is lower-case. */
  lemma LowerFixesLowerCase(s: string)
    ensures IsLowerCase(Lower(s))
    ensures IsLowerCase(s) <==> Lower(s) == s
  {
    if IsLowerCase(s) {
      assert forall i :: 0 <= i < |s| ==> Lower(s)[i] == s[i];
    }
    if Lower(s) == s {
      forall i | 0 <= i < |s| ensures !('A' <= s[i] <= 'Z') {
        assert Lower(s)[i] == LowerChar(s[i]);
      }
    }
  }

  lemma LowerIdempotent(s: string)
    ensures Lower(Lower(s)) == Lower(s)
  {
    LowerFixesLowerCase(s);
    LowerFixesLowerCase(Lower(s));
  }

  /** Lowering commutes with taking a slice. */
  lemma LowerSlice(s: string, i: nat, j: nat)
    requires i <= j <= |s|
    ensures Lower(s)[i..j] == Lower(s[i..j])
  {
  }

  lemma UpperConcat(a: string, b: string)
    ensures Upper(a + b) == Upper(a) + Upper(b)
  {
  }

  // ---------------------------------------------------------------
  // Substring search: `text.includes(pattern)`
  // ---------------------------------------------------------------

  predicate StartsWith(s: string, p: string)
  {
    |p| <= |s| && s[..|p|] == p
  }

  /** `s.includes(p)`: `p` occurs in `s` at some position (the empty pattern occurs everywhere). */
  predicate Contains(s: string, p: string)
    decreases |s|
  {
    StartsWith(s, p) || (|s| > 0 && Contains(s[1..], p))
  }

  /** `p` occurs in `s` starting at index `i`. */
  ghost predicate OccursAt(s: string, p: string, i: int)
  {
    0 <= i && i + |p| <= |s| && s[i..i + |p|] == p
  }

  lemma {:induction false} ContainsIff(s: string, p: string)
    ensures Contains(s, p) <==> exists i :: OccursAt(s, p, i)
    decreases |s|
  {
    if exists i :: OccursAt(s, p, i) {
      var i :| OccursAt(s, p, i);
      if i > 0 {
        assert s[1..][i - 1..i - 1 + |p|] == s[i..i + |p|];
        assert OccursAt(s[1..], p, i - 1);
        ContainsIff(s[1..], p);
      }
    }
    if Contains(s, p) {
      if StartsWith(s, p) {
        assert OccursAt(s, p, 0);
      } else {
        ContainsIff(s[1..], p);
        var i :| OccursAt(s[1..], p, i);
        assert s[1..][i..i + |p|] == s[i + 1..i + 1 + |p|];
        assert OccursAt(s, p, i + 1);
      }
    }
  }

  /** Every character of an occurring pattern is a character of the text. */
  lemma ContainsChars(s: string, p: string, k: nat)
    requires Contains(s, p)
    requires k < |p|
    ensures p[k] in s
  {
    ContainsIff(s, p);
    var i :| OccursAt(s, p, i);
    assert s[i..i + |p|][k] == s[i + k];
  }

  /** An occurrence of an occurrence is an occurrence. */
  lemma ContainsTransitive(s: string, p: string, q: string)
    requires Contains(s, p) && Contains(p, q)
    ensures Contains(s, q)
  {
    ContainsIff(s, p);
    ContainsIff(p, q);
    var i :| OccursAt(s, p, i);
    var j :| OccursAt(p, q, j);
    forall t | 0 <= t < |q| ensures s[i + j..i + j + |q|][t] == q[t] {
      assert q[t] == p[j + t] == s[i + j + t];
    }
    assert OccursAt(s, q, i + j);
    ContainsIff(s, q);
  }

  /** A pattern holding a character the text lacks does not occur in it. */
  lemma AbsentCharRefutes(s: string, p: string, c: char)
    requires c in p && c !in s
    ensures !Contains(s, p)
  {
    var k :| 0 <= k < |p| && p[k] == c;
    if Contains(s, p) {
      ContainsChars(s, p, k);
    }
  }

  /** A lower-case pattern found in `s` is also found in `Lower(s)`. */
  lemma LowerKeepsLowerPattern(s: string, p: string)
    requires Contains(s, p)
    requires IsLowerCase(p)
    ensures Contains(Lower(s), p)
  {
    ContainsIff(s, p);
    var i :| OccursAt(s, p, i);
    LowerSlice(s, i, i + |p|);
    LowerFixesLowerCase(p);
    assert OccursAt(Lower(s), p, i);
    ContainsIff(Lower(s), p);
  }

  // ---------------------------------------------------------------
  // `trim()`
  // ---------------------------------------------------------------

  /**
   * The characters `String.prototype.trim` strips: ECMAScript WhiteSpace
   * (tab, vertical tab, form feed, space, no-break space, zero-width
   * no-break space and the space separators of Unicode category Zs) and
   * LineTerminator (line feed, carriage return, line and paragraph separators).
   */
  predicate IsTrimSpace(c: char)
  {
    c == '\t' || c == '\n' || c == '\U{000B}' || c == '\U{000C}' || c == '\r' || c == ' '
    || c == '\U{00A0}' || c == '\U{1680}' || ('\U{2000}' <= c <= '\U{200A}')
    || c == '\U{2028}' || c == '\U{2029}' || c == '\U{202F}' || c == '\U{205F}'
    || c == '\U{3000}' || c == '\U{FEFF}'
  }

  /** Drops leading trim-space: the result is the suffix after the first non-space character. */
  function TrimStart(s: string): (r: string)
    ensures |r| <= |s| && r == s[|s| - |r|..]
    ensures forall k :: 0 <= k < |s| - |r| ==> IsTrimSpace(s[k])
    ensures r != [] ==> !IsTrimSpace(r[0])
    decreases |s|
  {
    if s != [] && IsTrimSpace(s[0]) then TrimStart(s[1..]) else s
  }

  /** Drops trailing trim-space: the result is the prefix up to the last non-space character. */
  function TrimEnd(s: string): (r: string)
    ensures |r| <= |s| && r == s[..|r|]
    ensures forall k :: |r| <= k < |s| ==> IsTrimSpace(s[k])
    ensures r != [] ==> !IsTrimSpace(r[|r| - 1])
    decreases |s|
  {
    if s != [] && IsTrimSpace(s[|s| - 1]) then TrimEnd(s[..|s| - 1]) else s
  }

  function Trim(s: string): string
  {
    TrimEnd(TrimStart(s))
  }

  /** `!s.trim()` holds exactly when every character of `s` is trim-space. */
  lemma TrimEmptyIff(s: string)
    ensures Trim(s) == [] <==> forall k :: 0 <= k < |s| ==> IsTrimSpace(s[k])
  {
    var t := TrimStart(s);
    if Trim(s) == [] {
      forall k | 0 <= k < |s| ensures IsTrimSpace(s[k]) {
        if k >= |s| - |t| {
          assert s[k] == t[k - (|s| - |t|)];
        }
      }
    } else {
      var r := Trim(s);
      assert !IsTrimSpace(r[0]);
      assert r[0] == t[0] == s[|s| - |t|];
    }
  }
}
