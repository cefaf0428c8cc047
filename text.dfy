/**
 * Strings as the UI sees them: JavaScript white space, `trim`, an ASCII
 * `toLowerCase`, `includes` and `startsWith`.
 */
module Text {

  /** The characters JavaScript's `\s` class and `String.prototype.trim` treat as white space
      (WhiteSpace and LineTerminator of ECMAScript). */
  predicate IsSpace(c: char)
    ensures IsSpace(c) ==> !('0' <= c <= '9') && !('A' <= c <= 'Z') && !('a' <= c <= 'z')
  {
    ('\U{9}' <= c <= '\U{D}') || c == ' ' || c == '\U{A0}' || c == '\U{1680}'
    || ('\U{2000}' <= c <= '\U{200A}') || c == '\U{2028}' || c == '\U{2029}'
    || c == '\U{202F}' || c == '\U{205F}' || c == '\U{3000}' || c == '\U{FEFF}'
  }

  /** Every character of `s` is white space (the empty string included). */
  predicate IsBlank(s: string) {
    forall i :: 0 <= i < |s| ==> IsSpace(s[i])
  }

  /** `s.trimStart()`: a suffix of `s` that does not start with white space. */
  function TrimStart(s: string): (r: string)
    ensures |r| <= |s| && r == s[|s| - |r|..]
    ensures r != "" ==> !IsSpace(r[0])
    decreases |s|
  {
    if |s| > 0 && IsSpace(s[0]) then TrimStart(s[1..]) else s
  }

  /** `s.trimEnd()`: a prefix of `s` that does not end with white space, and not empty when `s`
      starts with something else. */
  function TrimEnd(s: string): (r: string)
    ensures |r| <= |s| && r == s[..|r|]
    ensures r != "" ==> !IsSpace(r[|r| - 1])
    ensures s != "" && !IsSpace(s[0]) ==> r != ""
    decreases |s|
  {
    if |s| > 0 && IsSpace(s[|s| - 1]) then TrimEnd(s[..|s| - 1]) else s
  }

  /** `s.trim()`: empty exactly for a blank string, and otherwise a piece of `s` with no white
      space at either end. */
  function Trim(s: string): (r: string)
    ensures r == "" <==> IsBlank(s)
    ensures |r| <= |s|
    ensures r != "" ==> !IsSpace(r[0]) && !IsSpace(r[|r| - 1])
  {
    TrimStartEmpty(s);
    TrimEnd(TrimStart(s))
  }

  lemma {:induction false} TrimStartEmpty(s: string)
    ensures TrimStart(s) == "" <==> IsBlank(s)
    decreases |s|
  {
    if |s| > 0 && IsSpace(s[0]) {
      TrimStartEmpty(s[1..]);
      assert IsBlank(s) <==> IsBlank(s[1..]) by {
        if IsBlank(s[1..]) {
          forall i | 0 <= i < |s| ensures IsSpace(s[i]) {
            if i > 0 { assert s[i] == s[1..][i - 1]; }
          }
        }
      }
    }
  }

  predicate IsDigit(c: char) {
    '0' <= c <= '9'
  }

  predicate AllDigits(s: string) {
    forall i :: 0 <= i < |s| ==> IsDigit(s[i])
  }

  /** The value of a string of decimal digits. */
  function Decimal(s: string): nat
    requires AllDigits(s)
    decreases |s|
  {
    if |s| == 0 then 0 else 10 * Decimal(s[..|s| - 1]) + (s[|s| - 1] as int - '0' as int)
  }

  /** ASCII `toLowerCase` on one character; every other character is kept. */
  function LowerChar(c: char): char {
    if 'A' <= c <= 'Z' then (c as int + 32) as char else c
  }

  /** ASCII `toLowerCase`. */
  function Lower(s: string): (r: string)
    ensures |r| == |s|
    ensures forall i :: 0 <= i < |s| ==> r[i] == LowerChar(s[i])
  {
    seq(|s|, i requires 0 <= i < |s| => LowerChar(s[i]))
  }

  /** `s.startsWith(p)` */
  predicate StartsWith(s: string, p: string) {
    |p| <= |s| && s[..|p|] == p
  }

  /** `s.includes(t)`: `t` occurs in `s` starting at some position; only a string no longer than
      `s` can, and one exactly as long only when it is `s`. */
  predicate Contains(s: string, t: string)
    ensures Contains(s, t) ==> |t| <= |s|
    ensures |t| == |s| ==> (Contains(s, t) <==> s == t)
    decreases |s|
  {
    StartsWith(s, t) || (|s| > 0 && Contains(s[1..], t))
  }

  /** `t` occurs in `s` at position `i`. */
  predicate OccursAt(s: string, t: string, i: int) {
    0 <= i && i + |t| <= |s| && s[i..i + |t|] == t
  }

  /** `includes` holds exactly when some window of `s` equals `t`. */
  lemma {:induction false} ContainsIff(s: string, t: string)
    ensures Contains(s, t) <==> exists i :: OccursAt(s, t, i)
    decreases |s|
  {
    if StartsWith(s, t) {
      assert OccursAt(s, t, 0);
    } else if |s| > 0 {
      ContainsIff(s[1..], t);
      if Contains(s[1..], t) {
        var i :| OccursAt(s[1..], t, i);
        assert s[1..][i..i + |t|] == s[i + 1..i + 1 + |t|];
        assert OccursAt(s, t, i + 1);
      } else {
        forall i | OccursAt(s, t, i) ensures false {
          if i > 0 {
            assert s[1..][i - 1..i - 1 + |t|] == s[i..i + |t|];
            assert OccursAt(s[1..], t, i - 1);
          }
        }
      }
    } else {
      assert forall i :: !OccursAt(s, t, i);
    }
  }

  /** The empty string occurs in every string (so an empty search keeps everything). */
  lemma ContainsEmpty(s: string)
    ensures Contains(s, "")
  {
  }

  /** Lowering twice is lowering once. */
  lemma LowerIdempotent(s: string)
    ensures Lower(Lower(s)) == Lower(s)
  {
  }

  /** A string that contains `t` contains every window of `t`. */
  lemma ContainsWindow(s: string, t: string, j: int, n: int)
    requires Contains(s, t) && 0 <= j <= j + n <= |t|
    ensures Contains(s, t[j..j + n])
  {
    ContainsIff(s, t);
    var i :| OccursAt(s, t, i);
    forall k | j <= k < j + n ensures t[k] == s[i + k] {
      assert t[k] == s[i..i + |t|][k];
    }
    assert t[j..j + n] == s[i + j..i + j + n];
    assert OccursAt(s, t[j..j + n], i + j);
    ContainsIff(s, t[j..j + n]);
  }

  /** A character of `t` that `s` lacks rules `t` out of `s`. */
  lemma MissingChar(s: string, t: string, j: int)
    requires 0 <= j < |t| && t[j] !in s
    ensures !Contains(s, t)
  {
    if Contains(s, t) {
      ContainsWindow(s, t, j, 1);
    }
  }

  /** A lower-case letter absent from `s` in both cases is absent from `Lower(s)`. */
  lemma LowerMissing(s: string, c: char)
    requires 'a' <= c <= 'z' && c !in s && (c as int - 32) as char !in s
    ensures c !in Lower(s)
  {
  }

  /** A lower-case letter that `s` holds once, at `|a|`, and nowhere else in either case,
      appears in `Lower(s)` only there. */
  lemma LowerOnlyAt(s: string, a: string, c: char, b: string)
    requires s == a + ([c] + b)
    requires 'a' <= c <= 'z'
    requires c !in a && c !in b && (c as int - 32) as char !in a && (c as int - 32) as char !in b
    ensures forall k :: 0 <= k < |s| && Lower(s)[k] == c ==> k == |a|
  {
  }

  /** A window of `s` equal to `t` shows that `s` contains `t`. */
  lemma ContainsAt(s: string, t: string, i: int)
    requires OccursAt(s, t, i)
    ensures Contains(s, t)
  {
    ContainsIff(s, t);
  }

  /** When `t[j]` can stand in `s` only at `p`, `t` can only occur at `p - j`. */
  lemma OnlyPlacement(s: string, t: string, j: int, p: int)
    requires 0 <= j < |t|
    requires forall k :: 0 <= k < |s| && s[k] == t[j] ==> k == p
    requires !OccursAt(s, t, p - j)
    ensures !Contains(s, t)
  {
    ContainsIff(s, t);
  }

  /** One differing character rules out an occurrence. */
  lemma MismatchAt(s: string, t: string, i: int, j: int)
    requires 0 <= j < |t| && 0 <= i + j < |s| && s[i + j] != t[j]
    ensures !OccursAt(s, t, i)
  {
  }
}
