/** String helpers shared by the pages: the parts of JavaScript's String
    behaviour that the storefront relies on (toLowerCase, includes, trim,
    Number.prototype.toString for non-negative integers). */
module Text {

  /** An upper-case ASCII letter. */
  predicate IsUpper(c: char) {
    'A' <= c <= 'Z'
  }

  /** `toLowerCase` on one character, for the ASCII letters. */
  function LowerChar(c: char): char {
    if IsUpper(c) then (c as int + 32) as char else c
  }

  /** `s.toLowerCase()`, character by character. */
  function ToLower(s: string): string {
    seq(|s|, i requires 0 <= i < |s| => LowerChar(s[i]))
  }

  /** Lower-casing leaves no upper-case letter and is idempotent. */
  lemma ToLowerIsLower(s: string)
    ensures forall i :: 0 <= i < |s| ==> !IsUpper(ToLower(s)[i])
    ensures ToLower(ToLower(s)) == ToLower(s)
  {
  }

  /** `t` occurs in `s` starting at offset `i`. */
  predicate OccursAt(s: string, t: string, i: int) {
    0 <= i <= |s| - |t| && s[i..i + |t|] == t
  }

  /** `s.includes(t)`: `t` occurs in `s` at some offset. */
  predicate Contains(s: string, t: string) {
    exists i | 0 <= i <= |s| - |t| :: OccursAt(s, t, i)
  }

  /** Every string includes the empty string, so an empty query matches everything. */
  lemma ContainsEmpty(s: string)
    ensures Contains(s, "")
  {
    assert OccursAt(s, "", 0);
  }

  /** `includes` is transitive: if `t` occurs in `s` and `u` occurs in `t`, then `u` occurs in `s`. */
  lemma ContainsTransitive(s: string, t: string, u: string)
    requires Contains(s, t) && Contains(t, u)
    ensures Contains(s, u)
  {
    var i :| 0 <= i <= |s| - |t| && OccursAt(s, t, i);
    var j :| 0 <= j <= |t| - |u| && OccursAt(t, u, j);
    assert s[i..i + |t|] == t;
    forall k | 0 <= k < |u| ensures s[i + j + k] == u[k] {
      assert t[j + k] == u[k];
      assert s[i..i + |t|][j + k] == s[i + j + k];
    }
    assert s[i + j..i + j + |u|] == u;
    assert OccursAt(s, u, i + j);
  }

  /** A string occurs in anything it is a slice of. */
  lemma ContainsSlice(s: string, i: int, j: int)
    requires 0 <= i <= j <= |s|
    ensures Contains(s, s[i..j])
  {
    assert OccursAt(s, s[i..j], i);
  }

  /** The characters `String.prototype.trim` removes: ECMAScript WhiteSpace
      (TAB, VT, FF, SPACE, NBSP, ZWNBSP and the Zs separators) and LineTerminator
      (LF, CR, LS, PS). */
  predicate IsSpace(c: char) {
    || c == '\t' || c == '\U{000B}' || c == '\U{000C}' || c == ' '
    || c == '\U{00A0}' || c == '\U{FEFF}' || c == '\U{1680}'
    || ('\U{2000}' <= c <= '\U{200A}')
    || c == '\U{202F}' || c == '\U{205F}' || c == '\U{3000}'
    || c == '\n' || c == '\r' || c == '\U{2028}' || c == '\U{2029}'
  }

  /** Every character of `s` is white space (vacuously true of ""). */
  predicate IsBlank(s: string) {
    forall i :: 0 <= i < |s| ==> IsSpace(s[i])
  }

  function TrimStart(s: string): string {
    if s != [] && IsSpace(s[0]) then TrimStart(s[1..]) else s
  }

  function TrimEnd(s: string): string {
    if s != [] && IsSpace(s[|s| - 1]) then TrimEnd(s[..|s| - 1]) else s
  }

  /** `s.trim()`. */
  function Trim(s: string): string {
    TrimEnd(TrimStart(s))
  }

  lemma {:induction false} TrimStartSpec(s: string)
    ensures exists k :: 0 <= k <= |s| && TrimStart(s) == s[k..] && IsBlank(s[..k])
    ensures TrimStart(s) == [] || !IsSpace(TrimStart(s)[0])
    decreases |s|
  {
    if s != [] && IsSpace(s[0]) {
      TrimStartSpec(s[1..]);
      var k :| 0 <= k <= |s[1..]| && TrimStart(s[1..]) == s[1..][k..] && IsBlank(s[1..][..k]);
      assert TrimStart(s) == s[k + 1..] by {
        assert s[k + 1..] == s[1..][k..];
      }
      var blank, rest := s[..k + 1], s[1..][..k];
      forall i | 0 <= i < |blank| ensures IsSpace(blank[i]) {
        if i > 0 {
          assert blank[i] == rest[i - 1];
        }
      }
    } else {
      assert s[0..] == s;
      assert s[..0] == [];
    }
  }

  lemma {:induction false} TrimEndSpec(s: string)
    ensures exists k :: 0 <= k <= |s| && TrimEnd(s) == s[..k] && IsBlank(s[k..])
    ensures TrimEnd(s) == [] || !IsSpace(TrimEnd(s)[|TrimEnd(s)| - 1])
    decreases |s|
  {
    if s != [] && IsSpace(s[|s| - 1]) {
      var t := s[..|s| - 1];
      TrimEndSpec(t);
      var k :| 0 <= k <= |t| && TrimEnd(t) == t[..k] && IsBlank(t[k..]);
      assert TrimEnd(s) == s[..k] by {
        assert t[..k] == s[..k];
      }
      var blank, rest := s[k..], t[k..];
      forall i | 0 <= i < |blank| ensures IsSpace(blank[i]) {
        if i < |rest| {
          assert blank[i] == rest[i];
        }
      }
    } else {
      assert s[..|s|] == s;
      assert s[|s|..] == [];
    }
  }

  /** `trim` yields a blank string exactly when its input is blank: this is the
      guard `!text.trim()` used by every form and chat box. */
  lemma TrimEmptyIffBlank(s: string)
    ensures Trim(s) == [] <==> IsBlank(s)
  {
    TrimStartSpec(s);
    var k :| 0 <= k <= |s| && TrimStart(s) == s[k..] && IsBlank(s[..k]);
    TrimEndSpec(TrimStart(s));
    var m :| 0 <= m <= |s[k..]| && TrimEnd(s[k..]) == s[k..][..m] && IsBlank(s[k..][m..]);
    if Trim(s) == [] {
      assert m == 0;
      assert s == s[..k];
    } else {
      assert !IsSpace(Trim(s)[0]) by { TrimStartOfTrimmed(s, k, m); }
      assert Trim(s)[0] == s[k];
    }
  }

  /** Helper for `TrimEmptyIffBlank`: the first character of a non-empty trim is
      the first character left by `TrimStart`. */
  lemma TrimStartOfTrimmed(s: string, k: int, m: int)
    requires 0 <= k <= |s| && TrimStart(s) == s[k..]
    requires 0 <= m <= |s| - k && TrimEnd(s[k..]) == s[k..][..m]
    requires Trim(s) != []
    ensures !IsSpace(Trim(s)[0])
  {
    TrimStartSpec(s);
    assert Trim(s)[0] == TrimStart(s)[0];
  }

  /** A trimmed string neither starts nor ends with white space, and trimming
      again changes nothing. */
  lemma TrimIdempotent(s: string)
    ensures Trim(Trim(s)) == Trim(s)
  {
    var u := TrimStart(s);
    var t := TrimEnd(u);
    if t != [] {
      TrimEndSpec(u);
      TrimStartSpec(s);
      var m :| 0 <= m <= |u| && t == u[..m] && IsBlank(u[m..]);
      assert t[0] == u[0];
      assert TrimStart(t) == t;
      assert TrimEnd(t) == t;
    }
  }

  // ---------------------------------------------------------------- length

  /** A character beyond U+FFFF, which UTF-16 stores as a surrogate pair. */
  predicate IsAstral(c: char) {
    c as int > 0xFFFF
  }

  /** JavaScript's `s.length`: the number of UTF-16 code units, one per
      character of the Basic Multilingual Plane and two per astral one. */
  function Utf16Length(s: string): (n: nat)
    ensures |s| <= n <= 2 * |s|
  {
    if s == [] then 0 else (if IsAstral(s[0]) then 2 else 1) + Utf16Length(s[1..])
  }

  /** `s.length` counts characters exactly when no character is astral. */
  lemma {:induction false} Utf16LengthCountsChars(s: string)
    ensures Utf16Length(s) == |s| <==> forall i :: 0 <= i < |s| ==> !IsAstral(s[i])
  {
    if s != [] {
      Utf16LengthCountsChars(s[1..]);
      if forall i :: 0 <= i < |s[1..]| ==> !IsAstral(s[1..][i]) {
        forall i | 0 <= i < |s| && i > 0 ensures !IsAstral(s[i]) {
          assert s[i] == s[1..][i - 1];
        }
      } else {
        var i :| 0 <= i < |s[1..]| && IsAstral(s[1..][i]);
        assert s[i + 1] == s[1..][i];
      }
    }
  }

  /** Three U+1F600 characters are six UTF-16 code units. */
  lemma ThreeEmojiAreSixUnits()
    ensures Utf16Length("\U{1F600}\U{1F600}\U{1F600}") == 6
  {
    var s := "\U{1F600}\U{1F600}\U{1F600}";
    assert s[1..][1..][1..] == [];
  }

  /** The digit characters of `Number.prototype.toString`. */
  function DigitChar(d: nat): char
    requires d < 10
  {
    ('0' as int + d) as char
  }

  /** `n.toString()` for a non-negative integer: its decimal digits, no leading zero. */
  function NatToString(n: nat): (r: string)
    ensures |r| >= 1
    ensures forall i :: 0 <= i < |r| ==> '0' <= r[i] <= '9'
  {
    if n < 10 then [DigitChar(n)] else NatToString(n / 10) + [DigitChar(n % 10)]
  }

  /** Reads a string of decimal digits back as a number. */
  function ParseDecimal(s: string): nat
    requires forall i :: 0 <= i < |s| ==> '0' <= s[i] <= '9'
  {
    if s == [] then 0 else 10 * ParseDecimal(s[..|s| - 1]) + (s[|s| - 1] as int - '0' as int)
  }

  /** Decimal printing round-trips, so distinct numbers print differently. */
  lemma {:induction false} ParseNatToString(n: nat)
    ensures ParseDecimal(NatToString(n)) == n
  {
    if n >= 10 {
      ParseNatToString(n / 10);
      var s := NatToString(n);
      assert s[..|s| - 1] == NatToString(n / 10);
      assert s[|s| - 1] == DigitChar(n % 10);
      assert ParseDecimal(s) == 10 * (n / 10) + n % 10;
    }
  }

  lemma NatToStringInjective(m: nat, n: nat)
    requires NatToString(m) == NatToString(n)
    ensures m == n
  {
    ParseNatToString(m);
    ParseNatToString(n);
  }
}
