/**
 * String helpers shared by the components: the whitespace that JavaScript's
 * `trim()` and the regular-expression class `\s` remove, ASCII case mapping,
 * `includes` / `startsWith`, the `||` fallback on strings, and decimal
 * formatting of amounts as `toLocaleString()` prints them in an English locale.
 */
module Text {
  import opened Wrappers

  // ---------------------------------------------------------------- whitespace

  /** A character that `trim()` strips and `\s` matches. */
  predicate IsSpace(c: char) {
    c == ' ' || c == '\t' || c == '\n' || c == '\r' || c == '\U{000B}' || c == '\U{000C}'
    || c == '\U{00A0}' || c == '\U{1680}' || ('\U{2000}' <= c <= '\U{200A}') || c == '\U{2028}' || c == '\U{2029}'
    || c == '\U{202F}' || c == '\U{205F}' || c == '\U{3000}' || c == '\U{FEFF}'
  }

  /** Every character of `s` is whitespace (so `s.trim()` is empty). */
  predicate IsBlank(s: string) {
    forall i :: 0 <= i < |s| ==> IsSpace(s[i])
  }

  /** `s` with its leading whitespace removed. */
  function TrimStart(s: string): (r: string)
    ensures |r| <= |s| && r == s[|s| - |r|..]
    ensures r == [] || !IsSpace(r[0])
    ensures forall i :: 0 <= i < |s| - |r| ==> IsSpace(s[i])
    ensures s != [] && IsSpace(s[0]) ==> |r| < |s|
  {
    if s != [] && IsSpace(s[0]) then TrimStart(s[1..]) else s
  }

  /** `s` with its trailing whitespace removed. */
  function TrimEnd(s: string): (r: string)
    ensures |r| <= |s| && r == s[..|r|]
    ensures r == [] || !IsSpace(r[|r| - 1])
    ensures forall i :: |r| <= i < |s| ==> IsSpace(s[i])
  {
    if s != [] && IsSpace(s[|s| - 1]) then TrimEnd(s[..|s| - 1]) else s
  }

  /** JavaScript's `s.trim()`. */
  function Trim(s: string): string {
    TrimEnd(TrimStart(s))
  }

  /** Leading whitespace is all there is to strip from a blank string. */
  lemma {:induction false} TrimStartBlank(s: string)
    requires IsBlank(s)
    ensures TrimStart(s) == []
  {
    if s != [] {
      assert IsSpace(s[0]);
      TrimStartBlank(s[1..]);
    }
  }

  /** `s.trim()` is the empty string exactly when `s` is all whitespace. */
  lemma TrimEmptyIffBlank(s: string)
    ensures Trim(s) == [] <==> IsBlank(s)
  {
    var t := TrimStart(s);
    if Trim(s) == [] && t != [] {
      // t would be all whitespace yet start with a non-space character
      assert false;
    }
    if IsBlank(s) {
      TrimStartBlank(s);
    }
  }

  /** No character of `w` is whitespace. */
  predicate NoSpace(w: string) {
    forall i :: 0 <= i < |w| ==> !IsSpace(w[i])
  }

  /** `s` with every run of whitespace replaced by one space. */
  function Collapse(s: string): string
    decreases |s|
  {
    if s == [] then []
    else if IsSpace(s[0]) then " " + Collapse(TrimStart(s))
    else [s[0]] + Collapse(s[1..])
  }

  /** The pieces joined with one space between each two. */
  function JoinSpace(ws: seq<string>): string
    requires |ws| >= 1
  {
    if |ws| == 1 then ws[0] else ws[0] + " " + JoinSpace(ws[1..])
  }

  /** `s.split(/\s+/)` continued from a piece `cur` already read. */
  function SplitFrom(s: string, cur: string): (r: seq<string>)
    ensures |r| >= 1
    decreases |s|
  {
    if s == [] then [cur]
    else if IsSpace(s[0]) then
      [cur] + SplitFrom(TrimStart(s), "")
    else SplitFrom(s[1..], cur + [s[0]])
  }

  /** Started from a piece without whitespace, no piece holds whitespace. */
  lemma {:induction false} SplitFromNoSpace(s: string, cur: string)
    requires NoSpace(cur)
    ensures forall w :: w in SplitFrom(s, cur) ==> NoSpace(w)
    decreases |s|
  {
    if s != [] {
      if IsSpace(s[0]) {
        SplitFromNoSpace(TrimStart(s), "");
      } else {
        assert NoSpace(cur + [s[0]]);
        SplitFromNoSpace(s[1..], cur + [s[0]]);
      }
    }
  }

  /**
   * JavaScript's `s.split(/\s+/)`: the pieces between runs of whitespace, with
   * an empty piece where `s` starts or ends with whitespace (and `[""]` for "").
   */
  function SplitWs(s: string): (r: seq<string>)
    ensures |r| >= 1
    ensures forall w :: w in r ==> NoSpace(w)
  {
    SplitFromNoSpace(s, "");
    SplitFrom(s, "")
  }

  /** Joining the pieces read from `cur` on gives `cur` followed by `s` with its whitespace runs collapsed. */
  lemma {:induction false} SplitFromJoins(s: string, cur: string)
    ensures JoinSpace(SplitFrom(s, cur)) == cur + Collapse(s)
    decreases |s|
  {
    if s != [] {
      if IsSpace(s[0]) {
        SplitFromJoins(TrimStart(s), "");
        var rest := SplitFrom(TrimStart(s), "");
        assert ([cur] + rest)[1..] == rest;
      } else {
        SplitFromJoins(s[1..], cur + [s[0]]);
        assert cur + [s[0]] + Collapse(s[1..]) == cur + ([s[0]] + Collapse(s[1..]));
      }
    }
  }

  /** The pieces joined with single spaces give `s` with each run of whitespace collapsed to one space. */
  lemma SplitWsJoins(s: string)
    ensures JoinSpace(SplitWs(s)) == Collapse(s)
  {
    SplitFromJoins(s, "");
  }

  // ------------------------------------------------------------ case mapping

  /** `toLowerCase` on one character (ASCII letters only). */
  function LowerChar(c: char): char {
    if 'A' <= c <= 'Z' then (c as int + 32) as char else c
  }

  /** `toUpperCase` on one character (ASCII letters only). */
  function UpperChar(c: char): char {
    if 'a' <= c <= 'z' then (c as int - 32) as char else c
  }

  /** `s.toLowerCase()`, character by character. */
  function Lower(s: string): (r: string)
    ensures |r| == |s|
    ensures forall i :: 0 <= i < |s| ==> r[i] == LowerChar(s[i])
  {
    if s == [] then [] else [LowerChar(s[0])] + Lower(s[1..])
  }

  /** `s.toUpperCase()`, character by character. */
  function Upper(s: string): (r: string)
    ensures |r| == |s|
    ensures forall i :: 0 <= i < |s| ==> r[i] == UpperChar(s[i])
  {
    if s == [] then [] else [UpperChar(s[0])] + Upper(s[1..])
  }

  /** Lower-casing forgets any earlier upper-casing. */
  lemma LowerOfUpper(s: string)
    ensures Lower(Upper(s)) == Lower(s)
  {
    var a, b := Lower(Upper(s)), Lower(s);
    assert |a| == |b|;
    forall i | 0 <= i < |a| ensures a[i] == b[i] {
      assert a[i] == LowerChar(UpperChar(s[i]));
    }
  }

  // --------------------------------------------------------- substring tests

  /** `s.startsWith(p)`. */
  predicate StartsWith(s: string, p: string) {
    |p| <= |s| && s[..|p|] == p
  }

  /** `s.includes(sub)`: `sub` occurs in `s` at some position. */
  predicate Contains(s: string, sub: string)
    decreases |s|
  {
    StartsWith(s, sub) || (s != [] && Contains(s[1..], sub))
  }

  /** `sub` sits in `s` starting at index `i`. */
  predicate OccursAt(s: string, sub: string, i: int) {
    0 <= i <= |s| - |sub| && s[i..i + |sub|] == sub
  }

  /** `includes` tests every position: it holds exactly when `sub` sits at some index of `s`. */
  lemma {:induction false} ContainsIffOccurs(s: string, sub: string)
    ensures Contains(s, sub) <==> exists i :: OccursAt(s, sub, i)
    decreases |s|
  {
    if StartsWith(s, sub) {
      assert OccursAt(s, sub, 0);
    }
    if s == [] {
      if exists i :: OccursAt(s, sub, i) {
        var i :| OccursAt(s, sub, i);
        assert StartsWith(s, sub);
      }
    } else {
      ContainsIffOccurs(s[1..], sub);
      if exists i :: OccursAt(s, sub, i) {
        var i :| OccursAt(s, sub, i);
        if i > 0 {
          assert s[1..][i - 1..i - 1 + |sub|] == s[i..i + |sub|];
          assert OccursAt(s[1..], sub, i - 1);
        }
      }
      if Contains(s[1..], sub) {
        var j :| OccursAt(s[1..], sub, j);
        assert s[1..][j..j + |sub|] == s[j + 1..j + 1 + |sub|];
        assert OccursAt(s, sub, j + 1);
      }
    }
  }

  // -------------------------------------------------------------- fallbacks

  /** JavaScript's `x || fallback` on an optional string: null, undefined and "" all fall through. */
  function OrElse(x: Option<string>, fallback: string): (r: string)
    ensures x.Some? && x.value != [] ==> r == x.value
    ensures x.None? || x.value == [] ==> r == fallback
  {
    if x.Some? && x.value != [] then x.value else fallback
  }

  /** `s || null`: an empty form field is stored as null. */
  function NullIfEmpty(s: string): (r: Option<string>)
    ensures r.None? <==> s == []
    ensures r.Some? ==> r.value == s
  {
    if s == [] then None else Some(s)
  }

  // ---------------------------------------------------------------- numbers

  function DigitChar(d: nat): (c: char)
    requires d < 10
    ensures '0' <= c <= '9'
  {
    ('0' as int + d) as char
  }

  function DigitValue(c: char): nat
    requires '0' <= c <= '9'
  {
    c as int - '0' as int
  }

  /** A natural number in decimal, without separators. */
  function NatToString(n: nat): (r: string)
    ensures |r| >= 1
    ensures forall i :: 0 <= i < |r| ==> '0' <= r[i] <= '9'
  {
    if n < 10 then [DigitChar(n)] else NatToString(n / 10) + [DigitChar(n % 10)]
  }

  /** The value of a string of decimal digits. */
  function ParseDigits(s: string): nat
    requires forall i :: 0 <= i < |s| ==> '0' <= s[i] <= '9'
  {
    if s == [] then 0 else ParseDigits(s[..|s| - 1]) * 10 + DigitValue(s[|s| - 1])
  }

  /** Printing a number and reading it back gives the number. */
  lemma {:induction false} ParseNatToString(n: nat)
    ensures ParseDigits(NatToString(n)) == n
  {
    if n >= 10 {
      var s := NatToString(n);
      assert s[..|s| - 1] == NatToString(n / 10);
      ParseNatToString(n / 10);
    }
  }

  /** Exactly three digits, zero-padded: one group after a thousands separator. */
  function Group3(n: nat): (r: string)
    requires n < 1000
    ensures |r| == 3
  {
    [DigitChar(n / 100), DigitChar(n / 10 % 10), DigitChar(n % 10)]
  }

  /** A natural number with a comma between groups of three digits ("20,000"). */
  function Grouped(n: nat): (r: string)
    ensures |r| >= 1
  {
    if n < 1000 then NatToString(n) else Grouped(n / 1000) + "," + Group3(n % 1000)
  }

  /** An integral amount as `toLocaleString()` prints it ("-1,500" for a negative one). */
  function FormatAmount(x: int): string {
    if x < 0 then "-" + Grouped(-x) else Grouped(x)
  }
}
