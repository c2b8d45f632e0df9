/** The JavaScript string operations the dashboard relies on, over `seq<char>`:
    `toLowerCase` (ASCII letters only), `includes`, `trim`, the `<` relation
    on strings and the decimal rendering of integers in template literals. */
module Strings {

  /** `toLowerCase` on one character; only the 26 ASCII capitals are folded. */
  function LowerChar(c: char): char {
    if 'A' <= c <= 'Z' then (c as int + 32) as char else c
  }

  predicate IsUpper(c: char) { 'A' <= c <= 'Z' }

  /** `s.toLowerCase()`. */
  function Lower(s: string): (r: string)
    ensures |r| == |s|
  {
    seq(|s|, i requires 0 <= i < |s| => LowerChar(s[i]))
  }

  /** Each character is folded on its own, and no capital survives. */
  lemma {:induction false} LowerAt(s: string, i: int)
    requires 0 <= i < |s|
    ensures Lower(s)[i] == LowerChar(s[i]) && !IsUpper(Lower(s)[i])
  {
    if i > 0 {
      LowerAt(s[1..], i - 1);
    }
  }

  /** Lower-casing is determined character by character. */
  lemma LowerPointwise(s: string, t: string)
    requires |s| == |t|
    requires forall i :: 0 <= i < |s| ==> LowerChar(s[i]) == t[i]
    ensures Lower(s) == t
  {
    forall i | 0 <= i < |s|
      ensures Lower(s)[i] == t[i]
    {
      LowerAt(s, i);
    }
  }

  /** Lower-casing twice is lower-casing once. */
  lemma LowerIdempotent(s: string)
    ensures Lower(Lower(s)) == Lower(s)
  {
    forall i | 0 <= i < |s|
      ensures Lower(Lower(s))[i] == Lower(s)[i]
    {
      LowerAt(s, i);
      LowerAt(Lower(s), i);
    }
  }

  /** Lower-casing distributes over concatenation. */
  lemma {:induction false} LowerAppend(a: string, b: string)
    ensures Lower(a + b) == Lower(a) + Lower(b)
  {
    if a == [] {
      assert a + b == b;
    } else {
      assert (a + b)[1..] == a[1..] + b;
      LowerAppend(a[1..], b);
    }
  }

  /** `p` is a prefix of `s`. */
  predicate StartsWith(s: string, p: string)
    decreases |p|
  {
    p == [] || (s != [] && s[0] == p[0] && StartsWith(s[1..], p[1..]))
  }

  /** `s.includes(q)`, by scanning the start positions left to right. */
  predicate Contains(s: string, q: string)
    decreases |s|
  {
    StartsWith(s, q) || (s != [] && Contains(s[1..], q))
  }

  /** The positional meaning of the prefix test. */
  lemma {:induction false} StartsWithIff(s: string, p: string)
    ensures StartsWith(s, p) <==> |p| <= |s| && s[..|p|] == p
  {
    if p != [] && s != [] {
      StartsWithIff(s[1..], p[1..]);
      if |p| <= |s| && s[..|p|] == p {
        assert s[1..][..|p| - 1] == s[..|p|][1..];
      }
      if StartsWith(s, p) {
        assert s[..|p|] == [s[0]] + s[1..][..|p| - 1];
      }
    }
  }

  /** `q` occurs in `s` starting at offset `i`. */
  predicate OccursAt(s: string, q: string, i: int) {
    0 <= i && i + |q| <= |s| && s[i..i + |q|] == q
  }

  /** `includes` holds exactly when `q` occurs as a slice of `s` at some offset. */
  lemma {:induction false} ContainsIff(s: string, q: string)
    ensures Contains(s, q) <==> exists i :: OccursAt(s, q, i)
  {
    StartsWithIff(s, q);
    if s == [] {
      if Contains(s, q) {
        assert OccursAt(s, q, 0);
      }
    } else {
      ContainsIff(s[1..], q);
      if Contains(s, q) {
        if StartsWith(s, q) {
          assert OccursAt(s, q, 0);
        } else {
          var i :| OccursAt(s[1..], q, i);
          assert s[i + 1..i + 1 + |q|] == s[1..][i..i + |q|];
          assert OccursAt(s, q, i + 1);
        }
      }
      if exists i :: OccursAt(s, q, i) {
        var i :| OccursAt(s, q, i);
        if i > 0 {
          assert s[1..][i - 1..i - 1 + |q|] == s[i..i + |q|];
          assert OccursAt(s[1..], q, i - 1);
        } else {
          assert s[..|q|] == q;
        }
      }
    }
  }

  /** The characters `String.prototype.trim` strips: ECMAScript WhiteSpace
      (including the Unicode space separators) and LineTerminator. */
  predicate IsSpace(c: char) {
    c == ' ' || c == '\t' || c == '\n' || c == '\r' || c == '\U{000B}' || c == '\U{000C}'
    || c == '\U{00A0}' || c == '\U{1680}' || ('\U{2000}' <= c <= '\U{200A}')
    || c == '\U{2028}' || c == '\U{2029}' || c == '\U{202F}' || c == '\U{205F}'
    || c == '\U{3000}' || c == '\U{FEFF}'
  }

  function TrimStart(s: string): (r: string)
    ensures r == [] || !IsSpace(r[0])
  {
    if s != [] && IsSpace(s[0]) then TrimStart(s[1..]) else s
  }

  function TrimEnd(s: string): (r: string)
    ensures r == [] || !IsSpace(r[|r| - 1])
  {
    if s != [] && IsSpace(s[|s| - 1]) then TrimEnd(s[..|s| - 1]) else s
  }

  /** `s.trim()`. */
  function Trim(s: string): string {
    TrimEnd(TrimStart(s))
  }

  /** `!s.trim()`: the string is empty once trimmed. */
  predicate IsBlank(s: string) {
    Trim(s) == []
  }

  lemma {:induction false} TrimStartEmptyIff(s: string)
    ensures TrimStart(s) == [] <==> forall i :: 0 <= i < |s| ==> IsSpace(s[i])
  {
    if s != [] && IsSpace(s[0]) {
      TrimStartEmptyIff(s[1..]);
      assert forall i :: 1 <= i < |s| ==> s[i] == s[1..][i - 1];
    }
  }

  lemma {:induction false} TrimEndEmptyIff(s: string)
    ensures TrimEnd(s) == [] <==> forall i :: 0 <= i < |s| ==> IsSpace(s[i])
  {
    if s != [] && IsSpace(s[|s| - 1]) {
      TrimEndEmptyIff(s[..|s| - 1]);
      assert forall i :: 0 <= i < |s| - 1 ==> s[i] == s[..|s| - 1][i];
    }
  }

  /** A string is blank exactly when every character is white space;
      in particular the empty string is blank and any non-space character
      makes the string non-blank. */
  lemma BlankIff(s: string)
    ensures IsBlank(s) <==> forall i :: 0 <= i < |s| ==> IsSpace(s[i])
  {
    TrimStartEmptyIff(s);
    var t := TrimStart(s);
    TrimEndEmptyIff(t);
    if t != [] {
      assert !IsSpace(t[0]);
    }
  }

  /** The UTF-16 code units of one character: the character itself in the
      Basic Multilingual Plane, a high and a low surrogate above it. */
  function Units(c: char): seq<int> {
    if c as int < 0x1_0000 then [c as int]
    else [0xD800 + (c as int - 0x1_0000) / 0x400, 0xDC00 + (c as int - 0x1_0000) % 0x400]
  }

  /** The sequence of UTF-16 code units a JavaScript string is made of. */
  function Utf16(s: string): seq<int> {
    if s == [] then [] else Units(s[0]) + Utf16(s[1..])
  }

  /** Lexicographic order on code units, a proper prefix being smaller:
      what JavaScript's `<` does on two strings. */
  predicate UnitsLess(u: seq<int>, v: seq<int>)
    decreases |u|
  {
    if u == [] then v != []
    else if v == [] then false
    else if u[0] != v[0] then u[0] < v[0]
    else UnitsLess(u[1..], v[1..])
  }

  /** The first code unit of a character. */
  function LeadUnit(c: char): int {
    if c as int < 0x1_0000 then c as int else 0xD800 + (c as int - 0x1_0000) / 0x400
  }

  /** The order of two characters under `<`: by their first code units, and
      when both lie above the Basic Multilingual Plane behind the same high
      surrogate, by their low surrogates, which follow the code points. So
      U+1F600 comes before U+FF61. */
  predicate CharBefore(x: char, y: char) {
    if LeadUnit(x) != LeadUnit(y) then LeadUnit(x) < LeadUnit(y) else x < y
  }

  /** JavaScript `a < b` on strings, character by character; a proper prefix
      is smaller. LessIsUtf16Order shows it is the code-unit order. */
  predicate Less(a: string, b: string)
    decreases |a|
  {
    if a == [] then b != []
    else if b == [] then false
    else if a[0] != b[0] then CharBefore(a[0], b[0])
    else Less(a[1..], b[1..])
  }

  lemma {:induction false} UnitsLessCommonPrefix(p: seq<int>, u: seq<int>, v: seq<int>)
    ensures UnitsLess(p + u, p + v) == UnitsLess(u, v)
    decreases |p|
  {
    if p != [] {
      assert (p + u)[1..] == p[1..] + u;
      assert (p + v)[1..] == p[1..] + v;
      UnitsLessCommonPrefix(p[1..], u, v);
    } else {
      assert p + u == u && p + v == v;
    }
  }

  /** The first characters that differ decide the code-unit order, whatever
      follows them: no character's units are a prefix of another's. */
  lemma UnitsLessFirstDiffer(x: char, y: char, u: seq<int>, v: seq<int>)
    requires x != y
    ensures UnitsLess(Units(x) + u, Units(y) + v) == CharBefore(x, y)
  {
    var ux, uy := Units(x) + u, Units(y) + v;
    assert ux[0] == LeadUnit(x) && uy[0] == LeadUnit(y);
    if LeadUnit(x) == LeadUnit(y) {
      assert 0x1_0000 <= x as int && 0x1_0000 <= y as int;
      var q := (x as int - 0x1_0000) / 0x400;
      assert ux[1] == 0xDC00 + (x as int - 0x1_0000) % 0x400;
      assert uy[1] == 0xDC00 + (y as int - 0x1_0000) % 0x400;
      assert x as int == 0x1_0000 + 0x400 * q + (x as int - 0x1_0000) % 0x400;
      assert y as int == 0x1_0000 + 0x400 * q + (y as int - 0x1_0000) % 0x400;
      assert ux[1] != uy[1] && (ux[1] < uy[1] <==> x < y);
      assert UnitsLess(ux, uy) == UnitsLess(ux[1..], uy[1..]);
    }
  }

  /** A character above the Basic Multilingual Plane sorts before a late
      one inside it: U+1F600 starts with the surrogate 0xD83D, below 0xFF61. */
  lemma SurrogatesSortEarly()
    ensures Less("\U{1F600}", "\U{FF61}") && !Less("\U{FF61}", "\U{1F600}")
  {
  }

  /** `Less` is JavaScript's order: lexicographic on UTF-16 code units. */
  lemma {:induction false} LessIsUtf16Order(a: string, b: string)
    ensures Less(a, b) <==> UnitsLess(Utf16(a), Utf16(b))
    decreases |a|
  {
    if a != [] && b != [] {
      if a[0] == b[0] {
        UnitsLessCommonPrefix(Units(a[0]), Utf16(a[1..]), Utf16(b[1..]));
        LessIsUtf16Order(a[1..], b[1..]);
      } else {
        UnitsLessFirstDiffer(a[0], b[0], Utf16(a[1..]), Utf16(b[1..]));
      }
    }
  }

  lemma {:induction false} LessIrreflexive(a: string)
    ensures !Less(a, a)
  {
    if a != [] {
      LessIrreflexive(a[1..]);
    }
  }

  lemma {:induction false} LessAsymmetric(a: string, b: string)
    ensures Less(a, b) ==> !Less(b, a)
  {
    if a != [] && b != [] && a[0] == b[0] {
      LessAsymmetric(a[1..], b[1..]);
    }
  }

  lemma {:induction false} LessTransitive(a: string, b: string, c: string)
    ensures Less(a, b) && Less(b, c) ==> Less(a, c)
  {
    if a != [] && b != [] && c != [] && a[0] == b[0] && b[0] == c[0] {
      LessTransitive(a[1..], b[1..], c[1..]);
    }
  }

  /** Any two distinct strings are ordered one way or the other. */
  lemma {:induction false} LessTotal(a: string, b: string)
    ensures a == b || Less(a, b) || Less(b, a)
  {
    if a != [] && b != [] && a[0] == b[0] {
      LessTotal(a[1..], b[1..]);
      if a[1..] == b[1..] {
        assert a == [a[0]] + a[1..] && b == [b[0]] + b[1..];
      }
    }
  }

  function DigitChar(d: nat): (c: char)
    requires d < 10
    ensures '0' <= c <= '9'
  {
    ('0' as int + d) as char
  }

  /** The decimal digits of a natural number, most significant first. */
  function NatToString(n: nat): (r: string)
    ensures r != []
    ensures forall i :: 0 <= i < |r| ==> '0' <= r[i] <= '9'
    decreases n
  {
    if n < 10 then [DigitChar(n)] else NatToString(n / 10) + [DigitChar(n % 10)]
  }

  /** `${i}` for an integer `i`. */
  function IntToString(i: int): string {
    if i < 0 then "-" + NatToString(-i) else NatToString(i)
  }

  /** The value of a string of decimal digits. */
  function DigitsValue(s: string): int
    decreases |s|
  {
    if s == [] then 0 else DigitsValue(s[..|s| - 1]) * 10 + (s[|s| - 1] as int - '0' as int)
  }

  /** The value of an optionally signed decimal numeral. */
  function ParseInt(s: string): int {
    if s != [] && s[0] == '-' then -DigitsValue(s[1..]) else DigitsValue(s)
  }

  lemma {:induction false} NatToStringValue(n: nat)
    ensures DigitsValue(NatToString(n)) == n
    decreases n
  {
    if n >= 10 {
      NatToStringValue(n / 10);
      var r := NatToString(n);
      assert r[..|r| - 1] == NatToString(n / 10);
    }
  }

  /** Rendering an integer and reading it back gives the integer. */
  lemma IntToStringRoundTrip(i: int)
    ensures ParseInt(IntToString(i)) == i
  {
    if i < 0 {
      NatToStringValue(-i);
      assert IntToString(i)[1..] == NatToString(-i);
    } else {
      NatToStringValue(i);
    }
  }

  /** An occurrence of `q` in `a + [c] + b`, where `c` does not occur in
      `q`, lies inside `a` or inside `b`. */
  lemma ContainsAcross(a: string, c: char, b: string, q: string)
    requires c !in q
    ensures Contains(a + [c] + b, q) ==> Contains(a, q) || Contains(b, q)
  {
    var s := a + [c] + b;
    ContainsIff(s, q);
    ContainsIff(a, q);
    ContainsIff(b, q);
    if Contains(s, q) {
      var i :| OccursAt(s, q, i);
      assert s[|a|] == c;
      assert forall k :: 0 <= k < |q| ==> s[i + k] == q[k];
      assert !(i <= |a| < i + |q|);
      if i + |q| <= |a| {
        assert s[i..i + |q|] == a[i..i + |q|];
        assert OccursAt(a, q, i);
      } else {
        assert s[i..i + |q|] == b[i - |a| - 1..i - |a| - 1 + |q|];
        assert OccursAt(b, q, i - |a| - 1);
      }
    }
  }

  /** An occurrence in either part is an occurrence in the concatenation. */
  lemma ContainsAppend(a: string, b: string, q: string)
    ensures Contains(a, q) ==> Contains(a + b, q)
    ensures Contains(b, q) ==> Contains(a + b, q)
  {
    ContainsIff(a, q);
    ContainsIff(b, q);
    ContainsIff(a + b, q);
    if Contains(a, q) {
      var i :| OccursAt(a, q, i);
      assert (a + b)[i..i + |q|] == a[i..i + |q|];
      assert OccursAt(a + b, q, i);
    }
    if Contains(b, q) {
      var i :| OccursAt(b, q, i);
      assert (a + b)[|a| + i..|a| + i + |q|] == b[i..i + |q|];
      assert OccursAt(a + b, q, |a| + i);
    }
  }

  // ---- Case-insensitive search, piece by piece ----

  /** Text shorter than the search string does not contain it. */
  lemma AbsentShort(w: string, q: string)
    requires |w| < |q|
    ensures !Contains(Lower(w), q)
  {
    ContainsIff(Lower(w), q);
  }

  /** Text lacking, in either case, a letter of the search string does not
      contain it. */
  lemma AbsentLetter(w: string, q: string, c: char)
    requires 'a' <= c <= 'z' && c in q && c !in w && (c as int - 32) as char !in w
    ensures !Contains(Lower(w), q)
  {
    ContainsIff(Lower(w), q);
  }

  /** Text made of two pieces around a separator whose lower case is not in
      the search string contains it only if one of the pieces does. */
  lemma AbsentAround(s: string, a: string, c: char, b: string, q: string)
    requires s == a + [c] + b
    requires LowerChar(c) !in q && !Contains(Lower(a), q) && !Contains(Lower(b), q)
    ensures !Contains(Lower(s), q)
  {
    LowerAppend(a + [c], b);
    LowerAppend(a, [c]);
    assert Lower([c]) == [LowerChar(c)];
    ContainsAcross(Lower(a), LowerChar(c), Lower(b), q);
  }

  /** A piece that contains the search string, case-insensitively, makes the
      whole text contain it. */
  lemma PresentIn(s: string, a: string, b: string, q: string)
    requires s == a + b
    requires Contains(Lower(a), q) || Contains(Lower(b), q)
    ensures Contains(Lower(s), q)
  {
    LowerAppend(a, b);
    ContainsAppend(Lower(a), Lower(b), q);
  }

  /** Strings with the same first `k` characters and a smaller character at
      position `k` are ordered. */
  lemma {:induction false} LessAt(a: string, b: string, k: nat)
    requires k < |a| && k < |b| && a[..k] == b[..k] && CharBefore(a[k], b[k])
    ensures Less(a, b)
    decreases k
  {
    if k > 0 {
      assert a[0] == a[..k][0] == b[..k][0] == b[0];
      assert a[1..][..k - 1] == a[..k][1..];
      assert b[1..][..k - 1] == b[..k][1..];
      LessAt(a[1..], b[1..], k - 1);
    }
  }

  /** Strings with the same first `k` characters whose characters at `k`
      are ordered once folded are ordered once lower-cased. */
  lemma LessAtLower(a: string, b: string, k: nat)
    requires k < |a| && k < |b| && a[..k] == b[..k] && CharBefore(LowerChar(a[k]), LowerChar(b[k]))
    ensures Less(Lower(a), Lower(b))
  {
    forall i | 0 <= i < k ensures Lower(a)[i] == Lower(b)[i] {
      assert a[i] == a[..k][i] && b[i] == b[..k][i];
      LowerAt(a, i);
      LowerAt(b, i);
    }
    assert Lower(a)[..k] == Lower(b)[..k];
    LowerAt(a, k);
    LowerAt(b, k);
    LessAt(Lower(a), Lower(b), k);
  }

  /** Text without capitals is its own lower-case form. */
  lemma LowerNoUpper(s: string)
    requires forall i :: 0 <= i < |s| ==> !IsUpper(s[i])
    ensures Lower(s) == s
  {
    LowerPointwise(s, s);
  }
}
