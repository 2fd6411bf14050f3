/** The JavaScript string operations the pages rely on, over `seq<char>`:
    ASCII `toLowerCase`, `includes`, `startsWith`, `split`, `join`, `trim`,
    `replace` of a first occurrence, and decimal rendering of integers. */
module Strings {

  /** `toLowerCase` on one character, ASCII letters only. */
  function LowerChar(c: char): char {
    if 'A' <= c <= 'Z' then (c as int + 32) as char else c
  }

  /** `s.toLowerCase()`, ASCII letters only. */
  function Lower(s: string): (r: string)
    ensures |r| == |s|
    ensures forall i :: 0 <= i < |s| ==> r[i] == LowerChar(s[i])
  {
    seq(|s|, i requires 0 <= i < |s| => LowerChar(s[i]))
  }

  /** Lower-casing distributes over concatenation. */
  lemma LowerConcat(a: string, b: string)
    ensures Lower(a + b) == Lower(a) + Lower(b)
  {
    assert forall i :: 0 <= i < |a + b| ==> Lower(a + b)[i] == (Lower(a) + Lower(b))[i];
  }

  /** The characters JavaScript's `\s` and `trim` treat as white space
      (WhiteSpace and LineTerminator of ECMA-262). */
  predicate IsSpace(c: char) {
    var n := c as int;
    n == 0x20 || 0x09 <= n <= 0x0D || n == 0xA0 || n == 0x1680 || 0x2000 <= n <= 0x200A
    || n == 0x2028 || n == 0x2029 || n == 0x202F || n == 0x205F || n == 0x3000 || n == 0xFEFF
  }

  predicate IsDigit(c: char) {
    '0' <= c <= '9'
  }

  /** `needle` occurs in `hay` starting at position `i`. */
  predicate OccursAt(hay: string, needle: string, i: int) {
    0 <= i <= |hay| - |needle| && hay[i..i + |needle|] == needle
  }

  /** `hay.includes(needle)`: `needle` occurs in `hay` at some position. */
  predicate Contains(hay: string, needle: string) {
    exists i | 0 <= i <= |hay| - |needle| :: OccursAt(hay, needle, i)
  }

  /** Every string includes the empty string. */
  lemma ContainsEmpty(hay: string)
    ensures Contains(hay, "")
  {
    assert OccursAt(hay, "", 0);
  }

  /** A string that occurs inside `a` occurs inside any extension of `a`. */
  lemma ContainsInLeft(a: string, b: string, needle: string)
    requires Contains(a, needle)
    ensures Contains(a + b, needle)
  {
    var i :| 0 <= i <= |a| - |needle| && OccursAt(a, needle, i);
    assert a[i..i + |needle|] == needle;
    assert (a + b)[i..i + |needle|] == a[i..i + |needle|];
    assert OccursAt(a + b, needle, i);
  }

  /** `s.startsWith(prefix)`. */
  predicate StartsWith(s: string, prefix: string) {
    |prefix| <= |s| && s[..|prefix|] == prefix
  }

  /** `s.split(sep)` where `sep` is one character or a character class
      (`/[\/-]/`): the maximal runs between separators, always at least one. */
  function SplitOn(s: string, seps: set<char>): (parts: seq<string>)
    ensures |parts| >= 1
    ensures forall k :: 0 <= k < |parts| ==> forall j :: 0 <= j < |parts[k]| ==> parts[k][j] !in seps
  {
    if s == [] then [""]
    else
      var rest := SplitOn(s[1..], seps);
      if s[0] in seps then [""] + rest
      else [[s[0]] + rest[0]] + rest[1..]
  }

  /** `parts.join(sep)`. */
  function Join(parts: seq<string>, sep: string): string {
    if parts == [] then ""
    else if |parts| == 1 then parts[0]
    else parts[0] + sep + Join(parts[1..], sep)
  }

  /** A part holding the separator joins to the same text as its two halves. */
  lemma JoinSplitsHead(a: string, b: string, rest: seq<string>, sep: string)
    requires rest != []
    ensures Join([a + sep + b] + rest, sep) == Join([a, b] + rest, sep)
  {
    assert ([a + sep + b] + rest)[1..] == rest;
    assert ([a, b] + rest)[1..] == [b] + rest;
    assert ([b] + rest)[1..] == rest;
  }

  /** Joining parts free of `c` with a separator free of `c` gives a string free of `c`. */
  lemma {:induction false} JoinAvoids(parts: seq<string>, sep: string, c: char)
    requires forall k :: 0 <= k < |parts| ==> c !in parts[k]
    requires c !in sep
    ensures c !in Join(parts, sep)
  {
    if |parts| > 1 {
      JoinAvoids(parts[1..], sep, c);
      assert c !in parts[0];
    }
  }

  /** `s.split(c).join(c)` gives `s` back. */
  lemma {:induction false} JoinSplit(s: string, c: char)
    ensures Join(SplitOn(s, {c}), [c]) == s
  {
    if s != [] {
      JoinSplit(s[1..], c);
      var rest := SplitOn(s[1..], {c});
      if s[0] == c {
        assert SplitOn(s, {c}) == [""] + rest;
        assert ([""] + rest)[1..] == rest;
        assert s == [c] + s[1..];
      } else {
        var parts := [[s[0]] + rest[0]] + rest[1..];
        assert SplitOn(s, {c}) == parts;
        if |rest| == 1 {
          assert s == [s[0]] + rest[0];
        } else {
          assert parts[1..] == rest[1..];
          assert Join(rest, [c]) == rest[0] + [c] + Join(rest[1..], [c]);
          assert s == [s[0]] + s[1..];
        }
      }
    }
  }

  /** Splitting a separator-free prefix glued to `b` extends the first part of `b`'s split. */
  lemma {:induction false} SplitFreePrefix(a: string, b: string, seps: set<char>)
    requires forall j :: 0 <= j < |a| ==> a[j] !in seps
    ensures SplitOn(a + b, seps) == [a + SplitOn(b, seps)[0]] + SplitOn(b, seps)[1..]
  {
    if a != [] {
      SplitFreePrefix(a[1..], b, seps);
      var bs := SplitOn(b, seps);
      var rest := SplitOn(a[1..] + b, seps);
      var ab := a + b;
      assert ab[1..] == a[1..] + b;
      assert ab[0] == a[0] && a[0] !in seps;
      assert SplitOn(ab, seps) == [[a[0]] + rest[0]] + rest[1..];
      assert rest[0] == a[1..] + bs[0] && rest[1..] == bs[1..];
      assert [a[0]] + (a[1..] + bs[0]) == a + bs[0];
    } else {
      var bs := SplitOn(b, seps);
      assert a + b == b && a + bs[0] == bs[0];
      assert [bs[0]] + bs[1..] == bs;
    }
  }

  /** A separator-free `a` before a separator is the first part on its own. */
  lemma SplitAtSeparator(a: string, c: char, b: string, seps: set<char>)
    requires forall j :: 0 <= j < |a| ==> a[j] !in seps
    requires c in seps
    ensures SplitOn(a + [c] + b, seps) == [a] + SplitOn(b, seps)
  {
    var cb := [c] + b;
    assert cb[1..] == b;
    assert SplitOn(cb, seps) == [""] + SplitOn(b, seps);
    SplitFreePrefix(a, cb, seps);
    assert a + [c] + b == a + cb;
    assert a + "" == a;
  }

  /** `parts.join(c).split(seps)` gives `parts` back, provided `c` is a
      separator and no part contains one. */
  lemma {:induction false} SplitJoin(parts: seq<string>, c: char, seps: set<char>)
    requires |parts| >= 1 && c in seps
    requires forall k :: 0 <= k < |parts| ==> forall j :: 0 <= j < |parts[k]| ==> parts[k][j] !in seps
    ensures SplitOn(Join(parts, [c]), seps) == parts
  {
    if |parts| == 1 {
      SplitFreePrefix(parts[0], "", seps);
      assert parts[0] + "" == parts[0];
    } else {
      SplitJoin(parts[1..], c, seps);
      var tail := Join(parts[1..], [c]);
      assert Join(parts, [c]) == parts[0] + ([c] + tail);
      assert SplitOn([c] + tail, seps) == [""] + parts[1..] by {
        assert ([c] + tail)[1..] == tail;
      }
      SplitFreePrefix(parts[0], [c] + tail, seps);
      assert parts[0] + "" == parts[0];
      assert [parts[0]] + parts[1..] == parts;
    }
  }

  /** The last part of a split, when the string ends in a separator followed
      by a separator-free `b`, is `b`. */
  lemma {:induction false} SplitLast(a: string, c: char, b: string, seps: set<char>)
    requires c in seps
    requires forall j :: 0 <= j < |b| ==> b[j] !in seps
    ensures |SplitOn(a + [c] + b, seps)| >= 2
    ensures SplitOn(a + [c] + b, seps)[|SplitOn(a + [c] + b, seps)| - 1] == b
  {
    var s := a + [c] + b;
    if a == [] {
      SplitNone(b, seps);
      assert s[1..] == b;
      assert SplitOn(s, seps) == [""] + [b];
    } else {
      SplitLast(a[1..], c, b, seps);
      assert s[1..] == a[1..] + [c] + b;
      assert s[0] == a[0];
      var rest := SplitOn(s[1..], seps);
      var parts := SplitOn(s, seps);
      if a[0] in seps {
        assert parts == [""] + rest;
        assert parts[|parts| - 1] == rest[|rest| - 1];
      } else {
        assert parts == [[a[0]] + rest[0]] + rest[1..];
        assert parts[|parts| - 1] == rest[|rest| - 1];
      }
    }
  }

  /** A string without separators splits into one part, itself. */
  lemma SplitNone(s: string, seps: set<char>)
    requires forall j :: 0 <= j < |s| ==> s[j] !in seps
    ensures SplitOn(s, seps) == [s]
  {
    SplitFreePrefix(s, "", seps);
    assert s + "" == s;
  }

  /** Leading white space removed. */
  function TrimStart(s: string): string {
    if s != [] && IsSpace(s[0]) then TrimStart(s[1..]) else s
  }

  /** Trailing white space removed. */
  function TrimEnd(s: string): string {
    if s != [] && IsSpace(s[|s| - 1]) then TrimEnd(s[..|s| - 1]) else s
  }

  /** `s.trim()`. */
  function Trim(s: string): string {
    TrimEnd(TrimStart(s))
  }

  /** Every character of `s` is white space. */
  predicate IsBlank(s: string) {
    forall i :: 0 <= i < |s| ==> IsSpace(s[i])
  }

  lemma {:induction false} TrimStartBlank(s: string)
    ensures TrimStart(s) == "" <==> IsBlank(s)
  {
    if s != [] {
      TrimStartBlank(s[1..]);
      if IsSpace(s[0]) {
        assert IsBlank(s) <==> IsBlank(s[1..]) by {
          assert forall i :: 1 <= i < |s| ==> s[i] == s[1..][i - 1];
        }
      }
    }
  }

  lemma {:induction false} TrimEndEmpty(s: string)
    ensures TrimEnd(s) == "" <==> IsBlank(s)
  {
    if s != [] {
      var init := s[..|s| - 1];
      TrimEndEmpty(init);
      if IsSpace(s[|s| - 1]) {
        assert IsBlank(s) <==> IsBlank(init) by {
          assert forall i :: 0 <= i < |init| ==> s[i] == init[i];
        }
      }
    }
  }

  /** TrimStart drops only white space, so it keeps a string blank or not blank. */
  lemma {:induction false} TrimStartKeepsBlankness(s: string)
    ensures IsBlank(TrimStart(s)) <==> IsBlank(s)
  {
    if s != [] && IsSpace(s[0]) {
      TrimStartKeepsBlankness(s[1..]);
      assert IsBlank(s) <==> IsBlank(s[1..]) by {
        assert forall i :: 1 <= i < |s| ==> s[i] == s[1..][i - 1];
      }
    }
  }

  /** `s.trim() === ""` exactly when `s` contains only white space. */
  lemma TrimBlank(s: string)
    ensures Trim(s) == "" <==> IsBlank(s)
  {
    TrimEndEmpty(TrimStart(s));
    TrimStartKeepsBlankness(s);
  }

  /** `s.replace(c, "")` for a one-character pattern: drops the first occurrence only. */
  function RemoveFirst(s: string, c: char): (r: string)
    ensures c !in s ==> r == s
    ensures c in s ==> |r| == |s| - 1
  {
    if s == [] then ""
    else if s[0] == c then s[1..]
    else [s[0]] + RemoveFirst(s[1..], c)
  }

  function DigitChar(d: nat): char
    requires d < 10
  {
    ('0' as int + d) as char
  }

  function DigitValue(c: char): nat
    requires IsDigit(c)
  {
    c as int - '0' as int
  }

  /** The numeral of a natural number, as JavaScript's `String(n)` writes it. */
  function NatToString(n: nat): (r: string)
    ensures |r| >= 1
    ensures forall i :: 0 <= i < |r| ==> IsDigit(r[i])
  {
    if n < 10 then [DigitChar(n)] else NatToString(n / 10) + [DigitChar(n % 10)]
  }

  /** `${n}` for an integer. */
  function IntToString(n: int): string {
    if n < 0 then "-" + NatToString(-n) else NatToString(n)
  }

  /** The value of a non-empty run of decimal digits. */
  function DigitsValue(s: string): nat
    requires forall i :: 0 <= i < |s| ==> IsDigit(s[i])
  {
    if s == [] then 0 else DigitsValue(s[..|s| - 1]) * 10 + DigitValue(s[|s| - 1])
  }

  /** Reading the numeral back gives the number. */
  lemma {:induction false} DigitsValueOfNat(n: nat)
    ensures DigitsValue(NatToString(n)) == n
  {
    var r := NatToString(n);
    if n >= 10 {
      DigitsValueOfNat(n / 10);
      assert r[..|r| - 1] == NatToString(n / 10);
    }
  }
}
