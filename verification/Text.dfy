/**
 * The JavaScript string built-ins the application relies on:
 * `toLowerCase`, `includes`, `indexOf`, `replace`, `Number.prototype.toString`
 * and `padStart`.
 */
module Text {
  import opened Lists

  /**
   * A capital letter that `toLowerCase` folds by adding 32 to its code point:
   * A-Z and the Latin-1 capitals U+00C0..U+00DE other than U+00D7.
   */
  predicate IsCapital(c: char) {
    ('A' <= c <= 'Z') || ('\U{00C0}' <= c <= '\U{00DE}' && c != '\U{00D7}')
  }

  function LowerChar(c: char): (r: char)
    ensures !IsCapital(r)
    ensures !IsCapital(c) ==> r == c
  {
    if IsCapital(c) then (c as int + 32) as char else c
  }

  /** `s.toLowerCase()`, for the capitals of IsCapital. */
  function Lower(s: string): string {
    seq(|s|, i requires 0 <= i < |s| => LowerChar(s[i]))
  }

  /** Lower-casing twice is lower-casing once. */
  lemma LowerIdempotent(s: string)
    ensures Lower(Lower(s)) == Lower(s)
  {
  }

  /** Two strings that differ only in letter case lower-case to the same string. */
  lemma LowerSameUpToCase(a: string, b: string)
    requires |a| == |b|
    requires forall i :: 0 <= i < |a| ==> LowerChar(a[i]) == LowerChar(b[i])
    ensures Lower(a) == Lower(b)
  {
  }

  predicate StartsWith(s: string, prefix: string) {
    |prefix| <= |s| && s[..|prefix|] == prefix
  }

  /** `s.includes(sub)`. */
  predicate Contains(s: string, sub: string)
    decreases |s|
  {
    StartsWith(s, sub) || (|s| > 0 && Contains(s[1..], sub))
  }

  /** `sub` is found in `s` at position `i`. */
  ghost predicate OccursAt(s: string, sub: string, i: int) {
    0 <= i && i + |sub| <= |s| && s[i..i + |sub|] == sub
  }

  lemma {:induction false} OccursAtContains(s: string, sub: string, i: int)
    requires OccursAt(s, sub, i)
    ensures Contains(s, sub)
    decreases i
  {
    if i == 0 {
      assert StartsWith(s, sub);
    } else {
      assert OccursAt(s[1..], sub, i - 1) by {
        assert s[1..][i - 1..i - 1 + |sub|] == s[i..i + |sub|];
      }
      OccursAtContains(s[1..], sub, i - 1);
    }
  }

  lemma {:induction false} ContainsOccurs(s: string, sub: string)
    requires Contains(s, sub)
    ensures exists i :: OccursAt(s, sub, i)
    decreases |s|
  {
    if StartsWith(s, sub) {
      assert OccursAt(s, sub, 0);
    } else {
      ContainsOccurs(s[1..], sub);
      var i :| OccursAt(s[1..], sub, i);
      assert s[1..][i..i + |sub|] == s[i + 1..i + 1 + |sub|];
      assert OccursAt(s, sub, i + 1);
    }
  }

  /** `includes` holds exactly when the substring occurs at some position. */
  lemma ContainsIff(s: string, sub: string)
    ensures Contains(s, sub) <==> exists i :: OccursAt(s, sub, i)
  {
    if Contains(s, sub) {
      ContainsOccurs(s, sub);
    }
    if exists i :: OccursAt(s, sub, i) {
      var i :| OccursAt(s, sub, i);
      OccursAtContains(s, sub, i);
    }
  }

  /** Every character of a string found in `s` is a character of `s`. */
  lemma ContainsHasChar(s: string, sub: string, k: int)
    requires 0 <= k < |sub| && Contains(s, sub)
    ensures sub[k] in s
  {
    ContainsOccurs(s, sub);
    var i :| OccursAt(s, sub, i);
    assert s[i + k] == sub[k];
  }

  /** A string is not found in `s` when one of its characters is absent from `s`. */
  lemma MissingCharNotContained(s: string, sub: string, k: int)
    requires 0 <= k < |sub| && sub[k] !in s
    ensures !Contains(s, sub)
  {
    if Contains(s, sub) {
      ContainsHasChar(s, sub, k);
    }
  }

  /** Every string that contains `a + b` contains `a`. */
  lemma ContainsPrefixOf(s: string, a: string, b: string)
    requires Contains(s, a + b)
    ensures Contains(s, a)
  {
    ContainsOccurs(s, a + b);
    var i :| OccursAt(s, a + b, i);
    assert s[i..i + |a|] == (a + b)[..|a|] == a;
    OccursAtContains(s, a, i);
  }

  // ----- length -----

  /** A character outside the Basic Multilingual Plane: JavaScript stores it as a surrogate pair. */
  predicate IsAstral(c: char) {
    c > '\U{FFFF}'
  }

  /** `s.length`: the number of UTF-16 code units, two for each astral character. */
  function Utf16Length(s: string): (n: nat)
    ensures |s| <= n <= 2 * |s|
  {
    if s == [] then 0 else (if IsAstral(s[0]) then 2 else 1) + Utf16Length(s[1..])
  }

  /** For a string inside the Basic Multilingual Plane, `length` counts its characters. */
  lemma {:induction false} Utf16LengthBmp(s: string)
    requires forall i :: 0 <= i < |s| ==> !IsAstral(s[i])
    ensures Utf16Length(s) == |s|
  {
    if s != [] {
      assert forall i :: 0 <= i < |s[1..]| ==> s[1..][i] == s[i + 1];
      Utf16LengthBmp(s[1..]);
    }
  }

  // ----- numbers as text -----

  predicate IsDigit(c: char) {
    '0' <= c <= '9'
  }

  function DigitChar(d: nat): (c: char)
    requires d < 10
    ensures IsDigit(c)
  {
    ('0' as int + d) as char
  }

  function DigitValue(c: char): nat
    requires IsDigit(c)
  {
    c as int - '0' as int
  }

  ghost predicate AllDigits(s: string) {
    forall i :: 0 <= i < |s| ==> IsDigit(s[i])
  }

  /** `n.toString()` for a natural number: its decimal digits, most significant first. */
  function Dec(n: nat): (r: string)
    ensures |r| >= 1
    decreases n
  {
    if n < 10 then [DigitChar(n)] else Dec(n / 10) + [DigitChar(n % 10)]
  }

  /** The decimal form is made of digits only, and is one digit long exactly below ten. */
  lemma {:induction false} DecDigits(n: nat)
    ensures AllDigits(Dec(n))
    ensures n < 10 <==> |Dec(n)| == 1
    decreases n
  {
    if n >= 10 {
      DecDigits(n / 10);
    }
  }

  /** The value of a string of decimal digits. */
  function ParseDec(s: string): nat
    requires AllDigits(s)
    decreases |s|
  {
    if s == [] then 0 else ParseDec(s[..|s| - 1]) * 10 + DigitValue(s[|s| - 1])
  }

  /** Reading back the decimal form of a number gives the number. */
  lemma {:induction false} ParseDecDec(n: nat)
    ensures AllDigits(Dec(n)) && ParseDec(Dec(n)) == n
    decreases n
  {
    DecDigits(n);
    if n >= 10 {
      ParseDecDec(n / 10);
      var d := Dec(n);
      assert d[..|d| - 1] == Dec(n / 10);
    }
  }

  /** Different numbers have different decimal forms. */
  lemma DecInjective(a: nat, b: nat)
    requires a != b
    ensures Dec(a) != Dec(b)
  {
    ParseDecDec(a);
    ParseDecDec(b);
  }

  /** `s.padStart(2, '0')`. */
  function PadStart2(s: string): (r: string)
    ensures |r| == if |s| >= 2 then |s| else 2
  {
    if |s| >= 2 then s else if |s| == 1 then ['0'] + s else "00"
  }

  /** Padding keeps the string as a suffix and fills the front with '0'. */
  lemma PadStart2Shape(s: string)
    ensures var r := PadStart2(s);
      r[|r| - |s|..] == s && forall i :: 0 <= i < |r| - |s| ==> r[i] == '0'
  {
  }

  /** A number below 100, padded to two digits, is its tens digit then its units digit. */
  lemma PadDecTwoDigits(n: nat)
    requires n < 100
    ensures PadStart2(Dec(n)) == [DigitChar(n / 10), DigitChar(n % 10)]
  {
    if n >= 10 {
      DecDigits(n / 10);
      assert Dec(n / 10) == [DigitChar(n / 10)];
    } else {
      assert Dec(n) == [DigitChar(n)];
    }
  }

  // ----- indexOf / replace -----

  /** `s.indexOf(c)` for a single character. */
  function IndexOf(s: string, c: char): (i: int)
    ensures -1 <= i < |s|
    ensures i < 0 <==> c !in s
    ensures 0 <= i ==> s[i] == c && c !in s[..i]
  {
    FindIndex(s, x => x == c)
  }

  /** `s.replace(c, '')` with a one-character string pattern: drops the first `c` only. */
  function RemoveFirst(s: string, c: char): string {
    var i := IndexOf(s, c);
    if i < 0 then s else s[..i] + s[i + 1..]
  }

  /** `replace` leaves a string without `c` as it is, and otherwise drops one character, the first `c`. */
  lemma RemoveFirstShape(s: string, c: char)
    ensures c !in s ==> RemoveFirst(s, c) == s
    ensures c in s ==> |RemoveFirst(s, c)| == |s| - 1 && c !in RemoveFirst(s, c)[..IndexOf(s, c)]
    ensures forall x :: x in RemoveFirst(s, c) ==> x in s
  {
  }

  /** `s.replace(/c/g, '')`: drops every `c`. */
  function RemoveAll(s: string, c: char): (r: string)
    ensures c !in r
    ensures forall x :: x != c ==> (x in r <==> x in s)
    ensures forall x :: multiset(r)[x] == if x == c then 0 else multiset(s)[x]
  {
    FilterCounts(s, x => x != c);
    Filter(s, x => x != c)
  }

  lemma {:induction false} RemoveAllAppend(a: string, b: string, c: char)
    ensures RemoveAll(a + b, c) == RemoveAll(a, c) + RemoveAll(b, c)
    decreases |a|
  {
    if a == [] {
      assert a + b == b;
    } else {
      assert (a + b)[1..] == a[1..] + b;
      RemoveAllAppend(a[1..], b, c);
    }
  }

  /** A string without `c` is left as it is. */
  lemma {:induction false} RemoveAllAbsent(s: string, c: char)
    requires c !in s
    ensures RemoveAll(s, c) == s
    decreases |s|
  {
    if s != [] {
      RemoveAllAbsent(s[1..], c);
      assert [s[0]] + s[1..] == s;
    }
  }

  /** Removing every `c` from `a + [c] + b` where `a` has none keeps `a` and goes on in `b`. */
  lemma RemoveAllAfter(a: string, c: char, b: string)
    requires c !in a
    ensures RemoveAll(a + [c] + b, c) == a + RemoveAll(b, c)
  {
    RemoveAllAppend(a + [c], b, c);
    RemoveAllAppend(a, [c], c);
    RemoveAllAbsent(a, c);
    assert RemoveAll([c], c) == [];
  }

  /** Removing the first separator of `a + [c] + b` where `a` has none gives `a + b`. */
  lemma RemoveFirstSeparator(a: string, c: char, b: string)
    requires c !in a
    ensures RemoveFirst(a + [c] + b, c) == a + b
  {
    var s := a + [c] + b;
    var i := IndexOf(s, c);
    assert s[|a|] == c;
    assert s[..|a|] == a;
    assert i == |a|;
    assert s[..i] == a && s[i + 1..] == b;
  }

  // ----- lines -----

  /** Each line followed by a newline. */
  function Unlines(lines: seq<string>): string {
    if lines == [] then "" else lines[0] + "\n" + Unlines(lines[1..])
  }

  lemma {:induction false} UnlinesAppend(a: seq<string>, b: seq<string>)
    ensures Unlines(a + b) == Unlines(a) + Unlines(b)
    decreases |a|
  {
    if a != [] {
      assert (a + b)[1..] == a[1..] + b;
      UnlinesAppend(a[1..], b);
    } else {
      assert a + b == b;
    }
  }

  /** No line of `lines` holds a line break. */
  ghost predicate NoLineBreaks(lines: seq<string>) {
    forall k :: 0 <= k < |lines| ==> '\n' !in lines[k]
  }

  /** `s.split('\n')`. */
  function Split(s: string): (r: seq<string>)
    ensures |r| >= 1
    decreases |s|
  {
    var i := IndexOf(s, '\n');
    if i < 0 then [s] else [s[..i]] + Split(s[i + 1..])
  }

  /** A line without a line break, then a line break: splitting takes the line off the front. */
  lemma SplitFirstLine(line: string, rest: string)
    requires '\n' !in line
    ensures Split(line + "\n" + rest) == [line] + Split(rest)
  {
    var s := line + "\n" + rest;
    RemoveFirstSeparator(line, '\n', rest);
    assert s[|line|] == '\n';
    assert s[..|line|] == line;
    assert IndexOf(s, '\n') == |line|;
    assert s[|line| + 1..] == rest;
  }

  /** Splitting newline-terminated lines followed by a last piece gives back the lines and the piece. */
  lemma {:induction false} SplitUnlines(lines: seq<string>, last: string)
    requires NoLineBreaks(lines)
    requires '\n' !in last
    ensures Split(Unlines(lines) + last) == lines + [last]
    decreases |lines|
  {
    if lines != [] {
      var rest := Unlines(lines[1..]) + last;
      assert Unlines(lines) + last == lines[0] + "\n" + rest;
      assert '\n' !in lines[0];
      SplitFirstLine(lines[0], rest);
      assert NoLineBreaks(lines[1..]) by {
        forall k | 0 <= k < |lines[1..]| ensures '\n' !in lines[1..][k] {
          assert lines[1..][k] == lines[k + 1];
        }
      }
      SplitUnlines(lines[1..], last);
      ConsAppend(lines, last);
    } else {
      assert Unlines(lines) + last == last;
    }
  }
}
