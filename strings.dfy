/**
 * Python string operations the agents use: `str.isspace`, `upper`/`lower`, slicing, `split`,
 * `join` and `strip`, with the lemmas that relate them.
 */
module Strings {

  /**
   * `c.isspace()`: the characters that `str.strip()`, `str.split()` and the regular-expression
   * class `\s` treat as whitespace.
   */
  predicate IsSpace(c: char) {
    var n := c as int;
    n == 0x20 || 0x09 <= n <= 0x0D || 0x1C <= n <= 0x1F || n == 0x85 || n == 0xA0 ||
    n == 0x1680 || 0x2000 <= n <= 0x200A || n == 0x2028 || n == 0x2029 || n == 0x202F ||
    n == 0x205F || n == 0x3000
  }

  /** The regular-expression class `\d`, on ASCII digits. */
  predicate IsDigit(c: char) {
    '0' <= c <= '9'
  }

  /** The regular-expression class `\w`, on ASCII letters, digits and `_`. */
  predicate IsWordChar(c: char) {
    'a' <= c <= 'z' || 'A' <= c <= 'Z' || IsDigit(c) || c == '_'
  }

  function UpperChar(c: char): char {
    if 'a' <= c <= 'z' then (c as int - 32) as char else c
  }

  function LowerChar(c: char): char {
    if 'A' <= c <= 'Z' then (c as int + 32) as char else c
  }

  /** `s.upper()` on ASCII letters. */
  function Upper(s: string): (r: string)
    ensures |r| == |s|
    ensures forall i :: 0 <= i < |s| ==> r[i] == UpperChar(s[i])
  {
    seq(|s|, i requires 0 <= i < |s| => UpperChar(s[i]))
  }

  /** `s.lower()` on ASCII letters. */
  function Lower(s: string): (r: string)
    ensures |r| == |s|
    ensures forall i :: 0 <= i < |s| ==> r[i] == LowerChar(s[i])
  {
    seq(|s|, i requires 0 <= i < |s| => LowerChar(s[i]))
  }

  /** The slice `s[:n]`: the first `n` elements, or all of `s` when it is shorter. */
  function Take<T>(s: seq<T>, n: nat): (r: seq<T>)
    ensures |r| == if |s| <= n then |s| else n
    ensures r == s[..|r|]
    ensures |s| <= n ==> r == s
  {
    if |s| <= n then s else s[..n]
  }

  predicate StartsWith(s: string, prefix: string) {
    |prefix| <= |s| && s[..|prefix|] == prefix
  }

  /** `needle in s` for strings: some suffix of `s` starts with `needle`. */
  predicate Contains(s: string, needle: string) {
    StartsWith(s, needle) || (s != [] && Contains(s[1..], needle))
  }

  /** `s.split(sep)` for a one-character separator. */
  function Split(s: string, sep: char): (parts: seq<string>)
    ensures |parts| >= 1
  {
    if s == [] then [""]
    else
      var rest := Split(s[1..], sep);
      if s[0] == sep then [""] + rest else [[s[0]] + rest[0]] + rest[1..]
  }

  /** `sep.join(parts)`. */
  function Join(parts: seq<string>, sep: string): string {
    if |parts| == 0 then ""
    else if |parts| == 1 then parts[0]
    else parts[0] + sep + Join(parts[1..], sep)
  }

  function Last<T>(s: seq<T>): T
    requires |s| > 0
  {
    s[|s| - 1]
  }

  lemma {:induction false} JoinConsPrefix(x: string, y: string, zs: seq<string>, sep: string)
    ensures Join([x + y] + zs, sep) == x + Join([y] + zs, sep)
  {
    if |zs| > 0 {
      assert ([x + y] + zs)[1..] == zs;
      assert ([y] + zs)[1..] == zs;
    }
  }

  /** Joining the pieces of a split with the separator gives back the string. */
  lemma {:induction false} JoinSplit(s: string, c: char)
    ensures Join(Split(s, c), [c]) == s
  {
    if s != [] {
      var rest := Split(s[1..], c);
      JoinSplit(s[1..], c);
      if s[0] == c {
        assert ([""] + rest)[1..] == rest;
      } else {
        calc {
          Join(Split(s, c), [c]);
          Join([[s[0]] + rest[0]] + rest[1..], [c]);
          { JoinConsPrefix([s[0]], rest[0], rest[1..], [c]); }
          [s[0]] + Join([rest[0]] + rest[1..], [c]);
          { assert [rest[0]] + rest[1..] == rest; }
          [s[0]] + s[1..];
        }
      }
    }
  }

  /** No piece of a split contains the separator. */
  lemma {:induction false} SplitPiecesLackSeparator(s: string, c: char)
    ensures forall p :: p in Split(s, c) ==> c !in p
  {
    if s != [] {
      SplitPiecesLackSeparator(s[1..], c);
    }
  }

  /** A string without the separator splits into itself alone. */
  lemma {:induction false} SplitWithoutSeparator(s: string, c: char)
    requires c !in s
    ensures Split(s, c) == [s]
  {
    if s != [] {
      assert s[0] != c && c !in s[1..];
      SplitWithoutSeparator(s[1..], c);
      assert [s[0]] + s[1..] == s;
    }
  }

  /** A string that holds the separator splits into more than one piece. */
  lemma {:induction false} SplitWithSeparator(s: string, c: char)
    requires c in s
    ensures |Split(s, c)| > 1
  {
    if s[0] != c {
      SplitWithSeparator(s[1..], c);
    }
  }

  lemma {:induction false} SplitAtFirstSeparator(a: string, b: string, c: char)
    requires c !in a
    ensures Split(a + [c] + b, c) == [a] + Split(b, c)
  {
    if a == [] {
      assert (a + [c] + b)[1..] == b;
    } else {
      assert (a + [c] + b)[1..] == a[1..] + [c] + b;
      SplitAtFirstSeparator(a[1..], b, c);
      assert [a[0]] + a[1..] == a;
    }
  }

  /** Splitting a join of separator-free pieces gives back the pieces. */
  lemma {:induction false} SplitJoin(parts: seq<string>, c: char)
    requires |parts| >= 1
    requires forall p :: p in parts ==> c !in p
    ensures Split(Join(parts, [c]), c) == parts
  {
    if |parts| == 1 {
      SplitWithoutSeparator(parts[0], c);
    } else {
      SplitJoin(parts[1..], c);
      SplitAtFirstSeparator(parts[0], Join(parts[1..], [c]), c);
      assert [parts[0]] + parts[1..] == parts;
    }
  }

  /**
   * The first piece of a split depends only on the text up to the first separator: a prefix `q`
   * of `p` that holds a separator, or that `p` continues with a separator, has the same first piece.
   */
  lemma {:induction false} SplitFirstPiecePrefix(p: string, q: string, c: char)
    requires |q| <= |p| && q == p[..|q|]
    requires c in q || (|q| < |p| && p[|q|] == c)
    ensures Split(p, c)[0] == Split(q, c)[0]
  {
    if q == [] {
    } else if q[0] != c {
      assert q[1..] == p[1..][..|q| - 1];
      if c !in q[1..] {
        assert q[0] != c && q == [q[0]] + q[1..];
      }
      SplitFirstPiecePrefix(p[1..], q[1..], c);
    }
  }

  /** The first piece of a split is a prefix of the string. */
  lemma {:induction false} SplitFirstIsPrefix(s: string, c: char)
    ensures StartsWith(s, Split(s, c)[0])
  {
    if s != [] {
      SplitFirstIsPrefix(s[1..], c);
    }
  }

  /** Length of the leading run of non-whitespace characters. */
  function RunLen(s: string): (n: nat)
    ensures n <= |s|
    ensures forall i :: 0 <= i < n ==> !IsSpace(s[i])
    ensures n == |s| || IsSpace(s[n])
  {
    if s == [] || IsSpace(s[0]) then 0 else 1 + RunLen(s[1..])
  }

  /** The length of the leading non-blank run, read off its two defining facts. */
  lemma {:induction false} RunLenIs(s: string, n: nat)
    requires n <= |s| && (forall i :: 0 <= i < n ==> !IsSpace(s[i])) && (n == |s| || IsSpace(s[n]))
    ensures RunLen(s) == n
  {
  }

  /** A string whose first `k` characters are not blank has a leading run of at least `k`. */
  lemma {:induction false} RunLenAtLeast(s: string, k: nat)
    requires k <= |s| && forall i :: 0 <= i < k ==> !IsSpace(s[i])
    ensures RunLen(s) >= k
  {
    if k > 0 {
      assert !IsSpace(s[0]);
      RunLenAtLeast(s[1..], k - 1);
    }
  }

  /** Two strings that share their first `n` characters, followed by a blank or nothing, share their leading run. */
  lemma {:induction false} SameLeadingRun(a: string, b: string, n: nat)
    requires n <= |a| && n <= |b| && a[..n] == b[..n] && RunLen(a) == n && (n == |b| || IsSpace(b[n]))
    ensures RunLen(b) == n
  {
    forall i | 0 <= i < n ensures !IsSpace(b[i]) {
      assert b[i] == b[..n][i] == a[..n][i] == a[i];
    }
    RunLenIs(b, n);
  }

  /** `s.split()`: the maximal runs of non-whitespace characters, in order. */
  function Words(s: string): (words: seq<string>)
    decreases |s|
  {
    if s == [] then []
    else if IsSpace(s[0]) then Words(s[1..])
    else
      var n := RunLen(s);
      [s[..n]] + Words(s[n..])
  }

  /** `s.lstrip()`. */
  function TrimStart(s: string): (r: string)
    ensures |r| <= |s|
  {
    if s != [] && IsSpace(s[0]) then TrimStart(s[1..]) else s
  }

  /** `lstrip()` keeps a suffix that is empty or starts with a non-blank character. */
  lemma {:induction false} TrimStartSuffix(s: string)
    ensures TrimStart(s) == s[|s| - |TrimStart(s)|..]
    ensures TrimStart(s) == [] || !IsSpace(TrimStart(s)[0])
  {
    if s != [] && IsSpace(s[0]) {
      TrimStartSuffix(s[1..]);
      assert s[1..][|s| - 1 - |TrimStart(s)|..] == s[|s| - |TrimStart(s)|..];
    }
  }

  /** What `lstrip()` removes is whitespace. */
  lemma {:induction false} TrimStartBlanks(s: string)
    ensures forall i :: 0 <= i < |s| - |TrimStart(s)| ==> IsSpace(s[i])
  {
    if s != [] && IsSpace(s[0]) {
      TrimStartBlanks(s[1..]);
      forall i | 1 <= i < |s| - |TrimStart(s)| ensures IsSpace(s[i]) {
        assert s[i] == s[1..][i - 1];
      }
    }
  }

  /** `s.rstrip()`. */
  function TrimEnd(s: string): (r: string)
    ensures |r| <= |s|
  {
    if s != [] && IsSpace(s[|s| - 1]) then TrimEnd(s[..|s| - 1]) else s
  }

  /** `rstrip()` keeps a prefix that is empty or ends with a non-blank character. */
  lemma {:induction false} TrimEndPrefix(s: string)
    ensures TrimEnd(s) == s[..|TrimEnd(s)|]
    ensures TrimEnd(s) == [] || !IsSpace(TrimEnd(s)[|TrimEnd(s)| - 1])
  {
    if s != [] && IsSpace(s[|s| - 1]) {
      TrimEndPrefix(s[..|s| - 1]);
      assert s[..|s| - 1][..|TrimEnd(s)|] == s[..|TrimEnd(s)|];
    }
  }

  /** What `rstrip()` removes is whitespace. */
  lemma {:induction false} TrimEndBlanks(s: string)
    ensures forall i :: |TrimEnd(s)| <= i < |s| ==> IsSpace(s[i])
  {
    if s != [] && IsSpace(s[|s| - 1]) {
      var init := s[..|s| - 1];
      TrimEndBlanks(init);
      forall i | |TrimEnd(s)| <= i < |s| - 1 ensures IsSpace(s[i]) {
        assert s[i] == init[i];
      }
    }
  }

  /** `s.strip()`: the part of `s` between its leading and its trailing whitespace. */
  function Strip(s: string): (r: string)
    ensures |r| <= |s|
    ensures r == [] || (!IsSpace(r[0]) && !IsSpace(r[|r| - 1]))
  {
    var t := TrimStart(s);
    var r := TrimEnd(t);
    TrimStartSuffix(s);
    TrimEndPrefix(t);
    assert r != [] ==> r[0] == t[0];
    r
  }

  /** A string that neither starts nor ends with whitespace is its own `strip()`. */
  lemma {:induction false} StripTrimmed(s: string)
    requires s != [] && !IsSpace(s[0]) && !IsSpace(s[|s| - 1])
    ensures Strip(s) == s
  {
  }

  /** Length of the leading run of characters satisfying `p`. */
  function LeadingRun(s: string, p: char -> bool): (n: nat)
    ensures n <= |s|
  {
    if s == [] || !p(s[0]) then 0 else 1 + LeadingRun(s[1..], p)
  }

  /** The leading run holds only characters satisfying `p`, and is followed by one that does not. */
  lemma {:induction false} LeadingRunShape(s: string, p: char -> bool)
    ensures forall i :: 0 <= i < LeadingRun(s, p) ==> p(s[i])
    ensures LeadingRun(s, p) == |s| || !p(s[LeadingRun(s, p)])
  {
    if s != [] && p(s[0]) {
      LeadingRunShape(s[1..], p);
      forall i | 1 <= i < LeadingRun(s, p) ensures p(s[i]) {
        assert s[i] == s[1..][i - 1];
      }
    }
  }

  /** Length of the trailing run of characters satisfying `p`. */
  function TrailingRun(s: string, p: char -> bool): (n: nat)
    ensures n <= |s|
  {
    if s == [] || !p(s[|s| - 1]) then 0 else 1 + TrailingRun(s[..|s| - 1], p)
  }

  /** The trailing run holds only characters satisfying `p`, and is preceded by one that does not. */
  lemma {:induction false} TrailingRunShape(s: string, p: char -> bool)
    ensures forall i :: |s| - TrailingRun(s, p) <= i < |s| ==> p(s[i])
    ensures TrailingRun(s, p) == |s| || !p(s[|s| - TrailingRun(s, p) - 1])
  {
    if s != [] && p(s[|s| - 1]) {
      var init := s[..|s| - 1];
      TrailingRunShape(init, p);
      forall i | |s| - TrailingRun(s, p) <= i < |s| - 1 ensures p(s[i]) {
        assert s[i] == init[i];
      }
    }
  }

  /** `s.strip()` is empty exactly when `s` is all whitespace. */
  lemma {:induction false} StripEmpty(s: string)
    ensures Strip(s) == [] <==> forall i :: 0 <= i < |s| ==> IsSpace(s[i])
  {
    var t := TrimStart(s);
    TrimStartSuffix(s);
    TrimStartBlanks(s);
    TrimEndBlanks(t);
    if t != [] {
      assert t[0] == s[|s| - |t|];
    }
  }

  lemma {:induction false} WordsAllSpace(s: string)
    requires forall i :: 0 <= i < |s| ==> IsSpace(s[i])
    ensures Words(s) == []
  {
    if s != [] {
      WordsAllSpace(s[1..]);
    }
  }

  lemma {:induction false} WordsOfSpacePrefix(a: string, s: string)
    requires forall i :: 0 <= i < |a| ==> IsSpace(a[i])
    ensures Words(a + s) == Words(s)
  {
    if a != [] {
      var x := a + s;
      assert x != [] && IsSpace(x[0]);
      assert Words(x) == Words(x[1..]);
      assert x[1..] == a[1..] + s;
      WordsOfSpacePrefix(a[1..], s);
    } else {
      assert a + s == s;
    }
  }

  lemma {:induction false} RunLenOfSpaceSuffix(s: string, t: string)
    requires forall i :: 0 <= i < |t| ==> IsSpace(t[i])
    ensures RunLen(s + t) == RunLen(s)
  {
    if s != [] && !IsSpace(s[0]) {
      assert (s + t)[1..] == s[1..] + t;
      RunLenOfSpaceSuffix(s[1..], t);
    }
  }

  lemma {:induction false} WordsOfSpaceSuffix(s: string, t: string)
    requires forall i :: 0 <= i < |t| ==> IsSpace(t[i])
    ensures Words(s + t) == Words(s)
    decreases |s|
  {
    if s == [] {
      assert s + t == t;
      WordsAllSpace(t);
    } else if IsSpace(s[0]) {
      assert (s + t)[1..] == s[1..] + t;
      WordsOfSpaceSuffix(s[1..], t);
    } else {
      RunLenOfSpaceSuffix(s, t);
      var n := RunLen(s);
      assert (s + t)[..n] == s[..n];
      assert (s + t)[n..] == s[n..] + t;
      WordsOfSpaceSuffix(s[n..], t);
    }
  }

  lemma {:induction false} WordsOfTrimStart(s: string)
    ensures Words(TrimStart(s)) == Words(s)
  {
    var t := TrimStart(s);
    var k := |s| - |t|;
    TrimStartSuffix(s);
    TrimStartBlanks(s);
    assert s == s[..k] + s[k..];
    WordsOfSpacePrefix(s[..k], t);
  }

  lemma {:induction false} WordsOfTrimEnd(t: string)
    ensures Words(TrimEnd(t)) == Words(t)
  {
    var r := TrimEnd(t);
    var b := t[|r|..];
    TrimEndPrefix(t);
    TrimEndBlanks(t);
    forall i | 0 <= i < |b| ensures IsSpace(b[i]) {
      assert b[i] == t[|r| + i];
    }
    assert t == r + b;
    WordsOfSpaceSuffix(r, b);
  }

  /** Stripping does not change the words of a string. */
  lemma {:induction false} WordsOfStrip(s: string)
    ensures Words(Strip(s)) == Words(s)
  {
    WordsOfTrimStart(s);
    WordsOfTrimEnd(TrimStart(s));
  }

  /** A string has no words exactly when it is all whitespace. */
  lemma {:induction false} WordsEmpty(s: string)
    ensures Words(s) == [] <==> forall i :: 0 <= i < |s| ==> IsSpace(s[i])
    decreases |s|
  {
    if s != [] && IsSpace(s[0]) {
      WordsEmpty(s[1..]);
      if Words(s) == [] {
        forall i | 0 <= i < |s| ensures IsSpace(s[i]) {
          if i > 0 {
            assert s[i] == s[1..][i - 1];
          }
        }
      }
    }
  }

  /** Every word is non-empty and holds no whitespace. */
  lemma {:induction false} WordsShape(s: string)
    ensures forall w :: w in Words(s) ==> w != [] && forall i :: 0 <= i < |w| ==> !IsSpace(w[i])
    decreases |s|
  {
    if s != [] {
      if IsSpace(s[0]) {
        WordsShape(s[1..]);
      } else {
        WordsShape(s[RunLen(s)..]);
      }
    }
  }

  /** A string that starts with a non-whitespace character has its leading run as first word. */
  lemma {:induction false} FirstWord(s: string)
    requires s != [] && !IsSpace(s[0])
    ensures Words(s) != [] && Words(s)[0] == s[..RunLen(s)]
  {
  }
}
