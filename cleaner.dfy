/**
 * `TextCleaner.clean_text`, identical in the processing and the ingestion packages: lines that hold
 * only a page number are emptied, every whitespace run becomes one space, and the ends are
 * stripped. `is_header_or_footer` flags short lines and "Page <n>" markers.
 */
module TextCleaner {
  import opened Strings

  // ----- the page-number substitution -----

  /** A line matched by `^\s*\d+\s*$`: digits only, once its surrounding whitespace is stripped. */
  predicate IsPageNumberLine(line: string) {
    var t := Strip(line);
    t != [] && forall i :: 0 <= i < |t| ==> IsDigit(t[i])
  }

  /** Each page-number line replaced by the empty line; every other line kept. */
  function BlankPageNumbers(lines: seq<string>): (out: seq<string>)
    ensures |out| == |lines|
  {
    seq(|lines|, i requires 0 <= i < |lines| => if IsPageNumberLine(lines[i]) then "" else lines[i])
  }

  /**
   * `re.sub(r'^\s*\d+\s*$', '', text, flags=re.MULTILINE)`, up to whitespace: the digits of every
   * page-number line are removed and nothing else that is not whitespace. The regex's `\s*` can
   * also take blank lines and newlines next to such a line, which this function keeps; the
   * whitespace collapse in `CleanText` makes the two agree.
   */
  function DropPageNumbers(text: string): string {
    Join(BlankPageNumbers(Split(text, '\n')), "\n")
  }

  // ----- the whitespace substitution -----

  /** `re.sub(r'\s+', ' ', s)`: every maximal whitespace run becomes a single space. */
  function Collapse(s: string): string
    decreases |s|
  {
    if s == [] then []
    else if IsSpace(s[0]) then " " + Collapse(s[LeadingRun(s, IsSpace)..])
    else s[..RunLen(s)] + Collapse(s[RunLen(s)..])
  }

  /** `clean_text(text)`. */
  function CleanText(text: string): string {
    Strip(Collapse(DropPageNumbers(text)))
  }

  // ----- the reference description -----

  /** A list of words as `str.split()` yields them: non-empty and without whitespace. */
  predicate IsWordList(ws: seq<string>) {
    forall w :: w in ws ==> w != [] && forall i :: 0 <= i < |w| ==> !IsSpace(w[i])
  }

  /** The words of the lines that are not page numbers, line by line, in order. */
  function KeptWords(lines: seq<string>): seq<string> {
    if lines == [] then []
    else (if IsPageNumberLine(lines[0]) then [] else Words(lines[0])) + KeptWords(lines[1..])
  }

  /** The words of all the lines, in order. */
  function AllWords(lines: seq<string>): seq<string> {
    if lines == [] then [] else Words(lines[0]) + AllWords(lines[1..])
  }

  predicate EndsInSpace(s: string) {
    s != [] && IsSpace(s[|s| - 1])
  }

  // ----- strip -----

  lemma {:induction false} TrimStartSpacePrefix(a: string, x: string)
    requires forall i :: 0 <= i < |a| ==> IsSpace(a[i])
    requires x == [] || !IsSpace(x[0])
    ensures TrimStart(a + x) == x
  {
    if a == [] {
      assert a + x == x;
    } else {
      assert (a + x)[1..] == a[1..] + x;
      TrimStartSpacePrefix(a[1..], x);
    }
  }

  lemma {:induction false} TrimEndSpaceSuffix(x: string, b: string)
    requires forall i :: 0 <= i < |b| ==> IsSpace(b[i])
    requires x == [] || !IsSpace(x[|x| - 1])
    ensures TrimEnd(x + b) == x
  {
    if b == [] {
      assert x + b == x;
    } else {
      var b' := b[..|b| - 1];
      assert (x + b)[..|x + b| - 1] == x + b';
      TrimEndSpaceSuffix(x, b');
    }
  }

  /** Stripping whitespace padding from a text that starts and ends with a non-blank gives the text back. */
  lemma {:induction false} StripPadded(a: string, t: string, b: string)
    requires forall i :: 0 <= i < |a| ==> IsSpace(a[i])
    requires forall i :: 0 <= i < |b| ==> IsSpace(b[i])
    requires t == [] || (!IsSpace(t[0]) && !IsSpace(t[|t| - 1]))
    ensures Strip(a + (t + b)) == t
  {
    if t == [] {
      assert a + (t + b) == a + b;
      StripEmpty(a + b);
    } else {
      TrimStartSpacePrefix(a, t + b);
      TrimEndSpaceSuffix(t, b);
    }
  }

  // ----- words joined by single spaces -----

  /** Words joined with " " are empty only for no words, and start and end with a non-blank. */
  lemma {:induction false} JoinWordsEnds(ws: seq<string>)
    requires IsWordList(ws)
    ensures Join(ws, " ") == [] <==> ws == []
    ensures Join(ws, " ") == [] || (!IsSpace(Join(ws, " ")[0]) && !IsSpace(Join(ws, " ")[|Join(ws, " ")| - 1]))
  {
    if |ws| > 1 {
      assert ws[0] in ws;
      assert forall w :: w in ws[1..] ==> w in ws;
      JoinWordsEnds(ws[1..]);
    } else if |ws| == 1 {
      assert ws[0] in ws;
    }
  }

  /** In words joined with " ", every blank is a single ' ' between two non-blanks. */
  lemma {:induction false} JoinWordsSpacing(ws: seq<string>)
    requires IsWordList(ws)
    ensures var r := Join(ws, " ");
      forall i :: 0 <= i < |r| && IsSpace(r[i]) ==>
        r[i] == ' ' && 0 < i < |r| - 1 && !IsSpace(r[i - 1]) && !IsSpace(r[i + 1])
  {
    var r := Join(ws, " ");
    if |ws| == 1 {
      assert ws[0] in ws;
    } else if |ws| > 1 {
      var w := ws[0];
      var rest := ws[1..];
      assert w in ws;
      assert forall v :: v in rest ==> v in ws;
      var tail := Join(rest, " ");
      JoinWordsSpacing(rest);
      JoinWordsEnds(rest);
      assert r == w + " " + tail;
      assert forall i :: 0 <= i < |w| ==> r[i] == w[i];
      forall i | |w| <= i < |r| && IsSpace(r[i])
        ensures r[i] == ' ' && 0 < i < |r| - 1 && !IsSpace(r[i - 1]) && !IsSpace(r[i + 1])
      {
        if i == |w| {
          assert r[i - 1] == w[|w| - 1];
          assert r[i + 1] == tail[0];
        } else {
          var j := i - |w| - 1;
          assert r[i] == tail[j];
          assert r[i - 1] == tail[j - 1];
          assert r[i + 1] == tail[j + 1];
        }
      }
    }
  }

  // ----- the whitespace collapse against the words -----

  /** On a text that does not start with a blank, the collapse is the words joined by " ", plus a space if the text ends in one. */
  lemma {:induction false} CollapseWordFirst(s: string)
    requires s == [] || !IsSpace(s[0])
    ensures Collapse(s) == Join(Words(s), " ") + (if EndsInSpace(s) then " " else "")
    decreases |s|
  {
    if s != [] {
      var n := RunLen(s);
      var w := s[..n];
      var r := s[n..];
      assert Words(s) == [w] + Words(r);
      assert Collapse(s) == w + Collapse(r);
      if r == [] {
        assert s[|s| - 1] == s[n - 1];
        JoinOne(w, " ");
      } else {
        var k := LeadingRun(r, IsSpace);
        LeadingRunShape(r, IsSpace);
        var u := r[k..];
        assert Collapse(r) == " " + Collapse(u);
        CollapseWordFirst(u);
        assert r == r[..k] + u;
        WordsOfSpacePrefix(r[..k], u);
        var ws := Words(u);
        var post := if EndsInSpace(u) then " " else "";
        if u == [] {
          assert s[|s| - 1] == r[k - 1];
          JoinOne(w, " ");
        } else {
          FirstWord(u);
          LastOfSuffix(s, n + k);
          JoinCons(w, ws, " ");
          Regroup(w, " ", Join(ws, " "), post);
        }
      }
    }
  }

  lemma {:induction false} LastOfSuffix(s: string, m: nat)
    requires m < |s|
    ensures s[|s| - 1] == s[m..][|s| - m - 1]
  {
  }

  lemma {:induction false} Regroup(a: string, b: string, c: string, d: string)
    ensures a + (b + (c + d)) == a + b + c + d
  {
  }

  lemma {:induction false} JoinOne(w: string, sep: string)
    ensures Join([w], sep) == w
  {
  }

  lemma {:induction false} JoinCons(w: string, ws: seq<string>, sep: string)
    requires ws != []
    ensures Join([w] + ws, sep) == w + sep + Join(ws, sep)
  {
    assert ([w] + ws)[1..] == ws;
  }

  /** Collapsing the blanks and stripping the ends leaves exactly the words of the text joined by " ". */
  lemma {:induction false} StripCollapse(s: string)
    ensures Strip(Collapse(s)) == Join(Words(s), " ")
  {
    if s != [] && IsSpace(s[0]) {
      StripCollapseSpaceFirst(s);
    } else {
      StripCollapseWordFirst(s);
    }
  }

  lemma {:induction false} StripCollapseWordFirst(s: string)
    requires s == [] || !IsSpace(s[0])
    ensures Strip(Collapse(s)) == Join(Words(s), " ")
  {
    var j := Join(Words(s), " ");
    WordsShape(s);
    JoinWordsEnds(Words(s));
    CollapseWordFirst(s);
    var post := if EndsInSpace(s) then " " else "";
    assert Collapse(s) == j + post;
    assert "" + (j + post) == j + post;
    StripPadded("", j, post);
  }

  lemma {:induction false} StripCollapseSpaceFirst(s: string)
    requires s != [] && IsSpace(s[0])
    ensures Strip(Collapse(s)) == Join(Words(s), " ")
  {
    var j := Join(Words(s), " ");
    WordsShape(s);
    JoinWordsEnds(Words(s));
    var k := LeadingRun(s, IsSpace);
    LeadingRunShape(s, IsSpace);
    var u := s[k..];
    assert Collapse(s) == " " + Collapse(u);
    CollapseWordFirst(u);
    assert s == s[..k] + u;
    WordsOfSpacePrefix(s[..k], u);
    var post := if EndsInSpace(u) then " " else "";
    assert Collapse(u) == j + post;
    StripPadded(" ", j, post);
  }

  // ----- the words of the lines -----

  /** A blank splits the words: the words of `a + [c] + b` are those of `a` followed by those of `b`. */
  lemma {:induction false} WordsAroundSpace(a: string, c: char, b: string)
    requires IsSpace(c)
    ensures Words(a + [c] + b) == Words(a) + Words(b)
    decreases |a|
  {
    var x := a + [c] + b;
    if a == [] {
      assert x[1..] == b;
    } else if IsSpace(a[0]) {
      assert x[1..] == a[1..] + [c] + b;
      WordsAroundSpace(a[1..], c, b);
    } else {
      var n := RunLen(a);
      assert x[..n] == a[..n];
      SameLeadingRun(a, x, n);
      assert x[n..] == a[n..] + [c] + b;
      WordsAroundSpace(a[n..], c, b);
    }
  }

  lemma {:induction false} WordsOfLines(lines: seq<string>)
    ensures Words(Join(lines, "\n")) == AllWords(lines)
  {
    if |lines| == 1 {
      assert AllWords(lines) == Words(lines[0]) + AllWords([]);
    } else if |lines| > 1 {
      WordsAroundSpace(lines[0], '\n', Join(lines[1..], "\n"));
      WordsOfLines(lines[1..]);
    }
  }

  lemma {:induction false} BlankedWords(lines: seq<string>)
    ensures AllWords(BlankPageNumbers(lines)) == KeptWords(lines)
  {
    if lines != [] {
      assert BlankPageNumbers(lines)[1..] == BlankPageNumbers(lines[1..]);
      assert Words("") == [];
      BlankedWords(lines[1..]);
    }
  }

  lemma {:induction false} KeptWordsAppend(a: seq<string>, b: seq<string>)
    ensures KeptWords(a + b) == KeptWords(a) + KeptWords(b)
  {
    if a == [] {
      assert a + b == b;
    } else {
      assert (a + b)[1..] == a[1..] + b;
      KeptWordsAppend(a[1..], b);
    }
  }

  // ----- clean_text -----

  /** `clean_text` keeps the words of every line that is not a page number, in order, joined by single spaces. */
  lemma {:induction false} CleanTextWords(text: string)
    ensures CleanText(text) == Join(KeptWords(Split(text, '\n')), " ")
  {
    var lines := Split(text, '\n');
    StripCollapse(DropPageNumbers(text));
    WordsOfLines(BlankPageNumbers(lines));
    BlankedWords(lines);
  }

  /**
   * The output has no leading or trailing whitespace, and every whitespace character in it is a
   * single ' ' between two non-blanks.
   */
  lemma {:induction false} CleanTextShape(text: string)
    ensures var r := CleanText(text);
      (r == [] || (!IsSpace(r[0]) && !IsSpace(r[|r| - 1]))) &&
      forall i :: 0 <= i < |r| && IsSpace(r[i]) ==>
        r[i] == ' ' && 0 < i < |r| - 1 && !IsSpace(r[i - 1]) && !IsSpace(r[i + 1])
  {
    var s := DropPageNumbers(text);
    StripCollapse(s);
    WordsShape(s);
    JoinWordsEnds(Words(s));
    JoinWordsSpacing(Words(s));
  }

  /** A line holding only a page number contributes nothing: deleting it leaves the output unchanged. */
  lemma {:induction false} PageLineDropped(before: seq<string>, line: string, after: seq<string>)
    requires forall l :: l in before + [line] + after ==> '\n' !in l
    requires IsPageNumberLine(line)
    ensures CleanText(Join(before + [line] + after, "\n")) == CleanText(Join(before + after, "\n"))
  {
    var all := before + [line] + after;
    var rest := before + after;
    var t1 := Join(all, "\n");
    var t2 := Join(rest, "\n");
    var kept := KeptWords(before) + KeptWords(after);
    SplitJoin(all, '\n');
    KeptWordsAppend(before + [line], after);
    KeptWordsAppend(before, [line]);
    assert KeptWords([line]) == [] + KeptWords([]);
    assert KeptWords(Split(t1, '\n')) == kept;
    KeptWordsAppend(before, after);
    if rest == [] {
      assert t2 == "";
      assert Split(t2, '\n') == [""];
      assert KeptWords([""]) == Words("") + KeptWords([]);
    } else {
      forall l | l in rest ensures '\n' !in l {
        assert l in all;
      }
      SplitJoin(rest, '\n');
    }
    assert KeptWords(Split(t2, '\n')) == kept;
    CleanTextWords(t1);
    CleanTextWords(t2);
  }

  // ----- no new characters -----

  lemma {:induction false} JoinHasPart(parts: seq<string>, sep: string, i: nat, c: char)
    requires i < |parts| && c in parts[i]
    ensures c in Join(parts, sep)
  {
    if |parts| > 1 {
      if i > 0 {
        JoinHasPart(parts[1..], sep, i - 1, c);
      }
    }
  }

  lemma {:induction false} JoinChars(parts: seq<string>, sep: string, c: char)
    requires c in Join(parts, sep)
    ensures c in sep || exists p :: p in parts && c in p
  {
    if |parts| == 1 {
      assert parts[0] in parts;
    } else if |parts| > 1 {
      assert parts[0] in parts;
      if c !in parts[0] && c !in sep {
        JoinChars(parts[1..], sep, c);
        var p :| p in parts[1..] && c in p;
        assert p in parts;
      }
    }
  }

  lemma {:induction false} WordsChars(s: string, w: string, c: char)
    requires w in Words(s) && c in w
    ensures c in s
    decreases |s|
  {
    if IsSpace(s[0]) {
      WordsChars(s[1..], w, c);
    } else {
      var n := RunLen(s);
      if w == s[..n] {
        var i :| 0 <= i < |w| && w[i] == c;
        assert s[i] == c;
      } else {
        WordsChars(s[n..], w, c);
      }
    }
  }

  lemma {:induction false} KeptWordsChars(lines: seq<string>, w: string, c: char)
    requires w in KeptWords(lines) && c in w
    ensures exists l :: l in lines && c in l
  {
    var head := if IsPageNumberLine(lines[0]) then [] else Words(lines[0]);
    assert lines[0] in lines;
    if w in head {
      WordsChars(lines[0], w, c);
    } else {
      KeptWordsChars(lines[1..], w, c);
      var l :| l in lines[1..] && c in l;
      assert l in lines;
    }
  }

  /** Cleaning only deletes characters and replaces blanks: every non-blank of the output occurs in the input. */
  lemma {:induction false} CleanTextAddsNothing(text: string, c: char)
    requires c in CleanText(text) && !IsSpace(c)
    ensures c in text
  {
    var lines := Split(text, '\n');
    CleanTextWords(text);
    JoinChars(KeptWords(lines), " ", c);
    var w :| w in KeptWords(lines) && c in w;
    KeptWordsChars(lines, w, c);
    var l :| l in lines && c in l;
    var i :| 0 <= i < |lines| && lines[i] == l;
    JoinHasPart(lines, "\n", i, c);
    JoinSplit(text, '\n');
  }

  // ----- is_header_or_footer -----

  /**
   * `Page\s+\d+` matches at `i`, ignoring case: "page" in any case, then one or more blanks, then a
   * digit.
   */
  predicate PageMarkerAt(line: string, i: int) {
    0 <= i && i + 4 < |line| && Lower(line[i..i + 4]) == "page" &&
    exists j :: i + 4 < j < |line| && IsDigit(line[j]) && forall k :: i + 4 <= k < j ==> IsSpace(line[k])
  }

  /** The match attempt at `i`: the blank run after "page" is read greedily and must be followed by a digit. */
  predicate MarkerHere(line: string, i: nat) {
    i + 4 <= |line| && Lower(line[i..i + 4]) == "page" &&
    var n := LeadingRun(line[i + 4..], IsSpace);
    n >= 1 && i + 4 + n < |line| && IsDigit(line[i + 4 + n])
  }

  /** `re.search` from position `i`: try every start position in turn. */
  predicate FindPageMarker(line: string, i: nat)
    decreases |line| - i
  {
    i < |line| && (MarkerHere(line, i) || FindPageMarker(line, i + 1))
  }

  /** `is_header_or_footer(line)`. */
  predicate IsHeaderOrFooter(line: string) {
    |Strip(line)| < 5 || FindPageMarker(line, 0)
  }

  lemma {:induction false} MarkerHereIff(line: string, i: nat)
    ensures MarkerHere(line, i) <==> PageMarkerAt(line, i)
  {
    if i + 4 <= |line| && Lower(line[i..i + 4]) == "page" {
      var rest := line[i + 4..];
      var n := LeadingRun(rest, IsSpace);
      LeadingRunShape(rest, IsSpace);
      if MarkerHere(line, i) {
        var j := i + 4 + n;
        forall k | i + 4 <= k < j ensures IsSpace(line[k]) {
          assert line[k] == rest[k - i - 4];
        }
      }
      if PageMarkerAt(line, i) {
        var j :| i + 4 < j < |line| && IsDigit(line[j]) && forall k :: i + 4 <= k < j ==> IsSpace(line[k]);
        if n < j - i - 4 {
          assert false;
        } else if n > j - i - 4 {
          assert false;
        }
        assert n == j - i - 4;
      }
    }
  }

  lemma {:induction false} FindPageMarkerIff(line: string, i: nat)
    ensures FindPageMarker(line, i) <==> exists k :: i <= k < |line| && PageMarkerAt(line, k)
    decreases |line| - i
  {
    if i < |line| {
      MarkerHereIff(line, i);
      FindPageMarkerIff(line, i + 1);
      if exists k :: i <= k < |line| && PageMarkerAt(line, k) {
        var k :| i <= k < |line| && PageMarkerAt(line, k);
        if k > i {
          assert i + 1 <= k < |line| && PageMarkerAt(line, k);
        }
      }
    }
  }

  /**
   * A line is a header or footer exactly when its stripped form is shorter than five characters or
   * "Page", in any case, is followed by blanks and a digit somewhere in it.
   */
  lemma {:induction false} HeaderOrFooterIff(line: string)
    ensures IsHeaderOrFooter(line) <==> |Strip(line)| < 5 || exists i :: 0 <= i < |line| && PageMarkerAt(line, i)
  {
    FindPageMarkerIff(line, 0);
  }
}
