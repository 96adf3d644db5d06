/**
 * The Cypher validator: which statements of an LLM's output are kept, how two common mistakes are
 * repaired, and the execute-and-count loop around the graph database.
 */
module CypherValidator {
  import opened Wrappers
  import opened JsonValue
  import opened Strings

  /** `VALID_KEYWORDS`. */
  const Keywords: set<string> := {"MERGE", "MATCH", "CREATE", "RETURN", "WITH", "WHERE", "SET", "UNWIND", "OPTIONAL"}

  /**
   * `is_valid_cypher`: false for a blank query; otherwise the first whitespace-separated token of
   * the stripped query, upper-cased, must be a keyword.
   */
  predicate IsValidCypher(query: string) {
    var s := Strip(query);
    s != [] && (WordsEmpty(s); Upper(Words(s)[0]) in Keywords)
  }

  /** Every keyword is spelt in upper-case ASCII letters. */
  lemma {:induction false} KeywordLetters(kw: string)
    requires kw in Keywords
    ensures forall j :: 0 <= j < |kw| ==> 'A' <= kw[j] <= 'Z'
  {
  }

  /** The test reads the first token of the query itself: the same with or without the stripping. */
  lemma {:induction false} IsValidFirstToken(query: string)
    ensures IsValidCypher(query) <==> Words(query) != [] && Upper(Words(query)[0]) in Keywords
  {
    WordsOfStrip(query);
    StripEmpty(query);
    WordsEmpty(query);
  }

  /** For a query that starts with a non-blank character, the first token is its leading run. */
  lemma {:induction false} IsValidLeadingRun(query: string)
    requires query != [] && !IsSpace(query[0])
    ensures IsValidCypher(query) <==> Upper(query[..RunLen(query)]) in Keywords
  {
    IsValidFirstToken(query);
    FirstWord(query);
  }

  // ----- Markdown fences -----

  const CypherFence: string := "```cypher"
  const Fence: string := "```"

  /**
   * `re.sub(marker + r'\s*', '', s)`: scanning left to right, each occurrence of `marker` is deleted
   * together with the whitespace that follows it.
   */
  function RemoveMarker(s: string, marker: string): (r: string)
    requires marker != []
    ensures |r| <= |s|
    decreases |s|
  {
    if s == [] then []
    else if StartsWith(s, marker) then RemoveMarker(TrimStart(s[|marker|..]), marker)
    else [s[0]] + RemoveMarker(s[1..], marker)
  }

  /** The two substitutions that remove "```cypher" and "```" fences. */
  function Unfence(raw: string): string {
    RemoveMarker(RemoveMarker(raw, CypherFence), Fence)
  }

  /** Text without the marker passes through unchanged. */
  lemma {:induction false} RemoveMarkerAbsent(s: string, marker: string)
    requires marker != [] && !Contains(s, marker)
    ensures RemoveMarker(s, marker) == s
    decreases |s|
  {
    if s != [] {
      RemoveMarkerAbsent(s[1..], marker);
    }
  }

  /** Dropping a prefix free of `c` keeps the count of `c`. */
  lemma {:induction false} CountDropPrefix(s: string, k: nat, c: char)
    requires k <= |s| && forall i :: 0 <= i < k ==> s[i] != c
    ensures Count(s[k..], c) == Count(s, c)
  {
    if k > 0 {
      assert s[1..][k - 1..] == s[k..];
      CountDropPrefix(s[1..], k - 1, c);
    }
  }

  /** Deleting a leading marker and the whitespace after it keeps the count of such a character. */
  lemma {:induction false} DropMarkerCount(s: string, marker: string, c: char)
    requires marker != [] && c !in marker && !IsSpace(c) && StartsWith(s, marker)
    ensures Count(TrimStart(s[|marker|..]), c) == Count(s, c)
  {
    forall i | 0 <= i < |marker| ensures s[i] != c {
      assert s[i] == s[..|marker|][i];
    }
    CountDropPrefix(s, |marker|, c);
    var rest := s[|marker|..];
    TrimStartSuffix(rest);
    TrimStartBlanks(rest);
    CountDropPrefix(rest, |rest| - |TrimStart(rest)|, c);
  }

  /** Removing a marker keeps every occurrence of a non-blank character the marker does not contain. */
  lemma {:induction false} RemoveMarkerCount(s: string, marker: string, c: char)
    requires marker != [] && c !in marker && !IsSpace(c)
    ensures Count(RemoveMarker(s, marker), c) == Count(s, c)
    decreases |s|
  {
    if s != [] {
      if StartsWith(s, marker) {
        RemoveMarkerCount(TrimStart(s[|marker|..]), marker, c);
        DropMarkerCount(s, marker, c);
      } else {
        RemoveMarkerCount(s[1..], marker, c);
      }
    }
  }

  /** Fence removal never merges or splits the ';'-separated pieces. */
  lemma {:induction false} UnfencePieces(raw: string)
    ensures |Split(Unfence(raw), ';')| == |Split(raw, ';')|
  {
    RemoveMarkerCount(raw, CypherFence, ';');
    RemoveMarkerCount(RemoveMarker(raw, CypherFence), Fence, ';');
    SplitCount(raw, ';');
    SplitCount(Unfence(raw), ';');
  }

  // ----- fix_common_errors -----

  /** `query.startswith(('This ', 'The ', 'Here ', 'Note:', '**'))`: an explanation, not a statement. */
  predicate IsProse(query: string) {
    StartsWith(query, "This ") || StartsWith(query, "The ") || StartsWith(query, "Here ") ||
    StartsWith(query, "Note:") || StartsWith(query, "**")
  }

  /**
   * A match of `MERGE\s+:(\w+)` at the start of `s`: the length of the match and the tag it
   * captures. Both runs are taken whole, as the greedy regular expression does.
   */
  function MergeAt(s: string): (m: Option<(nat, string)>)
    ensures m.Some? ==> 0 < m.value.0 <= |s|
  {
    if !StartsWith(s, "MERGE") then None
    else
      var spaces := LeadingRun(s[5..], IsSpace);
      if spaces == 0 || 5 + spaces == |s| || s[5 + spaces] != ':' then None
      else
        var tag := LeadingRun(s[6 + spaces..], IsWordChar);
        if tag == 0 then None
        else
          var n := 6 + spaces + tag;
          Some((n, s[n - tag..n]))
  }

  /**
   * A match starts with "MERGE" and a blank, captures a non-empty run of word characters that
   * ends the match, and is not followed by another word character.
   */
  lemma {:induction false} MergeAtShape(s: string)
    requires MergeAt(s).Some?
    ensures var (n, tag) := MergeAt(s).value;
      StartsWith(s, "MERGE") && 5 < |s| && IsSpace(s[5]) &&
      tag != [] && |tag| <= n && tag == s[n - |tag|..n] &&
      (forall i :: 0 <= i < |tag| ==> IsWordChar(tag[i])) &&
      (n == |s| || !IsWordChar(s[n]))
  {
    var spaces := LeadingRun(s[5..], IsSpace);
    LeadingRunShape(s[5..], IsSpace);
    assert s[5] == s[5..][0];
    var rest := s[6 + spaces..];
    var tag := LeadingRun(rest, IsWordChar);
    LeadingRunShape(rest, IsWordChar);
    var n := 6 + spaces + tag;
    assert s[n - tag..n] == rest[..tag];
    if n < |s| {
      assert s[n] == rest[tag];
    }
  }

  /** `re.sub(r'MERGE\s+:(\w+)', r'MERGE (:\1)', s)`: every bare tag after MERGE is put in parentheses. */
  function FixMerge(s: string): (r: string)
    decreases |s|
  {
    if s == [] then []
    else
      match MergeAt(s)
      case Some((n, tag)) => "MERGE (:" + tag + ")" + FixMerge(s[n..])
      case None => [s[0]] + FixMerge(s[1..])
  }

  /** `t` is what `\s+:(\w+)\s*$` matches: blanks, a colon, a tag, and blanks to the end. */
  predicate RelTail(t: string) {
    var spaces := LeadingRun(t, IsSpace);
    0 < spaces < |t| && t[spaces] == ':' &&
    var u := t[spaces + 1..];
    var tag := LeadingRun(u, IsWordChar);
    tag > 0 && forall i :: tag <= i < |u| ==> IsSpace(u[i])
  }

  /**
   * `re.sub(r'\)\s+:(\w+)\s*$', ')', s)`: a dangling relationship type after the last ')' is cut,
   * read from the end of the string.
   */
  function DropTrailingRel(s: string): string {
    var t := s[..|s| - TrailingRun(s, IsSpace)];
    var tag := TrailingRun(t, IsWordChar);
    if tag == 0 || tag == |t| || t[|t| - tag - 1] != ':' then s
    else
      var u := t[..|t| - tag - 1];
      var spaces := TrailingRun(u, IsSpace);
      if spaces == 0 || spaces == |u| || u[|u| - spaces - 1] != ')' then s
      else u[..|u| - spaces]
  }

  /** The cut keeps a prefix: the whole string, or one that ends in ')'. */
  lemma {:induction false} DropTrailingRelShape(s: string)
    ensures |DropTrailingRel(s)| <= |s| && DropTrailingRel(s) == s[..|DropTrailingRel(s)|]
    ensures DropTrailingRel(s) == s || (DropTrailingRel(s) != [] && DropTrailingRel(s)[|DropTrailingRel(s)| - 1] == ')')
  {
  }

  /** The cut never leaves a trailing blank on a string that does not end in one. */
  lemma {:induction false} DropTrailingRelLast(s: string)
    requires s != [] && !IsSpace(s[|s| - 1])
    ensures DropTrailingRel(s) != [] ==> !IsSpace(DropTrailingRel(s)[|DropTrailingRel(s)| - 1])
  {
    DropTrailingRelShape(s);
  }

  /** `\}\s+:\w+\s+:` matches at the start of `s`: a relationship type written between two nodes. */
  predicate DanglingAt(s: string) {
    s != [] && s[0] == '}' &&
    var a := LeadingRun(s[1..], IsSpace);
    a > 0 && 1 + a < |s| && s[1 + a] == ':' &&
    var b := LeadingRun(s[2 + a..], IsWordChar);
    b > 0 &&
    var c := LeadingRun(s[2 + a + b..], IsSpace);
    c > 0 && 2 + a + b + c < |s| && s[2 + a + b + c] == ':'
  }

  /** `re.search(r'\}\s+:\w+\s+:', s)`. */
  predicate HasDanglingRel(s: string) {
    s != [] && (DanglingAt(s) || HasDanglingRel(s[1..]))
  }

  /** A match at position `k` makes the search succeed. */
  lemma {:induction false} HasDanglingRelFrom(s: string, k: nat)
    requires k < |s| && DanglingAt(s[k..])
    ensures HasDanglingRel(s)
  {
    if k > 0 {
      assert s[1..][k - 1..] == s[k..];
      HasDanglingRelFrom(s[1..], k - 1);
    }
  }

  /** A successful search has a position where the pattern matches. */
  lemma {:induction false} HasDanglingRelAt(s: string) returns (k: nat)
    requires HasDanglingRel(s)
    ensures k < |s| && DanglingAt(s[k..])
  {
    if DanglingAt(s) {
      k := 0;
    } else {
      var j := HasDanglingRelAt(s[1..]);
      assert s[1..][j..] == s[j + 1..];
      k := j + 1;
    }
  }

  /**
   * `fix_common_errors`: an explanation is rejected; otherwise the two repairs are applied, and a
   * statement that still writes a relationship between two nodes is rejected.
   */
  function FixCommonErrors(query: string): Option<string> {
    if IsProse(query) then None
    else
      var fixed := DropTrailingRel(FixMerge(query));
      if HasDanglingRel(fixed) then None else Some(fixed)
  }

  /**
   * `fix_common_errors` returns `None` exactly for an explanation and for a repaired statement that
   * still writes a relationship between two nodes; what it returns is free of that pattern.
   */
  lemma {:induction false} FixCommonErrorsRejects(query: string)
    ensures IsProse(query) ==> FixCommonErrors(query).None?
    ensures FixCommonErrors(query).None? && !IsProse(query) ==> HasDanglingRel(DropTrailingRel(FixMerge(query)))
    ensures FixCommonErrors(query).Some? ==> !IsProse(query) && !HasDanglingRel(FixCommonErrors(query).value)
  {
  }

  /**
   * No explanation passes the keyword test: its first token is "This", "The", "Here", or starts with
   * "Note:" or "**", none of which is a keyword. So on the extraction path, where `fix_common_errors`
   * is only called on valid queries, its explanation check never fires.
   */
  lemma {:induction false} ProseNeverValid(query: string)
    requires IsProse(query)
    ensures !IsValidCypher(query)
  {
    assert query[0] == query[..|query|][0];
    if StartsWith(query, "This ") {
      assert forall i :: 0 <= i < 5 ==> query[i] == query[..5][i] == "This "[i];
      ShortLeadingWord(query, 4);
    } else if StartsWith(query, "Here ") {
      assert forall i :: 0 <= i < 5 ==> query[i] == query[..5][i] == "Here "[i];
      ShortLeadingWord(query, 4);
    } else if StartsWith(query, "The ") {
      assert forall i :: 0 <= i < 4 ==> query[i] == query[..4][i] == "The "[i];
      ShortLeadingWord(query, 3);
    } else if StartsWith(query, "Note:") {
      assert forall i :: 0 <= i < 5 ==> query[i] == query[..5][i] == "Note:"[i];
      LeadingWordNotKeyword(query, 5, 4);
    } else {
      assert query[0] == query[..2][0] == '*';
      LeadingWordNotKeyword(query, 1, 0);
    }
    IsValidLeadingRun(query);
  }

  /** A word with a character that is not an upper-case letter is no keyword. */
  lemma {:induction false} NotKeyword(w: string, j: nat)
    requires j < |w| && !('A' <= w[j] <= 'Z')
    ensures w !in Keywords
  {
    if w in Keywords {
      KeywordLetters(w);
    }
  }

  /** The only keyword of three letters starts with 'S', and the only one of four with 'W'. */
  lemma {:induction false} ShortNotKeyword(w: string)
    requires (|w| == 3 && w[0] != 'S') || (|w| == 4 && w[0] != 'W')
    ensures w !in Keywords
  {
  }

  /** A first token of three or four characters that does not start like SET or WITH is no keyword. */
  lemma {:induction false} ShortLeadingWord(query: string, k: nat)
    requires k < |query| && IsSpace(query[k]) && forall i :: 0 <= i < k ==> !IsSpace(query[i])
    requires (k == 3 && UpperChar(query[0]) != 'S') || (k == 4 && UpperChar(query[0]) != 'W')
    ensures Upper(query[..RunLen(query)]) !in Keywords
  {
    RunLenIs(query, k);
    ShortNotKeyword(Upper(query[..k]));
  }

  /** A first token holding, among its first `k` characters, one that upper-cases to no letter is no keyword. */
  lemma {:induction false} LeadingWordNotKeyword(query: string, k: nat, j: nat)
    requires j < k <= |query| && forall i :: 0 <= i < k ==> !IsSpace(query[i])
    requires !('A' <= UpperChar(query[j]) <= 'Z')
    ensures Upper(query[..RunLen(query)]) !in Keywords
  {
    RunLenAtLeast(query, k);
    NotKeyword(Upper(query[..RunLen(query)]), j);
  }

  // ----- extract_cypher_statements -----

  /** What one ';'-separated piece contributes: its stripped, repaired text, when it is kept. */
  function Statement(part: string): Option<string> {
    var cleaned := Strip(part);
    if cleaned != [] && IsValidCypher(cleaned) then
      match FixCommonErrors(cleaned)
      case Some(fixed) => if fixed != [] then Some(fixed) else None
      case None => None
    else None
  }

  /** What `keep` keeps of `parts`, in order. */
  function Extracted(parts: seq<string>, keep: string -> Option<string>): (statements: seq<string>)
    ensures |statements| <= |parts|
  {
    if parts == [] then []
    else
      var init := Extracted(parts[..|parts| - 1], keep);
      match keep(parts[|parts| - 1])
      case Some(st) => init + [st]
      case None => init
  }

  /** The statements extracted from a raw LLM output. */
  function StatementsOf(raw: string): seq<string> {
    Extracted(Split(Unfence(raw), ';'), Statement)
  }

  /** The extraction loop: each piece in turn, keeping what `keep` makes of it. */
  method ExtractWith(parts: seq<string>, keep: string -> Option<string>) returns (statements: seq<string>)
    ensures statements == Extracted(parts, keep)
  {
    statements := [];
    var i := 0;
    while i < |parts|
      invariant i <= |parts|
      invariant statements == Extracted(parts[..i], keep)
    {
      assert parts[..i + 1][..i] == parts[..i];
      var kept := keep(parts[i]);
      if kept.Some? {
        statements := statements + [kept.value];
      }
      i := i + 1;
    }
    assert parts[..i] == parts;
  }

  /** `extract_cypher_statements`: the fences are removed, the text is split on ';', each piece is kept or dropped. */
  method ExtractCypherStatements(raw: string) returns (statements: seq<string>)
    ensures statements == StatementsOf(raw)
  {
    statements := ExtractWith(Split(Unfence(raw), ';'), Statement);
  }

  /**
   * The positions of the kept pieces: increasing, and the k-th statement is the k-th kept piece;
   * every other piece is dropped.
   */
  lemma {:induction false} ExtractedOrigins(parts: seq<string>, keep: string -> Option<string>) returns (origins: seq<nat>)
    ensures |origins| == |Extracted(parts, keep)|
    ensures forall k :: 0 <= k < |origins| ==> origins[k] < |parts|
    ensures forall k :: 0 <= k < |origins| ==> keep(parts[origins[k]]) == Some(Extracted(parts, keep)[k])
    ensures forall k, l :: 0 <= k < l < |origins| ==> origins[k] < origins[l]
    ensures forall j :: 0 <= j < |parts| && j !in origins ==> keep(parts[j]).None?
  {
    if parts == [] {
      origins := [];
    } else {
      var n := |parts| - 1;
      var before := parts[..n];
      var init := ExtractedOrigins(before, keep);
      var prior := Extracted(before, keep);
      forall k | 0 <= k < |init| ensures keep(parts[init[k]]) == Some(prior[k]) {
        assert parts[init[k]] == before[init[k]];
      }
      forall j | 0 <= j < n && j !in init ensures keep(parts[j]).None? {
        assert parts[j] == before[j];
      }
      if keep(parts[n]).Some? {
        origins := init + [n];
        assert Extracted(parts, keep) == prior + [keep(parts[n]).value];
        forall k, l | 0 <= k < l < |origins| ensures origins[k] < origins[l] {
          assert origins[k] == init[k];
          if l < |init| {
            assert origins[l] == init[l];
          }
        }
      } else {
        origins := init;
        assert Extracted(parts, keep) == prior;
      }
    }
  }

  // ----- the shape of a kept statement -----

  /** Count of `c` in `s`, so that the pieces of a split can be counted. */
  function Count(s: string, c: char): nat {
    if s == [] then 0 else (if s[0] == c then 1 else 0) + Count(s[1..], c)
  }

  lemma {:induction false} CountAppend(a: string, b: string, c: char)
    ensures Count(a + b, c) == Count(a, c) + Count(b, c)
  {
    if a == [] {
      assert a + b == b;
    } else {
      assert (a + b)[0] == a[0] && (a + b)[1..] == a[1..] + b;
      CountAppend(a[1..], b, c);
    }
  }

  lemma {:induction false} CountAbsent(a: string, c: char)
    requires forall i :: 0 <= i < |a| ==> a[i] != c
    ensures Count(a, c) == 0
  {
    if a != [] {
      CountAbsent(a[1..], c);
    }
  }

  /** A split on `c` has one piece more than `s` has separators. */
  lemma {:induction false} SplitCount(s: string, c: char)
    ensures |Split(s, c)| == Count(s, c) + 1
  {
    if s != [] {
      SplitCount(s[1..], c);
    }
  }

  /** The repair adds only the characters of "MERGE (:)" to those of its input. */
  lemma {:induction false} FixMergeChars(s: string)
    ensures forall i :: 0 <= i < |FixMerge(s)| ==> FixMerge(s)[i] in s || FixMerge(s)[i] in "MERGE (:)"
    decreases |s|
  {
    if s != [] {
      match MergeAt(s)
      case Some((n, tag)) =>
        FixMergeChars(s[n..]);
        var r := "MERGE (:" + tag + ")" + FixMerge(s[n..]);
        forall i | 0 <= i < |r| ensures r[i] in s || r[i] in "MERGE (:)" {
          if 8 <= i < 8 + |tag| {
            assert r[i] == s[n - |tag| + i - 8];
          } else if i >= 9 + |tag| {
            assert r[i] == FixMerge(s[n..])[i - 9 - |tag|];
          }
        }
      case None =>
        FixMergeChars(s[1..]);
        var r := [s[0]] + FixMerge(s[1..]);
        forall i | 0 <= i < |r| ensures r[i] in s || r[i] in "MERGE (:)" {
          if i > 0 {
            assert r[i] == FixMerge(s[1..])[i - 1];
          }
        }
    }
  }

  /** A non-empty input gives a non-empty output ending in its last character or in ')'. */
  lemma {:induction false} FixMergeLast(s: string)
    requires s != []
    ensures FixMerge(s) != []
    ensures FixMerge(s)[|FixMerge(s)| - 1] in {s[|s| - 1], ')'}
    decreases |s|
  {
    match MergeAt(s)
    case Some((n, tag)) =>
      if n < |s| {
        FixMergeLast(s[n..]);
      }
    case None =>
      if |s| > 1 {
        FixMergeLast(s[1..]);
      }
  }

  /** Where no match starts, the repair copies the first character. */
  lemma {:induction false} FixMergeNoMatch(t: string)
    requires t != [] && MergeAt(t).None?
    ensures FixMerge(t) == [t[0]] + FixMerge(t[1..])
  {
  }

  /** A prefix in which no match starts is copied unchanged. */
  lemma {:induction false} FixMergeSkips(s: string, k: nat)
    requires k <= |s|
    requires forall i {:trigger MergeAt(s[i..])} :: 0 <= i < k ==> MergeAt(s[i..]).None?
    ensures FixMerge(s) == s[..k] + FixMerge(s[k..])
  {
    if k > 0 {
      FixMergeSkips(s, k - 1);
      FixMergeSkipsOne(s, k);
    } else {
      assert s[..0] == [] && s[0..] == s;
    }
  }

  /** One more character without a match is copied. */
  lemma {:induction false} FixMergeSkipsOne(s: string, k: nat)
    requires 0 < k <= |s| && MergeAt(s[k - 1..]).None?
    requires FixMerge(s) == s[..k - 1] + FixMerge(s[k - 1..])
    ensures FixMerge(s) == s[..k] + FixMerge(s[k..])
  {
    var t := s[k - 1..];
    FixMergeNoMatch(t);
    assert t[1..] == s[k..];
    var rest := FixMerge(s[k..]);
    assert s[..k - 1] + ([s[k - 1]] + rest) == (s[..k - 1] + [s[k - 1]]) + rest;
    assert s[..k - 1] + [s[k - 1]] == s[..k];
  }

  /** A keyword longer than "MERGE" does not end in "MERGE". */
  lemma {:induction false} KeywordNotMergeSuffix(w: string, i: nat)
    requires Upper(w) in Keywords && 0 < i && i + 5 == |w|
    ensures w[i..] != "MERGE"
  {
    assert Upper(w)[i..] == Upper(w[i..]);
    assert Upper("MERGE") == "MERGE";
  }

  /** No match of the MERGE pattern starts strictly inside a leading keyword token. */
  lemma {:induction false} NoMergeInsideToken(s: string, i: nat)
    requires 0 < i < RunLen(s) && Upper(s[..RunLen(s)]) in Keywords
    ensures MergeAt(s[i..]).None?
  {
    var n := RunLen(s);
    var t := s[i..];
    if i + 5 < n {
      assert !IsSpace(t[5]);
    } else if i + 5 == n {
      KeywordNotMergeSuffix(s[..n], i);
      assert t[..5] == s[..n][i..];
    } else if n < |s| {
      assert IsSpace(t[n - i]) && !IsSpace("MERGE"[n - i]);
    }
  }

  /** A query that starts with "MERGE" and a blank has "MERGE" as its first token. */
  lemma {:induction false} MergeFirstRun(s: string)
    requires StartsWith(s, "MERGE") && 5 < |s| && IsSpace(s[5])
    ensures RunLen(s) == 5
  {
    assert s[0] == 'M' && s[1] == 'E' && s[2] == 'R' && s[3] == 'G' && s[4] == 'E';
    RunLenIs(s, 5);
  }

  /** The repair at a match, unfolded once. */
  lemma {:induction false} FixMergeAtMatch(s: string)
    requires s != [] && MergeAt(s).Some?
    ensures var (n, tag) := MergeAt(s).value; FixMerge(s) == "MERGE (:" + tag + ")" + FixMerge(s[n..])
  {
  }

  /** The first token, and the blank after it, when the query itself starts with a bare MERGE tag. */
  lemma {:induction false} FixMergeFirstTokenAtMatch(s: string)
    requires s != [] && MergeAt(s).Some?
    ensures var n := RunLen(s); var r := FixMerge(s);
      n <= |r| && r[..n] == s[..n] && (n == |r| || IsSpace(r[n]))
  {
    MergeFirstRun(s);
    FixMergeAtMatch(s);
    var r := FixMerge(s);
    assert r[..5] == "MERGE" == s[..5];
    assert r[5] == ' ';
  }

  /** The first token, and the blank after it, when no match starts inside it. */
  lemma {:induction false} FixMergeFirstTokenNoMatch(s: string)
    requires s != [] && !IsSpace(s[0]) && Upper(s[..RunLen(s)]) in Keywords && MergeAt(s).None?
    ensures var n := RunLen(s); var r := FixMerge(s);
      n <= |r| && r[..n] == s[..n] && (n == |r| || IsSpace(r[n]))
  {
    var n := RunLen(s);
    forall i {:trigger MergeAt(s[i..])} | 0 < i < n ensures MergeAt(s[i..]).None? {
      NoMergeInsideToken(s, i);
    }
    assert MergeAt(s[0..]).None? by {
      assert s[0..] == s;
    }
    FixMergeSkips(s, n);
    if n < |s| {
      assert MergeAt(s[n..]).None?;
      assert FixMerge(s[n..])[0] == s[n];
    }
  }

  /**
   * The repair keeps the first token of a query that starts with a keyword, and what follows it
   * is still blank or nothing.
   */
  lemma {:induction false} FixMergeFirstToken(s: string)
    requires s != [] && !IsSpace(s[0]) && Upper(s[..RunLen(s)]) in Keywords
    ensures var n := RunLen(s); var r := FixMerge(s);
      n <= |r| && r[..n] == s[..n] && (n == |r| || IsSpace(r[n]))
  {
    if MergeAt(s).Some? {
      FixMergeFirstTokenAtMatch(s);
    } else {
      FixMergeFirstTokenNoMatch(s);
    }
  }

  /** A token that upper-cases to a keyword holds no ')'. */
  lemma {:induction false} KeywordNoParen(w: string)
    requires Upper(w) in Keywords
    ensures forall j :: 0 <= j < |w| ==> w[j] != ')'
  {
    KeywordLetters(Upper(w));
    forall j | 0 <= j < |w| ensures w[j] != ')' {
      assert Upper(w)[j] == UpperChar(w[j]);
    }
  }

  /** `DropTrailingRel` keeps a leading keyword token, and what follows it is still blank or nothing. */
  lemma {:induction false} DropTrailingRelFirstToken(r: string, n: nat)
    requires 0 < n <= |r| && Upper(r[..n]) in Keywords && (n == |r| || IsSpace(r[n]))
    ensures n <= |DropTrailingRel(r)| && DropTrailingRel(r)[..n] == r[..n]
    ensures n == |DropTrailingRel(r)| || IsSpace(DropTrailingRel(r)[n])
  {
    var d := DropTrailingRel(r);
    DropTrailingRelShape(r);
    KeywordNoParen(r[..n]);
    if d != r {
      assert r[|d| - 1] == ')';
    }
  }

  /** The two repairs keep a leading keyword token, and it is still the leading token. */
  lemma {:induction false} RepairKeepsKeyword(cleaned: string)
    requires cleaned != [] && !IsSpace(cleaned[0]) && Upper(cleaned[..RunLen(cleaned)]) in Keywords
    ensures RunLen(cleaned) <= |DropTrailingRel(FixMerge(cleaned))|
    ensures RunLen(DropTrailingRel(FixMerge(cleaned))) == RunLen(cleaned)
    ensures DropTrailingRel(FixMerge(cleaned))[..RunLen(cleaned)] == cleaned[..RunLen(cleaned)]
  {
    var n := RunLen(cleaned);
    var merged := FixMerge(cleaned);
    FixMergeFirstToken(cleaned);
    assert merged[..n] == cleaned[..n];
    DropTrailingRelFirstToken(merged, n);
    var d := DropTrailingRel(merged);
    assert d[..n] == cleaned[..n];
    SameLeadingRun(cleaned, d, n);
  }

  /** So the repaired query starts with the query's first character. */
  lemma {:induction false} RepairFirstChar(cleaned: string)
    requires cleaned != [] && !IsSpace(cleaned[0]) && Upper(cleaned[..RunLen(cleaned)]) in Keywords
    ensures DropTrailingRel(FixMerge(cleaned)) != [] && DropTrailingRel(FixMerge(cleaned))[0] == cleaned[0]
  {
    RepairKeepsKeyword(cleaned);
    var d := DropTrailingRel(FixMerge(cleaned));
    assert d[0] == d[..RunLen(cleaned)][0];
  }

  /** So the repaired query is still valid. */
  lemma {:induction false} RepairValid(cleaned: string)
    requires cleaned != [] && !IsSpace(cleaned[0]) && Upper(cleaned[..RunLen(cleaned)]) in Keywords
    ensures IsValidCypher(DropTrailingRel(FixMerge(cleaned)))
  {
    RepairFirstChar(cleaned);
    RepairKeepsKeyword(cleaned);
    IsValidLeadingRun(DropTrailingRel(FixMerge(cleaned)));
  }

  /** The repairs end on the query's last non-blank character or on ')'. */
  lemma {:induction false} RepairEndsNonBlank(cleaned: string)
    requires cleaned != [] && !IsSpace(cleaned[|cleaned| - 1])
    ensures DropTrailingRel(FixMerge(cleaned)) != [] ==> !IsSpace(DropTrailingRel(FixMerge(cleaned))[|DropTrailingRel(FixMerge(cleaned))| - 1])
  {
    FixMergeLast(cleaned);
    var merged := FixMerge(cleaned);
    assert !IsSpace(merged[|merged| - 1]);
    DropTrailingRelLast(merged);
  }

  /** The repairs introduce no ';'. */
  lemma {:induction false} RepairAddsNoSemicolon(cleaned: string)
    requires ';' !in cleaned
    ensures ';' !in DropTrailingRel(FixMerge(cleaned))
  {
    FixMergeChars(cleaned);
    var merged := FixMerge(cleaned);
    var d := DropTrailingRel(merged);
    DropTrailingRelShape(merged);
    forall i | 0 <= i < |d| ensures d[i] != ';' {
      assert d[i] == merged[i];
    }
  }

  /** The repairs of a stripped query that starts with a keyword neither start nor end with a blank. */
  lemma {:induction false} RepairEnds(cleaned: string)
    requires cleaned != [] && !IsSpace(cleaned[0]) && !IsSpace(cleaned[|cleaned| - 1])
    requires Upper(cleaned[..RunLen(cleaned)]) in Keywords
    ensures DropTrailingRel(FixMerge(cleaned)) != []
    ensures !IsSpace(DropTrailingRel(FixMerge(cleaned))[0])
    ensures !IsSpace(DropTrailingRel(FixMerge(cleaned))[|DropTrailingRel(FixMerge(cleaned))| - 1])
  {
    RepairFirstChar(cleaned);
    RepairEndsNonBlank(cleaned);
  }

  /** The repairs of a stripped query that starts with a keyword give a stripped query. */
  lemma {:induction false} RepairStripped(cleaned: string)
    requires cleaned != [] && !IsSpace(cleaned[0]) && !IsSpace(cleaned[|cleaned| - 1])
    requires Upper(cleaned[..RunLen(cleaned)]) in Keywords
    ensures DropTrailingRel(FixMerge(cleaned)) != []
    ensures Strip(DropTrailingRel(FixMerge(cleaned))) == DropTrailingRel(FixMerge(cleaned))
  {
    RepairEnds(cleaned);
    StripTrimmed(DropTrailingRel(FixMerge(cleaned)));
  }

  /** A kept piece is a stripped, non-blank query whose first token is a keyword, repaired. */
  lemma {:induction false} StatementKept(part: string)
    requires Statement(part).Some?
    ensures var cleaned := Strip(part);
      cleaned != [] && !IsSpace(cleaned[0]) && !IsSpace(cleaned[|cleaned| - 1]) &&
      Upper(cleaned[..RunLen(cleaned)]) in Keywords &&
      Statement(part).value == DropTrailingRel(FixMerge(cleaned))
  {
    var cleaned := Strip(part);
    assert cleaned != [] && IsValidCypher(cleaned);
    IsValidLeadingRun(cleaned);
  }

  /** A kept statement is non-empty and already stripped. */
  lemma {:induction false} StatementStripped(part: string)
    requires Statement(part).Some?
    ensures Statement(part).value != [] && Strip(Statement(part).value) == Statement(part).value
  {
    StatementKept(part);
    RepairStripped(Strip(part));
  }

  /** A kept statement passes the keyword test. */
  lemma {:induction false} StatementValid(part: string)
    requires Statement(part).Some?
    ensures IsValidCypher(Statement(part).value)
  {
    StatementKept(part);
    RepairValid(Strip(part));
  }

  /** A kept statement holds no ';' unless its piece did. */
  lemma {:induction false} StatementNoSemicolon(part: string)
    requires Statement(part).Some? && ';' !in part
    ensures ';' !in Statement(part).value
  {
    StatementKept(part);
    StripIsInfix(part);
    RepairAddsNoSemicolon(Strip(part));
  }

  /**
   * Every extracted statement is non-empty, already stripped, starts with a keyword, and holds no
   * ';' unless its piece did (and a piece of a split on ';' never does).
   */
  lemma {:induction false} StatementShape(part: string)
    requires Statement(part).Some?
    ensures var st := Statement(part).value;
      st != [] && Strip(st) == st && IsValidCypher(st) && (';' !in part ==> ';' !in st)
  {
    StatementStripped(part);
    StatementValid(part);
    if ';' !in part {
      StatementNoSemicolon(part);
    }
  }

  /** Every character of `strip(s)` is a character of `s`. */
  lemma {:induction false} StripIsInfix(s: string)
    ensures forall i :: 0 <= i < |Strip(s)| ==> Strip(s)[i] in s
  {
    var t := TrimStart(s);
    var r := Strip(s);
    TrimStartSuffix(s);
    TrimEndPrefix(t);
    forall i | 0 <= i < |r| ensures r[i] in s {
      var j := |s| - |t| + i;
      assert r[i] == t[i] == s[j];
    }
  }

  // ----- validate_and_execute -----

  /** `f"Query Error: {str(e)[:100]}"`. */
  function QueryError(message: string): string {
    "Query Error: " + Take(message, 100)
  }

  /** How many of `statements` run without raising. */
  function Successes(statements: seq<string>, execute: string -> Outcome<Value>): nat {
    if statements == [] then 0
    else
      var n := |statements| - 1;
      Successes(statements[..n], execute) + (if execute(statements[n]).Returned? then 1 else 0)
  }

  /** The error line of each statement that raises, in order. */
  function QueryErrors(statements: seq<string>, execute: string -> Outcome<Value>): seq<string> {
    if statements == [] then []
    else
      var n := |statements| - 1;
      var init := QueryErrors(statements[..n], execute);
      match execute(statements[n])
      case Raised(msg) => init + [QueryError(msg)]
      case Returned(_) => init
  }

  /** Every statement is counted once: as a success or as an error. */
  lemma {:induction false} SuccessesPlusErrors(statements: seq<string>, execute: string -> Outcome<Value>)
    ensures Successes(statements, execute) + |QueryErrors(statements, execute)| == |statements|
  {
    if statements != [] {
      SuccessesPlusErrors(statements[..|statements| - 1], execute);
    }
  }

  /** Some statement succeeds exactly when the success count is positive. */
  lemma {:induction false} SuccessesPositive(statements: seq<string>, execute: string -> Outcome<Value>)
    ensures Successes(statements, execute) > 0 <==>
      exists i :: 0 <= i < |statements| && execute(statements[i]).Returned?
  {
    if statements != [] {
      var n := |statements| - 1;
      SuccessesPositive(statements[..n], execute);
      if exists i :: 0 <= i < n && execute(statements[..n][i]).Returned? {
        var i :| 0 <= i < n && execute(statements[..n][i]).Returned?;
        assert statements[..n][i] == statements[i];
      }
      if exists i :: 0 <= i < |statements| && execute(statements[i]).Returned? {
        var i :| 0 <= i < |statements| && execute(statements[i]).Returned?;
        if i < n {
          assert statements[..n][i] == statements[i];
        }
      }
    }
  }

  /** Each error line is the prefix "Query Error: " and at most 100 characters of the exception text. */
  lemma {:induction false} QueryErrorsShape(statements: seq<string>, execute: string -> Outcome<Value>)
    ensures forall e :: e in QueryErrors(statements, execute) ==>
      StartsWith(e, "Query Error: ") && |e| <= 13 + 100
  {
    if statements != [] {
      QueryErrorsShape(statements[..|statements| - 1], execute);
    }
  }

  /** The loop of `validate_and_execute`: every statement is run once, in order. */
  method ExecuteAll(execute: string -> Outcome<Value>, statements: seq<string>)
    returns (success: nat, errors: seq<string>, executed: seq<string>)
    ensures executed == statements
    ensures success == Successes(executed, execute) && errors == QueryErrors(executed, execute)
  {
    success, errors, executed := 0, [], [];
    var i := 0;
    while i < |statements|
      invariant i <= |statements| && executed == statements[..i]
      invariant success == Successes(executed, execute) && errors == QueryErrors(executed, execute)
    {
      var stmt := statements[i];
      assert statements[..i + 1] == statements[..i] + [stmt];
      executed := executed + [stmt];
      assert executed[..i] == statements[..i];
      match execute(stmt) {
        case Returned(_) => success := success + 1;
        case Raised(msg) => errors := errors + [QueryError(msg)];
      }
      i := i + 1;
    }
    assert statements[..i] == statements;
  }

  /**
   * `validate_and_execute(db, raw)`: every extracted statement is run once, in order (`executed`);
   * it returns the success count, the error count and the error lines.
   */
  method ValidateAndExecute(execute: string -> Outcome<Value>, raw: string)
    returns (success: nat, errorCount: nat, errors: seq<string>, executed: seq<string>)
    ensures executed == StatementsOf(raw)
    ensures success == Successes(executed, execute) && errors == QueryErrors(executed, execute)
    ensures errorCount == |errors| && success + errorCount == |executed|
  {
    var statements := ExtractCypherStatements(raw);
    success, errors, executed := ExecuteAll(execute, statements);
    errorCount := |errors|;
    SuccessesPlusErrors(executed, execute);
  }
}
