// The WGSL preprocessor: a line-by-line text transform that substitutes
// `${NAME}` placeholders and keeps or drops `#if NAME ... #endif` blocks.
module Wgsl {
  import opened Js

  // ---------------------------------------------------------------------
  // Strings split into lines and joined back.

  /** `s.split(c)` for a one-character separator: never empty. */
  function Split(s: string, c: char): (parts: seq<string>)
    ensures |parts| >= 1
    decreases |s|
  {
    if s == [] then [""]
    else if s[0] == c then [""] + Split(s[1..], c)
    else
      var rest := Split(s[1..], c);
      [[s[0]] + rest[0]] + rest[1..]
  }

  /** The parts joined with the separator between them. */
  function Join(parts: seq<string>, c: char): string
    requires |parts| >= 1
    decreases |parts|
  {
    if |parts| == 1 then parts[0] else parts[0] + [c] + Join(parts[1..], c)
  }

  lemma NoSeparatorSlice(parts: seq<string>, i: nat, j: nat, c: char)
    requires NoSeparator(parts, c) && i <= j <= |parts|
    ensures NoSeparator(parts[i..j], c)
  {
    forall a, k | 0 <= a < j - i && 0 <= k < |parts[i..j][a]|
      ensures parts[i..j][a][k] != c
    {
      assert parts[i..j][a] == parts[i + a];
    }
  }

  /** Each line followed by a newline: what `text += `${line}\n`` builds. */
  function Lines(ls: seq<string>): string
    decreases |ls|
  {
    if ls == [] then "" else ls[0] + "\n" + Lines(ls[1..])
  }

  predicate NoSeparator(parts: seq<string>, c: char)
  {
    forall i, k :: 0 <= i < |parts| && 0 <= k < |parts[i]| ==> parts[i][k] != c
  }

  /** Splitting and joining again gives back the string, and no part holds the separator. */
  lemma {:induction false} SplitJoin(s: string, c: char)
    ensures Join(Split(s, c), c) == s
    ensures NoSeparator(Split(s, c), c)
    decreases |s|
  {
    if s != [] {
      SplitJoin(s[1..], c);
      var rest := Split(s[1..], c);
      if s[0] == c {
        assert Split(s, c)[1..] == rest;
      } else {
        var parts := Split(s, c);
        if |rest| == 1 {
          assert parts == [[s[0]] + rest[0]];
        } else {
          assert parts[1..] == rest[1..];
          assert Join(parts, c) == [s[0]] + rest[0] + [c] + Join(rest[1..], c);
        }
        assert s == [s[0]] + s[1..];
      }
    }
  }

  lemma {:induction false} LinesAppend(a: seq<string>, b: seq<string>)
    ensures Lines(a + b) == Lines(a) + Lines(b)
    decreases |a|
  {
    if a != [] {
      assert (a + b)[0] == a[0];
      assert (a + b)[1..] == a[1..] + b;
      LinesAppend(a[1..], b);
      assert Lines(a + b) == a[0] + "\n" + (Lines(a[1..]) + Lines(b));
    } else {
      assert a + b == b;
    }
  }

  /** `Lines(ls).split("\n")` gives the lines back, plus the empty text after the last newline. */
  lemma {:induction false} SplitLines(ls: seq<string>)
    requires NoSeparator(ls, '\n')
    ensures Split(Lines(ls), '\n') == ls + [""]
    decreases |ls|
  {
    if ls != [] {
      NoSeparatorSlice(ls, 1, |ls|, '\n');
      SplitLines(ls[1..]);
      var rest := "\n" + Lines(ls[1..]);
      assert rest[1..] == Lines(ls[1..]);
      assert forall k :: 0 <= k < |ls[0]| ==> ls[0][k] != '\n';
      SplitPrefix(ls[0], rest, ls[1..] + [""]);
      assert Lines(ls) == ls[0] + rest;
      assert [ls[0]] + (ls[1..] + [""]) == ls + [""];
    } else {
      assert Lines(ls) == "";
    }
  }

  /** Splitting a separator-free word followed by a separator and more text. */
  lemma {:induction false} SplitPrefix(w: string, rest: string, tail: seq<string>)
    requires forall k :: 0 <= k < |w| ==> w[k] != '\n'
    requires |rest| > 0 && rest[0] == '\n' && Split(rest[1..], '\n') == tail
    ensures Split(w + rest, '\n') == [w] + tail
    decreases |w|
  {
    if w == [] {
      assert w + rest == rest;
    } else {
      assert (w + rest)[1..] == w[1..] + rest;
      SplitPrefix(w[1..], rest, tail);
      assert [w[0]] + w[1..] == w;
    }
  }

  // ---------------------------------------------------------------------
  // `${NAME}` substitution with the global regular expression /\$\{(.*)\}/g.

  /** The characters `.` does not match. */
  predicate IsLineTerminator(ch: char)
  {
    ch == '\n' || ch == '\r' || ch == '\U{2028}' || ch == '\U{2029}'
  }

  /** The first line terminator at or after `j`, or the end of the line. */
  function RunEnd(line: string, j: nat): (e: nat)
    requires j <= |line|
    ensures j <= e <= |line|
    ensures forall k :: j <= k < e ==> !IsLineTerminator(line[k])
    ensures e < |line| ==> IsLineTerminator(line[e])
    decreases |line| - j
  {
    if j == |line| || IsLineTerminator(line[j]) then j else RunEnd(line, j + 1)
  }

  /** The last `}` in `line[lo..hi]`. */
  function LastClose(line: string, lo: nat, hi: nat): (r: Option<nat>)
    requires lo <= hi <= |line|
    ensures r.Some? ==> lo <= r.value < hi && line[r.value] == '}'
    ensures r.Some? ==> forall k :: r.value < k < hi ==> line[k] != '}'
    ensures r.None? ==> forall k :: lo <= k < hi ==> line[k] != '}'
    decreases hi - lo
  {
    if lo == hi then None
    else if line[hi - 1] == '}' then Some(hi - 1)
    else LastClose(line, lo, hi - 1)
  }

  /** Whether the regular expression matches at `p`; if so the match ends after the last `}` of the run. */
  function MatchAt(line: string, p: nat): Option<nat>
    requires p <= |line|
  {
    if p + 2 <= |line| && line[p] == '$' && line[p + 1] == '{' then
      var close := LastClose(line, p + 2, RunEnd(line, p + 2));
      if close.Some? then Some(close.value + 1) else None
    else None
  }

  /** A match of the regular expression: where it starts and where it ends. */
  datatype Match = Match(start: nat, end: nat)

  /** `regex.exec(line)` with `lastIndex == from`: the leftmost match starting at or after `from`. */
  function Exec(line: string, from: nat): (m: Option<Match>)
    requires from <= |line|
    ensures m.Some? ==> from <= m.value.start && m.value.start + 3 <= m.value.end <= |line|
    ensures m.Some? ==> MatchAt(line, m.value.start) == Some(m.value.end)
    ensures m.Some? ==> forall q :: from <= q < m.value.start ==> MatchAt(line, q).None?
    ensures m.None? ==> forall q :: from <= q <= |line| ==> MatchAt(line, q).None?
    decreases |line| - from
  {
    if MatchAt(line, from).Some? then Some(Match(from, MatchAt(line, from).value))
    else if from == |line| then None
    else Exec(line, from + 1)
  }

  /** `String(replaceDirectives[name])`: the number's digits, or `"undefined"` when the key is missing. */
  function ValueText(repl: map<string, nat>, name: string): (v: string)
    ensures forall k :: 0 <= k < |v| ==> v[k] != '$'
  {
    if name in repl then NatToString(repl[name]) else "undefined"
  }

  /** The number of `$` characters: the measure that bounds the substitution loop. */
  function DollarCount(s: string): nat
    decreases |s|
  {
    if s == [] then 0 else (if s[0] == '$' then 1 else 0) + DollarCount(s[1..])
  }

  lemma {:induction false} DollarCountAppend(a: string, b: string)
    ensures DollarCount(a + b) == DollarCount(a) + DollarCount(b)
    decreases |a|
  {
    if a != [] {
      assert (a + b)[0] == a[0];
      assert (a + b)[1..] == a[1..] + b;
      DollarCountAppend(a[1..], b);
    } else {
      assert a + b == b;
    }
  }

  /** A text that starts with a `$` has one more than its tail. */
  lemma DollarCountHead(s: string)
    requires |s| > 0 && s[0] == '$'
    ensures DollarCount(s) == 1 + DollarCount(s[1..])
  {
  }

  lemma {:induction false} DollarFree(v: string)
    requires forall k :: 0 <= k < |v| ==> v[k] != '$'
    ensures DollarCount(v) == 0
    decreases |v|
  {
    if v != [] {
      DollarFree(v[1..]);
    }
  }

  /** `line` with the `len` characters from `f` replaced by `v`. */
  function Splice(line: string, f: nat, len: nat, v: string): string
    requires f + len <= |line|
  {
    line[..f] + v + line[f + len..]
  }

  /** Replacing text that starts with a `$` by `$`-free text leaves fewer `$` in the line. */
  lemma ReplacementProgress(line: string, f: nat, len: nat, v: string)
    requires f < f + len <= |line| && line[f] == '$'
    requires NoChar(v, '$')
    ensures DollarCount(Splice(line, f, len, v)) < DollarCount(line)
  {
    var a, b, c := line[..f], line[f..f + len], line[f + len..];
    assert line == a + (b + c);
    DollarCountAppend(a, b + c);
    DollarCountAppend(b, c);
    DollarCountHead(b);
    DollarCountAppend(a + v, c);
    DollarCountAppend(a, v);
    DollarFree(v);
  }

  /** Skipping a match leaves fewer `$` to scan: the match starts with one. */
  lemma SkipProgress(line: string, from: nat, m: Match)
    requires from <= m.start && m.start + 3 <= m.end <= |line| && line[m.start] == '$'
    ensures DollarCount(line[m.end..]) < DollarCount(line[from..])
  {
    SuffixDrop(line, from, m.start);
    DollarCountHead(line[m.start..]);
    assert line[m.start..][1..] == line[m.start + 1..];
    SuffixDrop(line, m.start + 1, m.end);
  }

  /** A later suffix of a line has no more `$` than an earlier one. */
  lemma SuffixDrop(line: string, i: nat, j: nat)
    requires i <= j <= |line|
    ensures DollarCount(line[j..]) <= DollarCount(line[i..])
  {
    DollarCountDrop(line[i..], j - i);
    assert line[i..][j - i..] == line[j..];
  }

  /** Dropping a prefix never adds a `$`. */
  lemma DollarCountDrop(s: string, k: nat)
    requires k <= |s|
    ensures DollarCount(s[k..]) <= DollarCount(s)
  {
    assert s == s[..k] + s[k..];
    DollarCountAppend(s[..k], s[k..]);
  }

  /** Whether `pat` occurs in `line` at `q`. */
  predicate OccursAt(line: string, pat: string, q: nat)
  {
    q + |pat| <= |line| && line[q..q + |pat|] == pat
  }

  /** `line.indexOf(pat, i)`, given that `pat` occurs at `bound`: its first occurrence from `i`. */
  function IndexOf(line: string, pat: string, i: nat, bound: nat): (r: nat)
    requires i <= bound && OccursAt(line, pat, bound)
    ensures i <= r <= bound && OccursAt(line, pat, r)
    ensures forall q :: i <= q < r ==> !OccursAt(line, pat, q)
    decreases bound - i
  {
    if OccursAt(line, pat, i) then i else IndexOf(line, pat, i + 1, bound)
  }

  /** With no `$` before `bound`, a pattern that starts with `$` is first found at `bound`. */
  lemma {:induction false} IndexOfFirstDollar(line: string, pat: string, i: nat, bound: nat)
    requires i <= bound && OccursAt(line, pat, bound) && |pat| > 0 && pat[0] == '$'
    requires forall q :: i <= q < bound ==> line[q] != '$'
    ensures IndexOf(line, pat, i, bound) == bound
    decreases bound - i
  {
    if i < bound {
      assert line[i..i + |pat|][0] == line[i];
      IndexOfFirstDollar(line, pat, i + 1, bound);
    }
  }

  /**
   * `line.replace(match[0], value)`: the matched text is looked up again as
   * a plain string, and its FIRST occurrence in the line, which may come
   * before the match, is replaced by the placeholder's value.
   */
  function Replaced(line: string, m: Match, repl: map<string, nat>): (nl: string)
    requires m.start + 3 <= m.end <= |line|
  {
    Splice(line, IndexOf(line, line[m.start..m.end], 0, m.start), m.end - m.start, ValueText(repl, line[m.start + 2..m.end - 1]))
  }

  /** The replaced text starts with a `$` and the value has none, so a replacement removes one. */
  lemma {:induction false} ReplacedProgress(line: string, m: Match, repl: map<string, nat>)
    requires m.start + 3 <= m.end <= |line| && line[m.start] == '$'
    ensures DollarCount(Replaced(line, m, repl)) < DollarCount(line)
  {
    ReplacedSplice(line, m, repl);
    FirstCopyProgress(line, m, repl);
  }

  /** The splice at the first copy of a match removes a `$`. */
  lemma {:induction false} FirstCopyProgress(line: string, m: Match, repl: map<string, nat>)
    requires m.start + 3 <= m.end <= |line| && line[m.start] == '$'
    ensures DollarCount(Splice(line, IndexOf(line, line[m.start..m.end], 0, m.start), m.end - m.start,
      ValueText(repl, line[m.start + 2..m.end - 1]))) < DollarCount(line)
  {
    assert line[m.start..m.end][0] == line[m.start];
    CopyProgress(line, line[m.start..m.end], IndexOf(line, line[m.start..m.end], 0, m.start), m.end - m.start,
      ValueText(repl, line[m.start + 2..m.end - 1]));
  }

  /** `Replaced` spelled out: a splice at the first copy. */
  lemma {:induction false} ReplacedSplice(line: string, m: Match, repl: map<string, nat>)
    requires m.start + 3 <= m.end <= |line|
    ensures Replaced(line, m, repl)
      == Splice(line, IndexOf(line, line[m.start..m.end], 0, m.start), m.end - m.start, ValueText(repl, line[m.start + 2..m.end - 1]))
  {
  }

  /** Replacing a copy of a pattern that starts with `$` by `$`-free text removes a `$`. */
  lemma CopyProgress(line: string, pat: string, f: nat, len: nat, v: string)
    requires OccursAt(line, pat, f) && len == |pat| > 0 && pat[0] == '$' && NoChar(v, '$')
    ensures DollarCount(Splice(line, f, len, v)) < DollarCount(line)
  {
    assert line[f] == line[f..f + |pat|][0];
    ReplacementProgress(line, f, len, v);
  }

  /**
   * The substitution loop from `lastIndex == from`: a match with an empty
   * name is skipped, any other is replaced by its value, and the search goes
   * on from the end of the match in the new line.
   */
  function SubstituteFrom(line: string, repl: map<string, nat>, from: nat): string
    requires from <= |line|
    decreases DollarCount(line), DollarCount(line[from..])
  {
    var m := Exec(line, from);
    if m.None? then line
    else if m.value.start + 3 == m.value.end then
      SkipProgress(line, from, m.value);
      SubstituteFrom(line, repl, m.value.end)
    else
      var nl := Replaced(line, m.value, repl);
      if m.value.end > |nl| then nl
      else
        ReplacedProgress(line, m.value, repl);
        SubstituteFrom(nl, repl, m.value.end)
  }

  /** A line after substitution; a line without `${` is left alone. */
  function Substitute(line: string, repl: map<string, nat>): string
  {
    if Includes(line, "${") then SubstituteFrom(line, repl, 0) else line
  }

  /**
   * The substitution loop of one line, as the regular expression is run:
   * `exec` from `lastIndex`, replace, and `exec` again.
   */
  method SubstituteLine(line0: string, repl: map<string, nat>) returns (line: string)
    ensures line == Substitute(line0, repl)
  {
    line := line0;
    if !Includes(line, "${") {
      return;
    }
    var lastIndex: nat := 0;
    var m := Exec(line, lastIndex);
    while m.Some?
      invariant lastIndex <= |line|
      invariant m == Exec(line, lastIndex)
      invariant SubstituteFrom(line, repl, lastIndex) == Substitute(line0, repl)
      decreases DollarCount(line), DollarCount(line[lastIndex..])
    {
      var directive := line[m.value.start + 2..m.value.end - 1];
      if directive != "" {
        SubstituteFromReplace(line, repl, lastIndex, m.value);
        var nl := Replaced(line, m.value, repl);
        if m.value.end > |nl| {
          line := nl;
          return;
        }
        ReplacedProgress(line, m.value, repl);
        line := nl;
      } else {
        SubstituteFromSkip(line, repl, lastIndex, m.value);
      }
      lastIndex := m.value.end;
      m := Exec(line, lastIndex);
    }
    SubstituteFromDone(line, repl, lastIndex);
  }

  predicate NoChar(s: string, ch: char)
  {
    forall k :: 0 <= k < |s| ==> s[k] != ch
  }

  lemma ExecFromDollarFree(line: string, from: nat)
    requires from <= |line| && NoChar(line[from..], '$')
    ensures Exec(line, from).None?
  {
    forall q | from <= q <= |line|
      ensures MatchAt(line, q).None?
    {
      if q + 2 <= |line| {
        assert line[q] == line[from..][q - from];
      }
    }
  }

  /** `line` is `pre + "${" + name + "}" + post`, character by character. */
  predicate Layout(line: string, pre: string, name: string, post: string)
  {
    && |line| == |pre| + |name| + 3 + |post|
    && (forall k :: 0 <= k < |pre| ==> line[k] == pre[k])
    && line[|pre|] == '$' && line[|pre| + 1] == '{'
    && (forall k :: 0 <= k < |name| ==> line[|pre| + 2 + k] == name[k])
    && line[|pre| + |name| + 2] == '}'
    && (forall k :: 0 <= k < |post| ==> line[|pre| + |name| + 3 + k] == post[k])
  }

  lemma PlaceholderLayout(pre: string, name: string, post: string)
    ensures Layout(pre + "${" + name + "}" + post, pre, name, post)
  {
  }

  /** With no line terminator in the name and no `}` after it, the match at the placeholder ends at its `}`. */
  lemma MatchAtPlaceholder(line: string, pre: string, name: string, post: string)
    requires Layout(line, pre, name, post) && NoChar(post, '}')
    requires forall k :: 0 <= k < |name| ==> !IsLineTerminator(name[k])
    ensures MatchAt(line, |pre|) == Some(|pre| + |name| + 3)
  {
    var p := |pre|;
    var e := p + |name| + 3;
    var run := RunEnd(line, p + 2);
    forall k | p + 2 <= k < e - 1
      ensures !IsLineTerminator(line[k])
    {
      assert line[k] == name[k - p - 2];
    }
    RunEndAtLeast(line, p + 2, e - 1);
    forall k | e - 1 < k < run
      ensures line[k] != '}'
    {
      assert line[k] == post[k - e];
    }
    LastCloseAt(line, p + 2, run, e - 1);
  }

  lemma {:induction false} RunEndAtLeast(line: string, j: nat, m: nat)
    requires j <= m <= |line|
    requires forall k :: j <= k < m ==> !IsLineTerminator(line[k])
    ensures RunEnd(line, j) >= m
    decreases m - j
  {
    if j < m {
      RunEndAtLeast(line, j + 1, m);
    }
  }

  lemma {:induction false} LastCloseAt(line: string, lo: nat, hi: nat, c: nat)
    requires lo <= c < hi <= |line| && line[c] == '}'
    requires forall k :: c < k < hi ==> line[k] != '}'
    ensures LastClose(line, lo, hi) == Some(c)
    decreases hi - lo
  {
    if hi - 1 > c {
      LastCloseAt(line, lo, hi - 1, c);
    }
  }

  /** The leftmost match in `pre + "${" + name + "}" + post` is the placeholder itself. */
  lemma ExecPlaceholder(line: string, pre: string, name: string, post: string)
    requires Layout(line, pre, name, post) && NoChar(pre, '$') && NoChar(post, '}')
    requires forall k :: 0 <= k < |name| ==> !IsLineTerminator(name[k])
    ensures Exec(line, 0) == Some(Match(|pre|, |pre| + |name| + 3))
  {
    var p := |pre|;
    forall q | 0 <= q < p
      ensures MatchAt(line, q).None?
    {
      assert line[q] == pre[q];
    }
    MatchAtPlaceholder(line, pre, name, post);
    ExecLeftmost(line, 0, p);
  }

  /** `Exec` from `from` finds a match at `p` when there is none before it. */
  lemma {:induction false} ExecLeftmost(line: string, from: nat, p: nat)
    requires from <= p <= |line| && MatchAt(line, p).Some?
    requires forall q :: from <= q < p ==> MatchAt(line, q).None?
    ensures Exec(line, from) == Some(Match(p, MatchAt(line, p).value))
    decreases p - from
  {
    if from < p {
      ExecLeftmost(line, from + 1, p);
    }
  }

  lemma RestDollarFree(pre: string, v: string, post: string, e: nat)
    requires |pre| <= e <= |pre + v + post| && NoChar(v, '$') && NoChar(post, '$')
    ensures NoChar((pre + v + post)[e..], '$')
  {
    var nl := pre + v + post;
    forall k | 0 <= k < |nl[e..]|
      ensures nl[e..][k] != '$'
    {
      var i := e + k;
      assert nl[e..][k] == nl[i];
      if i < |pre| + |v| {
        assert nl[i] == v[i - |pre|];
      } else {
        assert nl[i] == post[i - |pre| - |v|];
      }
    }
  }

  /** One replacing step of the substitution loop. */
  lemma SubstituteFromReplace(line: string, repl: map<string, nat>, from: nat, m: Match)
    requires from <= |line| && Exec(line, from) == Some(m) && m.start + 3 < m.end
    ensures var nl := Replaced(line, m, repl);
      SubstituteFrom(line, repl, from) == if m.end > |nl| then nl else SubstituteFrom(nl, repl, m.end)
  {
  }

  /** A match with an empty name is skipped: the search goes on from its end. */
  lemma SubstituteFromSkip(line: string, repl: map<string, nat>, from: nat, m: Match)
    requires from <= |line| && Exec(line, from) == Some(m) && m.start + 3 == m.end
    ensures SubstituteFrom(line, repl, from) == SubstituteFrom(line, repl, m.end)
    ensures DollarCount(line[m.end..]) < DollarCount(line[from..])
  {
    SkipProgress(line, from, m);
  }

  /** The substitution loop stops when no match is left. */
  lemma SubstituteFromDone(line: string, repl: map<string, nat>, from: nat)
    requires from <= |line| && Exec(line, from).None?
    ensures SubstituteFrom(line, repl, from) == line
  {
  }

  lemma PlaceholderParts(pre: string, name: string, post: string)
    ensures var line := pre + "${" + name + "}" + post;
      && line[..|pre|] == pre
      && line[|pre| + 2..|pre| + 2 + |name|] == name
      && line[|pre| + |name| + 3..] == post
  {
    var line := pre + "${" + name + "}" + post;
    var a := pre + "${";
    assert line == a + (name + ("}" + post));
    assert (a + (name + ("}" + post)))[|a|..] == name + ("}" + post);
    assert (name + ("}" + post))[..|name|] == name;
  }

  lemma {:induction false} ReplacedPlaceholder(pre: string, name: string, post: string, repl: map<string, nat>)
    requires NoChar(pre, '$')
    ensures var e := |pre| + |name| + 3;
      Replaced(pre + "${" + name + "}" + post, Match(|pre|, e), repl) == pre + ValueText(repl, name) + post
  {
    var line := pre + "${" + name + "}" + post;
    var p, e := |pre|, |pre| + |name| + 3;
    PlaceholderParts(pre, name, post);
    PlaceholderLayout(pre, name, post);
    assert line[p..e][0] == '$';
    forall q | 0 <= q < p
      ensures line[q] != '$'
    {
      assert line[q] == pre[q];
    }
    IndexOfFirstDollar(line, line[p..e], 0, p);
  }

  lemma ExecFindsPlaceholder(pre: string, name: string, post: string)
    requires NoChar(pre, '$') && NoChar(post, '}')
    requires forall k :: 0 <= k < |name| ==> !IsLineTerminator(name[k])
    ensures Exec(pre + "${" + name + "}" + post, 0) == Some(Match(|pre|, |pre| + |name| + 3))
  {
    PlaceholderLayout(pre, name, post);
    ExecPlaceholder(pre + "${" + name + "}" + post, pre, name, post);
  }

  /**
   * A placeholder whose name holds no line terminator, with no `$` before
   * it and no `$` or `}` after it, is replaced by the name's value.
   */
  lemma {:induction false} SubstituteOne(pre: string, name: string, post: string, repl: map<string, nat>)
    requires name != [] && NoChar(pre, '$') && NoChar(post, '$') && NoChar(post, '}')
    requires forall k :: 0 <= k < |name| ==> !IsLineTerminator(name[k])
    ensures Substitute(pre + "${" + name + "}" + post, repl) == pre + ValueText(repl, name) + post
  {
    var line := pre + "${" + name + "}" + post;
    var e := |pre| + |name| + 3;
    PlaceholderFound(pre, name, post);
    var v := ValueText(repl, name);
    ReplacedPlaceholder(pre, name, post, repl);
    SubstituteFromReplace(line, repl, 0, Match(|pre|, e));
    if e <= |pre + v + post| {
      RestDone(pre, v, post, e, repl);
    }
  }

  /** The line holds `${` and `exec` from 0 finds the placeholder. */
  lemma {:induction false} PlaceholderFound(pre: string, name: string, post: string)
    requires NoChar(pre, '$') && NoChar(post, '}')
    requires forall k :: 0 <= k < |name| ==> !IsLineTerminator(name[k])
    ensures var line := pre + "${" + name + "}" + post;
      Includes(line, "${") && Exec(line, 0) == Some(Match(|pre|, |pre| + |name| + 3))
  {
    var line := pre + "${" + name + "}" + post;
    var p := |pre|;
    ExecFindsPlaceholder(pre, name, post);
    assert StartsWith(line[p..], "${") by {
      PlaceholderParts(pre, name, post);
      assert line[p..][..2] == "${";
    }
    IncludesAt(line, "${", p);
  }

  /** After the value, nothing is left to substitute. */
  lemma {:induction false} RestDone(pre: string, v: string, post: string, e: nat, repl: map<string, nat>)
    requires |pre| <= e <= |pre + v + post| && NoChar(v, '$') && NoChar(post, '$')
    ensures SubstituteFrom(pre + v + post, repl, e) == pre + v + post
  {
    RestDollarFree(pre, v, post, e);
    ExecFromDollarFree(pre + v + post, e);
    SubstituteFromDone(pre + v + post, repl, e);
  }

  lemma {:induction false} IncludesAt(s: string, t: string, p: nat)
    requires p <= |s| && StartsWith(s[p..], t)
    ensures Includes(s, t)
    decreases p
  {
    if p > 0 {
      assert s[1..][p - 1..] == s[p..];
      IncludesAt(s[1..], t, p - 1);
    }
  }

  /** An empty placeholder `${}`, alone with no other `$` or `}` around it, is left in place. */
  lemma {:induction false} EmptyPlaceholderKept(pre: string, post: string, repl: map<string, nat>)
    requires NoChar(pre, '$') && NoChar(post, '$') && NoChar(post, '}')
    ensures Substitute(pre + "${}" + post, repl) == pre + "${}" + post
  {
    var line := pre + "${}" + post;
    var p := |pre|;
    assert line[p..p + 2] == "${";
    IncludesAt(line, "${", p);
    forall q | 0 <= q < p
      ensures MatchAt(line, q).None?
    {
      assert line[q] == pre[q];
    }
    assert line[p + 2] == '}';
    var run := RunEnd(line, p + 2);
    var close := LastClose(line, p + 2, run);
    assert MatchAt(line, p) == Some(p + 3);
    assert Exec(line, 0) == Some(Match(p, p + 3));
    assert line[p + 3..] == post;
    assert NoChar(line[p + 3..], '$');
    ExecFromDollarFree(line, p + 3);
    assert SubstituteFrom(line, repl, 0) == SubstituteFrom(line, repl, p + 3);
  }

  /** The first pass of the example below: `${A}` is found at 0 and replaced there. */
  lemma EarlierCopyFirstStep()
    ensures Exec("${A}\r${B}\r${B}", 0) == Some(Match(0, 4))
    ensures Replaced("${A}\r${B}\r${B}", Match(0, 4), map["A" := 1, "B" := 2]) == "1\r${B}\r${B}"
  {
    EarlierCopyFirstMatch();
    var line := "${A}\r${B}\r${B}";
    assert Digit(1) == '1';
    assert NatToString(1) == "1";
    assert line[2..3] == "A";
    assert IndexOf(line, line[0..4], 0, 0) == 0;
  }

  /** `exec` from 0 finds `${A}` at the start of the example line. */
  lemma EarlierCopyFirstMatch()
    ensures Exec("${A}\r${B}\r${B}", 0) == Some(Match(0, 4))
  {
    var line := "${A}\r${B}\r${B}";
    assert RunEnd(line, 2) == 4 by {
      assert IsLineTerminator(line[4]);
      assert RunEnd(line, 3) == 4;
    }
    assert LastClose(line, 2, 4) == Some(3);
  }
  /**
   * The second pass: `exec` from index 4 finds the `${B}` at 7, and
   * `replace` rewrites the first `${B}` of the line, at 2.
   */
  lemma EarlierCopySecondStep()
    ensures Exec("1\r${B}\r${B}", 4) == Some(Match(7, 11))
    ensures Replaced("1\r${B}\r${B}", Match(7, 11), map["A" := 1, "B" := 2]) == "1\r2\r${B}"
  {
    var l2 := "1\r${B}\r${B}";
    EarlierCopySecondMatch();
    EarlierCopyFound();
    assert Digit(2) == '2';
    assert NatToString(2) == "2";
    assert l2[9..10] == "B";
  }

  /** `exec` from 4 finds the second `${B}` of the line after the first pass. */
  lemma EarlierCopySecondMatch()
    ensures Exec("1\r${B}\r${B}", 4) == Some(Match(7, 11))
  {
    var l2 := "1\r${B}\r${B}";
    assert MatchAt(l2, 4).None? && MatchAt(l2, 5).None? && MatchAt(l2, 6).None?;
    assert RunEnd(l2, 9) == 11 by {
      assert RunEnd(l2, 10) == 11;
    }
    assert LastClose(l2, 9, 11) == Some(10);
  }

  /** In the line after the first pass, the first `${B}` is at 2. */
  lemma EarlierCopyFound()
    ensures var l2 := "1\r${B}\r${B}"; IndexOf(l2, l2[7..11], 0, 7) == 2
  {
    var l2 := "1\r${B}\r${B}";
    var pat := l2[7..11];
    assert pat == "${B}";
    assert l2[0..4][0] == '1' && l2[1..5][0] == '\r';
    assert !OccursAt(l2, pat, 0) && !OccursAt(l2, pat, 1) && OccursAt(l2, pat, 2);
    assert IndexOf(l2, pat, 2, 7) == 2;
  }

  /**
   * `line.replace(match[0], value)` rewrites the first copy of the matched
   * text, not the match: of two `${B}` after `${A}`, the search finds the
   * second, the first is replaced, and the second is left as it was (the
   * next search starts past the end of the shortened line).
   */
  lemma EarlierCopyReplaced()
    ensures Substitute("${A}\r${B}\r${B}", map["A" := 1, "B" := 2]) == "1\r2\r${B}"
  {
    var line := "${A}\r${B}\r${B}";
    var repl := map["A" := 1, "B" := 2];
    EarlierCopyFirstStep();
    EarlierCopySecondStep();
    assert StartsWith(line, "${");
    SubstituteFromReplace(line, repl, 0, Match(0, 4));
    SubstituteFromReplace("1\r${B}\r${B}", repl, 4, Match(7, 11));
  }

  // ---------------------------------------------------------------------
  // `#if` blocks.

  /** One past the first line at or after `j` that starts with `#endif`, or the number of lines. */
  function BlockEnd(lines: seq<string>, j: nat): (k: nat)
    requires j <= |lines|
    ensures j <= k <= |lines|
    ensures forall i :: j <= i < k - 1 ==> !StartsWith(lines[i], "#endif")
    ensures k < |lines| ==> j < k && StartsWith(lines[k - 1], "#endif")
    ensures k == |lines| && j < k ==> !StartsWith(lines[k - 1], "#endif") || forall i :: j <= i < k - 1 ==> !StartsWith(lines[i], "#endif")
    decreases |lines| - j
  {
    if j == |lines| then j
    else if StartsWith(lines[j], "#endif") then j + 1
    else BlockEnd(lines, j + 1)
  }

  /** The first line at or after `j` that starts with `#endif`, or the number of lines. */
  function FirstEndif(ls: seq<string>, j: nat): (k: nat)
    requires j <= |ls|
    ensures j <= k <= |ls|
    ensures forall i :: j <= i < k ==> !StartsWith(ls[i], "#endif")
    ensures k < |ls| ==> StartsWith(ls[k], "#endif")
    decreases |ls| - j
  {
    if j == |ls| || StartsWith(ls[j], "#endif") then j else FirstEndif(ls, j + 1)
  }

  /** `line.split(" ")[1]`: the second space-separated word, if there is one. */
  function DirectiveName(line: string): Option<string>
  {
    var words := Split(line, ' ');
    if |words| > 1 then Some(words[1]) else None
  }

  /** `inputDirectives.includes(directive)`. */
  predicate Enabled(directive: Option<string>, input: seq<string>)
  {
    directive.Some? && directive.value in input
  }

  /**
   * What `_processDirectiveBlock` emits from line `i` of a block on: an
   * `#if` line whose directive is enabled emits the lines up to the next
   * `#endif` and the scan goes on after it; every other line emits nothing.
   */
  function BlockOutput(ls: seq<string>, input: seq<string>, i: nat): string
    requires i <= |ls| + 1
    decreases |ls| + 1 - i
  {
    if i >= |ls| then ""
    else if StartsWith(ls[i], "#if") && Enabled(DirectiveName(ls[i]), input) then
      var j := FirstEndif(ls, i + 1);
      Lines(ls[i + 1..j]) + BlockOutput(ls, input, j + 1)
    else BlockOutput(ls, input, i + 1)
  }

  /**
   * What `process` emits from line `i` on. A line that starts with `#if`
   * after substitution takes the block of original lines through the next
   * `#endif`, emits the block's output and a newline, and skips one more
   * line; any other line is emitted after substitution.
   */
  function ProcessFrom(lines: seq<string>, input: seq<string>, repl: map<string, nat>, i: nat): string
    requires i <= |lines| + 1
    decreases |lines| + 1 - i
  {
    if i >= |lines| then ""
    else
      var line := Substitute(lines[i], repl);
      if StartsWith(line, "#if") then
        var k := BlockEnd(lines, i);
        BlockOutput(lines[i..k] + [""], input, 0) + "\n" + ProcessFrom(lines, input, repl, k + 1)
      else line + "\n" + ProcessFrom(lines, input, repl, i + 1)
  }

  /** `WGSLPreProcess.process(source, inputDirectives, replaceDirectives)`. */
  function ProcessText(source: string, input: seq<string>, repl: map<string, nat>): string
  {
    ProcessFrom(Split(source, '\n'), input, repl, 0)
  }

  /** `_getDirectiveBlock(lines, start)`: the lines through the first `#endif`, each with its newline. */
  method GetDirectiveBlock(lines: seq<string>, start: nat) returns (block: string, next: nat)
    requires start <= |lines|
    ensures next == BlockEnd(lines, start)
    ensures block == Lines(lines[start..next])
  {
    block := "";
    next := start;
    while next < |lines|
      invariant start <= next <= |lines|
      invariant block == Lines(lines[start..next])
      invariant BlockEnd(lines, next) == BlockEnd(lines, start)
    {
      var line := lines[next];
      LinesAppend(lines[start..next], [line]);
      assert lines[start..next + 1] == lines[start..next] + [line];
      block := block + line + "\n";
      next := next + 1;
      if StartsWith(line, "#endif") {
        break;
      }
    }
  }

  /** `_processDirectiveBlock(block, inputDirectives)`. */
  method ProcessDirectiveBlock(block: string, input: seq<string>) returns (out: string)
    ensures out == BlockOutput(Split(block, '\n'), input, 0)
  {
    out := "";
    var ls := Split(block, '\n');
    ghost var all := BlockOutput(ls, input, 0);
    var i := 0;
    while i < |ls|
      invariant 0 <= i <= |ls| + 1
      invariant out + BlockOutput(ls, input, i) == all
      decreases |ls| + 1 - i
    {
      var line := ls[i];
      if StartsWith(line, "#if") {
        var directive := DirectiveName(line);
        if Enabled(directive, input) {
          ghost var out0, i0 := out, i;
          BlockOutputTake(ls, input, i);
          out, i := CopyToEndif(ls, i + 1, out);
          ConcatAssoc(out0, Lines(ls[i0 + 1..i]), BlockOutput(ls, input, i + 1));
        } else {
          BlockOutputSkip(ls, input, i);
        }
      } else {
        BlockOutputSkip(ls, input, i);
      }
      i := i + 1;
    }
  }

  /** An enabled `#if` line emits the lines up to the next `#endif`, and the scan goes on after it. */
  lemma BlockOutputTake(ls: seq<string>, input: seq<string>, i: nat)
    requires i < |ls| && StartsWith(ls[i], "#if") && Enabled(DirectiveName(ls[i]), input)
    ensures BlockOutput(ls, input, i)
      == Lines(ls[i + 1..FirstEndif(ls, i + 1)]) + BlockOutput(ls, input, FirstEndif(ls, i + 1) + 1)
  {
  }

  /** A line that is not an enabled `#if` emits nothing. */
  lemma BlockOutputSkip(ls: seq<string>, input: seq<string>, i: nat)
    requires i < |ls| && !(StartsWith(ls[i], "#if") && Enabled(DirectiveName(ls[i]), input))
    ensures BlockOutput(ls, input, i) == BlockOutput(ls, input, i + 1)
  {
  }

  /**
   * The inner loop of `_processDirectiveBlock` after an enabled `#if`:
   * copy each line with its newline up to the first `#endif`.
   */
  method CopyToEndif(ls: seq<string>, start: nat, out0: string) returns (out: string, i: nat)
    requires start <= |ls|
    ensures i == FirstEndif(ls, start) && out == out0 + Lines(ls[start..i])
  {
    out, i := out0, start;
    while i < |ls|
      invariant start <= i <= |ls|
      invariant forall k :: start <= k < i ==> !StartsWith(ls[k], "#endif")
      invariant out == out0 + Lines(ls[start..i])
      decreases |ls| - i
    {
      var nextLine := ls[i];
      if StartsWith(nextLine, "#endif") {
        break;
      }
      LinesAppend(ls[start..i], [nextLine]);
      assert ls[start..i + 1] == ls[start..i] + [nextLine];
      out := out + nextLine + "\n";
      i := i + 1;
    }
    FirstEndifIsFirst(ls, start, i);
  }

  lemma {:induction false} FirstEndifIsFirst(ls: seq<string>, j: nat, i: nat)
    requires j <= i <= |ls|
    requires forall k :: j <= k < i ==> !StartsWith(ls[k], "#endif")
    requires i < |ls| ==> StartsWith(ls[i], "#endif")
    ensures FirstEndif(ls, j) == i
    decreases i - j
  {
    if j < i {
      FirstEndifIsFirst(ls, j + 1, i);
    }
  }

  /** A step of `process` at an `#if` line: the block's output, a newline, and the rest after the skipped line. */
  lemma ProcessFromBlock(lines: seq<string>, input: seq<string>, repl: map<string, nat>, i: nat, block: string, next: nat)
    requires i < |lines| && NoSeparator(lines, '\n')
    requires StartsWith(Substitute(lines[i], repl), "#if")
    requires next == BlockEnd(lines, i) && block == Lines(lines[i..next])
    ensures ProcessFrom(lines, input, repl, i)
      == BlockOutput(Split(block, '\n'), input, 0) + "\n" + ProcessFrom(lines, input, repl, next + 1)
  {
    BlockSplit(lines, i, next);
    ProcessFromIf(lines, input, repl, i, next);
  }

  /** The block of lines `i..next`, joined and split again, is those lines and an empty one. */
  lemma BlockSplit(lines: seq<string>, i: nat, next: nat)
    requires i <= next <= |lines| && NoSeparator(lines, '\n')
    ensures Split(Lines(lines[i..next]), '\n') == lines[i..next] + [""]
  {
    NoSeparatorSlice(lines, i, next, '\n');
    SplitLines(lines[i..next]);
  }

  /** `process` at an `#if` line, unfolded once: the block's lines and an empty one, then the rest after the skipped line. */
  lemma ProcessFromIf(lines: seq<string>, input: seq<string>, repl: map<string, nat>, i: nat, next: nat)
    requires i < |lines| && StartsWith(Substitute(lines[i], repl), "#if") && next == BlockEnd(lines, i)
    ensures ProcessFrom(lines, input, repl, i)
      == BlockOutput(lines[i..next] + [""], input, 0) + "\n" + ProcessFrom(lines, input, repl, next + 1)
  {
  }

  /** A step of `process` at any other line: the line after substitution, a newline, and the rest. */
  lemma ProcessFromLine(lines: seq<string>, input: seq<string>, repl: map<string, nat>, i: nat)
    requires i < |lines| && !StartsWith(Substitute(lines[i], repl), "#if")
    ensures ProcessFrom(lines, input, repl, i)
      == Substitute(lines[i], repl) + "\n" + ProcessFrom(lines, input, repl, i + 1)
  {
  }

  /**
   * One pass of `process`'s loop body at line `i`: the text it appends and
   * the index the loop goes on from, before the loop's own increment.
   */
  method ProcessLine(lines: seq<string>, input: seq<string>, repl: map<string, nat>, i: nat)
      returns (piece: string, last: nat)
    requires i < |lines| && NoSeparator(lines, '\n')
    ensures i <= last <= |lines|
    ensures ProcessFrom(lines, input, repl, i) == piece + ProcessFrom(lines, input, repl, last + 1)
  {
    var line := SubstituteLine(lines[i], repl);
    if StartsWith(line, "#if") {
      var block, next := GetDirectiveBlock(lines, i);
      var processed := ProcessDirectiveBlock(block, input);
      ProcessFromBlock(lines, input, repl, i, block, next);
      piece := processed + "\n";
      last := next;
      assert ProcessFrom(lines, input, repl, i) == piece + ProcessFrom(lines, input, repl, next + 1);
    } else {
      ProcessFromLine(lines, input, repl, i);
      piece := line + "\n";
      last := i;
      assert ProcessFrom(lines, input, repl, i) == piece + ProcessFrom(lines, input, repl, i + 1);
    }
  }

  lemma ConcatAssoc(a: string, b: string, c: string)
    ensures a + (b + c) == (a + b) + c
  {
  }

  /** `WGSLPreProcess.process(source, inputDirectives, replaceDirectives)`. */
  method Process(source: string, input: seq<string>, repl: map<string, nat>) returns (out: string)
    ensures out == ProcessText(source, input, repl)
  {
    var lines := Split(source, '\n');
    assert NoSeparator(lines, '\n') by {
      SplitJoin(source, '\n');
    }
    out := ProcessLines(lines, input, repl);
  }

  /** The loop of `process` over the source's lines. */
  method ProcessLines(lines: seq<string>, input: seq<string>, repl: map<string, nat>) returns (out: string)
    requires NoSeparator(lines, '\n')
    ensures out == ProcessFrom(lines, input, repl, 0)
  {
    out := "";
    ghost var all := ProcessFrom(lines, input, repl, 0);
    var i := 0;
    while i < |lines|
      invariant 0 <= i <= |lines| + 1
      invariant out + ProcessFrom(lines, input, repl, i) == all
      decreases |lines| + 1 - i
    {
      var piece, last := ProcessLine(lines, input, repl, i);
      ConcatAssoc(out, piece, ProcessFrom(lines, input, repl, last + 1));
      out := out + piece;
      i := last + 1;
    }
  }

  // ---------------------------------------------------------------------
  // Properties of the transform.

  /** Lines joined by newlines, with a final newline: the same text `Lines` builds. */
  lemma {:induction false} LinesJoin(ls: seq<string>)
    requires |ls| >= 1
    ensures Lines(ls) == Join(ls, '\n') + "\n"
    decreases |ls|
  {
    if |ls| > 1 {
      LinesJoin(ls[1..]);
    } else {
      assert ls[1..] == [];
    }
  }

  /** From line `i` on, a text with no placeholder and no `#if` line is emitted line by line. */
  lemma {:induction false} ProcessFromPlain(lines: seq<string>, input: seq<string>, repl: map<string, nat>, i: nat)
    requires i <= |lines|
    requires forall k :: i <= k < |lines| ==> !Includes(lines[k], "${") && !StartsWith(lines[k], "#if")
    ensures ProcessFrom(lines, input, repl, i) == Lines(lines[i..])
    decreases |lines| - i
  {
    if i < |lines| {
      ProcessFromPlain(lines, input, repl, i + 1);
      assert lines[i..][1..] == lines[i + 1..];
    }
  }

  /**
   * A source with no `${` and no line starting with `#if` comes out
   * unchanged, with one newline added at the end.
   */
  lemma PlainSourceUnchanged(source: string, input: seq<string>, repl: map<string, nat>)
    requires forall k :: 0 <= k < |Split(source, '\n')| ==>
      !Includes(Split(source, '\n')[k], "${") && !StartsWith(Split(source, '\n')[k], "#if")
    ensures ProcessText(source, input, repl) == source + "\n"
  {
    var lines := Split(source, '\n');
    ProcessFromPlain(lines, input, repl, 0);
    assert lines[0..] == lines;
    LinesJoin(lines);
    SplitJoin(source, '\n');
  }

  /** From line `i` on, a block with no `#if` line emits nothing. */
  lemma {:induction false} BlockOutputNoIf(ls: seq<string>, input: seq<string>, i: nat)
    requires i <= |ls| + 1
    requires forall k :: i <= k < |ls| ==> !StartsWith(ls[k], "#if")
    ensures BlockOutput(ls, input, i) == ""
    decreases |ls| + 1 - i
  {
    if i < |ls| {
      BlockOutputNoIf(ls, input, i + 1);
    }
  }

  lemma EndifIsNotIf(line: string)
    requires StartsWith(line, "#endif")
    ensures !StartsWith(line, "#if")
  {
    assert line[..6] == "#endif" == ['#', 'e', 'n', 'd', 'i', 'f'];
    assert line[..6][2] == line[2] == line[..3][2];
    assert "#if" == ['#', 'i', 'f'];
  }

  /**
   * A block of one `#if NAME` line, body lines with no `#if` or `#endif`,
   * and an `#endif` line emits the body iff NAME is an input directive,
   * and nothing otherwise.
   */
  lemma SimpleBlock(header: string, body: seq<string>, footer: string, input: seq<string>)
    requires StartsWith(header, "#if") && StartsWith(footer, "#endif")
    requires forall k :: 0 <= k < |body| ==> !StartsWith(body[k], "#if") && !StartsWith(body[k], "#endif")
    ensures BlockOutput([header] + body + [footer, ""], input, 0)
      == if Enabled(DirectiveName(header), input) then Lines(body) else ""
  {
    var ls := [header] + body + [footer, ""];
    var j := |body| + 1;
    assert ls[j] == footer && ls[j + 1] == "";
    EndifIsNotIf(footer);
    forall k | 1 <= k < |ls|
      ensures !StartsWith(ls[k], "#if")
    {
      if k <= |body| {
        assert ls[k] == body[k - 1];
      }
    }
    if Enabled(DirectiveName(header), input) {
      forall k | 1 <= k < j
        ensures !StartsWith(ls[k], "#endif")
      {
        assert ls[k] == body[k - 1];
      }
      FirstEndifIsFirst(ls, 1, j);
      assert ls[1..j] == body;
      BlockOutputNoIf(ls, input, j + 1);
    } else {
      BlockOutputNoIf(ls, input, 1);
    }
  }

  /** A text with no `$` holds no placeholder. */
  lemma {:induction false} NoDollarNoPlaceholder(s: string)
    requires NoChar(s, '$')
    ensures !Includes(s, "${")
    decreases |s|
  {
    if s != [] {
      assert s[..1][0] == s[0];
      NoDollarNoPlaceholder(s[1..]);
    }
  }

  /** The directive line `#if A` splits into its two words. */
  lemma SplitIfA()
    ensures Split("#if A", ' ') == ["#if", "A"]
  {
    assert Split("A", ' ') == ["A"] by {
      assert "A"[1..] == "";
      assert Split("", ' ') == [""];
      assert ['A'] + "" == "A";
    }
    assert Split(" A", ' ') == ["", "A"] by {
      assert " A"[1..] == "A";
    }
    assert Split("f A", ' ') == ["f", "A"] by {
      assert "f A"[1..] == " A";
      assert ['f'] + "" == "f";
    }
    assert Split("if A", ' ') == ["if", "A"] by {
      assert "if A"[1..] == "f A";
      assert ['i'] + "f" == "if";
    }
    assert "#if A"[1..] == "if A";
    assert ['#'] + "if" == "#if";
  }

  /**
   * The line just after an `#endif` that closes a block is never emitted:
   * the loop's own increment steps over it.
   */
  lemma LineAfterEndifDropped()
    ensures ProcessFrom(["#if A", "x", "#endif", "dropped", "y"], ["A"], map[], 0) == "x\n\ny\n"
  {
    var lines := ["#if A", "x", "#endif", "dropped", "y"];
    NoDollarNoPlaceholder("#if A");
    assert BlockEnd(lines, 0) == 3;
    assert lines[0..3] + [""] == ["#if A"] + ["x"] + ["#endif", ""];
    SimpleBlock("#if A", ["x"], "#endif", ["A"]);
    SplitIfA();
    NoDollarNoPlaceholder("y");
  }
}
